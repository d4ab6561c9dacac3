/**
 The outbox under any interleaving of original callers, reconciler passes and deliveries.

 A submission is three steps: claim the row, defer the job through the queue's own connection,
 commit. The row stays locked from the claim to the end of the transaction.
 */
module OutboxRuns {
  import opened Common
  import opened LifecycleOutbox

  datatype Caller =
    | Calling(row: nat, event: Event)
    | Claimed(row: nat, event: Event)
    | Deferred(row: nat, event: Event, job: nat)
    | Returned(answer: Option<nat>)

  // `originals` and `abandoned` are facts about the past: the event each row was written with, and
  // how many jobs were deferred for it by a transaction that did not commit.
  datatype State = State(
    rows: map<nat, Row>,
    jobs: seq<Job>,
    callers: map<nat, Caller>,
    originals: map<nat, Event>,
    abandoned: map<nat, nat>
  )

  datatype Answer = Confirmed | Lost | Failed

  datatype Action =
    | Write(row: nat, event: Event)
    | CallOriginal(id: nat, row: nat)
    | CallReconciler(id: nat, row: nat)
    | Claim(id: nat)
    | Defer(id: nat, answer: Answer)
    | Commit(id: nat, answer: Answer)
    | Crash(id: nat)
    | Deliver(job: nat)

  predicate Enabled(s: State, act: Action) {
    match act
    case Write(row, _) => row !in s.rows
    case CallOriginal(id, row) => id !in s.callers && row in s.originals
    case CallReconciler(id, row) => id !in s.callers && Eligible(s.rows, row)
    case Claim(id) => id in s.callers && s.callers[id].Calling?
    case Defer(id, _) => id in s.callers && s.callers[id].Claimed?
    case Commit(id, _) => id in s.callers && s.callers[id].Deferred?
    case Crash(id) => id in s.callers
    // the update of a delivery waits for the row lock
    case Deliver(j) => j < |s.jobs| && s.jobs[j].row in s.rows && s.rows[s.jobs[j].row].holder == None
  }

  function Put(s: State, id: nat, c: Caller): State {
    s.(callers := s.callers[id := c])
  }

  function SetRow(s: State, row: nat, r: Row): State {
    s.(rows := s.rows[row := r])
  }

  function Abandoned(s: State, row: nat): nat {
    if row in s.abandoned then s.abandoned[row] else 0
  }

  // The transaction of `id` ends and its lock goes; `queued` says whether it committed.
  function Ended(s: State, id: nat, row: nat, queued: bool, answer: Option<nat>): State {
    var s' := if row in s.rows
              then SetRow(s, row, s.rows[row].(holder := None, queued := queued || s.rows[row].queued)) else s;
    Put(s', id, Returned(answer))
  }

  function Abandon(s: State, row: nat): State {
    s.(abandoned := s.abandoned[row := Abandoned(s, row) + 1])
  }

  function Rolled(s: State, id: nat): State
    requires id in s.callers
  {
    var c := s.callers[id];
    if c.Claimed? then Ended(s, id, c.row, false, None)
    else if c.Deferred? then Abandon(Ended(s, id, c.row, false, None), c.row)
    else Put(s, id, Returned(None))
  }

  function Claiming(s: State, id: nat, row: nat, event: Event): State {
    if Claimable(s.rows, row) then
      Put(SetRow(s, row, s.rows[row].(holder := Some(id))), id, Claimed(row, event))
    else Put(s, id, Returned(None))
  }

  // A deferral that fails without a job, that leaves a job but loses its answer, or that works.
  function Deferral(s: State, id: nat, row: nat, event: Event, answer: Answer): State {
    var s' := s.(jobs := s.jobs + [Job(row, event)]);
    match answer
    case Failed => Ended(s, id, row, false, None)
    case Lost => Abandon(Ended(s', id, row, false, None), row)
    case Confirmed => Put(s', id, Deferred(row, event, |s.jobs|))
  }

  function Commitment(s: State, id: nat, row: nat, job: nat, answer: Answer): State {
    match answer
    case Failed => Abandon(Ended(s, id, row, false, None), row)
    case Lost => Ended(s, id, row, true, None)
    case Confirmed => Ended(s, id, row, true, Some(job))
  }

  function Apply(s: State, act: Action): State
    requires Enabled(s, act)
  {
    match act
    case Write(row, event) =>
      SetRow(s, row, Row(event, false, false, None)).(originals := s.originals[row := event])
    case CallOriginal(id, row) => Put(s, id, Calling(row, s.originals[row]))
    case CallReconciler(id, row) => Put(s, id, Calling(row, s.rows[row].event))
    case Claim(id) => Claiming(s, id, s.callers[id].row, s.callers[id].event)
    case Defer(id, answer) => Deferral(s, id, s.callers[id].row, s.callers[id].event, answer)
    case Commit(id, answer) => Commitment(s, id, s.callers[id].row, s.callers[id].job, answer)
    case Crash(id) => Rolled(s, id)
    case Deliver(j) => SetRow(s, s.jobs[j].row, Delivered(s.rows[s.jobs[j].row]))
  }

  predicate Initial(s: State) {
    s == State(map[], [], map[], map[], map[])
  }

  datatype Run = Run(states: seq<State>, actions: seq<Action>)

  predicate IsRun(run: Run) {
    && |run.states| == |run.actions| + 1
    && Initial(run.states[0])
    && (forall i :: 0 <= i < |run.actions| ==>
          Enabled(run.states[i], run.actions[i]) && run.states[i + 1] == Apply(run.states[i], run.actions[i]))
  }

  // ---------------------------------------------------------------- invariants

  function JobsFor(jobs: seq<Job>, row: nat): nat {
    if jobs == [] then 0
    else JobsFor(jobs[..|jobs| - 1], row) + (if jobs[|jobs| - 1].row == row then 1 else 0)
  }

  predicate Holds(c: Caller, row: nat) {
    (c.Claimed? || c.Deferred?) && c.row == row
  }

  predicate InTransaction(c: Caller) {
    c.Claimed? || c.Deferred?
  }

  // Locks and lock holders agree, and a locked row is not queued.
  ghost predicate LocksOk(rows: map<nat, Row>, callers: map<nat, Caller>) {
    && (forall id :: id in callers && InTransaction(callers[id]) ==>
          callers[id].row in rows && rows[callers[id].row].holder == Some(id))
    && (forall r :: r in rows && rows[r].holder.Some? ==>
          rows[r].holder.value in callers && Holds(callers[rows[r].holder.value], r) && !rows[r].queued)
  }

  // Every event on its way to a job is the one its row was written with.
  ghost predicate RowsMatch(rows: map<nat, Row>, originals: map<nat, Event>) {
    && rows.Keys == originals.Keys
    && (forall r :: r in rows ==>
          rows[r].event == if rows[r].delivered then Redact(originals[r]) else originals[r])
  }

  ghost predicate CallersMatch(callers: map<nat, Caller>, originals: map<nat, Event>) {
    forall id :: id in callers && !callers[id].Returned? ==>
      callers[id].row in originals && callers[id].event == originals[callers[id].row]
  }

  ghost predicate JobsMatch(jobs: seq<Job>, originals: map<nat, Event>) {
    forall j :: 0 <= j < |jobs| ==> jobs[j].row in originals && jobs[j].event == originals[jobs[j].row]
  }

  ghost predicate DeliveredHadJob(rows: map<nat, Row>, jobs: seq<Job>) {
    forall r :: r in rows && rows[r].delivered ==> JobsFor(jobs, r) > 0
  }

  // Jobs deferred by the transaction that holds the row now.
  function InFlight(s: State, row: nat): nat {
    if row in s.rows && s.rows[row].holder.Some? && s.rows[row].holder.value in s.callers
       && s.callers[s.rows[row].holder.value].Deferred? then 1 else 0
  }

  function Committed(s: State, row: nat): nat {
    if row in s.rows && s.rows[row].queued then 1 else 0
  }

  ghost predicate CountsOk(s: State) {
    forall r :: r in s.rows ==> JobsFor(s.jobs, r) == Committed(s, r) + Abandoned(s, r) + InFlight(s, r)
  }

  ghost predicate Fresh(s: State) {
    forall r :: r !in s.rows ==> JobsFor(s.jobs, r) == 0 && Abandoned(s, r) == 0
  }

  ghost predicate Inv(s: State) {
    && LocksOk(s.rows, s.callers) && RowsMatch(s.rows, s.originals) && CallersMatch(s.callers, s.originals)
    && JobsMatch(s.jobs, s.originals) && DeliveredHadJob(s.rows, s.jobs) && CountsOk(s) && Fresh(s)
  }

  // ---------------------------------------------------------------- jobs

  lemma {:induction false} JobCounted(jobs: seq<Job>, j: nat)
    requires j < |jobs|
    ensures JobsFor(jobs, jobs[j].row) > 0
    decreases |jobs|
  {
    if j < |jobs| - 1 {
      JobCounted(jobs[..|jobs| - 1], j);
    }
  }

  lemma {:induction false} JobAdded(jobs: seq<Job>, job: Job, row: nat)
    ensures JobsFor(jobs + [job], row) == JobsFor(jobs, row) + (if job.row == row then 1 else 0)
  {
    assert (jobs + [job])[..|jobs|] == jobs;
  }

  // The row and caller an action works on.
  function Target(s: State, act: Action): nat
    requires Enabled(s, act)
  {
    match act
    case Write(row, _) => row
    case CallOriginal(_, row) => row
    case CallReconciler(_, row) => row
    case Deliver(j) => s.jobs[j].row
    case Claim(id) => s.callers[id].row
    case Defer(id, _) => s.callers[id].row
    case Commit(id, _) => s.callers[id].row
    case Crash(id) => if s.callers[id].Returned? then 0 else s.callers[id].row
  }

  // ---------------------------------------------------------------- locks

  lemma LockTaken(rows: map<nat, Row>, callers: map<nat, Caller>, id: nat, row: nat, event: Event)
    requires LocksOk(rows, callers) && Claimable(rows, row) && id in callers && !InTransaction(callers[id])
    ensures LocksOk(rows[row := rows[row].(holder := Some(id))], callers[id := Claimed(row, event)])
  {
  }

  lemma LockDropped(rows: map<nat, Row>, callers: map<nat, Caller>, id: nat, queued: bool, c: Caller)
    requires LocksOk(rows, callers) && id in callers && InTransaction(callers[id]) && !InTransaction(c)
    ensures callers[id].row in rows
    ensures var row := callers[id].row;
      LocksOk(rows[row := rows[row].(holder := None, queued := queued || rows[row].queued)], callers[id := c])
  {
  }

  lemma LockKept(rows: map<nat, Row>, callers: map<nat, Caller>, id: nat, c: Caller)
    requires LocksOk(rows, callers)
    requires if id in callers && InTransaction(callers[id]) then InTransaction(c) && c.row == callers[id].row
             else !InTransaction(c)
    ensures LocksOk(rows, callers[id := c])
  {
  }

  lemma LocksIgnoreEvents(rows: map<nat, Row>, callers: map<nat, Caller>, r: nat, row: Row)
    requires LocksOk(rows, callers)
    requires row.holder == None && (r in rows ==> rows[r].holder == None)
    ensures LocksOk(rows[r := row], callers)
  {
  }

  lemma LocksStay(s: State, act: Action)
    requires LocksOk(s.rows, s.callers) && Enabled(s, act)
    ensures var s' := Apply(s, act); LocksOk(s'.rows, s'.callers)
  {
    hide LocksOk;
    var s' := Apply(s, act);
    if act.Write? || act.Deliver? {
      LocksIgnoreEvents(s.rows, s.callers, Target(s, act), s'.rows[Target(s, act)]);
    } else if act.Claim? && Claimable(s.rows, s.callers[act.id].row) {
      LockTaken(s.rows, s.callers, act.id, s.callers[act.id].row, s.callers[act.id].event);
    } else if act.id in s.callers && InTransaction(s.callers[act.id]) && !InTransaction(s'.callers[act.id]) {
      LockDropped(s.rows, s.callers, act.id, act.Commit? && !act.answer.Failed?, s'.callers[act.id]);
    } else {
      LockKept(s.rows, s.callers, act.id, s'.callers[act.id]);
    }
  }

  // The transaction that acts holds its row, which is not queued.
  lemma HoldsItsRow(s: State, id: nat)
    requires LocksOk(s.rows, s.callers) && id in s.callers && InTransaction(s.callers[id])
    ensures s.callers[id].row in s.rows
    ensures s.rows[s.callers[id].row].holder == Some(id) && !s.rows[s.callers[id].row].queued
  {
  }

  // ---------------------------------------------------------------- events

  lemma RowsStayMatched(s: State, act: Action)
    requires RowsMatch(s.rows, s.originals) && Enabled(s, act)
    ensures var s' := Apply(s, act); RowsMatch(s'.rows, s'.originals)
  {
    var s' := Apply(s, act);
    var t := Target(s, act);
    if act.Write? || act.Deliver? {
      assert forall r :: r in s'.rows && r != t ==> r in s.rows && s'.rows[r] == s.rows[r];
    } else {
      OnlyLocks(s, act);
      assert s'.rows.Keys == s.rows.Keys;
    }
  }

  // Same rows and events; only locks and queue marks may differ.
  ghost predicate OnlyLocksDiffer(s: State, s': State) {
    && s'.originals == s.originals
    && (forall r :: r in s.rows <==> r in s'.rows)
    && (forall r :: r in s.rows ==>
          s'.rows[r].event == s.rows[r].event && s'.rows[r].delivered == s.rows[r].delivered)
  }

  lemma EndedOnlyLocks(s: State, id: nat, row: nat, queued: bool, answer: Option<nat>)
    ensures OnlyLocksDiffer(s, Ended(s, id, row, queued, answer))
  {
  }

  lemma OnlyLocks(s: State, act: Action)
    requires Enabled(s, act) && !act.Write? && !act.Deliver?
    ensures OnlyLocksDiffer(s, Apply(s, act))
  {
    if act.Defer? || act.Commit? || act.Crash? {
      EndsOnlyLocks(s, act);
    }
  }

  lemma EndsOnlyLocks(s: State, act: Action)
    requires Enabled(s, act) && (act.Defer? || act.Commit? || act.Crash?)
    ensures OnlyLocksDiffer(s, Apply(s, act))
  {
    hide Ended;
    var r := Target(s, act);
    if act.Defer? {
      EndedOnlyLocks(s, act.id, r, false, None);
      EndedOnlyLocks(s.(jobs := s.jobs + [Job(r, s.callers[act.id].event)]), act.id, r, false, None);
    } else if act.Commit? {
      EndedOnlyLocks(s, act.id, r, !act.answer.Failed?,
            if act.answer.Confirmed? then Some(s.callers[act.id].job) else None);
    } else {
      EndedOnlyLocks(s, act.id, r, false, None);
    }
  }

  lemma CallerMatched(callers: map<nat, Caller>, originals: map<nat, Event>, id: nat, c: Caller)
    requires CallersMatch(callers, originals)
    requires !c.Returned? ==> c.row in originals && c.event == originals[c.row]
    ensures CallersMatch(callers[id := c], originals)
  {
  }

  lemma CallersStayMatched(s: State, act: Action)
    requires RowsMatch(s.rows, s.originals) && CallersMatch(s.callers, s.originals) && Enabled(s, act)
    ensures var s' := Apply(s, act); CallersMatch(s'.callers, s'.originals)
  {
    var s' := Apply(s, act);
    if act.Write? || act.Deliver? {
      assert s'.callers == s.callers;
    } else {
      CallersChange(s, act);
      OnlyLocks(s, act);
      CallerMatched(s.callers, s.originals, act.id, s'.callers[act.id]);
    }
  }

  lemma JobsStayMatched(s: State, act: Action)
    requires RowsMatch(s.rows, s.originals) && CallersMatch(s.callers, s.originals) && JobsMatch(s.jobs, s.originals)
    requires Enabled(s, act)
    ensures var s' := Apply(s, act); JobsMatch(s'.jobs, s'.originals)
  {
    var s' := Apply(s, act);
    if act.Defer? && !act.answer.Failed? {
      assert s'.jobs == s.jobs + [Job(s.callers[act.id].row, s.callers[act.id].event)];
    } else {
      assert s'.jobs == s.jobs;
    }
  }

  lemma DeliveredStays(s: State, act: Action)
    requires DeliveredHadJob(s.rows, s.jobs) && Enabled(s, act)
    ensures var s' := Apply(s, act); DeliveredHadJob(s'.rows, s'.jobs)
  {
    var s' := Apply(s, act);
    if act.Write? {
      assert s'.jobs == s.jobs;
    } else if act.Deliver? {
      JobCounted(s.jobs, act.job);
    } else {
      OnlyLocks(s, act);
      forall r | r in s'.rows && s'.rows[r].delivered ensures JobsFor(s'.jobs, r) > 0 {
        JobsGrow(s, act, r);
      }
    }
  }

  lemma {:induction false} JobsGrow(s: State, act: Action, r: nat)
    requires Enabled(s, act)
    ensures JobsFor(s.jobs, r) <= JobsFor(Apply(s, act).jobs, r)
    ensures act.Defer? && !act.answer.Failed? ==>
      JobsFor(Apply(s, act).jobs, r) == JobsFor(s.jobs, r) + (if r == s.callers[act.id].row then 1 else 0)
    ensures !(act.Defer? && !act.answer.Failed?) ==> Apply(s, act).jobs == s.jobs
  {
    if act.Defer? {
      JobAdded(s.jobs, Job(s.callers[act.id].row, s.callers[act.id].event), r);
    }
  }

  // ---------------------------------------------------------------- counts

  ghost predicate TermsKept(s: State, s': State, r: nat) {
    && r in s'.rows && Committed(s', r) == Committed(s, r) && Abandoned(s', r) == Abandoned(s, r)
    && InFlight(s', r) == InFlight(s, r)
  }

  // A row keeps its terms when it, its holder and its lost transactions do not change.
  lemma OtherRowKept(s: State, s': State, id: nat, r: nat)
    requires LocksOk(s.rows, s.callers) && r in s.rows && r in s'.rows && s'.rows[r] == s.rows[r]
    requires s'.callers == s.callers ||
      (id in s'.callers && s'.callers == s.callers[id := s'.callers[id]] &&
       (id in s.callers ==> !Holds(s.callers[id], r)))
    requires Abandoned(s', r) == Abandoned(s, r)
    ensures TermsKept(s, s', r)
  {
  }

  // Every end of a transaction leaves the other rows alone.
  lemma EndedOtherRow(s: State, id: nat, row: nat, queued: bool, answer: Option<nat>, r: nat)
    requires r != row && r in s.rows
    ensures var s' := Ended(s, id, row, queued, answer);
      r in s'.rows && s'.rows[r] == s.rows[r] && s'.abandoned == s.abandoned
  {
  }

  lemma OtherRow(s: State, act: Action, r: nat)
    requires Enabled(s, act) && r != Target(s, act) && r in s.rows
    ensures var s' := Apply(s, act);
      && r in s'.rows && s'.rows[r] == s.rows[r] && Abandoned(s', r) == Abandoned(s, r)
  {
    hide Ended;
    var t := Target(s, act);
    if act.Defer? {
      EndedOtherRow(s, act.id, t, false, None, r);
      EndedOtherRow(s.(jobs := s.jobs + [Job(t, s.callers[act.id].event)]), act.id, t, false, None, r);
    } else if act.Commit? {
      EndedOtherRow(s, act.id, t, !act.answer.Failed?,
                    if act.answer.Confirmed? then Some(s.callers[act.id].job) else None, r);
    } else if act.Crash? {
      EndedOtherRow(s, act.id, t, false, None, r);
    }
  }

  lemma CallersChange(s: State, act: Action)
    requires Enabled(s, act)
    ensures var s' := Apply(s, act);
      if act.Write? || act.Deliver? then s'.callers == s.callers
      else act.id in s'.callers && s'.callers == s.callers[act.id := s'.callers[act.id]]
  {
  }

  lemma NonTargetCounted(s: State, act: Action, r: nat)
    requires LocksOk(s.rows, s.callers) && Enabled(s, act) && r != Target(s, act) && r in s.rows
    ensures TermsKept(s, Apply(s, act), r)
  {
    hide LocksOk;
    OtherRow(s, act, r);
    CallersChange(s, act);
    if act.Write? || act.Deliver? {
      OtherRowKept(s, Apply(s, act), 0, r);
    } else {
      OtherRowKept(s, Apply(s, act), act.id, r);
    }
  }

  lemma ClaimCounted(s: State, act: Action)
    requires LocksOk(s.rows, s.callers) && CountsOk(s) && Enabled(s, act) && act.Claim?
    ensures var r := s.callers[act.id].row; r in s.rows ==> TermsKept(s, Apply(s, act), r)
  {
  }

  lemma DeferCounted(s: State, act: Action)
    requires LocksOk(s.rows, s.callers) && Enabled(s, act) && act.Defer?
    ensures var r := s.callers[act.id].row; var s' := Apply(s, act);
      && r in s.rows && r in s'.rows
      && Committed(s', r) + Abandoned(s', r) + InFlight(s', r)
         == Committed(s, r) + Abandoned(s, r) + InFlight(s, r) + (if act.answer.Failed? then 0 else 1)
  {
    HoldsItsRow(s, act.id);
    hide LocksOk;
  }

  lemma CommitCounted(s: State, act: Action)
    requires LocksOk(s.rows, s.callers) && Enabled(s, act) && act.Commit?
    ensures var r := s.callers[act.id].row; var s' := Apply(s, act);
      && r in s.rows && r in s'.rows
      && Committed(s', r) + Abandoned(s', r) + InFlight(s', r) == Committed(s, r) + Abandoned(s, r) + InFlight(s, r)
  {
    HoldsItsRow(s, act.id);
    hide LocksOk;
  }

  lemma CrashCounted(s: State, act: Action)
    requires LocksOk(s.rows, s.callers) && Enabled(s, act) && act.Crash? && InTransaction(s.callers[act.id])
    ensures var r := s.callers[act.id].row; var s' := Apply(s, act);
      && r in s.rows && r in s'.rows
      && Committed(s', r) + Abandoned(s', r) + InFlight(s', r) == Committed(s, r) + Abandoned(s, r) + InFlight(s, r)
  {
    HoldsItsRow(s, act.id);
    hide LocksOk;
  }

  lemma CalmCounted(s: State, act: Action)
    requires LocksOk(s.rows, s.callers) && Fresh(s) && Enabled(s, act) && Target(s, act) in Apply(s, act).rows
    requires !act.Claim? && !act.Defer? && !act.Commit? && !(act.Crash? && InTransaction(s.callers[act.id]))
    ensures var r := Target(s, act); var s' := Apply(s, act);
      if r in s.rows then TermsKept(s, s', r)
      else Committed(s', r) == Abandoned(s', r) == InFlight(s', r) == 0
  {
  }

  lemma TargetCounted(s: State, act: Action)
    requires LocksOk(s.rows, s.callers) && CountsOk(s) && Fresh(s) && Enabled(s, act)
    requires Target(s, act) in Apply(s, act).rows
    ensures var s' := Apply(s, act); var r := Target(s, act);
      JobsFor(s'.jobs, r) == Committed(s', r) + Abandoned(s', r) + InFlight(s', r)
  {
    hide LocksOk, Committed, Abandoned, InFlight;
    JobsGrow(s, act, Target(s, act));
    if act.Claim? {
      ClaimCounted(s, act);
    } else if act.Defer? {
      DeferCounted(s, act);
    } else if act.Commit? {
      CommitCounted(s, act);
    } else if act.Crash? && InTransaction(s.callers[act.id]) {
      CrashCounted(s, act);
    } else {
      CalmCounted(s, act);
    }
  }

  lemma CountsStay(s: State, act: Action)
    requires LocksOk(s.rows, s.callers) && CountsOk(s) && Fresh(s) && Enabled(s, act)
    ensures CountsOk(Apply(s, act))
  {
    hide LocksOk, Fresh, Committed, InFlight, Abandoned, Apply;
    var s' := Apply(s, act);
    forall r | r in s'.rows
      ensures JobsFor(s'.jobs, r) == Committed(s', r) + Abandoned(s', r) + InFlight(s', r)
    {
      if r == Target(s, act) {
        TargetCounted(s, act);
      } else {
        NoOtherNewRow(s, act, r);
        NonTargetCounted(s, act, r);
        JobsGrow(s, act, r);
      }
    }
  }

  lemma NoOtherNewRow(s: State, act: Action, r: nat)
    requires Enabled(s, act) && r != Target(s, act) && r in Apply(s, act).rows
    ensures r in s.rows && (act.Defer? ==> s.callers[act.id].row != r)
  {
  }

  lemma FreshStays(s: State, act: Action)
    requires RowsMatch(s.rows, s.originals) && CallersMatch(s.callers, s.originals) && Fresh(s) && Enabled(s, act)
    ensures Fresh(Apply(s, act))
  {
    forall r | r !in Apply(s, act).rows
      ensures JobsFor(Apply(s, act).jobs, r) == 0 && Abandoned(Apply(s, act), r) == 0
    {
      JobsGrow(s, act, r);
    }
  }

  lemma InvStays(s: State, act: Action)
    requires Inv(s) && Enabled(s, act)
    ensures Inv(Apply(s, act))
  {
    hide LocksOk, RowsMatch, CallersMatch, JobsMatch, DeliveredHadJob, CountsOk, Fresh, Apply, Enabled;
    LocksStay(s, act);
    RowsStayMatched(s, act);
    CallersStayMatched(s, act);
    JobsStayMatched(s, act);
    DeliveredStays(s, act);
    CountsStay(s, act);
    FreshStays(s, act);
  }

  lemma {:induction false} Reached(run: Run, i: nat)
    requires IsRun(run) && i < |run.states|
    ensures Inv(run.states[i])
  {
    hide Apply, Enabled;
    if i > 0 {
      hide Inv;
      Reached(run, i - 1);
      InvStays(run.states[i - 1], run.actions[i - 1]);
    }
  }

  // ---------------------------------------------------------------- theorems

  /** The jobs deferred for a row are exactly: one if the row is marked queued, one for each
      transaction that deferred and then did not commit, one if a transaction is between the two. */
  lemma {:induction false} JobsAccountedFor(run: Run, i: nat, row: nat)
    requires IsRun(run) && i < |run.states| && row in run.states[i].rows
    ensures var s := run.states[i];
      JobsFor(s.jobs, row) == Committed(s, row) + Abandoned(s, row) + InFlight(s, row)
  {
    Reached(run, i);
  }

  /** A row marked queued has a job; exactly one if and only if no deferring transaction was lost. */
  lemma {:induction false} QueuedExactlyOnceIff(run: Run, i: nat, row: nat)
    requires IsRun(run) && i < |run.states| && row in run.states[i].rows && run.states[i].rows[row].queued
    ensures JobsFor(run.states[i].jobs, row) > 0
    ensures JobsFor(run.states[i].jobs, row) == 1 <==> Abandoned(run.states[i], row) == 0
  {
    Reached(run, i);
  }

  /** No transition is lost: a row no job was ever deferred for is still selected by the reconciler. */
  lemma {:induction false} UnqueuedStaysEligible(run: Run, i: nat, row: nat)
    requires IsRun(run) && i < |run.states| && row in run.states[i].rows
    requires JobsFor(run.states[i].jobs, row) == 0
    ensures Eligible(run.states[i].rows, row)
  {
    Reached(run, i);
  }

  /** Every deferred job carries the event its row was written with, never the redacted one,
      even when the row was delivered and redacted before the job was deferred. */
  lemma JobsCarryTheOriginal(run: Run, i: nat, j: nat)
    requires IsRun(run) && i < |run.states| && j < |run.states[i].jobs|
    ensures var s := run.states[i];
      s.jobs[j].row in s.originals && s.jobs[j].event == s.originals[s.jobs[j].row]
  {
    Reached(run, i);
  }

  /** At most one transaction holds a row, and it holds it unqueued. */
  lemma OneClaimAtATime(run: Run, i: nat, c: nat, d: nat)
    requires IsRun(run) && i < |run.states| && c in run.states[i].callers && d in run.states[i].callers
    requires var a, b := run.states[i].callers[c], run.states[i].callers[d];
      (a.Claimed? || a.Deferred?) && (b.Claimed? || b.Deferred?) && a.row == b.row
    ensures c == d && run.states[i].callers[c].row in run.states[i].rows
    ensures !run.states[i].rows[run.states[i].callers[c].row].queued
  {
    Reached(run, i);
  }

  /** A claim succeeds exactly on a row that is there, unqueued and free, and then holds it; on any
      other it answers that nothing was queued, and changes nothing. */
  lemma ClaimAnswers(run: Run, i: nat, id: nat)
    requires IsRun(run) && i < |run.actions| && run.actions[i] == Claim(id)
    ensures id in run.states[i].callers && run.states[i].callers[id].Calling? && id in run.states[i + 1].callers
    ensures var s, s' := run.states[i], run.states[i + 1]; var row, event := s.callers[id].row, s.callers[id].event;
      if row in s.rows && !s.rows[row].queued && s.rows[row].holder == None then
        s'.callers[id] == Claimed(row, event) && s'.rows == s.rows[row := s.rows[row].(holder := Some(id))]
      else
        s'.callers[id] == Returned(None) && s'.rows == s.rows
  {
    assert Enabled(run.states[i], run.actions[i]);
  }

  /** However a transaction ends, by its commit, a failed deferral or a crash at any point, the
      caller is done and its row is free again; the row is queued then exactly if a commit went
      through, and the caller has a job to show exactly if it was told so. */
  lemma EndFreesRow(run: Run, i: nat, id: nat)
    requires IsRun(run) && i < |run.actions| && id in run.states[i].callers
    requires var act := run.actions[i];
      act == Crash(id) || (act.Commit? && act.id == id) || (act.Defer? && act.id == id && act.answer != Confirmed)
    ensures id in run.states[i + 1].callers && run.states[i + 1].callers[id].Returned?
    ensures var s, s', act := run.states[i], run.states[i + 1], run.actions[i];
      && (s'.callers[id].answer.Some? <==> act.Commit? && act.answer == Confirmed)
      && (s.callers[id].Claimed? || s.callers[id].Deferred? ==>
            var row := s.callers[id].row;
            && row in s'.rows && s'.rows[row].holder == None
            && (s'.rows[row].queued <==> act.Commit? && act.answer != Failed))
  {
    Reached(run, i);
    assert Enabled(run.states[i], run.actions[i]);
    assert LocksOk(run.states[i].rows, run.states[i].callers);
    hide Inv, LocksOk;
    if InTransaction(run.states[i].callers[id]) {
      HoldsItsRow(run.states[i], id);
    }
  }

  // ---------------------------------------------------------------- a job too many

  function Last(run: Run): State
    requires |run.states| > 0
  {
    run.states[|run.states| - 1]
  }

  lemma Extend(run: Run, act: Action) returns (r: Run)
    requires IsRun(run) && Enabled(Last(run), act)
    ensures IsRun(r) && Last(r) == Apply(Last(run), act)
  {
    hide Initial, Enabled, Apply;
    r := Run(run.states + [Apply(Last(run), act)], run.actions + [act]);
  }

  // The original caller defers a job and then fails to commit.
  lemma LostCommit(event: Event) returns (run: Run)
    ensures IsRun(run)
    ensures var s := Last(run);
      && s.rows == map[0 := Row(event, false, false, None)] && s.jobs == [Job(0, event)]
      && s.callers.Keys == {0} && s.originals == map[0 := event]
  {
    run := Run([State(map[], [], map[], map[], map[])], []);
    run := Extend(run, Write(0, event));
    run := Extend(run, CallOriginal(0, 0));
    run := Extend(run, Claim(0));
    run := Extend(run, Defer(0, Confirmed));
    run := Extend(run, Commit(0, Failed));
  }

  /** A lost commit makes the reconciler defer a second job, even for a row that was delivered
      in between; that job still names the account. */
  lemma LostCommitRepeats(event: Event) returns (run: Run)
    ensures IsRun(run)
    ensures var s := Last(run);
      && 0 in s.rows && s.rows[0].queued && s.rows[0].delivered && s.rows[0].event == Redact(event)
      && s.jobs == [Job(0, event), Job(0, event)]
  {
    run := LostCommit(event);
    hide IsRun;
    run := Extend(run, CallReconciler(1, 0));
    run := Extend(run, Deliver(0));
    run := Extend(run, Claim(1));
    run := Extend(run, Defer(1, Confirmed));
    run := Extend(run, Commit(1, Confirmed));
  }
}

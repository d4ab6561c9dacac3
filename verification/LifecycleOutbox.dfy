/**
 The account-lifecycle outbox: a row is committed with the account change, one caller claims it
 and defers a worker job, and a periodic reconciler picks up the rows no one has queued.
 */
module LifecycleOutbox {
  import opened Common

  datatype EventType = SoftDeleted | Reactivated | Purged

  datatype Event = Event(kind: EventType, user: Option<int>, email: string, actor: string, source: string, at: int)

  // A row of the outbox. `holder` is the transaction that has it locked.
  datatype Row = Row(event: Event, queued: bool, delivered: bool, holder: Option<nat>)

  // A deferred worker job.
  datatype Job = Job(row: nat, event: Event)

  const REDACTED := "redacted"

  // Delivery keeps the transition and drops what identifies people.
  function Redact(e: Event): Event {
    e.(user := None, email := "", actor := REDACTED)
  }

  // What the reconciler selects.
  predicate Eligible(rows: map<nat, Row>, id: nat) {
    id in rows && !rows[id].queued && !rows[id].delivered
  }

  // Whether SELECT ... FOR UPDATE SKIP LOCKED returns the row.
  predicate Claimable(rows: map<nat, Row>, id: nat) {
    id in rows && !rows[id].queued && rows[id].holder == None
  }

  function Delivered(row: Row): Row {
    if row.delivered then row else row.(delivered := true, event := Redact(row.event))
  }

  // ---------------------------------------------------------------- one caller, start to end

  // How a submission meets the queue and the database.
  datatype Trial = Fine | DeferFails | DeferAnswerLost | CommitFails | CommitAnswerLost

  predicate Defers(t: Trial) { !t.DeferFails? }

  predicate Commits(t: Trial) { t.Fine? || t.CommitAnswerLost? }

  datatype Outbox = Outbox(rows: map<nat, Row>, jobs: seq<Job>)

  // queue_account_lifecycle_event with an outbox id, run without interference.
  function Queued(o: Outbox, e: Event, id: nat, t: Trial): Outbox {
    if !Claimable(o.rows, id) then o
    else Outbox(
      if Commits(t) then o.rows[id := o.rows[id].(queued := true)] else o.rows,
      if Defers(t) then o.jobs + [Job(id, e)] else o.jobs)
  }

  // One reconciler pass over the rows it selected.
  function Dispatched(o: Outbox, pending: seq<(nat, Event)>, trials: seq<Trial>): Outbox
    requires |trials| == |pending|
  {
    if pending == [] then o
    else
      var n := |pending| - 1;
      Queued(Dispatched(o, pending[..n], trials[..n]), pending[n].1, pending[n].0, trials[n])
  }

  // How many submissions of the pass answer with a job id.
  function Answers(rows: map<nat, Row>, pending: seq<(nat, Event)>, trials: seq<Trial>): nat
    requires |trials| == |pending|
  {
    if pending == [] then 0
    else
      var n := |pending| - 1;
      Answers(rows, pending[..n], trials[..n]) + (if Claimable(rows, pending[n].0) && trials[n].Fine? then 1 else 0)
  }

  const BATCH: nat := 100

  // The answer of the reconciler's SELECT: the first hundred eligible rows by id.
  ghost predicate Selected(rows: map<nat, Row>, pending: seq<(nat, Event)>) {
    && |pending| <= BATCH
    && (forall i, j :: 0 <= i < j < |pending| ==> pending[i].0 < pending[j].0)
    && (forall i :: 0 <= i < |pending| ==> Eligible(rows, pending[i].0) && pending[i].1 == rows[pending[i].0].event)
    && (forall id :: Eligible(rows, id) ==>
          (exists i :: 0 <= i < |pending| && pending[i].0 == id) ||
          (|pending| == BATCH && forall i :: 0 <= i < |pending| ==> pending[i].0 < id))
  }

  predicate Distinct(pending: seq<(nat, Event)>) {
    forall i, j :: 0 <= i < j < |pending| ==> pending[i].0 != pending[j].0
  }

  /** What a pass does to each row: a selected row that is free is marked queued exactly when its
      own commit goes through; no other row changes. */
  lemma {:induction false} DispatchedRow(o: Outbox, pending: seq<(nat, Event)>, trials: seq<Trial>, id: nat)
    requires |trials| == |pending| && Distinct(pending) && id in o.rows
    ensures var o' := Dispatched(o, pending, trials);
      && o'.rows.Keys == o.rows.Keys
      && (forall k :: 0 <= k < |pending| && pending[k].0 == id ==>
            o'.rows[id] == (if !o.rows[id].queued && o.rows[id].holder == None
                               && (trials[k] == Fine || trials[k] == CommitAnswerLost)
                            then o.rows[id].(queued := true) else o.rows[id]))
      && ((forall k :: 0 <= k < |pending| ==> pending[k].0 != id) ==> o'.rows[id] == o.rows[id])
    decreases |pending|
  {
    if pending != [] {
      var n := |pending| - 1;
      assert Distinct(pending[..n]);
      DispatchedRow(o, pending[..n], trials[..n], id);
      assert forall k :: 0 <= k < n ==> pending[..n][k] == pending[k] && trials[..n][k] == trials[k];
      assert Queued(Dispatched(o, pending[..n], trials[..n]), pending[n].1, pending[n].0, trials[n]).rows.Keys
          == o.rows.Keys;
    }
  }

  /** What jobs a pass adds: exactly those of the selected rows that were free and whose own
      deferral did not fail, each with the event it was selected with. */
  lemma {:induction false} DispatchedJobs(o: Outbox, pending: seq<(nat, Event)>, trials: seq<Trial>)
    requires |trials| == |pending| && Distinct(pending)
    ensures var o' := Dispatched(o, pending, trials);
      && o.jobs <= o'.jobs
      && (forall job :: job in o'.jobs[|o.jobs|..] <==>
            exists k :: 0 <= k < |pending| && job == Job(pending[k].0, pending[k].1) && trials[k] != DeferFails
                        && pending[k].0 in o.rows && !o.rows[pending[k].0].queued
                        && o.rows[pending[k].0].holder == None)
    decreases |pending|
  {
    if pending != [] {
      var n := |pending| - 1;
      var (id, e) := pending[n];
      assert Distinct(pending[..n]);
      DispatchedJobs(o, pending[..n], trials[..n]);
      NoNewRows(o, pending[..n], trials[..n]);
      if id in o.rows {
        DispatchedRow(o, pending[..n], trials[..n], id);
      }
      var earlier := Dispatched(o, pending[..n], trials[..n]);
      JobsAfter(o, earlier, Queued(earlier, e, id, trials[n]), e, id, trials[n]);
      assert forall k :: 0 <= k < n ==> pending[..n][k] == pending[k] && trials[..n][k] == trials[k];
    }
  }

  lemma JobsAfter(o: Outbox, earlier: Outbox, later: Outbox, e: Event, id: nat, t: Trial)
    requires o.jobs <= earlier.jobs && later == Queued(earlier, e, id, t)
    ensures o.jobs <= later.jobs
    ensures later.jobs[|o.jobs|..]
         == earlier.jobs[|o.jobs|..] + (if Claimable(earlier.rows, id) && !t.DeferFails? then [Job(id, e)] else [])
  {
  }

  class OutboxService {
    var rows: map<nat, Row>
    var jobs: seq<Job>

    constructor ()
      ensures rows == map[] && jobs == []
    {
      rows, jobs := map[], [];
    }

    function Value(): Outbox
      reads this
    {
      Outbox(rows, jobs)
    }

    /** A submission of a free row defers its job unless the deferral failed, marks the row queued
        only if the transaction committed, and answers with the job only if that was confirmed. */
    method Queue(e: Event, id: nat, t: Trial) returns (job: Option<nat>)
      modifies this
      ensures Value() == Queued(old(Value()), e, id, t)
      ensures var free := id in old(rows) && !old(rows)[id].queued && old(rows)[id].holder == None;
        && (jobs == if free && t != DeferFails then old(jobs) + [Job(id, e)] else old(jobs))
        && (rows == if free && (t == Fine || t == CommitAnswerLost)
                    then old(rows)[id := old(rows)[id].(queued := true)] else old(rows))
        && (job == if free && t == Fine then Some(|old(jobs)|) else None)
    {
      if id !in rows || rows[id].queued || rows[id].holder.Some? {
        return None;
      }
      if t.DeferFails? {
        return None;
      }
      jobs := jobs + [Job(id, e)];
      if t.DeferAnswerLost? || t.CommitFails? {
        return None;
      }
      rows := rows[id := rows[id].(queued := true)];
      return if t.Fine? then Some(|jobs| - 1) else None;
    }

    method MarkDelivered(id: nat)
      modifies this`rows
      ensures rows == if id in old(rows) then old(rows)[id := Delivered(old(rows)[id])] else old(rows)
      ensures id in rows ==> rows[id].delivered && rows[id].queued == old(rows)[id].queued
      ensures id in rows && !old(rows)[id].delivered ==>
        var was := old(rows)[id].event;
        rows[id].event == Event(was.kind, None, "", "redacted", was.source, was.at)
      ensures id in rows && old(rows)[id].delivered ==> rows == old(rows)
    {
      if id in rows && !rows[id].delivered {
        var row := rows[id];
        rows := rows[id := row.(delivered := true, event := row.event.(user := None, email := "", actor := REDACTED))];
      }
      assert id in old(rows) ==> rows[id] == Delivered(old(rows)[id]);
    }

    /** The reconciler pass over the rows its SELECT returned. It counts exactly the rows whose
        job id came back. */
    method DispatchPending(pending: seq<(nat, Event)>, trials: seq<Trial>) returns (queued: nat)
      requires |trials| == |pending| && Selected(rows, pending)
      modifies this
      ensures Value() == Dispatched(old(Value()), pending, trials)
      ensures queued == Answers(old(rows), pending, trials)
    {
      ghost var before := Value();
      queued := 0;
      var i := 0;
      while i < |pending|
        invariant 0 <= i <= |pending|
        invariant Value() == Dispatched(before, pending[..i], trials[..i])
        invariant queued == Answers(before.rows, pending[..i], trials[..i])
      {
        Prefixes(before, pending, trials, i);
        UntouchedSoFar(before, pending, trials, i);
        var job := Queue(pending[i].1, pending[i].0, trials[i]);
        if job.Some? {
          queued := queued + 1;
        }
        i := i + 1;
      }
      assert pending[..i] == pending && trials[..i] == trials;
    }
  }

  lemma {:induction false} Prefixes(o: Outbox, pending: seq<(nat, Event)>, trials: seq<Trial>, i: nat)
    requires |trials| == |pending| && i < |pending|
    ensures Dispatched(o, pending[..i + 1], trials[..i + 1])
         == Queued(Dispatched(o, pending[..i], trials[..i]), pending[i].1, pending[i].0, trials[i])
    ensures Answers(o.rows, pending[..i + 1], trials[..i + 1])
         == Answers(o.rows, pending[..i], trials[..i])
            + (if Claimable(o.rows, pending[i].0) && trials[i].Fine? then 1 else 0)
  {
    assert pending[..i + 1][..i] == pending[..i] && trials[..i + 1][..i] == trials[..i];
  }

  /** A pass in which every submission goes through leaves no row unqueued, save those another
      transaction has locked and those past the hundredth. */
  lemma {:induction false} FullPassQueuesAll(o: Outbox, pending: seq<(nat, Event)>, trials: seq<Trial>, id: nat)
    requires |trials| == |pending| && Selected(o.rows, pending)
    requires forall k :: 0 <= k < |trials| ==> Commits(trials[k])
    requires Eligible(Dispatched(o, pending, trials).rows, id)
    ensures id in o.rows
    ensures o.rows[id].holder.Some? ||
            (|pending| == 100 && forall k :: 0 <= k < |pending| ==> pending[k].0 < id)
  {
    hide Dispatched;
    NoNewRows(o, pending, trials);
    DispatchedRow(o, pending, trials, id);
    if k :| 0 <= k < |pending| && pending[k].0 == id {
      assert Commits(trials[k]);
    } else {
      assert Eligible(o.rows, id);
    }
  }

  lemma {:induction false} UntouchedSoFar(o: Outbox, pending: seq<(nat, Event)>, trials: seq<Trial>, i: nat)
    requires |trials| == |pending| && Distinct(pending) && i < |pending|
    ensures Claimable(Dispatched(o, pending[..i], trials[..i]).rows, pending[i].0) <==> Claimable(o.rows, pending[i].0)
  {
    var id := pending[i].0;
    if id in o.rows {
      DispatchedRow(o, pending[..i], trials[..i], id);
    } else {
      NoNewRows(o, pending[..i], trials[..i]);
    }
  }

  lemma {:induction false} NoNewRows(o: Outbox, pending: seq<(nat, Event)>, trials: seq<Trial>)
    requires |trials| == |pending|
    ensures Dispatched(o, pending, trials).rows.Keys == o.rows.Keys
    decreases |pending|
  {
    if pending != [] {
      NoNewRows(o, pending[..|pending| - 1], trials[..|pending| - 1]);
    }
  }
}

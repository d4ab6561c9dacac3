/**
 The durable revocation counters. A token is dead once its counter has moved past the
 version written in the token, so what matters about every write to this table is how it
 moves the effective version of each target: the larger of its current and legacy rows.
 */
module VersionStore {
  import opened Common
  import opened RevocationKeys

  type Rows = map<string, nat>

  function Get(rows: Rows, k: string): nat {
    if k in rows then rows[k] else 0
  }

  // The effective version of a target.
  function Version(rows: Rows, sc: Scope): nat {
    Max(Get(rows, sc.key), Get(rows, sc.legacy))
  }

  // The upsert of a bump whose locking read returned `read`.
  function Bumped(rows: Rows, sc: Scope, read: nat): Rows {
    rows[sc.key := if sc.key in rows then Max(rows[sc.key] + 1, read + 1) else read + 1]
  }

  /** A committed bump raises the effective version strictly. The read may be stale about the
      current row in any way, even missing it; all that is needed is that it is no older than
      the legacy row, which no current code ever raises. */
  lemma BumpRaises(rows: Rows, sc: Scope, read: nat)
    requires Get(rows, sc.legacy) <= read
    ensures Version(Bumped(rows, sc, read), sc) > Version(rows, sc)
    ensures Version(Bumped(rows, sc, read), sc) == Bumped(rows, sc, read)[sc.key]
  {
  }

  // No bump lowers any effective version.
  lemma BumpKeepsOthers(rows: Rows, sc: Scope, read: nat, other: Scope)
    ensures Version(Bumped(rows, sc, read), other) >= Version(rows, other)
    ensures sc.key != other.key && sc.key != other.legacy ==>
              Version(Bumped(rows, sc, read), other) == Version(rows, other)
  {
  }

  // How the database answers a transaction that writes: it commits, it commits but the answer is
  // lost, or it does not commit.
  datatype Reply = Committed | AnswerLost | Down

  /** The store as an object over its table. Every operation is one transaction; `up` says
      whether the database answers a read. */
  class TokenVersionStore {
    var rows: Rows

    constructor ()
      ensures rows == map[]
    {
      rows := map[];
    }

    method GetVersion(sc: Scope, up: bool) returns (r: Option<nat>)
      ensures r == if up then Some(Version(rows, sc)) else None
      ensures up ==>
        && (sc.key in rows ==> rows[sc.key] <= r.value) && (sc.legacy in rows ==> rows[sc.legacy] <= r.value)
        && (r.value == 0 || (sc.key in rows && r.value == rows[sc.key])
            || (sc.legacy in rows && r.value == rows[sc.legacy]))
    {
      if !up {
        return None;
      }
      var best := 0;
      if sc.key in rows {
        best := Max(best, rows[sc.key]);
      }
      if sc.legacy in rows {
        best := Max(best, rows[sc.legacy]);
      }
      return Some(best);
    }

    // Both versions from one query; the result rows come back in any order, and are
    // gathered into a dictionary.
    method GetVersions(account: Scope, chain: Scope, up: bool) returns (r: Option<(nat, nat)>)
      ensures r == if up then Some((Version(rows, account), Version(rows, chain))) else None
    {
      if !up {
        return None;
      }
      var wanted := {account.key, chain.key, account.legacy, chain.legacy};
      var selected := set k | k in wanted && k in rows;
      var result := selected;
      var versions: Rows := map[];
      while result != {}
        invariant result <= selected
        invariant versions.Keys == selected - result
        invariant forall k :: k in versions ==> k in rows && versions[k] == rows[k]
        decreases |result|
      {
        var k :| k in result;
        versions := versions[k := Max(Get(versions, k), rows[k])];
        result := result - {k};
      }
      assert forall k :: k in wanted ==> Get(versions, k) == Get(rows, k);
      return Some((Max(Get(versions, account.key), Get(versions, account.legacy)),
                   Max(Get(versions, chain.key), Get(versions, chain.legacy))));
    }

    /** Success is reported only for a committed bump, and a bump that may not have been committed
        is never reported as one. */
    method BumpVersion(sc: Scope, reply: Reply) returns (ok: bool)
      modifies this
      ensures ok <==> reply.Committed?
      ensures !reply.Down? ==> rows == Bumped(old(rows), sc, Version(old(rows), sc))
      ensures !reply.Down? ==> Version(rows, sc) == Version(old(rows), sc) + 1
      ensures reply.Down? ==> rows == old(rows)
    {
      if reply.Down? {
        return false;
      }
      var read := GetVersion(sc, true);
      var current := read.value;
      var version := current + 1;
      if sc.key in rows {
        version := Max(rows[sc.key] + 1, version);
      }
      rows := rows[sc.key := version];
      return reply.Committed?;
    }
  }
}

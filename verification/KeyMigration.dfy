/**
 The migration that replaces raw-email rows by digest-keyed rows, in locked batches, while
 tokens keep being checked and revoked.
 */
module KeyMigration {
  import opened Common
  import opened RevocationKeys
  import opened VersionStore

  function LegacyKeys(ks: KeyScheme, rows: Rows): (r: set<string>)
    ensures r <= rows.Keys
  {
    set k | k in rows && ks.isLegacy(k)
  }

  // One row of a batch: raise the current row, then delete the legacy one.
  function Moved(ks: KeyScheme, rows: Rows, k: string, v: nat): Rows
    requires ks.translate(k).Some?
  {
    var n := ks.translate(k).value;
    rows[n := Max(Get(rows, n), v)] - {k}
  }

  function Elems<T(==)>(s: seq<T>): set<T> {
    set k | k in s
  }

  lemma ElemsSplit<T>(s: seq<T>)
    requires s != []
    ensures Elems(s) == Elems(s[..|s| - 1]) + {s[|s| - 1]}
  {
    assert s == s[..|s| - 1] + [s[|s| - 1]];
  }

  // `s` lists members of `all`, each at most once.
  ghost predicate Lists<T>(s: seq<T>, all: set<T>)
    decreases |s|
  {
    s == [] || (var last := |s| - 1; Lists(s[..last], all) && s[last] in all && s[last] !in Elems(s[..last]))
  }

  lemma {:induction false} ListsNothing<T>(all: set<T>)
    ensures Lists([], all) && Elems<T>([]) == {}
  {
  }

  lemma {:induction false} ListsAppend<T>(s: seq<T>, k: T, all: set<T>)
    requires Lists(s, all) && k in all && k !in Elems(s)
    ensures Lists(s + [k], all) && Elems(s + [k]) == Elems(s) + {k}
  {
    assert (s + [k])[..|s|] == s;
    ElemsSplit(s + [k]);
  }

  lemma {:induction false} ListsBound<T>(s: seq<T>, all: set<T>)
    requires Lists(s, all)
    ensures Elems(s) <= all && |Elems(s)| == |s|
    decreases |s|
  {
    if s != [] {
      ListsBound(s[..|s| - 1], all);
      ElemsSplit(s);
    }
  }

  lemma {:induction false} ListsPrefix<T>(s: seq<T>, n: nat, all: set<T>)
    requires Lists(s, all) && n <= |s|
    ensures Lists(s[..n], all)
    ensures n < |s| ==> s[n] in all && s[n] !in Elems(s[..n])
    decreases |s|
  {
    if n == |s| {
      assert s[..n] == s;
    } else {
      var rest := s[..|s| - 1];
      assert n < |rest| ==> rest[n] == s[n];
      assert rest[..n] == s[..n];
      ListsPrefix(rest, n, all);
    }
  }

  // Rows a batch may hold: distinct legacy rows of the table, all translatable.
  ghost predicate Batch(ks: KeyScheme, rows: Rows, batch: seq<string>) {
    && Lists(batch, LegacyKeys(ks, rows))
    && (forall i :: 0 <= i < |batch| ==> ks.translate(batch[i]).Some?)
  }

  lemma MoveRemoves(ks: KeyScheme, rows: Rows, k: string, v: nat)
    requires Sound(ks) && ks.isLegacy(k) && ks.translate(k).Some?
    ensures LegacyKeys(ks, Moved(ks, rows, k, v)) == LegacyKeys(ks, rows) - {k}
    ensures forall q :: q in LegacyKeys(ks, Moved(ks, rows, k, v)) ==> Moved(ks, rows, k, v)[q] == rows[q]
  {
  }

  // The effect of a whole batch transaction.
  ghost function MovedAll(ks: KeyScheme, rows: Rows, batch: seq<string>): (r: Rows)
    requires Sound(ks) && Batch(ks, rows, batch)
    ensures LegacyKeys(ks, r) == LegacyKeys(ks, rows) - Elems(batch)
    ensures forall k :: k in LegacyKeys(ks, r) ==> r[k] == rows[k]
    decreases |batch|
  {
    if batch == [] then rows
    else
      var last := |batch| - 1;
      var before := MovedAll(ks, rows, batch[..last]);
      ElemsSplit(batch);
      MoveRemoves(ks, before, batch[last], rows[batch[last]]);
      Moved(ks, before, batch[last], rows[batch[last]])
  }

  lemma {:induction false} EmptyBatch(ks: KeyScheme, rows: Rows, batch: seq<string>)
    requires Sound(ks) && batch == []
    ensures Batch(ks, rows, batch) && MovedAll(ks, rows, batch) == rows
  {
  }

  lemma {:induction false} BatchExtends(ks: KeyScheme, rows: Rows, batch: seq<string>, i: nat)
    requires Lists(batch, LegacyKeys(ks, rows))
    requires i < |batch| && Batch(ks, rows, batch[..i]) && ks.translate(batch[i]).Some?
    ensures batch[i] in rows && Batch(ks, rows, batch[..i + 1])
  {
    hide Lists, LegacyKeys, Elems;
    ListsPrefix(batch, i, LegacyKeys(ks, rows));
    ListsPrefix(batch, i + 1, LegacyKeys(ks, rows));
  }

  lemma {:induction false} MovedAllLast(ks: KeyScheme, rows: Rows, rest: seq<string>, batch: seq<string>)
    requires Sound(ks) && Batch(ks, rows, batch) && Batch(ks, rows, rest)
    requires |batch| == |rest| + 1 && rest == batch[..|rest|]
    ensures batch[|rest|] in rows && ks.translate(batch[|rest|]).Some?
    ensures MovedAll(ks, rows, batch) ==
              Moved(ks, MovedAll(ks, rows, rest), batch[|rest|], rows[batch[|rest|]])
  {
  }

  lemma MoveKeepsVersion(ks: KeyScheme, rows: Rows, k: string, sc: Scope)
    requires Sound(ks) && Safe(ks, sc)
    requires k in rows && ks.isLegacy(k) && ks.translate(k).Some?
    ensures Version(Moved(ks, rows, k, rows[k]), sc) >= Version(rows, sc)
  {
  }

  /** At every batch boundary no effective version has decreased. */
  lemma {:induction false} BatchKeepsVersion(ks: KeyScheme, rows: Rows, batch: seq<string>, sc: Scope)
    requires Sound(ks) && Batch(ks, rows, batch) && Safe(ks, sc)
    ensures Version(MovedAll(ks, rows, batch), sc) >= Version(rows, sc)
    decreases |batch|
  {
    hide Sound, Safe;
    if batch != [] {
      var last := |batch| - 1;
      var rest := batch[..last];
      BatchKeepsVersion(ks, rows, rest, sc);
      assert batch[last] in LegacyKeys(ks, MovedAll(ks, rows, rest));
      MoveKeepsVersion(ks, MovedAll(ks, rows, rest), batch[last], sc);
    }
  }

  // ---------------------------------------------------------------- what migration computes

  // A table part-way from `old`: untouched legacy rows keep their value, and every current
  // row is the largest of its old value and the legacy rows already folded into it.
  ghost predicate Merging(ks: KeyScheme, old_: Rows, cur: Rows) {
    && (forall k :: k in cur && ks.isLegacy(k) ==> k in old_ && cur[k] == old_[k])
    && (forall k :: k in old_ && !ks.isLegacy(k) ==> k in cur && cur[k] >= old_[k])
    && (forall j :: j in old_ && ks.isLegacy(j) && j !in cur ==>
          && ks.translate(j).Some?
          && ks.translate(j).value in cur && cur[ks.translate(j).value] >= old_[j])
    && (forall k :: k in cur && !ks.isLegacy(k) ==> Attained(ks, old_, cur, k))
  }

  ghost predicate Attained(ks: KeyScheme, old_: Rows, cur: Rows, k: string)
    requires k in cur
  {
    || (k in old_ && cur[k] == old_[k])
    || (exists j :: FoldedInto(ks, old_, cur, j, k) && cur[k] == old_[j])
  }

  ghost predicate FoldedInto(ks: KeyScheme, old_: Rows, cur: Rows, j: string, k: string) {
    j in old_ && ks.isLegacy(j) && j !in cur && ks.translate(j) == Some(k)
  }

  // The table the migration is meant to produce.
  ghost predicate Merged(ks: KeyScheme, old_: Rows, new_: Rows) {
    Merging(ks, old_, new_) && LegacyKeys(ks, new_) == {}
  }

  lemma MergingStart(ks: KeyScheme, rows: Rows)
    ensures Merging(ks, rows, rows)
  {
  }

  lemma MoveMerges(ks: KeyScheme, old_: Rows, cur: Rows, k: string)
    requires Sound(ks) && Merging(ks, old_, cur)
    requires k in cur && ks.isLegacy(k) && ks.translate(k).Some?
    ensures Merging(ks, old_, Moved(ks, cur, k, cur[k]))
  {
    var n := ks.translate(k).value;
    var next := Moved(ks, cur, k, cur[k]);
    assert FoldedInto(ks, old_, next, k, n);
    forall q | q in next && !ks.isLegacy(q) ensures Attained(ks, old_, next, q) {
      if next[q] != old_[k] || q != n {
        assert Attained(ks, old_, cur, q);
        if !(q in old_ && cur[q] == old_[q]) {
          var j :| FoldedInto(ks, old_, cur, j, q) && cur[q] == old_[j];
          assert FoldedInto(ks, old_, next, j, q);
        }
      }
    }
  }

  lemma {:induction false} BatchMerges(ks: KeyScheme, old_: Rows, cur: Rows, batch: seq<string>)
    requires Sound(ks) && Merging(ks, old_, cur) && Batch(ks, cur, batch)
    ensures Merging(ks, old_, MovedAll(ks, cur, batch))
    decreases |batch|
  {
    hide Merging, Sound;
    if batch != [] {
      var last := |batch| - 1;
      var rest := batch[..last];
      BatchMerges(ks, old_, cur, rest);
      assert batch[last] in LegacyKeys(ks, MovedAll(ks, cur, rest));
      MoveMerges(ks, old_, MovedAll(ks, cur, rest), batch[last]);
    }
  }

  /** A partly merged table is determined by the old one and by which legacy rows are left, and
      the merged table by the old one alone: neither the order of the rows nor the batch size can
      change the outcome. */
  lemma MergedUnique(ks: KeyScheme, old_: Rows, a: Rows, b: Rows)
    requires Merging(ks, old_, a) && Merging(ks, old_, b) && LegacyKeys(ks, a) == LegacyKeys(ks, b)
    ensures a == b
  {
    MergedBelow(ks, old_, a, b);
    MergedBelow(ks, old_, b, a);
    assert a.Keys == b.Keys;
  }

  lemma MergedBelow(ks: KeyScheme, old_: Rows, a: Rows, b: Rows)
    requires Merging(ks, old_, a) && Merging(ks, old_, b) && LegacyKeys(ks, a) == LegacyKeys(ks, b)
    ensures forall k :: k in a ==> k in b && a[k] <= b[k]
  {
    forall k | k in a ensures k in b && a[k] <= b[k] {
      assert k in LegacyKeys(ks, a) <==> ks.isLegacy(k);
      if ks.isLegacy(k) {
        assert k in LegacyKeys(ks, b);
      } else {
        assert Attained(ks, old_, a, k);
        if !(k in old_ && a[k] == old_[k]) {
          var j :| FoldedInto(ks, old_, a, j, k) && a[k] == old_[j];
          assert j !in LegacyKeys(ks, a) && j !in LegacyKeys(ks, b);
        }
      }
    }
  }

  /** Which legacy chain rows keep their revocation when they are moved, whatever else is in the
      table: exactly those whose chain name holds no colon. Any other row lands on a different
      chain's row, and its own chain is left with its current row alone. */
  lemma MovedChainKeepsVersionIff(c: Crypto, rows: Rows, e: string, ch: string)
    requires Keyed(c)
    requires LegacyChainVersionKey(e, ch) in rows && IsLegacyRow(LegacyChainVersionKey(e, ch))
    requires HmacKeyFromLegacyKey(c, LegacyChainVersionKey(e, ch)).Some?
    ensures var ks := Scheme(c);
            var sc := ks.scope(Chain(e, ch));
            var after := Moved(ks, rows, sc.legacy, rows[sc.legacy]);
            Version(after, sc) == if ChainName(ch) then Version(rows, sc) else Get(rows, sc.key)
  {
    hide HmacKeyFromLegacyKey, LegacyChainVersionKey, ChainVersionKey, IsLegacyRow;
    LegacyChainFilter(e, ch);
    ChainKeyIsCurrent(c, e, ch);
    if ChainName(ch) {
      UnnamedChain(c, e, ch);
    } else {
      TranslationsAreCurrent(c, LegacyChainVersionKey(e, ch),
                             HmacKeyFromLegacyKey(c, LegacyChainVersionKey(e, ch)).value);
    }
    ChainTranslationExact(c, e, ch);
  }

  // A translatable legacy chain row has an email.
  lemma UnnamedChain(c: Crypto, e: string, ch: string)
    requires HmacKeyFromLegacyKey(c, LegacyChainVersionKey(e, ch)).Some? && ChainName(ch)
    ensures e != ""
  {
    if e == "" {
      UnnamedChainUntranslated(c, e, ch);
    }
  }
}

/**
 Free-text search terms as SQL LIKE patterns.
 */
module LikeSearch {

  const ESCAPE: char := '\\'

  // str.replace of one character by a string.
  function Replaced(s: string, c: char, put: string): string {
    if s == "" then "" else (if s[0] == c then put else [s[0]]) + Replaced(s[1..], c, put)
  }

  function Escaped(value: string): string {
    Replaced(Replaced(Replaced(value, ESCAPE, [ESCAPE, ESCAPE]), '%', [ESCAPE, '%']), '_', [ESCAPE, '_'])
  }

  function IlikePattern(value: string): string {
    "%" + Escaped(value) + "%"
  }

  predicate Special(c: char) {
    c == ESCAPE || c == '%' || c == '_'
  }

  // One escape per special character, in a single pass.
  function Quoted(s: string): string {
    if s == "" then "" else (if Special(s[0]) then [ESCAPE, s[0]] else [s[0]]) + Quoted(s[1..])
  }

  lemma {:induction false} ReplacedConcat(a: string, b: string, c: char, put: string)
    ensures Replaced(a + b, c, put) == Replaced(a, c, put) + Replaced(b, c, put)
  {
    if a == "" {
      assert a + b == b;
    } else {
      assert (a + b)[1..] == a[1..] + b;
      ReplacedConcat(a[1..], b, c, put);
    }
  }

  /** The three replaces, in this order, escape every special character exactly once. */
  lemma {:induction false} EscapedOnce(s: string)
    ensures Escaped(s) == Quoted(s)
  {
    if s != "" {
      EscapedOnce(s[1..]);
      EscapedHead(s[0], s[1..]);
    }
  }

  lemma EscapedHead(c: char, rest: string)
    ensures Escaped([c] + rest) == (if Special(c) then [ESCAPE, c] else [c]) + Escaped(rest)
  {
    var one := Replaced([c], ESCAPE, [ESCAPE, ESCAPE]);
    ReplacedConcat([c], rest, ESCAPE, [ESCAPE, ESCAPE]);
    var r1 := Replaced(rest, ESCAPE, [ESCAPE, ESCAPE]);
    ReplacedConcat(one, r1, '%', [ESCAPE, '%']);
    var two := Replaced(one, '%', [ESCAPE, '%']);
    ReplacedConcat(two, Replaced(r1, '%', [ESCAPE, '%']), '_', [ESCAPE, '_']);
    EscapedChar(c);
  }

  lemma EscapedChar(c: char)
    ensures Escaped([c]) == if Special(c) then [ESCAPE, c] else [c]
  {
    OneReplaced(c, ESCAPE, [ESCAPE, ESCAPE]);
    OneReplaced(c, '%', [ESCAPE, '%']);
    OneReplaced(c, '_', [ESCAPE, '_']);
    TwoReplaced(ESCAPE, ESCAPE, '%', [ESCAPE, '%']);
    TwoReplaced(ESCAPE, '%', '_', [ESCAPE, '_']);
    TwoReplaced(ESCAPE, ESCAPE, '_', [ESCAPE, '_']);
  }

  lemma {:induction false} OneReplaced(a: char, c: char, put: string)
    ensures Replaced([a], c, put) == if a == c then put else [a]
  {
    assert [a][1..] == "" && put + "" == put && [a] + "" == [a];
  }

  lemma {:induction false} TwoReplaced(a: char, b: char, c: char, put: string)
    ensures Replaced([a, b], c, put) == (if a == c then put else [a]) + (if b == c then put else [b])
  {
    assert [a, b][1..] == [b];
    OneReplaced(b, c, put);
  }

  // ---------------------------------------------------------------- LIKE

  // SQL LIKE with a backslash escape. A pattern that ends in its escape matches nothing.
  ghost predicate Like(text: string, pattern: string)
    decreases |pattern|
  {
    if pattern == "" then text == ""
    else if pattern[0] == '%' then exists k :: 0 <= k <= |text| && Like(text[k..], pattern[1..])
    else if text == "" then false
    else if pattern[0] == ESCAPE then |pattern| > 1 && text[0] == pattern[1] && Like(text[1..], pattern[2..])
    else if pattern[0] == '_' then Like(text[1..], pattern[1..])
    else text[0] == pattern[0] && Like(text[1..], pattern[1..])
  }

  // ILIKE folds both sides to one case first.
  function Folded(s: string, fold: char -> char): string {
    seq(|s|, i requires 0 <= i < |s| => fold(s[i]))
  }

  ghost predicate Ilike(text: string, pattern: string, fold: char -> char) {
    Like(Folded(text, fold), Folded(pattern, fold))
  }

  // Case folding neither changes nor produces a special character.
  ghost predicate KeepsSpecials(fold: char -> char) {
    forall c :: Special(c) || Special(fold(c)) ==> fold(c) == c
  }

  predicate Contains(text: string, value: string) {
    exists i :: 0 <= i <= |text| - |value| && text[i..][..|value|] == value
  }

  lemma {:induction false} AnyRest(text: string)
    ensures Like(text, "%")
  {
    assert text[|text|..] == "" && Like("", "%"[1..]);
  }

  /** A quoted value followed by a wildcard matches exactly the texts that start with the value. */
  lemma {:induction false} QuotedPrefix(text: string, value: string)
    ensures Like(text, Quoted(value) + "%") <==> value <= text
    decreases |value|
  {
    var pattern := Quoted(value) + "%";
    if value == "" {
      assert pattern == "%";
      AnyRest(text);
    } else if text != "" {
      var rest := Quoted(value[1..]) + "%";
      QuotedPrefix(text[1..], value[1..]);
      assert value <= text <==> value[0] == text[0] && value[1..] <= text[1..];
      if Special(value[0]) {
        assert pattern == [ESCAPE, value[0]] + rest;
        assert pattern[2..] == rest;
      } else {
        assert pattern == [value[0]] + rest;
        assert pattern[1..] == rest;
      }
    } else {
      assert pattern == (if Special(value[0]) then [ESCAPE, value[0]] else [value[0]]) + (Quoted(value[1..]) + "%");
    }
  }

  lemma {:induction false} QuotedFolds(value: string, fold: char -> char)
    requires KeepsSpecials(fold)
    ensures Folded(Quoted(value), fold) == Quoted(Folded(value, fold))
    decreases |value|
  {
    if value != "" {
      var c, rest := value[0], value[1..];
      QuotedFolds(rest, fold);
      assert Folded(value, fold)[1..] == Folded(rest, fold);
      assert Special(c) <==> Special(fold(c));
      if Special(c) {
        assert Folded(Quoted(value), fold) == [ESCAPE, c] + Folded(Quoted(rest), fold);
      } else {
        assert Folded(Quoted(value), fold) == [fold(c)] + Folded(Quoted(rest), fold);
      }
    }
  }

  lemma FoldedPattern(value: string, fold: char -> char)
    requires KeepsSpecials(fold)
    ensures Folded(IlikePattern(value), fold) == "%" + (Quoted(Folded(value, fold)) + "%")
  {
    EscapedOnce(value);
    QuotedFolds(value, fold);
    var q := Quoted(value);
    assert IlikePattern(value) == "%" + (q + "%");
    assert Folded("%" + (q + "%"), fold) == "%" + (Folded(q, fold) + "%");
  }

  /** Searching for a value finds exactly the texts that contain it, up to case: none of its
      characters acts as a wildcard. */
  lemma SearchIsExact(text: string, value: string, fold: char -> char)
    requires KeepsSpecials(fold)
    ensures Ilike(text, IlikePattern(value), fold) <==> Contains(Folded(text, fold), Folded(value, fold))
  {
    FoldedPattern(value, fold);
    StartsSomewhere(Folded(text, fold), Folded(value, fold));
  }

  lemma {:induction false} StartsSomewhere(t: string, v: string)
    ensures Like(t, "%" + (Quoted(v) + "%")) <==> Contains(t, v)
  {
    var rest := Quoted(v) + "%";
    assert ("%" + rest)[1..] == rest;
    forall k | 0 <= k <= |t| ensures Like(t[k..], rest) <==> v <= t[k..] {
      QuotedPrefix(t[k..], v);
    }
    forall k | 0 <= k <= |t| ensures v <= t[k..] <==> k <= |t| - |v| && t[k..][..|v|] == v {
    }
  }
}

/**
 * The handful of Python `str` operations the routing code relies on:
 * `lower()`, `strip()`, `startswith`, the `in` substring test, filtering a
 * phrase list by occurrence, and `", ".join(...)`.
 */
module Text {

  /** An ASCII upper-case letter. */
  predicate IsUpper(c: char) {
    'A' <= c <= 'Z'
  }

  /** `c.lower()` for the ASCII letters; every other character is left as it is. */
  function LowerChar(c: char): (d: char)
    ensures !IsUpper(d)
    ensures IsUpper(c) ==> d as int == c as int + 32
    ensures !IsUpper(c) ==> d == c
  {
    if IsUpper(c) then (c as int + 32) as char else c
  }

  /** `s.lower()`: the same length, every character lowered. */
  function Lower(s: string): (r: string)
    ensures |r| == |s|
    ensures forall i :: 0 <= i < |s| ==> r[i] == LowerChar(s[i])
  {
    if s == [] then [] else [LowerChar(s[0])] + Lower(s[1..])
  }

  /** Lowering twice is lowering once. */
  lemma LowerIdempotent(s: string)
    ensures Lower(Lower(s)) == Lower(s)
  {
    var once := Lower(s);
    var twice := Lower(once);
    assert |twice| == |once|;
    forall i | 0 <= i < |once|
      ensures twice[i] == once[i]
    {
      assert once[i] == LowerChar(s[i]);
    }
  }

  /** The characters `str.strip()` removes (ASCII and Latin-1 white space). */
  predicate IsSpace(c: char) {
    c == ' ' || '\t' <= c <= '\r' || '\U{1C}' <= c <= '\U{1F}' || c == '\U{85}' || c == '\U{A0}'
  }

  /** Every character of `s` is white space. */
  predicate AllSpace(s: string) {
    forall i :: 0 <= i < |s| ==> IsSpace(s[i])
  }

  /** Where `s.lstrip()` starts, scanning from `i`: the first position at or after `i` that is not white space. */
  function SkipSpace(s: string, i: nat): (n: nat)
    requires i <= |s|
    ensures i <= n <= |s|
    ensures forall k :: i <= k < n ==> IsSpace(s[k])
    ensures n < |s| ==> !IsSpace(s[n])
    decreases |s| - i
  {
    if i < |s| && IsSpace(s[i]) then SkipSpace(s, i + 1) else i
  }

  /** Where `rstrip()` ends, scanning back from `j` but not past `lo`: everything from there up to `j` is white space. */
  function BackSpace(s: string, lo: nat, j: nat): (e: nat)
    requires lo <= j <= |s|
    ensures lo <= e <= j
    ensures forall k :: e <= k < j ==> IsSpace(s[k])
    ensures lo < e ==> !IsSpace(s[e - 1])
  {
    if lo < j && IsSpace(s[j - 1]) then BackSpace(s, lo, j - 1) else j
  }

  /** `r` is `s[i..j]`, and everything of `s` outside that piece is white space. */
  predicate CutAt(s: string, r: string, i: int, j: int) {
    0 <= i <= j <= |s| && r == s[i..j]
    && (forall k :: 0 <= k < i ==> IsSpace(s[k])) && (forall k :: j <= k < |s| ==> IsSpace(s[k]))
  }

  /**
   * `s.strip()`: a contiguous piece of `s` with only white space cut off on
   * either side; empty exactly when `s` is all white space, otherwise neither
   * end is white space.
   */
  function Strip(s: string): (r: string)
    ensures exists i, j :: CutAt(s, r, i, j)
    ensures r == [] <==> AllSpace(s)
    ensures r != [] ==> !IsSpace(r[0]) && !IsSpace(r[|r| - 1])
    ensures |r| <= |s|
  {
    var i := SkipSpace(s, 0);
    var j := BackSpace(s, i, |s|);
    assert CutAt(s, s[i..j], i, j);
    assert i < j ==> s[i..j][0] == s[i] && s[i..j][j - i - 1] == s[j - 1];
    s[i..j]
  }

  /** `s.startswith(p)`. */
  predicate StartsWith(s: string, p: string) {
    |p| <= |s| && s[..|p|] == p
  }

  /** `p in s`: `p` occurs as a contiguous substring of `s` (the empty string occurs in every string). */
  predicate Contains(s: string, p: string) {
    StartsWith(s, p) || (s != [] && Contains(s[1..], p))
  }

  /** `p` sits in `s` at offset `i`. */
  predicate OccursAt(s: string, p: string, i: int) {
    0 <= i <= |s| - |p| && s[i..i + |p|] == p
  }

  /** `p in s` holds exactly when `p` sits at some offset of `s`. */
  lemma {:induction false} ContainsIffOccursAt(s: string, p: string)
    ensures Contains(s, p) <==> exists i :: OccursAt(s, p, i)
  {
    if Contains(s, p) {
      if StartsWith(s, p) {
        assert OccursAt(s, p, 0);
      } else {
        ContainsIffOccursAt(s[1..], p);
        var i :| OccursAt(s[1..], p, i);
        assert s[i + 1..i + 1 + |p|] == s[1..][i..i + |p|];
        assert OccursAt(s, p, i + 1);
      }
    }
    if exists i :: OccursAt(s, p, i) {
      var i :| OccursAt(s, p, i);
      if i == 0 {
        assert StartsWith(s, p);
      } else {
        assert s[1..][i - 1..i - 1 + |p|] == s[i..i + |p|];
        assert OccursAt(s[1..], p, i - 1);
        ContainsIffOccursAt(s[1..], p);
      }
    }
  }

  /** `a` can be obtained from `b` by deleting elements: `a` lists some of `b`'s elements in `b`'s order. */
  predicate IsSubsequence<T(==)>(a: seq<T>, b: seq<T>) {
    a == [] || (b != [] && ((a[0] == b[0] && IsSubsequence(a[1..], b[1..])) || IsSubsequence(a, b[1..])))
  }

  /**
   * `[p for p in phrases if p in text]`: the phrases that occur in `text`,
   * each kept in the position it has in `phrases`.
   */
  function Occurring(phrases: seq<string>, text: string): (r: seq<string>)
    ensures forall p :: p in r <==> p in phrases && Contains(text, p)
    ensures IsSubsequence(r, phrases)
    ensures |r| <= |phrases|
  {
    if phrases == [] then []
    else if Contains(text, phrases[0]) then [phrases[0]] + Occurring(phrases[1..], text)
    else Occurring(phrases[1..], text)
  }

  /** Filtering a list extended at the end extends the filtered list at the end, if at all. */
  lemma {:induction false} OccurringSnoc(phrases: seq<string>, x: string, text: string)
    ensures Occurring(phrases + [x], text)
         == Occurring(phrases, text) + (if Contains(text, x) then [x] else [])
  {
    if phrases == [] {
      assert phrases + [x] == [x];
    } else {
      assert (phrases + [x])[1..] == phrases[1..] + [x];
      OccurringSnoc(phrases[1..], x, text);
    }
  }

  /** The positions of `phrases` whose phrase occurs in `text`. */
  function OccurringPositions(phrases: seq<string>, text: string): set<int> {
    set i | 0 <= i < |phrases| && Contains(text, phrases[i])
  }

  /** The filtered list has one entry per position whose phrase occurs (a phrase listed twice counts twice). */
  lemma {:induction false} OccurringCount(phrases: seq<string>, text: string)
    ensures |Occurring(phrases, text)| == |OccurringPositions(phrases, text)|
  {
    if phrases == [] {
      assert OccurringPositions(phrases, text) == {};
    } else {
      var init := phrases[..|phrases| - 1];
      var x := phrases[|phrases| - 1];
      assert phrases == init + [x];
      OccurringSnoc(init, x, text);
      OccurringCount(init, text);
      var before := OccurringPositions(init, text);
      var last: set<int> := if Contains(text, x) then {|init|} else {};
      forall i | 0 <= i < |init|
        ensures phrases[i] == init[i]
      {
      }
      assert OccurringPositions(phrases, text) == before + last;
      assert |init| !in before;
    }
  }

  /** `any(p in text for p in phrases)`. */
  predicate AnyOccurs(phrases: seq<string>, text: string) {
    exists p :: p in phrases && Contains(text, p)
  }

  /** No phrase occurs exactly when the filtered list is empty. */
  lemma OccurringEmptyIff(phrases: seq<string>, text: string)
    ensures Occurring(phrases, text) == [] <==> !AnyOccurs(phrases, text)
  {
    var r := Occurring(phrases, text);
    if r != [] {
      assert r[0] in r;
    }
  }

  /** `sep.join(parts)`. */
  function Join(parts: seq<string>, sep: string): string {
    if parts == [] then ""
    else if |parts| == 1 then parts[0]
    else parts[0] + sep + Join(parts[1..], sep)
  }
}

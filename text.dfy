/** Character-level helpers: ASCII case folding, alphanumeric filtering and substring search. */
module Text {

  predicate IsAlnum(c: char) {
    'a' <= c <= 'z' || 'A' <= c <= 'Z' || '0' <= c <= '9'
  }

  predicate AllAlnum(s: string) {
    forall i :: 0 <= i < |s| ==> IsAlnum(s[i])
  }

  function Min(a: nat, b: nat): nat {
    if a <= b then a else b
  }

  /** `String.prototype.toLowerCase` restricted to ASCII. */
  function LowerChar(c: char): (d: char)
    ensures 'A' <= c <= 'Z' ==> d as int == c as int + 32
    ensures !('A' <= c <= 'Z') ==> d == c
  {
    if 'A' <= c <= 'Z' then (c as int + 32) as char else c
  }

  function Lower(s: string): (r: string)
    ensures |r| == |s|
    ensures forall i :: 0 <= i < |s| ==> r[i] == LowerChar(s[i])
  {
    if s == [] then [] else [LowerChar(s[0])] + Lower(s[1..])
  }

  /** A string that lower-casing leaves as it is. */
  predicate IsLower(s: string) {
    Lower(s) == s
  }

  lemma LowerIsLower(s: string)
    ensures IsLower(Lower(s))
  {
  }

  /** A string differs from its lower-cased form exactly when it holds an upper-case ASCII letter. */
  lemma MixedCaseIffUpper(s: string)
    ensures !IsLower(s) <==> exists i :: 0 <= i < |s| && 'A' <= s[i] <= 'Z'
  {
  }

  /** `s.replace(/[^a-zA-Z0-9]/g, "")`: the alphanumeric characters of `s`, in order. */
  function FilterAlnum(s: string): (r: string)
    ensures AllAlnum(r)
    ensures |r| <= |s|
  {
    if s == [] then []
    else
      assert s == [s[0]] + s[1..];
      if IsAlnum(s[0]) then [s[0]] + FilterAlnum(s[1..]) else FilterAlnum(s[1..])
  }

  /** The filter keeps every alphanumeric character of its input, each as often as it occurs. */
  lemma {:induction false} FilterAlnumKeepsCounts(s: string)
    ensures forall c :: IsAlnum(c) ==> multiset(FilterAlnum(s))[c] == multiset(s)[c]
  {
    if s != [] {
      assert s == [s[0]] + s[1..];
      FilterAlnumKeepsCounts(s[1..]);
    }
  }

  /** The filter keeps every character of an all-alphanumeric string. */
  lemma {:induction false} FilterAlnumKeepsAlnum(s: string)
    requires AllAlnum(s)
    ensures FilterAlnum(s) == s
  {
    if s != [] {
      FilterAlnumKeepsAlnum(s[1..]);
    }
  }

  /** A single character is kept exactly when it is alphanumeric. */
  lemma FilterAlnumChar(c: char)
    ensures FilterAlnum([c]) == if IsAlnum(c) then [c] else []
  {
  }

  /** The filter on a string with first character `c`. */
  lemma FilterAlnumCons(c: char, t: string)
    ensures FilterAlnum([c] + t) == (if IsAlnum(c) then [c] else []) + FilterAlnum(t)
  {
    var s := [c] + t;
    assert s[0] == c && s[1..] == t;
  }

  /**
   * The filter works character by character and keeps the order of what it keeps: with
   * `FilterAlnumChar` this determines the result for every input.
   */
  lemma {:induction false} FilterAlnumAppend(a: string, b: string)
    ensures FilterAlnum(a + b) == FilterAlnum(a) + FilterAlnum(b)
  {
    if a == [] {
      assert a + b == b;
    } else {
      var c, t := a[0], a[1..];
      var keep := if IsAlnum(c) then [c] else [];
      calc {
        FilterAlnum(a + b);
      == { assert a + b == [c] + (t + b); FilterAlnumCons(c, t + b); }
        keep + FilterAlnum(t + b);
      == { FilterAlnumAppend(t, b); }
        keep + (FilterAlnum(t) + FilterAlnum(b));
      == // concatenation is associative
        (keep + FilterAlnum(t)) + FilterAlnum(b);
      == { assert a == [c] + t; FilterAlnumCons(c, t); }
        FilterAlnum(a) + FilterAlnum(b);
      }
    }
  }

  /** `needle` stands in `hay` starting at index `i`. */
  predicate OccursAt(needle: string, hay: string, i: nat) {
    i + |needle| <= |hay| && hay[i..i + |needle|] == needle
  }

  /** A window of `hay` starting at `i >= 1` is the same window of `hay[1..]` one index earlier. */
  lemma SliceOfTail(hay: string, i: nat, n: nat)
    requires 1 <= i && i + n <= |hay|
    ensures hay[i..i + n] == hay[1..][i - 1..i - 1 + n]
  {
  }

  /** Whether `needle` occurs in `hay` as a contiguous substring: a literal `$regex`. */
  function Occurs(needle: string, hay: string): (b: bool)
    ensures b <==> exists i: nat :: OccursAt(needle, hay, i)
    decreases |hay|
  {
    if needle <= hay then
      assert OccursAt(needle, hay, 0);
      true
    else if |hay| <= |needle| then
      assert forall i: nat :: OccursAt(needle, hay, i) ==> i == 0 && needle <= hay;
      false
    else
      var r := Occurs(needle, hay[1..]);
      forall i: nat | i >= 1
        ensures OccursAt(needle, hay, i) <==> OccursAt(needle, hay[1..], i - 1)
      {
        if i + |needle| <= |hay| {
          SliceOfTail(hay, i, |needle|);
        }
      }
      assert !OccursAt(needle, hay, 0);
      assert r ==> OccursAt(needle, hay, (var j: nat :| OccursAt(needle, hay[1..], j); j) + 1);
      r
  }

  /** Case-insensitive substring match over ASCII: `{ $regex: needle, $options: 'i' }`. */
  predicate MatchesIgnoreCase(hay: string, needle: string) {
    Occurs(Lower(needle), Lower(hay))
  }

  /** The empty search string matches every destination. */
  lemma EmptyNeedleMatches(hay: string)
    ensures MatchesIgnoreCase(hay, "")
  {
  }
}

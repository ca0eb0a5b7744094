/** The string operations the application relies on: `String.prototype.trim`,
    JavaScript truthiness of an optional string, and the case-insensitive
    substring match behind Spring Data's `ContainingIgnoreCase`. Whitespace and
    case folding are restricted to ASCII. */
module Text {
  import opened Base

  predicate IsSpace(c: char) {
    c == ' ' || c == '\t' || c == '\n' || c == '\r' || c == '\U{000B}' || c == '\U{000C}'
  }

  /** Nothing but whitespace (this includes the empty string). */
  predicate IsBlank(s: string) {
    forall i :: 0 <= i < |s| ==> IsSpace(s[i])
  }

  /** Neither starts nor ends with whitespace. */
  predicate IsTrimmed(s: string) {
    s != [] ==> !IsSpace(s[0]) && !IsSpace(s[|s| - 1])
  }

  /** The first index at or after `from` that is not whitespace, or `|s|`. */
  function SkipSpaces(s: string, from: nat): (k: nat)
    requires from <= |s|
    ensures from <= k <= |s|
    ensures forall j :: from <= j < k ==> IsSpace(s[j])
    ensures k < |s| ==> !IsSpace(s[k])
    decreases |s| - from
  {
    if from < |s| && IsSpace(s[from]) then SkipSpaces(s, from + 1) else from
  }

  /** The end of `s[lo..hi]` once its trailing whitespace is dropped. */
  function DropTrailingSpaces(s: string, lo: nat, hi: nat): (e: nat)
    requires lo <= hi <= |s|
    ensures lo <= e <= hi
    ensures forall j :: e <= j < hi ==> IsSpace(s[j])
    ensures e > lo ==> !IsSpace(s[e - 1])
    decreases hi
  {
    if hi > lo && IsSpace(s[hi - 1]) then DropTrailingSpaces(s, lo, hi - 1) else hi
  }

  /** `r` is `s` with a blank block of length `i` removed in front and a
      blank block removed behind. */
  ghost predicate StripsTo(s: string, r: string, i: int) {
    && 0 <= i && i + |r| <= |s|
    && (forall j :: 0 <= j < i ==> IsSpace(s[j]))
    && (forall j :: 0 <= j < |r| ==> r[j] == s[i + j])
    && (forall j :: i + |r| <= j < |s| ==> IsSpace(s[j]))
  }

  /** `s.trim()`: `s` without its leading and trailing whitespace. */
  function Trim(s: string): (r: string)
    ensures r == [] <==> IsBlank(s)
    ensures IsTrimmed(r)
    ensures exists i :: StripsTo(s, r, i)
  {
    var i := SkipSpaces(s, 0);
    var e := DropTrailingSpaces(s, i, |s|);
    assert StripsTo(s, s[i..e], i);
    s[i..e]
  }

  /** A string with no outer whitespace is its own trim. */
  lemma TrimOfTrimmed(r: string)
    requires IsTrimmed(r)
    ensures Trim(r) == r
  {
    if r != [] {
      assert SkipSpaces(r, 0) == 0;
      assert DropTrailingSpaces(r, 0, |r|) == |r|;
    }
  }

  /** Trimming twice is trimming once. */
  lemma TrimIdempotent(s: string)
    ensures Trim(Trim(s)) == Trim(s)
  {
    TrimOfTrimmed(Trim(s));
  }

  /** JavaScript truthiness of a string that may be null: present and non-empty. */
  predicate Truthy(o: Option<string>) {
    o.Some? && o.value != []
  }

  /** `o || ''`: the string itself when truthy, otherwise the empty string. */
  function OrEmpty(o: Option<string>): (r: string)
    ensures Truthy(o) ==> r == o.value
    ensures !Truthy(o) ==> r == []
  {
    if o.Some? then o.value else []
  }

  function LowerChar(c: char): (d: char)
    ensures 'A' <= c <= 'Z' ==> d as int == c as int + 32
    ensures !('A' <= c <= 'Z') ==> d == c
  {
    if 'A' <= c <= 'Z' then (c as int + 32) as char else c
  }

  /** ASCII lower-casing, character by character. */
  function ToLower(s: string): (r: string)
    ensures |r| == |s|
    ensures forall i :: 0 <= i < |s| ==> r[i] == LowerChar(s[i])
  {
    if s == [] then [] else [LowerChar(s[0])] + ToLower(s[1..])
  }

  /** Lower-casing twice is lower-casing once. */
  lemma ToLowerIdempotent(s: string)
    ensures ToLower(ToLower(s)) == ToLower(s)
  {
  }

  /** `needle` occurs in `hay` as a contiguous block. */
  function Contains(hay: string, needle: string): (b: bool)
  {
    needle <= hay || (hay != [] && Contains(hay[1..], needle))
  }

  /** `needle` occurs in `hay` starting at offset `i`. */
  ghost predicate OccursAt(hay: string, needle: string, i: int) {
    0 <= i <= |hay| - |needle| && hay[i..i + |needle|] == needle
  }

  /** `Contains` is the occurrence of `needle` at some offset of `hay`. */
  lemma {:induction false} ContainsAt(hay: string, needle: string)
    ensures Contains(hay, needle) <==> exists i :: OccursAt(hay, needle, i)
  {
    if needle <= hay {
      assert OccursAt(hay, needle, 0);
    } else if hay == [] {
    } else {
      ContainsAt(hay[1..], needle);
      if exists i :: OccursAt(hay, needle, i) {
        var i :| OccursAt(hay, needle, i);
        assert i != 0;
        OccursShift(hay, needle, i);
      }
      if Contains(hay[1..], needle) {
        var i :| OccursAt(hay[1..], needle, i);
        OccursUnshift(hay, needle, i);
      }
    }
  }

  lemma OccursShift(hay: string, needle: string, i: int)
    requires hay != [] && 1 <= i && OccursAt(hay, needle, i)
    ensures OccursAt(hay[1..], needle, i - 1)
  {
    assert hay[1..][i - 1..i - 1 + |needle|] == hay[i..i + |needle|];
  }

  lemma OccursUnshift(hay: string, needle: string, i: int)
    requires hay != [] && OccursAt(hay[1..], needle, i)
    ensures OccursAt(hay, needle, i + 1)
  {
    assert hay[i + 1..i + 1 + |needle|] == hay[1..][i..i + |needle|];
  }

  /** The match `nombre LIKE %t%` ignoring case. */
  predicate ContainsIgnoringCase(hay: string, needle: string) {
    Contains(ToLower(hay), ToLower(needle))
  }

  lemma {:induction false} ContainsMatchesIgnoringCase(hay: string, needle: string)
    requires Contains(hay, needle)
    ensures ContainsIgnoringCase(hay, needle)
  {
    ContainsAt(hay, needle);
    var i :| OccursAt(hay, needle, i);
    assert ToLower(hay)[i..i + |needle|] == ToLower(needle);
    assert OccursAt(ToLower(hay), ToLower(needle), i);
    ContainsAt(ToLower(hay), ToLower(needle));
  }
}

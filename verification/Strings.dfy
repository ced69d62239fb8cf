/** Searching, removing and trimming in strings. */
module Strings {
  import opened Trimming

  /** The code points with the Unicode White_Space property, as ranges. */
  function SpaceRange(k: nat): (nat, nat)
    requires k < 10
  {
    match k
    case 0 => (0x9, 0xD)
    case 1 => (0x20, 0x20)
    case 2 => (0x85, 0x85)
    case 3 => (0xA0, 0xA0)
    case 4 => (0x1680, 0x1680)
    case 5 => (0x2000, 0x200A)
    case 6 => (0x2028, 0x2029)
    case 7 => (0x202F, 0x202F)
    case 8 => (0x205F, 0x205F)
    case _ => (0x3000, 0x3000)
  }

  predicate InSpaceRanges(c: char, count: nat)
    requires count <= 10
  {
    count > 0 && (SpaceRange(count - 1).0 <= c as int <= SpaceRange(count - 1).1 || InSpaceRanges(c, count - 1))
  }

  predicate IsSpace(c: char) {
    InSpaceRanges(c, 10)
  }

  /** The twenty-five characters. */
  lemma SpacesAre(c: char)
    ensures IsSpace(c) <==>
      c as int in {0x9, 0xA, 0xB, 0xC, 0xD, 0x20, 0x85, 0xA0, 0x1680, 0x2000, 0x2001, 0x2002, 0x2003, 0x2004, 0x2005, 0x2006,
                   0x2007, 0x2008, 0x2009, 0x200A, 0x2028, 0x2029, 0x202F, 0x205F, 0x3000}
  {
    assert InSpaceRanges(c, 10) <==> (0x3000 == c as int || 0x205F == c as int || InSpaceRanges(c, 8));
    assert InSpaceRanges(c, 8) <==> (0x202F == c as int || 0x2028 <= c as int <= 0x2029 || InSpaceRanges(c, 6));
    assert InSpaceRanges(c, 6) <==> (0x2000 <= c as int <= 0x200A || 0x1680 == c as int || InSpaceRanges(c, 4));
    assert InSpaceRanges(c, 4) <==> (0xA0 == c as int || 0x85 == c as int || InSpaceRanges(c, 2));
    assert InSpaceRanges(c, 2) <==> (0x20 == c as int || 0x9 <= c as int <= 0xD || InSpaceRanges(c, 0));
  }

  function TrimEnd(s: string): string {
    DropEnd(s, IsSpace)
  }

  function Trim(s: string): string {
    Strip(s, IsSpace)
  }

  // ----- Searching -----

  predicate OccursAt(s: string, i: nat, m: string) {
    i + |m| <= |s| && s[i..i + |m|] == m
  }

  predicate Contains(s: string, m: string) {
    exists i: nat :: i <= |s| && OccursAt(s, i, m)
  }

  /** The first occurrence of `m` at or after `from`, or -1. */
  function FindFrom(s: string, m: string, from: nat): (r: int)
    requires from <= |s|
    ensures -1 <= r <= |s| && (r >= 0 ==> from <= r && OccursAt(s, r, m))
    ensures forall i: nat :: from <= i <= |s| && (r < 0 || i < r) ==> !OccursAt(s, i, m)
    decreases |s| - from
  {
    if OccursAt(s, from, m) then from
    else if from == |s| then -1
    else FindFrom(s, m, from + 1)
  }

  /** The first occurrence of `m`, or -1. */
  function Find(s: string, m: string): (r: int)
    ensures -1 <= r <= |s| && (r >= 0 ==> OccursAt(s, r, m))
    ensures forall i: nat :: i <= |s| && (r < 0 || i < r) ==> !OccursAt(s, i, m)
  {
    FindFrom(s, m, 0)
  }

  lemma FindIs(s: string, m: string, k: nat)
    requires k <= |s| && OccursAt(s, k, m) && forall i: nat :: i < k ==> !OccursAt(s, i, m)
    ensures Find(s, m) == k
  {
  }

  /** No occurrence of `m` in `a + rest` begins inside `a`. */
  predicate NoneStarts(a: string, rest: string, m: string) {
    forall i: nat :: i < |a| ==> !OccursAt(a + rest, i, m)
  }

  lemma OccursShift(a: string, rest: string, i: nat, m: string)
    requires i <= |rest|
    ensures OccursAt(a + rest, |a| + i, m) <==> OccursAt(rest, i, m)
  {
    if i + |m| <= |rest| {
      assert (a + rest)[|a| + i..|a| + i + |m|] == rest[i..i + |m|];
    }
  }

  /** A search skips a part where nothing begins. */
  lemma FindSkips(a: string, rest: string, m: string)
    requires NoneStarts(a, rest, m)
    ensures Find(a + rest, m) == (if Find(rest, m) < 0 then -1 else |a| + Find(rest, m))
  {
    forall i: nat | i <= |rest| ensures OccursAt(a + rest, |a| + i, m) <==> OccursAt(rest, i, m) {
      OccursShift(a, rest, i, m);
    }
    if Find(rest, m) >= 0 {
      var k := |a| + Find(rest, m);
      forall i: nat | i < k ensures !OccursAt(a + rest, i, m) {
        if i >= |a| {
          assert !OccursAt(rest, i - |a|, m);
        }
      }
      FindIs(a + rest, m, k);
    } else {
      forall i: nat | i <= |a + rest| ensures !OccursAt(a + rest, i, m) {
        if i >= |a| {
          assert !OccursAt(rest, i - |a|, m);
        }
      }
    }
  }

  /** `s` without the occurrences of `m`, found left to right. */
  function Remove(s: string, m: string): string
    requires m != ""
    decreases |s|
  {
    var i := Find(s, m);
    if i < 0 then s else s[..i] + Remove(s[i + |m|..], m)
  }

  /** Non-overlapping occurrences of `m`, found left to right. */
  function Count(s: string, m: string): nat
    requires m != ""
    decreases |s|
  {
    var i := Find(s, m);
    if i < 0 then 0 else 1 + Count(s[i + |m|..], m)
  }

  // ----- Markers begin with '<' and nowhere else have one -----

  predicate Plain(s: string) {
    forall i :: 0 <= i < |s| ==> s[i] != '<'
  }

  predicate IsMarker(m: string) {
    m != "" && m[0] == '<' && Plain(m[1..])
  }

  lemma PlainHasNone(a: string, rest: string, m: string)
    requires Plain(a) && IsMarker(m)
    ensures NoneStarts(a, rest, m)
  {
    forall i: nat | i < |a| ensures !OccursAt(a + rest, i, m) {
      assert (a + rest)[i] == a[i];
      OccursFirst(a + rest, i, m);
    }
  }

  lemma OccursFirst(s: string, i: nat, m: string)
    requires m != "" && i < |s|
    ensures OccursAt(s, i, m) ==> s[i] == m[0]
  {
    assert OccursAt(s, i, m) ==> s[i] == s[i..i + |m|][0];
  }
}

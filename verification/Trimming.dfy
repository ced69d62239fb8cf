/** Dropping elements from the ends of a sequence, for any notion of blank. */
module Trimming {
  /** Where the trailing blanks of the first `k` elements begin. */
  function KeptEnd<T>(s: seq<T>, blank: T -> bool, k: nat): (r: nat)
    requires k <= |s|
    ensures r <= k && (r > 0 ==> !blank(s[r - 1])) && forall i :: r <= i < k ==> blank(s[i])
  {
    if k > 0 && blank(s[k - 1]) then KeptEnd(s, blank, k - 1) else k
  }

  /** Where the blanks from `k` on end. */
  function KeptStart<T>(s: seq<T>, blank: T -> bool, k: nat): (r: nat)
    requires k <= |s|
    ensures k <= r <= |s| && (r < |s| ==> !blank(s[r])) && forall i :: k <= i < r ==> blank(s[i])
    decreases |s| - k
  {
    if k < |s| && blank(s[k]) then KeptStart(s, blank, k + 1) else k
  }

  function DropEnd<T>(s: seq<T>, blank: T -> bool): (r: seq<T>)
    ensures r <= s
    ensures r != [] ==> !blank(r[|r| - 1])
    ensures forall i :: |r| <= i < |s| ==> blank(s[i])
  {
    s[..KeptEnd(s, blank, |s|)]
  }

  function DropStart<T>(s: seq<T>, blank: T -> bool): (r: seq<T>)
    ensures |r| <= |s| && r == s[|s| - |r|..]
    ensures r != [] ==> !blank(r[0])
    ensures forall i :: 0 <= i < |s| - |r| ==> blank(s[i])
  {
    s[KeptStart(s, blank, 0)..]
  }

  function Strip<T>(s: seq<T>, blank: T -> bool): seq<T> {
    DropEnd(DropStart(s, blank), blank)
  }

  lemma DropEndIs<T>(s: seq<T>, blank: T -> bool, k: nat)
    requires k <= |s| && (forall i :: k <= i < |s| ==> blank(s[i])) && (k == 0 || !blank(s[k - 1]))
    ensures DropEnd(s, blank) == s[..k]
  {
    var r := DropEnd(s, blank);
    assert r != [] ==> !blank(s[|r| - 1]);
    assert |r| == k;
  }

  lemma DropStartIs<T>(s: seq<T>, blank: T -> bool, j: nat)
    requires j <= |s| && (forall i :: 0 <= i < j ==> blank(s[i])) && (j == |s| || !blank(s[j]))
    ensures DropStart(s, blank) == s[j..]
  {
    var r := DropStart(s, blank);
    assert r != [] ==> !blank(s[|s| - |r|]);
    assert |s| - |r| == j;
  }

  /** Stripping keeps the part between the first and last elements that are not blank. */
  lemma StripIs<T>(s: seq<T>, blank: T -> bool, j: nat, k: nat)
    requires j < k <= |s| && !blank(s[j]) && !blank(s[k - 1])
    requires (forall i :: 0 <= i < j ==> blank(s[i])) && forall i :: k <= i < |s| ==> blank(s[i])
    ensures Strip(s, blank) == s[j..k]
  {
    DropStartIs(s, blank, j);
    DropEndIs(s[j..], blank, k - j);
  }

  lemma StripBlank<T>(s: seq<T>, blank: T -> bool)
    requires forall i :: 0 <= i < |s| ==> blank(s[i])
    ensures Strip(s, blank) == []
  {
    DropStartIs(s, blank, |s|);
  }

  /** A prefix stays a prefix when both ends are dropped. */
  lemma DropEndGrows<T>(a: seq<T>, b: seq<T>, blank: T -> bool)
    requires a <= b
    ensures DropEnd(a, blank) <= DropEnd(b, blank)
  {
    var x, y := DropEnd(a, blank), DropEnd(b, blank);
    assert x != [] ==> !blank(b[|x| - 1]);
    assert |x| <= |y|;
  }

  lemma StripGrows<T>(a: seq<T>, b: seq<T>, blank: T -> bool)
    requires a <= b
    ensures Strip(a, blank) <= Strip(b, blank)
  {
    var start := DropStart(a, blank);
    var j := |a| - |start|;
    if j < |a| {
      assert !blank(start[0]) && start[0] == a[j] == b[j];
      DropStartIs(b, blank, j);
      DropEndGrows(a[j..], b[j..], blank);
    }
  }

  lemma StripOfDropEnd<T>(s: seq<T>, blank: T -> bool)
    ensures Strip(DropEnd(s, blank), blank) == Strip(s, blank)
  {
    var start, e := DropStart(s, blank), DropEnd(s, blank);
    var j := |s| - |start|;
    if j == |s| {
      StripBlank(s, blank);
      StripBlank(e, blank);
    } else {
      assert start[0] == s[j];
      StripIs(s, blank, j, |e|);
      StripIs(e, blank, j, |e|);
    }
  }
}

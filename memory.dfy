// Buffers: host memory and mapped GPU memory are both arrays, and memcpy
// (or a run of pointer-increment stores) overwrites a window of them.

module Memory {

  /** The elements of s after copying src over them starting at offset at. */
  function Overwrite<T>(s: seq<T>, at: nat, src: seq<T>): (r: seq<T>)
    requires at + |src| <= |s|
    ensures |r| == |s|
    ensures r[at..at + |src|] == src
    ensures forall k :: 0 <= k < |s| && !(at <= k < at + |src|) ==> r[k] == s[k]
  {
    s[..at] + src + s[at + |src|..]
  }

  /** Two copies side by side write what one copy of both would. */
  lemma OverwriteThen<T>(s: seq<T>, at: nat, x: seq<T>, y: seq<T>)
    requires at + |x| + |y| <= |s|
    ensures Overwrite(Overwrite(s, at, x), at + |x|, y) == Overwrite(s, at, x + y)
  {
    var lhs, rhs := Overwrite(Overwrite(s, at, x), at + |x|, y), Overwrite(s, at, x + y);
    forall k | 0 <= k < |s| ensures lhs[k] == rhs[k] {
      if at <= k < at + |x| {
        assert rhs[k] == rhs[at..at + |x| + |y|][k - at];
        assert Overwrite(s, at, x)[k] == Overwrite(s, at, x)[at..at + |x|][k - at];
      } else if at + |x| <= k < at + |x| + |y| {
        assert rhs[k] == rhs[at..at + |x| + |y|][k - at];
        assert lhs[k] == lhs[at + |x|..at + |x| + |y|][k - at - |x|];
      }
    }
  }

  /** Overwriting a whole sequence from its start leaves only the copy. */
  lemma OverwriteAll<T>(s: seq<T>, src: seq<T>)
    requires |src| == |s|
    ensures Overwrite(s, 0, src) == src
  {
  }

  /** A copy leaves every window it does not overlap as it was. */
  lemma OverwriteElsewhere<T>(s: seq<T>, at: nat, src: seq<T>, lo: nat, hi: nat)
    requires at + |src| <= |s|
    requires lo <= hi <= |s| && (hi <= at || at + |src| <= lo)
    ensures Overwrite(s, at, src)[lo..hi] == s[lo..hi]
  {
    var r := Overwrite(s, at, src);
    forall k | lo <= k < hi ensures r[k] == s[k] {
    }
  }

  /** Any window of the copy reads back from the same window of the source. */
  lemma OverwriteWindow<T>(s: seq<T>, at: nat, src: seq<T>, lo: nat, hi: nat)
    requires at + |src| <= |s| && lo <= hi <= |src|
    ensures Overwrite(s, at, src)[at + lo..at + hi] == src[lo..hi]
  {
    var r := Overwrite(s, at, src);
    assert r[at..at + |src|] == src;
    assert r[at + lo..at + hi] == r[at..at + |src|][lo..hi];
  }

  /** Copying the same bytes to the same place twice writes what one copy does. */
  lemma OverwriteTwice<T>(s: seq<T>, at: nat, src: seq<T>)
    requires at + |src| <= |s|
    ensures Overwrite(Overwrite(s, at, src), at, src) == Overwrite(s, at, src)
  {
    var once := Overwrite(s, at, src);
    var twice := Overwrite(once, at, src);
    forall k | 0 <= k < |s| ensures twice[k] == once[k] {
      if at <= k < at + |src| {
        assert twice[k] == twice[at..at + |src|][k - at];
        assert once[k] == once[at..at + |src|][k - at];
      }
    }
  }

  /** memcpy(&dst[at], src, |src|). */
  method Memcpy<T>(dst: array<T>, at: nat, src: seq<T>)
    requires at + |src| <= dst.Length
    modifies dst
    ensures dst[..] == Overwrite(old(dst[..]), at, src)
  {
    var k := 0;
    while k < |src|
      invariant 0 <= k <= |src|
      invariant forall t :: 0 <= t < dst.Length ==>
        dst[t] == (if at <= t < at + k then src[t - at] else old(dst[t]))
    {
      dst[at + k] := src[k];
      k := k + 1;
    }
    assert dst[..] == Overwrite(old(dst[..]), at, src);
  }
}

// Bloom: a chain of downsample compute passes followed by as many upsample
// passes, ping-ponging between two intermediate textures, and an additive
// overlay of whichever texture the last pass left to be read. Each pass
// dispatches only when both of its work-group counts are at least 2, and the
// read and target textures are swapped after every dispatch.

module Bloom {
  import opened GLTypes

  /** The colour texture being bloomed and the two intermediate targets. */
  datatype Textures = Textures(color: nat, intermediate0: nat, intermediate1: nat)

  /** The texture a pass samples and the texture it writes as an image. */
  datatype PingPong = PingPong(read: nat, target: nat)

  datatype Phase = Downsample | Upsample

  /** One compute dispatch of the bloom chain. */
  datatype Dispatch = Dispatch(phase: Phase, pass: nat, read: nat, target: nat, groupsX: nat, groupsY: nat)

  /** What render(framebuffer, color) does: its dispatches, and the texture the overlay samples if it runs. */
  datatype BloomFrame = BloomFrame(dispatches: seq<Dispatch>, overlay: Option<nat>)

  /** The work-group count of a pass: the full-size count divided by the pass's scale, rounded down. */
  function Reduced(base: nat, divisor: nat): nat
    requires divisor > 0
  {
    base / divisor
  }

  function Swap(p: PingPong): PingPong { PingPong(p.target, p.read) }

  /**
   * One pass with work-group counts gx, gy: it dispatches, reading p.read and
   * writing p.target, exactly when both counts are at least 2, and the pair
   * is swapped exactly when it dispatches.
   */
  function Pass(p: PingPong, phase: Phase, i: nat, gx: nat, gy: nat): (r: (PingPong, seq<Dispatch>))
    ensures gx >= 2 && gy >= 2 ==> r.0 == Swap(p) && r.1 == [Dispatch(phase, i, p.read, p.target, gx, gy)]
    ensures !(gx >= 2 && gy >= 2) ==> r.0 == p && r.1 == []
  {
    if gx >= 2 && gy >= 2 then (Swap(p), [Dispatch(phase, i, p.read, p.target, gx, gy)]) else (p, [])
  }

  /** Downsample pass i: from pass 1 on, the chain restarts on the two intermediate textures. */
  function DownPass(t: Textures, p: PingPong, i: nat, baseX: nat, baseY: nat): (PingPong, seq<Dispatch>)
  {
    var q := if i == 1 then PingPong(t.intermediate0, t.intermediate1) else p;
    Pass(q, Downsample, i, Reduced(baseX, Pow2(i + 1)), Reduced(baseY, Pow2(i + 1)))
  }

  /** The pair and the dispatches after the first k downsample passes; pass 0 reads the colour texture. */
  function Down(t: Textures, baseX: nat, baseY: nat, k: nat): (PingPong, seq<Dispatch>)
  {
    if k == 0 then (PingPong(t.color, t.intermediate0), [])
    else
      var prev := Down(t, baseX, baseY, k - 1);
      var step := DownPass(t, prev.0, k - 1, baseX, baseY);
      (step.0, prev.1 + step.1)
  }

  /** Upsample pass i of n halves the divisor as it climbs back to full size. */
  function UpPass(p: PingPong, n: nat, i: nat, baseX: nat, baseY: nat): (PingPong, seq<Dispatch>)
    requires i < n
  {
    Pass(p, Upsample, i, Reduced(baseX, Pow2(n - i - 1)), Reduced(baseY, Pow2(n - i - 1)))
  }

  /** The pair and the dispatches after the first k of n upsample passes, starting from p. */
  function Up(p: PingPong, n: nat, baseX: nat, baseY: nat, k: nat): (PingPong, seq<Dispatch>)
    requires k <= n
  {
    if k == 0 then (p, [])
    else
      var prev := Up(p, n, baseX, baseY, k - 1);
      var step := UpPass(prev.0, n, k - 1, baseX, baseY);
      (step.0, prev.1 + step.1)
  }

  /** The whole frame: nothing at all without downsample passes. */
  function Frame(t: Textures, n: nat, baseX: nat, baseY: nat): BloomFrame
  {
    if n == 0 then BloomFrame([], None)
    else
      var down := Down(t, baseX, baseY, n);
      var up := Up(down.0, n, baseX, baseY, n);
      BloomFrame(down.1 + up.1, Some(up.0.read))
  }

  /** The pair holds the two intermediate textures, in either order. */
  predicate Intermediates(t: Textures, p: PingPong)
  {
    p == PingPong(t.intermediate0, t.intermediate1) || p == PingPong(t.intermediate1, t.intermediate0)
  }

  /** Dispatches none of which writes the colour texture. */
  predicate ColorUnwritten(t: Textures, ds: seq<Dispatch>)
  {
    forall k :: 0 <= k < |ds| ==> ds[k].target != t.color
  }

  lemma UnwrittenAppend(t: Textures, xs: seq<Dispatch>, ys: seq<Dispatch>)
    requires ColorUnwritten(t, xs) && ColorUnwritten(t, ys)
    ensures ColorUnwritten(t, xs + ys)
  {
    assert forall k :: 0 <= k < |xs + ys| ==> (xs + ys)[k] == if k < |xs| then xs[k] else ys[k - |xs|];
  }

  /** The downsample chain never writes the colour texture; from pass 2 on it only touches the intermediates. */
  lemma {:induction false} DownKeepsColor(t: Textures, baseX: nat, baseY: nat, k: nat)
    requires t.color != t.intermediate0 && t.color != t.intermediate1
    ensures ColorUnwritten(t, Down(t, baseX, baseY, k).1)
    ensures k >= 2 ==> Intermediates(t, Down(t, baseX, baseY, k).0)
  {
    if k > 0 {
      DownKeepsColor(t, baseX, baseY, k - 1);
      var prev := Down(t, baseX, baseY, k - 1);
      var step := DownPass(t, prev.0, k - 1, baseX, baseY);
      assert ColorUnwritten(t, step.1);
      UnwrittenAppend(t, prev.1, step.1);
    }
  }

  /** Upsampling from a pair of intermediates keeps to the intermediates. */
  lemma {:induction false} UpKeepsIntermediates(t: Textures, p: PingPong, n: nat, baseX: nat, baseY: nat, k: nat)
    requires k <= n && Intermediates(t, p)
    requires t.color != t.intermediate0 && t.color != t.intermediate1
    ensures Intermediates(t, Up(p, n, baseX, baseY, k).0)
    ensures ColorUnwritten(t, Up(p, n, baseX, baseY, k).1)
  {
    if k > 0 {
      UpKeepsIntermediates(t, p, n, baseX, baseY, k - 1);
      var prev := Up(p, n, baseX, baseY, k - 1);
      var step := UpPass(prev.0, n, k - 1, baseX, baseY);
      assert ColorUnwritten(t, step.1);
      UnwrittenAppend(t, prev.1, step.1);
    }
  }

  /**
   * With at least two downsample passes the colour texture is never an
   * image target, and the overlay samples one of the intermediates.
   */
  lemma ColorNeverWritten(t: Textures, n: nat, baseX: nat, baseY: nat)
    requires n >= 2
    requires t.color != t.intermediate0 && t.color != t.intermediate1
    ensures ColorUnwritten(t, Frame(t, n, baseX, baseY).dispatches)
    ensures var o := Frame(t, n, baseX, baseY).overlay;
      o.Some? && (o.value == t.intermediate0 || o.value == t.intermediate1)
  {
    var down := Down(t, baseX, baseY, n);
    DownKeepsColor(t, baseX, baseY, n);
    UpKeepsIntermediates(t, down.0, n, baseX, baseY, n);
    UnwrittenAppend(t, down.1, Up(down.0, n, baseX, baseY, n).1);
  }

  /**
   * With a single downsample pass that dispatches, the upsample pass that
   * follows writes into the colour texture itself (the swap after pass 0
   * made it the target).
   */
  lemma SinglePassWritesColor(t: Textures, baseX: nat, baseY: nat)
    requires baseX >= 4 && baseY >= 4
    ensures var f := Frame(t, 1, baseX, baseY);
      |f.dispatches| == 2 && f.dispatches[1].target == t.color && f.dispatches[1].read == t.intermediate0
  {
    assert Pow2(1) == 2 && Pow2(0) == 1;
    assert Reduced(baseX, 2) >= 2 && Reduced(baseY, 2) >= 2;
    var start := PingPong(t.color, t.intermediate0);
    assert Down(t, baseX, baseY, 0) == (start, []);
    assert DownPass(t, start, 0, baseX, baseY) == Pass(start, Downsample, 0, Reduced(baseX, 2), Reduced(baseY, 2));
    var down := Down(t, baseX, baseY, 1);
    assert down.1 == [Dispatch(Downsample, 0, t.color, t.intermediate0, Reduced(baseX, 2), Reduced(baseY, 2))];
    assert down.0 == PingPong(t.intermediate0, t.color);
    assert UpPass(down.0, 1, 0, baseX, baseY) == Pass(down.0, Upsample, 0, Reduced(baseX, 1), Reduced(baseY, 1));
    assert Reduced(baseX, 1) == baseX && Reduced(baseY, 1) == baseY;
    assert Up(down.0, 1, baseX, baseY, 0) == (down.0, []);
    var up := Up(down.0, 1, baseX, baseY, 1);
    assert up.1 == [Dispatch(Upsample, 0, t.intermediate0, t.color, baseX, baseY)];
  }

  /** Every dispatch has both counts at least 2, and downsample pass i divides by 2^(i+1). */
  lemma {:induction false} DownDispatchGroups(t: Textures, baseX: nat, baseY: nat, k: nat)
    ensures var ds := Down(t, baseX, baseY, k).1;
      && |ds| <= k
      && forall j :: 0 <= j < |ds| ==>
        ds[j].phase == Downsample && ds[j].pass < k
        && ds[j].groupsX == Reduced(baseX, Pow2(ds[j].pass + 1)) && ds[j].groupsY == Reduced(baseY, Pow2(ds[j].pass + 1))
        && ds[j].groupsX >= 2 && ds[j].groupsY >= 2
  {
    if k > 0 {
      DownDispatchGroups(t, baseX, baseY, k - 1);
    }
  }

  /** Upsample pass i of n divides by 2^(n-i-1). */
  lemma {:induction false} UpDispatchGroups(p: PingPong, n: nat, baseX: nat, baseY: nat, k: nat)
    requires k <= n
    ensures var ds := Up(p, n, baseX, baseY, k).1;
      && |ds| <= k
      && forall j :: 0 <= j < |ds| ==>
        ds[j].phase == Upsample && ds[j].pass < k
        && ds[j].groupsX == Reduced(baseX, Pow2(n - ds[j].pass - 1)) && ds[j].groupsY == Reduced(baseY, Pow2(n - ds[j].pass - 1))
        && ds[j].groupsX >= 2 && ds[j].groupsY >= 2
  {
    if k > 0 {
      UpDispatchGroups(p, n, baseX, baseY, k - 1);
    }
  }

  /** The downsample loop of render: n passes starting from the colour texture. */
  method DownsampleLoop(t: Textures, n: nat, baseX: nat, baseY: nat) returns (p: PingPong, dispatches: seq<Dispatch>)
    ensures (p, dispatches) == Down(t, baseX, baseY, n)
  {
    var readTexture, targetTexture := t.color, t.intermediate0;
    dispatches := [];
    var i := 0;
    while i < n
      invariant 0 <= i <= n
      invariant (PingPong(readTexture, targetTexture), dispatches) == Down(t, baseX, baseY, i)
    {
      ghost var step := DownPass(t, PingPong(readTexture, targetTexture), i, baseX, baseY);
      ghost var before := dispatches;
      if i == 1 {
        readTexture, targetTexture := t.intermediate0, t.intermediate1;
      }
      var groupsX, groupsY := Reduced(baseX, Pow2(i + 1)), Reduced(baseY, Pow2(i + 1));
      if groupsX >= 2 && groupsY >= 2 {
        dispatches := dispatches + [Dispatch(Downsample, i, readTexture, targetTexture, groupsX, groupsY)];
        readTexture, targetTexture := targetTexture, readTexture;
      }
      assert PingPong(readTexture, targetTexture) == step.0;
      assert dispatches == before + step.1;
      i := i + 1;
    }
    p := PingPong(readTexture, targetTexture);
  }

  /** The upsample loop of render: n passes continuing from the pair the downsample loop left. */
  method UpsampleLoop(start: PingPong, n: nat, baseX: nat, baseY: nat) returns (p: PingPong, dispatches: seq<Dispatch>)
    ensures (p, dispatches) == Up(start, n, baseX, baseY, n)
  {
    var readTexture, targetTexture := start.read, start.target;
    dispatches := [];
    var i := 0;
    while i < n
      invariant 0 <= i <= n
      invariant (PingPong(readTexture, targetTexture), dispatches) == Up(start, n, baseX, baseY, i)
    {
      ghost var step := UpPass(PingPong(readTexture, targetTexture), n, i, baseX, baseY);
      ghost var before := dispatches;
      var groupsX, groupsY := Reduced(baseX, Pow2(n - i - 1)), Reduced(baseY, Pow2(n - i - 1));
      if groupsX >= 2 && groupsY >= 2 {
        dispatches := dispatches + [Dispatch(Upsample, i, readTexture, targetTexture, groupsX, groupsY)];
        readTexture, targetTexture := targetTexture, readTexture;
      }
      assert PingPong(readTexture, targetTexture) == step.0;
      assert dispatches == before + step.1;
      i := i + 1;
    }
    p := PingPong(readTexture, targetTexture);
  }

  /**
   * render(framebuffer, color_texture) for a frame buffer of the given size:
   * returns at once without downsample passes; otherwise runs the downsample
   * and upsample loops and the overlay, which samples the last read texture.
   */
  method Render(t: Textures, nrDownSamples: nat, width: nat, height: nat, localX: nat, localY: nat)
    returns (frame: BloomFrame)
    requires localX > 0 && localY > 0
    ensures frame == Frame(t, nrDownSamples, CeilDiv(width, localX), CeilDiv(height, localY))
  {
    if nrDownSamples == 0 {
      return BloomFrame([], None);
    }
    var baseX, baseY := CeilDiv(width, localX), CeilDiv(height, localY);
    var down, downDispatches := DownsampleLoop(t, nrDownSamples, baseX, baseY);
    var up, upDispatches := UpsampleLoop(down, nrDownSamples, baseX, baseY);
    frame := BloomFrame(downDispatches + upDispatches, Some(up.read));
  }
}

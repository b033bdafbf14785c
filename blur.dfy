// Blur: a compute pass, box or Gaussian, dispatched a configurable number of
// times over one read-write texture, after which the frame buffer's first two
// colour attachments trade places (ping-pong).

module Blur {
  import opened GLTypes
  import P = PostProcessing

  /** The blur kernels render distinguishes; MaxBlur selects no program. */
  datatype BlurType = BoxBlur | GuassianBlur | MaxBlur

  datatype BlurProgram = BoxBlurProgram | GaussianBlurProgram

  /** The texture bound as an image and the unit it is bound to. */
  datatype ImageBinding = ImageBinding(unit: nat, texture: nat)

  /** What one render leaves behind: the program selected, the image binding, the dispatches. */
  datatype BlurTrace = BlurTrace(program: Option<BlurProgram>, image: Option<ImageBinding>, dispatches: seq<(nat, nat)>)

  /** Box blur writes through image unit 1, Gaussian blur reads and writes through unit 0. */
  function Selection(b: BlurType, texture: nat): (r: (Option<BlurProgram>, Option<ImageBinding>))
    ensures r.0.None? <==> b == MaxBlur
    ensures r.1.None? <==> b == MaxBlur
    ensures r.1.Some? ==> r.1.value.texture == texture
  {
    match b
    case BoxBlur => (Some(BoxBlurProgram), Some(ImageBinding(1, texture)))
    case GuassianBlur => (Some(GaussianBlurProgram), Some(ImageBinding(0, texture)))
    case MaxBlur => (None, None)
  }

  /** n copies of the same dispatch. */
  function Repeat(groups: (nat, nat), n: nat): seq<(nat, nat)>
  {
    if n == 0 then [] else Repeat(groups, n - 1) + [groups]
  }

  lemma {:induction false} RepeatContents(groups: (nat, nat), n: nat)
    ensures |Repeat(groups, n)| == n
    ensures forall k :: 0 <= k < n ==> Repeat(groups, n)[k] == groups
  {
    if n > 0 {
      RepeatContents(groups, n - 1);
    }
  }

  /** The dispatch loop: nrIterations dispatches (none if it is not positive), only when both counts are positive. */
  function IterationDispatches(groups: (nat, nat), nrIterations: int): seq<(nat, nat)>
  {
    if groups.0 > 0 && groups.1 > 0 && nrIterations > 0 then Repeat(groups, nrIterations) else []
  }

  /** Every dispatch covers the whole texture, and there are exactly max(nrIterations, 0) of them. */
  lemma DispatchCount(width: nat, height: nat, localX: nat, localY: nat, nrIterations: int)
    requires localX > 0 && localY > 0
    ensures var groups := (CeilDiv(width, localX), CeilDiv(height, localY));
      var ds := IterationDispatches(groups, nrIterations);
      && (width > 0 && height > 0 ==> |ds| == Max(nrIterations, 0))
      && (width == 0 || height == 0 ==> ds == [])
      && forall k :: 0 <= k < |ds| ==> ds[k].0 * localX >= width && ds[k].1 * localY >= height
  {
    var groups := (CeilDiv(width, localX), CeilDiv(height, localY));
    assert width > 0 ==> groups.0 > 0;
    assert height > 0 ==> groups.1 > 0;
    if nrIterations > 0 {
      RepeatContents(groups, nrIterations);
    }
  }

  /** The first two attachments swapped, the rest kept. */
  function SwapFirstTwo(s: seq<nat>): (r: seq<nat>)
    requires |s| >= 2
    ensures |r| == |s| && r[0] == s[1] && r[1] == s[0]
    ensures forall k :: 2 <= k < |s| ==> r[k] == s[k]
  {
    [s[1], s[0]] + s[2..]
  }

  /** Two blurs in a row leave the attachments where they were: the ping-pong is an involution. */
  lemma PingPongTwice(s: seq<nat>)
    requires |s| >= 2
    ensures SwapFirstTwo(SwapFirstTwo(s)) == s
  {
    var r := SwapFirstTwo(SwapFirstTwo(s));
    assert forall k :: 0 <= k < |s| ==> r[k] == s[k];
  }

  class BlurPostProcessing {
    const base: P.PostProcessing
    var blurType: BlurType
    var nrIterations: int
    var localWorkGroupSize: seq<int>

    /**
     * A new blur requires the colour and intermediate attachments, uses the
     * Gaussian kernel and runs one iteration.
     */
    constructor (colorAttachment: nat, intermediateAttachment: nat, workGroupSize: seq<int>)
      requires |workGroupSize| == 3
      ensures fresh(base)
      ensures base.requiredBuffer == [colorAttachment, intermediateAttachment] && base.intensity == 1.0
      ensures blurType == GuassianBlur && nrIterations == 1 && localWorkGroupSize == workGroupSize
    {
      var b := new P.PostProcessing();
      b.AddRequireBuffer(colorAttachment);
      b.AddRequireBuffer(intermediateAttachment);
      base := b;
      blurType := GuassianBlur;
      nrIterations := 1;
      localWorkGroupSize := workGroupSize;
    }

    /**
     * render(framebuffer, write_texture) for a texture of the given level-0
     * size: select the kernel, dispatch the iterations, swap attachments 0 and 1.
     */
    method Render(attachments: array<nat>, writeTexture: nat, width: nat, height: nat) returns (trace: BlurTrace)
      requires |localWorkGroupSize| == 3 && localWorkGroupSize[0] > 0 && localWorkGroupSize[1] > 0
      requires attachments.Length >= 2
      modifies attachments
      ensures (trace.program, trace.image) == Selection(blurType, writeTexture)
      ensures trace.dispatches == IterationDispatches(
        (CeilDiv(width, localWorkGroupSize[0] as nat), CeilDiv(height, localWorkGroupSize[1] as nat)), nrIterations)
      ensures attachments[..] == SwapFirstTwo(old(attachments[..]))
    {
      var program: Option<BlurProgram> := None;
      var image: Option<ImageBinding> := None;
      match blurType {
        case BoxBlur =>
          program, image := Some(BoxBlurProgram), Some(ImageBinding(1, writeTexture));
        case GuassianBlur =>
          program, image := Some(GaussianBlurProgram), Some(ImageBinding(0, writeTexture));
        case MaxBlur =>
      }
      var workGroupX := CeilDiv(width, localWorkGroupSize[0] as nat);
      var workGroupY := CeilDiv(height, localWorkGroupSize[1] as nat);
      var dispatches: seq<(nat, nat)> := [];
      if workGroupX > 0 && workGroupY > 0 {
        var it := 0;
        while it < nrIterations
          invariant 0 <= it <= Max(nrIterations, 0)
          invariant dispatches == Repeat((workGroupX, workGroupY), it)
        {
          dispatches := dispatches + [(workGroupX, workGroupY)];
          it := it + 1;
        }
      }
      trace := BlurTrace(program, image, dispatches);
      attachments[0], attachments[1] := attachments[1], attachments[0];
      assert attachments[..] == SwapFirstTwo(old(attachments[..]));
    }

    /**
     * draw: the base draw binds the render targets, then the blur renders
     * into the mapped intermediate target.
     */
    method Draw(attachments: array<nat>, renderTargets: seq<(nat, nat)>, intermediateTexture: nat,
                width: nat, height: nat) returns (bindings: P.DrawTrace, trace: BlurTrace)
      requires |localWorkGroupSize| == 3 && localWorkGroupSize[0] > 0 && localWorkGroupSize[1] > 0
      requires attachments.Length >= 2
      modifies attachments
      ensures |bindings.bindings| == |renderTargets|
      ensures forall i :: 0 <= i < |renderTargets| ==>
        bindings.bindings[i].unit == renderTargets[i].0 && bindings.bindings[i].texture == renderTargets[i].1
      ensures (trace.program, trace.image) == Selection(blurType, intermediateTexture)
      ensures trace.dispatches == IterationDispatches(
        (CeilDiv(width, localWorkGroupSize[0] as nat), CeilDiv(height, localWorkGroupSize[1] as nat)), nrIterations)
      ensures attachments[..] == SwapFirstTwo(old(attachments[..]))
    {
      bindings := base.Draw(renderTargets);
      trace := Render(attachments, intermediateTexture, width, height);
    }
  }
}

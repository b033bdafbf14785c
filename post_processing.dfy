// The base of every post-processing effect: the list of frame-buffer
// attachments the effect needs, its intensity, and the texture binding loop
// its draw starts with. G-buffer attachments are named by their enumerator
// value, which is also the texture unit they bind to.

module PostProcessing {

  /** One recorded texture-unit binding. */
  datatype TextureBinding = TextureBinding(unit: nat, texture: nat)

  /** What draw leaves bound: one texture per render target, then fill polygon mode. */
  datatype DrawTrace = DrawTrace(bindings: seq<TextureBinding>, polygonFill: bool)

  class PostProcessing {
    var requiredBuffer: seq<nat>
    var intensity: real

    /** A new effect requires no attachment and has intensity 1. */
    constructor ()
      ensures requiredBuffer == [] && intensity == 1.0
    {
      requiredBuffer := [];
      intensity := 1.0;
    }

    function GetIntensity(): (r: real)
      reads this
      ensures r == intensity
    {
      intensity
    }

    /** setItensity: the next getIntensity returns the value set, nothing else changes. */
    method SetIntensity(v: real)
      modifies this`intensity
      ensures GetIntensity() == v
    {
      intensity := v;
    }

    /** addRequireBuffer appends one attachment and keeps the ones already listed. */
    method AddRequireBuffer(buffer: nat)
      modifies this`requiredBuffer
      ensures |requiredBuffer| == |old(requiredBuffer)| + 1
      ensures requiredBuffer[..|old(requiredBuffer)|] == old(requiredBuffer)
      ensures requiredBuffer[|old(requiredBuffer)|] == buffer
    {
      requiredBuffer := requiredBuffer + [buffer];
    }

    /** removeRequireBuffer has an empty body: the list stays as it is. */
    method RemoveRequireBuffer(buffer: nat)
      ensures requiredBuffer == old(requiredBuffer)
    {
    }

    /**
     * draw(render_targets): binds every (target, texture) pair to the unit
     * that is the target's value, in list order, then selects fill mode.
     */
    method Draw(renderTargets: seq<(nat, nat)>) returns (trace: DrawTrace)
      ensures |trace.bindings| == |renderTargets|
      ensures forall i :: 0 <= i < |renderTargets| ==>
        trace.bindings[i].unit == renderTargets[i].0 && trace.bindings[i].texture == renderTargets[i].1
      ensures trace.polygonFill
    {
      var bindings: seq<TextureBinding> := [];
      var i := 0;
      while i < |renderTargets|
        invariant 0 <= i <= |renderTargets|
        invariant |bindings| == i
        invariant forall k :: 0 <= k < i ==>
          bindings[k].unit == renderTargets[k].0 && bindings[k].texture == renderTargets[k].1
      {
        var (target, texture) := renderTargets[i];
        bindings := bindings + [TextureBinding(target, texture)];
        i := i + 1;
      }
      trace := DrawTrace(bindings, true);
    }
  }
}

// The registry of post-processing effects: a list of effects with a parallel
// list of enable flags, and the render pass that runs the enabled ones.

module PostProcessingManager {
  import P = PostProcessing

  /** The effects render runs, in insertion order: flag set and intensity above zero. */
  function EnabledIndices(flags: seq<bool>, intensities: seq<real>): (r: seq<nat>)
    requires |flags| == |intensities|
  {
    if flags == [] then []
    else
      var n := |flags| - 1;
      EnabledIndices(flags[..n], intensities[..n]) + (if flags[n] && intensities[n] > 0.0 then [n] else [])
  }

  /** Exactly the effects with their flag set and a positive intensity are rendered. */
  lemma {:induction false} EnabledIndicesMembers(flags: seq<bool>, intensities: seq<real>, i: nat)
    requires |flags| == |intensities|
    ensures i in EnabledIndices(flags, intensities) <==> i < |flags| && flags[i] && intensities[i] > 0.0
  {
    if flags != [] {
      var n := |flags| - 1;
      EnabledIndicesMembers(flags[..n], intensities[..n], i);
    }
  }

  /** Rendered effects come in insertion order, each once. */
  lemma {:induction false} EnabledIndicesIncreasing(flags: seq<bool>, intensities: seq<real>)
    requires |flags| == |intensities|
    ensures forall k :: 0 <= k < |EnabledIndices(flags, intensities)| ==>
      EnabledIndices(flags, intensities)[k] < |flags|
    ensures forall a, b :: 0 <= a < b < |EnabledIndices(flags, intensities)| ==>
      EnabledIndices(flags, intensities)[a] < EnabledIndices(flags, intensities)[b]
  {
    if flags != [] {
      var n := |flags| - 1;
      EnabledIndicesIncreasing(flags[..n], intensities[..n]);
      var prev := EnabledIndices(flags[..n], intensities[..n]);
      var r := EnabledIndices(flags, intensities);
      assert r == prev + (if flags[n] && intensities[n] > 0.0 then [n] else []);
      assert forall k :: 0 <= k < |prev| ==> r[k] == prev[k] && prev[k] < n;
      forall a, b | 0 <= a < b < |r| ensures r[a] < r[b] {
        if b < |prev| {
          assert r[a] == prev[a] && r[b] == prev[b];
          assert prev[a] < prev[b];
        } else {
          assert r[b] == n && r[a] == prev[a];
        }
      }
    }
  }

  /** A newly added effect starts disabled, so it does not change what render runs. */
  lemma NewEffectNotRendered(flags: seq<bool>, intensities: seq<real>, v: real)
    requires |flags| == |intensities|
    ensures EnabledIndices(flags + [false], intensities + [v]) == EnabledIndices(flags, intensities)
  {
    assert (flags + [false])[..|flags|] == flags;
    assert (intensities + [v])[..|intensities|] == intensities;
  }

  class PostProcessingManager {
    var postProcessings: seq<P.PostProcessing>
    var postEnabled: seq<bool>

    predicate Valid()
      reads this
    {
      |postProcessings| == |postEnabled|
    }

    /** The current intensity of every registered effect. */
    function Intensities(): (r: seq<real>)
      reads this, postProcessings
      ensures |r| == |postProcessings|
      ensures forall i :: 0 <= i < |r| ==> r[i] == postProcessings[i].intensity
    {
      seq(|postProcessings|, i reads this, postProcessings requires 0 <= i < |postProcessings| =>
        postProcessings[i].intensity)
    }

    constructor ()
      ensures Valid() && postProcessings == [] && postEnabled == []
    {
      postProcessings := [];
      postEnabled := [];
    }

    /** addPostProcessing: the effect and a false flag are appended side by side. */
    method AddPostProcessing(p: P.PostProcessing)
      requires Valid()
      modifies this
      ensures Valid()
      ensures postProcessings == old(postProcessings) + [p]
      ensures postEnabled == old(postEnabled) + [false]
      ensures !IsEnabled(|postProcessings| - 1)
    {
      postProcessings := postProcessings + [p];
      postEnabled := postEnabled + [false];
    }

    function GetNrPostProcessing(): (r: nat)
      reads this
      ensures r == |postProcessings|
    {
      |postProcessings|
    }

    function GetPostProcessing(index: nat): (r: P.PostProcessing)
      requires index < |postProcessings|
      reads this
      ensures r == postProcessings[index]
    {
      postProcessings[index]
    }

    /** isEnabled: the flag is set and the effect's intensity is above zero. */
    predicate IsEnabled(index: nat)
      requires Valid() && index < |postProcessings|
      reads this, postProcessings[index]
      ensures IsEnabled(index) <==> postEnabled[index] && postProcessings[index].intensity > 0.0
    {
      postEnabled[index] && postProcessings[index].intensity > 0.0
    }

    /** enablePostProcessing: only flag index changes. */
    method EnablePostProcessing(index: nat, enabled: bool)
      requires Valid() && index < |postEnabled|
      modifies this`postEnabled
      ensures Valid()
      ensures |postEnabled| == |old(postEnabled)| && postEnabled[index] == enabled
      ensures forall k :: 0 <= k < |postEnabled| && k != index ==> postEnabled[k] == old(postEnabled[k])
    {
      postEnabled := postEnabled[index := enabled];
    }

    /** render: bind and draw every enabled effect, in insertion order. */
    method Render() returns (rendered: seq<nat>)
      requires Valid()
      ensures rendered == EnabledIndices(postEnabled, Intensities())
    {
      var ints := Intensities();
      rendered := [];
      var i := 0;
      while i < |postProcessings|
        invariant 0 <= i <= |postProcessings|
        invariant rendered == EnabledIndices(postEnabled[..i], ints[..i])
      {
        assert postEnabled[..i + 1][..i] == postEnabled[..i];
        assert ints[..i + 1][..i] == ints[..i];
        if IsEnabled(i) {
          rendered := rendered + [i];
        }
        i := i + 1;
      }
      assert postEnabled[..i] == postEnabled;
      assert ints[..i] == ints;
    }
  }
}

// Texture loading of the import helper (ImportHelper::loadTextures): every
// imported texture is loaded from a file, decoded from a compressed embedded
// blob or taken as raw embedded texels, uploaded in the colour space its
// material slot calls for, and height maps that a material uses as its bump
// map are converted to normal maps.

module ImportTextures {
  import opened GLTypes

  /** The texture slots of an imported material that loadTextures reads and rewrites. */
  datatype MaterialTextures = MaterialTextures(diffuseIndex: int, heightbumpIndex: int, normalIndex: int)

  /**
   * The image code loadTextures calls, over images of type I; None stands
   * for a thrown exception. rawImage builds an ARGB32 image of the given
   * size from texture i's embedded pixels.
   */
  datatype TextureLoaders<!I> = TextureLoaders(
    loadFile: string -> Option<I>,
    decodeEmbedded: nat -> Option<I>,
    rawImage: (int, int, nat) -> I,
    toNormalMap: I -> Option<I>,
    upload: (I, ColorSpace) -> Option<int>)

  /**
   * What loading one texture does: the texture name it stores (None leaves
   * the name as it was), the colour space handed to the upload if one was
   * attempted, whether a height map was turned into the material's normal
   * map, and whether an exception escaped.
   */
  datatype TextureStep = TextureStep(texture: Option<int>, uploadSpace: Option<ColorSpace>,
                                     converted: bool, escaped: bool)

  /** The first material using a texture must exist. */
  predicate UsersValid(firstUser: nat -> Option<nat>, n: nat, nrMaterials: nat)
  {
    forall i :: 0 <= i < n && firstUser(i).Some? ==> firstUser(i).value < nrMaterials
  }

  /** SRGB when the texture's first material uses it as its diffuse map, Raw otherwise. */
  function TextureColorSpace(materials: seq<MaterialTextures>, user: Option<nat>, i: nat): ColorSpace
  {
    if user.Some? && user.value < |materials| && materials[user.value].diffuseIndex == i then SRGB else Raw
  }

  /** Whether the texture's first material uses it as its height map. */
  predicate IsHeightMap(materials: seq<MaterialTextures>, user: Option<nat>, i: nat)
  {
    user.Some? && user.value < |materials| && materials[user.value].heightbumpIndex == i
  }

  /**
   * One iteration of the loop: a texture without data is read from its file
   * (a failure is caught), converted to a normal map if it is the material's
   * height map, and uploaded; embedded compressed data is decoded and
   * uploaded (a failure is caught); other embedded data is uploaded raw,
   * with nothing to catch an exception.
   */
  function StepOf<I>(tex: TextureAsset, i: nat, materials: seq<MaterialTextures>, user: Option<nat>,
                     loaders: TextureLoaders<I>): TextureStep
  {
    var cs := TextureColorSpace(materials, user, i);
    if !tex.hasData then
      match loaders.loadFile(tex.filepath)
      case None => TextureStep(None, None, false, false)
      case Some(image) =>
        if IsHeightMap(materials, user, i) then
          match loaders.toNormalMap(image)
          case None => TextureStep(None, None, false, false)
          case Some(normalMap) => TextureStep(loaders.upload(normalMap, cs), Some(cs), true, false)
        else TextureStep(loaders.upload(image, cs), Some(cs), false, false)
    else if tex.height == 0 && tex.dataSize > 0 && tex.width > 0 then
      match loaders.decodeEmbedded(i)
      case None => TextureStep(None, None, false, false)
      case Some(image) => TextureStep(loaders.upload(image, cs), Some(cs), false, false)
    else
      var t := loaders.upload(loaders.rawImage(tex.width, tex.height, i), cs);
      TextureStep(t, Some(cs), false, t.None?)
  }

  /**
   * Every upload receives SRGB exactly when the texture is its first
   * material's diffuse map and Raw otherwise; only a height map file can
   * rewrite a material, and only the raw upload lets an exception escape.
   */
  lemma StepColorSpace<I>(tex: TextureAsset, i: nat, materials: seq<MaterialTextures>, user: Option<nat>,
                          loaders: TextureLoaders<I>)
    ensures var st := StepOf(tex, i, materials, user, loaders);
      && (st.uploadSpace.Some? ==>
            (st.uploadSpace.value == SRGB <==>
               user.Some? && user.value < |materials| && materials[user.value].diffuseIndex == i)
            && (st.uploadSpace.value == SRGB || st.uploadSpace.value == Raw))
      && (st.texture.Some? ==> st.uploadSpace.Some?)
      && (st.converted ==> !tex.hasData && IsHeightMap(materials, user, i))
      && (st.escaped ==> tex.hasData && st.texture.None?
                         && !(tex.height == 0 && tex.dataSize > 0 && tex.width > 0))
  {
  }

  /** The texture with its new name, if the step stored one. */
  function Applied(tex: TextureAsset, st: TextureStep): TextureAsset
  {
    if st.texture.Some? then tex.(texture := st.texture.value) else tex
  }

  /**
   * A material after the first `done` textures: when its height map is one
   * of them and was converted, the height slot is cleared and the map becomes
   * its normal map; otherwise it is as imported.
   */
  function MaterialAfter<I>(textures: seq<TextureAsset>, materials: seq<MaterialTextures>,
                            firstUser: nat -> Option<nat>, loaders: TextureLoaders<I>, k: nat, done: nat): MaterialTextures
    requires k < |materials| && done <= |textures|
  {
    var h := materials[k].heightbumpIndex;
    if 0 <= h < done && firstUser(h) == Some(k)
       && StepOf(textures[h], h, materials, firstUser(h), loaders).converted
    then materials[k].(heightbumpIndex := -1, normalIndex := h)
    else materials[k]
  }

  /**
   * Before step x every material is as imported or has had its height slot
   * (an earlier texture) cleared, so step x sees the same diffuse and height
   * checks as the imported materials would give.
   */
  lemma StepSeesImported<I>(textures: seq<TextureAsset>, materials: seq<MaterialTextures>, current: seq<MaterialTextures>,
                            firstUser: nat -> Option<nat>, loaders: TextureLoaders<I>, x: nat)
    requires x < |textures| && |current| == |materials|
    requires forall k :: 0 <= k < |materials| ==> current[k] == MaterialAfter(textures, materials, firstUser, loaders, k, x)
    ensures StepOf(textures[x], x, current, firstUser(x), loaders) == StepOf(textures[x], x, materials, firstUser(x), loaders)
    ensures TextureColorSpace(current, firstUser(x), x) == TextureColorSpace(materials, firstUser(x), x)
    ensures IsHeightMap(current, firstUser(x), x) == IsHeightMap(materials, firstUser(x), x)
  {
    var u := firstUser(x);
    if u.Some? && u.value < |materials| {
      var m := u.value;
      assert current[m] == MaterialAfter(textures, materials, firstUser, loaders, m, x);
    }
  }

  /**
   * loadTextures: one step per texture of the importer's list, in order,
   * storing each new texture name in place; the importer's list is the
   * result. An exception from a raw upload ends the loop and escapes.
   */
  method LoadTextures<I>(refTextures: array<TextureAsset>, materials: array<MaterialTextures>,
                         firstUser: nat -> Option<nat>, loaders: TextureLoaders<I>)
    returns (r: Result<seq<TextureAsset>, nat>)
    requires UsersValid(firstUser, refTextures.Length, materials.Length)
    modifies refTextures, materials
    ensures var done := if r.Ok? then refTextures.Length else r.error;
      && done <= refTextures.Length
      && (forall i :: 0 <= i < refTextures.Length ==>
            refTextures[i] == if i < done then Applied(old(refTextures[i]),
                                                   StepOf(old(refTextures[i]), i, old(materials[..]), firstUser(i), loaders))
                              else old(refTextures[i]))
      && (forall k :: 0 <= k < materials.Length ==>
            materials[k] == MaterialAfter(old(refTextures[..]), old(materials[..]), firstUser, loaders, k, done))
      && (forall i :: 0 <= i < done ==> !StepOf(old(refTextures[i]), i, old(materials[..]), firstUser(i), loaders).escaped)
    ensures r.Ok? ==> r.value == refTextures[..]
    ensures r.Err? ==>
              && r.error < refTextures.Length
              && StepOf(old(refTextures[r.error]), r.error, old(materials[..]), firstUser(r.error), loaders).escaped
  {
    ghost var textures0 := refTextures[..];
    ghost var materials0 := materials[..];
    var x := 0;
    while x < refTextures.Length
      invariant 0 <= x <= refTextures.Length
      invariant forall i :: 0 <= i < refTextures.Length ==>
        refTextures[i] == if i < x then Applied(textures0[i], StepOf(textures0[i], i, materials0, firstUser(i), loaders))
                          else textures0[i]
      invariant forall k :: 0 <= k < materials.Length ==>
        materials[k] == MaterialAfter(textures0, materials0, firstUser, loaders, k, x)
      invariant forall i :: 0 <= i < x ==> !StepOf(textures0[i], i, materials0, firstUser(i), loaders).escaped
    {
      var escaped := LoadOne(refTextures, materials, x, firstUser, loaders, textures0, materials0);
      if escaped {
        return Err(x);
      }
      x := x + 1;
    }
    r := Ok(refTextures[..]);
  }

  /** One iteration of loadTextures' loop, on texture x. */
  method LoadOne<I>(refTextures: array<TextureAsset>, materials: array<MaterialTextures>, x: nat,
                    firstUser: nat -> Option<nat>, loaders: TextureLoaders<I>,
                    ghost textures0: seq<TextureAsset>, ghost materials0: seq<MaterialTextures>)
    returns (escaped: bool)
    requires x < refTextures.Length == |textures0| && materials.Length == |materials0|
    requires UsersValid(firstUser, refTextures.Length, materials.Length)
    requires refTextures[x] == textures0[x]
    requires forall k :: 0 <= k < materials.Length ==>
      materials[k] == MaterialAfter(textures0, materials0, firstUser, loaders, k, x)
    modifies refTextures, materials
    ensures var st := StepOf(textures0[x], x, materials0, firstUser(x), loaders);
      && escaped == st.escaped
      && refTextures[..] == old(refTextures[..])[x := Applied(textures0[x], st)]
      && forall k :: 0 <= k < materials.Length ==>
           materials[k] == MaterialAfter(textures0, materials0, firstUser, loaders, k, if escaped then x else x + 1)
  {
    StepSeesImported(textures0, materials0, materials[..], firstUser, loaders, x);
    ghost var st := StepOf(textures0[x], x, materials0, firstUser(x), loaders);
    var users := firstUser(x);
    var tex := refTextures[x];
    var colorSpace := Raw;
    if users.Some? {
      if materials[users.value].diffuseIndex == x {
        colorSpace := SRGB;
      }
    }
    escaped := false;
    if !tex.hasData {
      var image := loaders.loadFile(tex.filepath);
      if image.Some? {
        var img := image.value;
        var loaded := true;
        if users.Some? && materials[users.value].heightbumpIndex == x {
          var normalMap := loaders.toNormalMap(img);
          if normalMap.Some? {
            img := normalMap.value;
            materials[users.value] := materials[users.value].(heightbumpIndex := -1, normalIndex := x);
          } else {
            loaded := false;
          }
        }
        if loaded {
          var t := loaders.upload(img, colorSpace);
          if t.Some? {
            refTextures[x] := tex.(texture := t.value);
          }
        }
      }
    } else if tex.height == 0 && tex.dataSize > 0 && tex.width > 0 {
      var image := loaders.decodeEmbedded(x);
      if image.Some? {
        var t := loaders.upload(image.value, colorSpace);
        if t.Some? {
          refTextures[x] := tex.(texture := t.value);
        }
      }
    } else {
      var t := loaders.upload(loaders.rawImage(tex.width, tex.height, x), colorSpace);
      if t.Some? {
        refTextures[x] := tex.(texture := t.value);
      } else {
        escaped := true;
      }
    }
    MaterialsAdvance(textures0, materials0, old(materials[..]), materials[..], firstUser, loaders, x, escaped);
  }

  /** A converted height map clears its material's height slot and sets its normal slot; nothing else changes. */
  lemma MaterialsAdvance<I>(textures0: seq<TextureAsset>, materials0: seq<MaterialTextures>,
                            before: seq<MaterialTextures>, after: seq<MaterialTextures>,
                            firstUser: nat -> Option<nat>, loaders: TextureLoaders<I>, x: nat, escaped: bool)
    requires x < |textures0| && |before| == |materials0| && |after| == |materials0|
    requires UsersValid(firstUser, |textures0|, |materials0|)
    requires forall k :: 0 <= k < |materials0| ==> before[k] == MaterialAfter(textures0, materials0, firstUser, loaders, k, x)
    requires var st := StepOf(textures0[x], x, materials0, firstUser(x), loaders);
      && (st.converted ==> after == before[firstUser(x).value := before[firstUser(x).value].(heightbumpIndex := -1, normalIndex := x)])
      && (!st.converted ==> after == before)
      && escaped == st.escaped
    ensures forall k :: 0 <= k < |materials0| ==>
      after[k] == MaterialAfter(textures0, materials0, firstUser, loaders, k, if escaped then x else x + 1)
  {
    var st := StepOf(textures0[x], x, materials0, firstUser(x), loaders);
    StepColorSpace(textures0[x], x, materials0, firstUser(x), loaders);
    forall k | 0 <= k < |materials0|
      ensures after[k] == MaterialAfter(textures0, materials0, firstUser, loaders, k, if escaped then x else x + 1)
    {
      var h := materials0[k].heightbumpIndex;
      if st.converted && firstUser(x).value == k {
        assert h == x;
      }
    }
  }
}

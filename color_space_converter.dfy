// The colour-space converter: which compute passes convert() runs for the
// selected colour space (a tone-mapping pass, then the gamma pass), and how
// many work groups each dispatches. The local work-group sizes of every
// program are kept three per colour space, at index colorSpace * 3.

module ColorSpaceConverter {
  import opened GLTypes

  /** The converter's compute programs. */
  datatype Program = AcesProgram | FalseColorProgram | KhronosPBRNeutralProgram | FilmicProgram | GammaProgram

  /**
   * One compute pass: the program used, the texture bound read-write at
   * image unit 1, and the work-group counts dispatched, if any.
   */
  datatype Pass = Pass(program: Program, imageUnit: nat, texture: nat, dispatch: Option<(nat, nat)>)

  /** Three local sizes for each of the seven colour spaces. */
  const LocalSizeCount: nat := 7 * 3

  /** The tone-mapping program a colour space runs before the gamma pass, if any. */
  function ToneMapProgram(c: ColorSpace): Option<Program>
  {
    match c
    case ACES => Some(AcesProgram)
    case FalseColor => Some(FalseColorProgram)
    case KhronosPBRNeutral => Some(KhronosPBRNeutralProgram)
    case Filmic => Some(FilmicProgram)
    case _ => None
  }

  /** Colour spaces for which convert() runs the gamma pass. */
  predicate RunsGamma(c: ColorSpace)
  {
    c == SRGB || ToneMapProgram(c).Some?
  }

  /** The local sizes read for a program are those at index colorSpace * 3 and the next one. */
  predicate LocalSizesPositive(localSizes: seq<int>, c: ColorSpace)
    requires |localSizes| == LocalSizeCount
  {
    localSizes[ColorSpaceOrdinal(c) * 3] > 0 && localSizes[ColorSpaceOrdinal(c) * 3 + 1] > 0
  }

  /** ceil(width / local[0]) and ceil(height / local[1]) for the sizes stored for c. */
  function WorkGroups(width: nat, height: nat, localSizes: seq<int>, c: ColorSpace): (g: (nat, nat))
    requires |localSizes| == LocalSizeCount && LocalSizesPositive(localSizes, c)
    ensures g.0 * localSizes[ColorSpaceOrdinal(c) * 3] >= width
    ensures g.0 > 0 ==> (g.0 - 1) * localSizes[ColorSpaceOrdinal(c) * 3] < width
    ensures g.1 * localSizes[ColorSpaceOrdinal(c) * 3 + 1] >= height
    ensures g.1 > 0 ==> (g.1 - 1) * localSizes[ColorSpaceOrdinal(c) * 3 + 1] < height
  {
    var i := ColorSpaceOrdinal(c) * 3;
    (CeilDiv(width, localSizes[i] as nat), CeilDiv(height, localSizes[i + 1] as nat))
  }

  /** A pass dispatches only when both work-group counts are positive. */
  function PassOf(program: Program, texture: nat, groups: (nat, nat)): (p: Pass)
    ensures p.program == program && p.imageUnit == 1 && p.texture == texture
    ensures p.dispatch.Some? <==> groups.0 > 0 && groups.1 > 0
    ensures p.dispatch.Some? ==> p.dispatch.value == groups
  {
    Pass(program, 1, texture, if groups.0 > 0 && groups.1 > 0 then Some(groups) else None)
  }

  /**
   * convert(texture): RawLinear returns at once; ACES, FalseColor,
   * KhronosPBRNeutral and Filmic run their program and then the gamma pass;
   * SRGB runs only the gamma pass; every other colour space returns from the
   * switch's default branch without any pass. The tone-mapping pass uses the
   * colour space's local sizes, the gamma pass those stored for SRGB.
   */
  function ConvertPasses(c: ColorSpace, texture: nat, width: nat, height: nat, localSizes: seq<int>): (r: seq<Pass>)
    requires |localSizes| == LocalSizeCount
    requires ToneMapProgram(c).Some? ==> LocalSizesPositive(localSizes, c)
    requires RunsGamma(c) ==> LocalSizesPositive(localSizes, SRGB)
    ensures r == [] <==> !RunsGamma(c)
    ensures ToneMapProgram(c).Some? ==>
      |r| == 2 && r[0] == PassOf(ToneMapProgram(c).value, texture, WorkGroups(width, height, localSizes, c))
    ensures c == SRGB ==> |r| == 1
    ensures RunsGamma(c) ==> r[|r| - 1] == PassOf(GammaProgram, texture, WorkGroups(width, height, localSizes, SRGB))
  {
    if !RunsGamma(c) then []
    else
      var gamma := PassOf(GammaProgram, texture, WorkGroups(width, height, localSizes, SRGB));
      match ToneMapProgram(c)
      case Some(program) => [PassOf(program, texture, WorkGroups(width, height, localSizes, c)), gamma]
      case None => [gamma]
  }

  /** Every pass binds the converted texture at image unit 1, and each program runs at most once. */
  lemma PassesBindTexture(c: ColorSpace, texture: nat, width: nat, height: nat, localSizes: seq<int>)
    requires |localSizes| == LocalSizeCount
    requires ToneMapProgram(c).Some? ==> LocalSizesPositive(localSizes, c)
    requires RunsGamma(c) ==> LocalSizesPositive(localSizes, SRGB)
    ensures var r := ConvertPasses(c, texture, width, height, localSizes);
      && (forall k :: 0 <= k < |r| ==> r[k].imageUnit == 1 && r[k].texture == texture)
      && (forall a, b :: 0 <= a < b < |r| ==> r[a].program != r[b].program)
  {
  }

  /** The default colour space converts nothing. */
  lemma DefaultConvertsNothing(texture: nat, width: nat, height: nat, localSizes: seq<int>)
    requires |localSizes| == LocalSizeCount
    ensures ConvertPasses(Raw, texture, width, height, localSizes) == []
    ensures ConvertPasses(RawLinear, texture, width, height, localSizes) == []
  {
  }

  /** An empty texture gets no dispatch: every pass's work-group counts are zero. */
  lemma EmptyTextureNoDispatch(c: ColorSpace, texture: nat, localSizes: seq<int>)
    requires |localSizes| == LocalSizeCount
    requires ToneMapProgram(c).Some? ==> LocalSizesPositive(localSizes, c)
    requires RunsGamma(c) ==> LocalSizesPositive(localSizes, SRGB)
    ensures forall p :: p in ConvertPasses(c, texture, 0, 0, localSizes) ==> p.dispatch.None?
  {
  }

  class ColorSpaceConverter {
    var colorSpace: ColorSpace
    var localWorkGroupSizes: seq<int>

    /** A new converter is in the Raw colour space; the local sizes come from the programs. */
    constructor (workGroupSizes: seq<int>)
      requires |workGroupSizes| == LocalSizeCount
      ensures colorSpace == Raw && localWorkGroupSizes == workGroupSizes
    {
      colorSpace := Raw;
      localWorkGroupSizes := workGroupSizes;
    }

    function GetColorSpace(): (c: ColorSpace)
      reads this
      ensures c == colorSpace
    {
      colorSpace
    }

    /** setColorSpace: the next getColorSpace returns the colour space set. */
    method SetColorSpace(c: ColorSpace)
      modifies this`colorSpace
      ensures GetColorSpace() == c
    {
      colorSpace := c;
    }

    /** convert(texture), for a texture of the given level-0 size. */
    method Convert(texture: nat, width: nat, height: nat) returns (passes: seq<Pass>)
      requires |localWorkGroupSizes| == LocalSizeCount
      requires ToneMapProgram(colorSpace).Some? ==> LocalSizesPositive(localWorkGroupSizes, colorSpace)
      requires RunsGamma(colorSpace) ==> LocalSizesPositive(localWorkGroupSizes, SRGB)
      ensures passes == ConvertPasses(colorSpace, texture, width, height, localWorkGroupSizes)
    {
      if colorSpace == RawLinear {
        return [];
      }
      passes := [];
      match colorSpace {
        case ACES =>
          passes := [PassOf(AcesProgram, texture, WorkGroups(width, height, localWorkGroupSizes, colorSpace))];
        case FalseColor =>
          passes := [PassOf(FalseColorProgram, texture, WorkGroups(width, height, localWorkGroupSizes, colorSpace))];
        case KhronosPBRNeutral =>
          passes := [PassOf(KhronosPBRNeutralProgram, texture,
                            WorkGroups(width, height, localWorkGroupSizes, colorSpace))];
        case Filmic =>
          passes := [PassOf(FilmicProgram, texture, WorkGroups(width, height, localWorkGroupSizes, colorSpace))];
        case SRGB =>
        case _ =>
          return [];
      }
      passes := passes + [PassOf(GammaProgram, texture, WorkGroups(width, height, localWorkGroupSizes, SRGB))];
    }
  }
}

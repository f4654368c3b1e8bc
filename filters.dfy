/**
 * The filter identifiers of RecordMovieController and the pure part of
 * CameraSurfaceRenderer.updateFilter: the switch that maps a filter id to a
 * shader program type, an optional 3x3 convolution kernel and a colour bias.
 * Kernel weights are exact rationals, so they are kept as reals.
 */
module Filters {
  import opened Common

  const FILTER_NONE := 0
  const FILTER_BLACK_WHITE := 1
  const FILTER_BLUR := 2
  const FILTER_SHARPEN := 3
  const FILTER_EDGE_DETECT := 4
  const FILTER_EMBOSS := 5

  /** The Texture2dProgram program types the renderer uses. */
  datatype ProgramType = TextureExt | TextureExtBw | TextureExtFilt

  /** A 3x3 convolution kernel, row by row. */
  type Kernel = k: seq<real> | |k| == 9 witness [0.0, 0.0, 0.0, 0.0, 0.0, 0.0, 0.0, 0.0, 0.0]

  /** What updateFilter derives from a filter id before touching the program. */
  datatype FilterSpec = FilterSpec(programType: ProgramType, kernel: Option<Kernel>, colorAdj: real)

  predicate IsKnownFilter(id: int) {
    FILTER_NONE <= id <= FILTER_EMBOSS
  }

  /** The convolution filters: they all run on the one TEXTURE_EXT_FILT program. */
  predicate IsConvolution(id: int) {
    FILTER_BLUR <= id <= FILTER_EMBOSS
  }

  /** The sum of a kernel's weights: 1 keeps the image's brightness, 0 keeps only contrast. */
  function Weight(k: seq<real>): real {
    if k == [] then 0.0 else k[0] + Weight(k[1..])
  }

  /**
   * The switch of updateFilter. None stands for the "Unknown filter mode"
   * exception thrown for any other id.
   */
  function FilterFor(id: int): (r: Option<FilterSpec>)
    ensures r.Some? <==> IsKnownFilter(id)
    ensures r.Some? ==> (r.value.kernel.Some? <==> r.value.programType == TextureExtFilt)
    ensures r.Some? ==> (r.value.programType == TextureExtFilt <==> IsConvolution(id))
    ensures r.Some? ==> (r.value.programType == TextureExt <==> id == FILTER_NONE)
    ensures r.Some? ==> (r.value.colorAdj != 0.0 <==> id == FILTER_EMBOSS)
  {
    if id == FILTER_NONE then
      Some(FilterSpec(TextureExt, None, 0.0))
    else if id == FILTER_BLACK_WHITE then
      Some(FilterSpec(TextureExtBw, None, 0.0))
    else if id == FILTER_BLUR then
      Some(FilterSpec(TextureExtFilt, Some([1.0/16.0, 2.0/16.0, 1.0/16.0,
                                            2.0/16.0, 4.0/16.0, 2.0/16.0,
                                            1.0/16.0, 2.0/16.0, 1.0/16.0]), 0.0))
    else if id == FILTER_SHARPEN then
      Some(FilterSpec(TextureExtFilt, Some([0.0, -1.0, 0.0,
                                            -1.0, 5.0, -1.0,
                                            0.0, -1.0, 0.0]), 0.0))
    else if id == FILTER_EDGE_DETECT then
      Some(FilterSpec(TextureExtFilt, Some([-1.0, -1.0, -1.0,
                                            -1.0, 8.0, -1.0,
                                            -1.0, -1.0, -1.0]), 0.0))
    else if id == FILTER_EMBOSS then
      Some(FilterSpec(TextureExtFilt, Some([2.0, 0.0, 0.0,
                                            0.0, -1.0, 0.0,
                                            0.0, 0.0, -1.0]), 0.5))
    else
      None
  }

  /**
   * Blur and sharpen keep the image's brightness (weights sum to 1); edge
   * detection and emboss keep only differences (weights sum to 0, emboss
   * adding its 0.5 bias back).
   */
  lemma KernelWeights(id: int)
    requires IsConvolution(id)
    ensures FilterFor(id).Some? && FilterFor(id).value.kernel.Some?
    ensures Weight(FilterFor(id).value.kernel.value)
            == if id == FILTER_BLUR || id == FILTER_SHARPEN then 1.0 else 0.0
  {
    var k := FilterFor(id).value.kernel.value;
    WeightOfNine(k);
  }

  /** The weight of a 3x3 kernel written out term by term. */
  lemma WeightOfNine(k: Kernel)
    ensures Weight(k) == k[0] + k[1] + k[2] + k[3] + k[4] + k[5] + k[6] + k[7] + k[8]
  {
    assert k[9..] == [];
    WeightFrom(k, 8); WeightFrom(k, 7); WeightFrom(k, 6);
    WeightFrom(k, 5); WeightFrom(k, 4); WeightFrom(k, 3);
    WeightFrom(k, 2); WeightFrom(k, 1); WeightFrom(k, 0);
    assert k[0..] == k;
  }

  lemma WeightFrom(k: seq<real>, i: nat)
    requires i < |k|
    ensures Weight(k[i..]) == k[i] + Weight(k[i + 1..])
  {
    assert k[i..][1..] == k[i + 1..];
  }

  /**
   * Switching between any two convolution filters keeps the program type, so
   * updateFilter never recompiles the program for such a switch; every other
   * pair of distinct known filters maps to different program types.
   */
  lemma SameProgramIffBothConvolution(a: int, b: int)
    requires IsKnownFilter(a) && IsKnownFilter(b) && a != b
    ensures FilterFor(a).value.programType == FilterFor(b).value.programType
            <==> IsConvolution(a) && IsConvolution(b)
  {
  }
}

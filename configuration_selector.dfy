/**
 The configuration selector. All configurations of a structure (trajectory
 frames, NMR models) sit concatenated, configuration-major, in one vertex,
 one index and one bond-index buffer; a cursor names the configuration to
 draw and the selector turns it into (length, offset) windows into those
 buffers. Strides: 4 vertices and 6 indices per atom (one billboard quad of two
 triangles), 24 indices per bond (8 segments of 3 indices).
 */
module ConfigurationSelection {
  import opened Wrappers
  import opened Scene

  datatype BufferRegion = BufferRegion(length: int, offset: int)

  const VertexStride: nat := 4
  const IndexStride: nat := 6
  const BondIndexStride: nat := 24

  // ---------------------------------------------------------------------------
  // Cursor moves

  function Max(a: int, b: int): int { if a < b then b else a }

  function Min(a: int, b: int): int { if a < b then a else b }

  /** `previousConfiguration`: one step back, from 0 to the last configuration. */
  function PreviousIndex(c: int, last: int): (p: int)
    ensures 0 <= c <= last ==> 0 <= p <= last
    ensures c >= 1 ==> p == c - 1
    ensures c <= 0 ==> p == last
  {
    if c - 1 <= -1 then last else c - 1
  }

  /**
   `nextConfiguration` as the source writes it: one step forward, but back to 0
   as soon as the result reaches the LAST index, so the last configuration is
   never selected by stepping forward.
   */
  function NextIndexAsWritten(c: int, last: int): (n: int)
    ensures 0 <= c ==> 0 <= n <= Max(last - 1, 0)
    ensures n != 0 ==> n == c + 1
    ensures 0 <= c < last - 1 ==> n == c + 1
  {
    if c + 1 >= last then 0 else c + 1
  }

  /** The intended forward step: wrap to 0 only after the last configuration. */
  function NextIndex(c: int, last: int): (n: int)
    ensures 0 <= c <= last ==> 0 <= n <= last
    ensures 0 <= c < last ==> n == c + 1
    ensures c == last ==> n == 0
  {
    if c + 1 > last then 0 else c + 1
  }

  /** The intended forward step and the backward step undo each other. */
  lemma NextPreviousInverse(c: int, last: int)
    requires 0 <= c <= last
    ensures PreviousIndex(NextIndex(c, last), last) == c
    ensures NextIndex(PreviousIndex(c, last), last) == c
  {
  }

  /** The cursor after `steps` forward steps from configuration 0. */
  function StepsForward(last: int, steps: nat, asWritten: bool): int
  {
    if steps == 0 then 0
    else
      var c := StepsForward(last, steps - 1, asWritten);
      if asWritten then NextIndexAsWritten(c, last) else NextIndex(c, last)
  }

  /** Stepping forward with the intended step visits 0, 1, ..., last in turn and then wraps to 0. */
  lemma {:induction false} StepsForwardVisitsAll(last: int, steps: nat)
    requires steps <= last + 1
    ensures StepsForward(last, steps, false) == if steps == last + 1 then 0 else steps
  {
    if steps > 0 {
      StepsForwardVisitsAll(last, steps - 1);
    }
  }

  /** Stepping forward as written never selects the last configuration once there are two or more. */
  lemma {:induction false} StepsForwardAsWrittenMissesLast(last: int, steps: nat)
    requires last >= 1
    ensures 0 <= StepsForward(last, steps, true) < last
  {
    if steps > 0 {
      StepsForwardAsWrittenMissesLast(last, steps - 1);
    }
  }

  /** With three configurations, `next` from 1 goes to 0, and `previous` does not bring it back. */
  lemma NextAsWrittenBreaksRoundTrip()
    ensures NextIndexAsWritten(1, 2) == 0
    ensures PreviousIndex(NextIndexAsWritten(1, 2), 2) == 2
  {
  }

  // ---------------------------------------------------------------------------
  // Windows into the concatenated buffers

  /** The window of configuration `c` in a buffer with `stride` elements per atom. */
  function ConfigurationRegion(atomsPerConfiguration: nat, stride: nat, c: int): BufferRegion
  {
    BufferRegion(atomsPerConfiguration * stride, atomsPerConfiguration * stride * c)
  }

  lemma MulMono(a: int, b: int, k: nat)
    requires a <= b
    ensures a * k <= b * k
  {
  }

  /** Every configuration in range has its window inside the buffer of all configurations. */
  lemma RegionWithinBuffer(atomsPerConfiguration: nat, stride: nat, c: int, count: int)
    requires 0 <= c < count
    ensures var r := ConfigurationRegion(atomsPerConfiguration, stride, c);
      0 <= r.offset && r.offset + r.length <= atomsPerConfiguration * stride * count
  {
    var w := atomsPerConfiguration * stride;
    MulMono(c + 1, count, w);
    assert w * c + w == (c + 1) * w;
  }

  /** Windows of consecutive configurations abut; windows of distinct configurations do not overlap. */
  lemma RegionsTileBuffer(atomsPerConfiguration: nat, stride: nat, c: int, c': int)
    requires c < c'
    ensures var r := ConfigurationRegion(atomsPerConfiguration, stride, c);
      r.offset + r.length <= ConfigurationRegion(atomsPerConfiguration, stride, c').offset
    ensures var r := ConfigurationRegion(atomsPerConfiguration, stride, c);
      r.offset + r.length == ConfigurationRegion(atomsPerConfiguration, stride, c + 1).offset
  {
    var w := atomsPerConfiguration * stride;
    MulMono(c + 1, c', w);
    assert w * c + w == (c + 1) * w;
  }

  /** Sum of a sequence of counts. */
  function Total(s: seq<int>): int
  {
    if s == [] then 0 else Total(s[..|s| - 1]) + s[|s| - 1]
  }

  lemma TotalStep(s: seq<int>, k: nat)
    requires k < |s|
    ensures Total(s[..k + 1]) == Total(s[..k]) + s[k]
  {
    assert s[..k + 1][..k] == s[..k];
  }

  /** Prefix sums of non-negative counts never decrease. */
  lemma {:induction false} TotalMonotone(s: seq<int>, j: nat, k: nat)
    requires j <= k <= |s|
    requires forall i :: 0 <= i < |s| ==> s[i] >= 0
    ensures Total(s[..j]) <= Total(s[..k])
  {
    if j < k {
      TotalMonotone(s, j, k - 1);
      TotalStep(s, k - 1);
    }
  }

  /** One region per `zip(indices, lengths)` pair, in order, shifted by `baseOffset`. */
  function SubunitRegions(indices: seq<int>, lengths: seq<int>, stride: nat, baseOffset: int): seq<BufferRegion>
  {
    seq(Min(|indices|, |lengths|), k requires 0 <= k < Min(|indices|, |lengths|) =>
      BufferRegion(lengths[k] * stride, indices[k] * stride + baseOffset))
  }

  function SumLengths(rs: seq<BufferRegion>): int
  {
    if rs == [] then 0 else SumLengths(rs[..|rs| - 1]) + rs[|rs| - 1].length
  }

  /** The subunits lie one after another and cover the atoms of one configuration exactly. */
  predicate TilesConfiguration(indices: seq<int>, lengths: seq<int>, atomsPerConfiguration: int)
  {
    && |indices| == |lengths|
    && (forall k :: 0 <= k < |lengths| ==> lengths[k] >= 0)
    && (forall k :: 0 <= k < |indices| ==> indices[k] == Total(lengths[..k]))
    && Total(lengths) == atomsPerConfiguration
  }

  lemma {:induction false} SumLengthsOfSubunitRegions(indices: seq<int>, lengths: seq<int>, stride: nat,
                                                      baseOffset: int, k: nat)
    requires |indices| == |lengths| && k <= |lengths|
    ensures SumLengths(SubunitRegions(indices, lengths, stride, baseOffset)[..k]) == Total(lengths[..k]) * stride
  {
    var rs := SubunitRegions(indices, lengths, stride, baseOffset);
    if k > 0 {
      SumLengthsOfSubunitRegions(indices, lengths, stride, baseOffset, k - 1);
      assert rs[..k][..k - 1] == rs[..k - 1];
      TotalStep(lengths, k - 1);
      assert (Total(lengths[..k - 1]) + lengths[k - 1]) * stride
          == Total(lengths[..k - 1]) * stride + lengths[k - 1] * stride;
    }
  }

  /** Subunit `j` ends no later than a later subunit `k` starts. */
  lemma SubunitBeforeLater(indices: seq<int>, lengths: seq<int>, atomsPerConfiguration: nat,
                           stride: nat, baseOffset: int, j: nat, k: nat)
    requires TilesConfiguration(indices, lengths, atomsPerConfiguration)
    requires j < k < |lengths|
    ensures var rs := SubunitRegions(indices, lengths, stride, baseOffset);
      rs[j].offset + rs[j].length <= rs[k].offset
  {
    TotalStep(lengths, j);
    TotalMonotone(lengths, j + 1, k);
    MulMono(Total(lengths[..j + 1]), Total(lengths[..k]), stride);
    assert (indices[j] + lengths[j]) * stride == indices[j] * stride + lengths[j] * stride;
  }

  /** Subunit `k` lies inside its configuration. */
  lemma SubunitInsideConfiguration(indices: seq<int>, lengths: seq<int>, atomsPerConfiguration: nat,
                                   stride: nat, c: int, k: nat)
    requires TilesConfiguration(indices, lengths, atomsPerConfiguration)
    requires k < |lengths|
    ensures var whole := ConfigurationRegion(atomsPerConfiguration, stride, c);
      var rs := SubunitRegions(indices, lengths, stride, whole.offset);
      whole.offset <= rs[k].offset && rs[k].offset + rs[k].length <= whole.offset + whole.length
  {
    TotalMonotone(lengths, 0, k);
    TotalStep(lengths, k);
    TotalMonotone(lengths, k + 1, |lengths|);
    assert lengths[..|lengths|] == lengths;
    MulMono(0, indices[k], stride);
    MulMono(Total(lengths[..k + 1]), atomsPerConfiguration, stride);
    assert (indices[k] + lengths[k]) * stride == indices[k] * stride + lengths[k] * stride;
  }

  /**
   When the subunits tile a configuration, its split regions are pairwise
   disjoint and in order, each lies inside the configuration's unsplit region,
   and their lengths add up to the unsplit length.
   */
  lemma SubunitRegionsPartition(indices: seq<int>, lengths: seq<int>, atomsPerConfiguration: nat,
                                stride: nat, c: int)
    requires TilesConfiguration(indices, lengths, atomsPerConfiguration)
    ensures var whole := ConfigurationRegion(atomsPerConfiguration, stride, c);
      var rs := SubunitRegions(indices, lengths, stride, whole.offset);
      && (forall j, k :: 0 <= j < k < |rs| ==> rs[j].offset + rs[j].length <= rs[k].offset)
      && (forall k :: 0 <= k < |rs| ==>
            whole.offset <= rs[k].offset && rs[k].offset + rs[k].length <= whole.offset + whole.length)
      && SumLengths(rs) == whole.length
  {
    var whole := ConfigurationRegion(atomsPerConfiguration, stride, c);
    var rs := SubunitRegions(indices, lengths, stride, whole.offset);
    forall j, k | 0 <= j < k < |rs|
      ensures rs[j].offset + rs[j].length <= rs[k].offset
    {
      SubunitBeforeLater(indices, lengths, atomsPerConfiguration, stride, whole.offset, j, k);
    }
    forall k | 0 <= k < |rs|
      ensures whole.offset <= rs[k].offset && rs[k].offset + rs[k].length <= whole.offset + whole.length
    {
      SubunitInsideConfiguration(indices, lengths, atomsPerConfiguration, stride, c, k);
    }
    SumLengthsOfSubunitRegions(indices, lengths, stride, whole.offset, |lengths|);
    assert rs[..|rs|] == rs;
    assert lengths[..|lengths|] == lengths;
  }

  /** The bond window of configuration `c`. */
  function BondRegion(bondsPerConfiguration: seq<int>, bondArrayStarts: seq<int>, c: nat): BufferRegion
    requires c < |bondsPerConfiguration| && c < |bondArrayStarts|
  {
    BufferRegion(bondsPerConfiguration[c] * BondIndexStride, bondArrayStarts[c] * BondIndexStride)
  }

  /**
   When every configuration's bonds start where the previous configuration's
   end, the bond windows of distinct configurations do not overlap.
   */
  lemma BondRegionsDisjoint(bondsPerConfiguration: seq<int>, bondArrayStarts: seq<int>, c: nat, c': nat)
    requires |bondsPerConfiguration| == |bondArrayStarts|
    requires forall k :: 0 <= k < |bondsPerConfiguration| ==> bondsPerConfiguration[k] >= 0
    requires forall k :: 0 <= k < |bondArrayStarts| ==> bondArrayStarts[k] == Total(bondsPerConfiguration[..k])
    requires c < c' < |bondArrayStarts|
    ensures var r := BondRegion(bondsPerConfiguration, bondArrayStarts, c);
      0 <= r.offset && r.offset + r.length <= BondRegion(bondsPerConfiguration, bondArrayStarts, c').offset
  {
    TotalMonotone(bondsPerConfiguration, 0, c);
    TotalStep(bondsPerConfiguration, c);
    TotalMonotone(bondsPerConfiguration, c + 1, c');
    MulMono(0, bondArrayStarts[c], BondIndexStride);
  }

  // ---------------------------------------------------------------------------
  // The selector object

  class ConfigurationSelector {
    /** Non-owning back reference to the scene (it may be gone). */
    var scene: MetalScene?
    var atomsPerConfiguration: nat
    var subunitIndices: seq<int>
    var subunitLengths: seq<int>
    var bondsPerConfiguration: Option<seq<int>>
    var bondArrayStarts: Option<seq<int>>
    var currentConfiguration: int
    var lastConfiguration: int

    /** The cursor names an existing configuration. */
    predicate Valid()
      reads this
    {
      0 <= currentConfiguration <= lastConfiguration
    }

    function ConfigurationCount(): int
      reads this
    {
      lastConfiguration + 1
    }

    constructor (scene: MetalScene, atomsPerConfiguration: nat, subunitIndices: seq<int>,
                 subunitLengths: seq<int>, configurationCount: int)
      requires configurationCount >= 1
      ensures Valid()
      ensures this.scene == scene && this.atomsPerConfiguration == atomsPerConfiguration
      ensures this.subunitIndices == subunitIndices && this.subunitLengths == subunitLengths
      ensures currentConfiguration == 0 && lastConfiguration == configurationCount - 1
      ensures bondsPerConfiguration.None? && bondArrayStarts.None?
    {
      this.scene := scene;
      this.atomsPerConfiguration := atomsPerConfiguration;
      this.subunitIndices := subunitIndices;
      this.subunitLengths := subunitLengths;
      this.bondsPerConfiguration := None;
      this.bondArrayStarts := None;
      this.currentConfiguration := 0;
      this.lastConfiguration := configurationCount - 1;
    }

    method AddBonds(bondsPerConfiguration: seq<int>, bondArrayStarts: seq<int>)
      modifies this`bondsPerConfiguration, this`bondArrayStarts
      ensures this.bondsPerConfiguration == Some(bondsPerConfiguration)
      ensures this.bondArrayStarts == Some(bondArrayStarts)
    {
      this.bondsPerConfiguration := Some(bondsPerConfiguration);
      this.bondArrayStarts := Some(bondArrayStarts);
    }

    method PreviousConfiguration()
      requires Valid()
      modifies this`currentConfiguration, scene
      ensures Valid()
      ensures currentConfiguration == PreviousIndex(old(currentConfiguration), lastConfiguration)
      ensures scene != null ==> scene.State() == old(scene.State()).(needsRedraw := true)
      ensures scene != null ==> scene.Settings() == old(scene.Settings())
    {
      currentConfiguration := currentConfiguration - 1;
      if currentConfiguration <= -1 {
        currentConfiguration := lastConfiguration;
      }
      if scene != null {
        scene.needsRedraw := true;
      }
    }

    /** `nextConfiguration` as written: it wraps one step early. */
    method NextConfiguration()
      requires Valid()
      modifies this`currentConfiguration, scene
      ensures Valid() && currentConfiguration < Max(lastConfiguration, 1)
      ensures currentConfiguration == NextIndexAsWritten(old(currentConfiguration), lastConfiguration)
      ensures scene != null ==> scene.State() == old(scene.State()).(needsRedraw := true)
      ensures scene != null ==> scene.Settings() == old(scene.Settings())
    {
      currentConfiguration := currentConfiguration + 1;
      if currentConfiguration >= lastConfiguration {
        currentConfiguration := 0;
      }
      if scene != null {
        scene.needsRedraw := true;
      }
    }

    /** The forward step that wraps only after the last configuration (`>` instead of `>=`). */
    method NextConfigurationWrapping()
      requires Valid()
      modifies this`currentConfiguration, scene
      ensures Valid()
      ensures currentConfiguration == NextIndex(old(currentConfiguration), lastConfiguration)
      ensures PreviousIndex(currentConfiguration, lastConfiguration) == old(currentConfiguration)
      ensures scene != null ==> scene.State() == old(scene.State()).(needsRedraw := true)
      ensures scene != null ==> scene.Settings() == old(scene.Settings())
    {
      currentConfiguration := currentConfiguration + 1;
      if currentConfiguration > lastConfiguration {
        currentConfiguration := 0;
      }
      if scene != null {
        scene.needsRedraw := true;
      }
    }

    function GetImpostorVertexBufferRegion(): (r: BufferRegion)
      reads this
      ensures r == ConfigurationRegion(atomsPerConfiguration, VertexStride, currentConfiguration)
      ensures r.length == atomsPerConfiguration * VertexStride
      ensures Valid() ==> 0 <= r.offset && r.offset + r.length <= atomsPerConfiguration * VertexStride * ConfigurationCount()
    {
      if Valid() then
        RegionWithinBuffer(atomsPerConfiguration, VertexStride, currentConfiguration, ConfigurationCount());
        ConfigurationRegion(atomsPerConfiguration, VertexStride, currentConfiguration)
      else
        ConfigurationRegion(atomsPerConfiguration, VertexStride, currentConfiguration)
    }

    function GetImpostorIndexBufferRegion(): (r: BufferRegion)
      reads this
      ensures r == ConfigurationRegion(atomsPerConfiguration, IndexStride, currentConfiguration)
      ensures r.length == atomsPerConfiguration * IndexStride
      ensures Valid() ==> 0 <= r.offset && r.offset + r.length <= atomsPerConfiguration * IndexStride * ConfigurationCount()
    {
      if Valid() then
        RegionWithinBuffer(atomsPerConfiguration, IndexStride, currentConfiguration, ConfigurationCount());
        ConfigurationRegion(atomsPerConfiguration, IndexStride, currentConfiguration)
      else
        ConfigurationRegion(atomsPerConfiguration, IndexStride, currentConfiguration)
    }

    /** One region per (subunit index, subunit length) pair, in order, inside the current configuration. */
    method SubunitSplitRegions(stride: nat) returns (regions: seq<BufferRegion>)
      ensures |regions| == Min(|subunitIndices|, |subunitLengths|)
      ensures forall k :: 0 <= k < |regions| ==>
        regions[k] == BufferRegion(subunitLengths[k] * stride,
                                   subunitIndices[k] * stride + atomsPerConfiguration * stride * currentConfiguration)
      ensures regions == SubunitRegions(subunitIndices, subunitLengths, stride,
                                        ConfigurationRegion(atomsPerConfiguration, stride, currentConfiguration).offset)
    {
      var base := atomsPerConfiguration * stride * currentConfiguration;
      var n := Min(|subunitIndices|, |subunitLengths|);
      regions := [];
      var i := 0;
      while i < n
        invariant 0 <= i <= n
        invariant |regions| == i
        invariant forall k :: 0 <= k < i ==>
          regions[k] == BufferRegion(subunitLengths[k] * stride, subunitIndices[k] * stride + base)
      {
        regions := regions + [BufferRegion(subunitLengths[i] * stride, subunitIndices[i] * stride + base)];
        i := i + 1;
      }
    }

    method GetSubunitSplitImpostorVertexBufferRegions() returns (regions: seq<BufferRegion>)
      ensures |regions| == Min(|subunitIndices|, |subunitLengths|)
      ensures forall k :: 0 <= k < |regions| ==>
        regions[k].length == subunitLengths[k] * VertexStride &&
        regions[k].offset == subunitIndices[k] * VertexStride
                             + ConfigurationRegion(atomsPerConfiguration, VertexStride, currentConfiguration).offset
      ensures regions == SubunitRegions(subunitIndices, subunitLengths, VertexStride,
                                        ConfigurationRegion(atomsPerConfiguration, VertexStride, currentConfiguration).offset)
    {
      regions := SubunitSplitRegions(VertexStride);
    }

    method GetSubunitSplitImpostorIndexBufferRegions() returns (regions: seq<BufferRegion>)
      ensures |regions| == Min(|subunitIndices|, |subunitLengths|)
      ensures forall k :: 0 <= k < |regions| ==>
        regions[k].length == subunitLengths[k] * IndexStride &&
        regions[k].offset == subunitIndices[k] * IndexStride
                             + ConfigurationRegion(atomsPerConfiguration, IndexStride, currentConfiguration).offset
      ensures regions == SubunitRegions(subunitIndices, subunitLengths, IndexStride,
                                        ConfigurationRegion(atomsPerConfiguration, IndexStride, currentConfiguration).offset)
    {
      regions := SubunitSplitRegions(IndexStride);
    }

    /** "No data" until bonds are attached; afterwards the current configuration's bond window. */
    function GetBondsIndexBufferRegion(): (r: Option<BufferRegion>)
      reads this
      requires bondsPerConfiguration.Some? && bondArrayStarts.Some? ==>
        0 <= currentConfiguration < |bondsPerConfiguration.value| && currentConfiguration < |bondArrayStarts.value|
      ensures r.None? <==> bondsPerConfiguration.None? || bondArrayStarts.None?
      ensures r.Some? ==> r.value == BondRegion(bondsPerConfiguration.value, bondArrayStarts.value, currentConfiguration)
    {
      match bondsPerConfiguration
      case None => None
      case Some(counts) =>
        match bondArrayStarts
        case None => None
        case Some(starts) =>
          Some(BufferRegion(counts[currentConfiguration] * BondIndexStride,
                            starts[currentConfiguration] * BondIndexStride))
    }
  }
}

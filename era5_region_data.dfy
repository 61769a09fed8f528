/**
 * `_create_era5_region_data` of era5_mapper.py: per-region means of every
 * weather channel, computed with zero-initialised (region x time) arrays,
 * `+=` per assigned point and `/=` by the point count.
 *
 * The ten numpy arrays are one three-dimensional array here, indexed by
 * the position of the output variable in `AllFeatures` (the order of the
 * dataset's data variables).
 */
module Era5RegionData {
  import opened Results
  import opened Features
  import opened Era5Mapper

  /**
   * The raw grid channel an output variable is averaged from. The raw
   * channel of soil temperature is spelled with a space.
   */
  function RawChannel(f: Feature): (name: string)
  {
    if f == SoilTemperature then "soil temperature" else f.Value()
  }

  /** The data variables of the written dataset, in the order they are declared. */
  const VariableNames: seq<string> :=
    ["height", "wnd100m", "roughness", "influx_toa", "influx_direct",
     "influx_diffuse", "albedo", "temperature", "soil_temperature", "runoff"]

  /** The written data variables are the feature values, in declaration order. */
  lemma VariablesAreFeatureValues()
    ensures |VariableNames| == |AllFeatures| == 10
    ensures forall k :: 0 <= k < 10 ==> VariableNames[k] == AllFeatures[k].Value()
  {
    assert VariableNames[0] == AllFeatures[0].Value();
    assert VariableNames[1] == AllFeatures[1].Value();
    assert VariableNames[2] == AllFeatures[2].Value();
    assert VariableNames[3] == AllFeatures[3].Value();
    assert VariableNames[4] == AllFeatures[4].Value();
    assert VariableNames[5] == AllFeatures[5].Value();
    assert VariableNames[6] == AllFeatures[6].Value();
    assert VariableNames[7] == AllFeatures[7].Value();
    assert VariableNames[8] == AllFeatures[8].Value();
    assert VariableNames[9] == AllFeatures[9].Value();
  }

  /** Every feature value names a written data variable. */
  lemma FeatureValueIsVariable(f: Feature)
    ensures f.Value() in VariableNames
  {
    TenDistinctFeatures();
    VariablesAreFeatureValues();
    assert f in AllFeatures;
    var k :| 0 <= k < 10 && AllFeatures[k] == f;
    assert VariableNames[k] == f.Value();
  }

  /** Only soil temperature is read from a raw channel whose name differs from its variable's. */
  lemma RawChannelDiffersOnlyForSoilTemperature(f: Feature)
    ensures RawChannel(f) == f.Value() <==> f != SoilTemperature
  {
  }

  /** `era_data[channel].sel(x=p.x, y=p.y)` at time index t. */
  type Sample = (string, Point, nat) -> real

  /** Sum over the region's points, in order, of one channel at time index t. */
  function PointSum(pts: seq<Point>, channel: string, t: nat, sample: Sample): real
  {
    if |pts| == 0 then 0.0 else PointSum(pts[..|pts| - 1], channel, t, sample) + sample(channel, pts[|pts| - 1], t)
  }

  /**
   * The value written for variable `f` of a region with points `pts` at
   * time t: the point mean at t, except for height, whose mean is taken
   * once over the points' first time value (`.item(0)`) and repeated at
   * every t.
   */
  function RegionValue(pts: seq<Point>, f: Feature, t: nat, sample: Sample): (v: real)
    requires |pts| > 0
    ensures (|pts| as real) * v == PointSum(pts, RawChannel(f), if f == Height then 0 else t, sample)
  {
    if f == Height then PointSum(pts, "height", 0, sample) / (|pts| as real)
    else PointSum(pts, RawChannel(f), t, sample) / (|pts| as real)
  }

  lemma {:induction false} PointSumBounds(pts: seq<Point>, channel: string, t: nat, sample: Sample, lo: real, hi: real)
    requires forall p :: p in pts ==> lo <= sample(channel, p, t) <= hi
    ensures (|pts| as real) * lo <= PointSum(pts, channel, t, sample) <= (|pts| as real) * hi
  {
    if |pts| > 0 {
      PointSumBounds(pts[..|pts| - 1], channel, t, sample, lo, hi);
      assert pts[|pts| - 1] in pts;
    }
  }

  /**
   * A region's value lies between the smallest and the largest value of
   * its points; when all points agree, it is their common value.
   */
  lemma RegionValueBounds(pts: seq<Point>, f: Feature, t: nat, sample: Sample, lo: real, hi: real)
    requires |pts| > 0
    requires forall p :: p in pts ==> lo <= sample(RawChannel(f), p, if f == Height then 0 else t) <= hi
    ensures lo <= RegionValue(pts, f, t, sample) <= hi
  {
    var channel := RawChannel(f);
    var time := if f == Height then 0 else t;
    PointSumBounds(pts, channel, time, sample, lo, hi);
    MeanBounds(PointSum(pts, channel, time, sample), |pts| as real, lo, hi);
  }

  /** A sum of n values, each within [lo, hi], divided by n lies within [lo, hi]. */
  lemma MeanBounds(s: real, n: real, lo: real, hi: real)
    requires n > 0.0 && n * lo <= s <= n * hi
    ensures lo <= s / n <= hi
  {
    assert (n * lo) / n == lo;
    assert (n * hi) / n == hi;
  }

  /** Height does not depend on the timestep. */
  lemma HeightTimeInvariant(pts: seq<Point>, sample: Sample, t1: nat, t2: nat)
    requires |pts| > 0
    ensures RegionValue(pts, Height, t1, sample) == RegionValue(pts, Height, t2, sample)
  {
  }

  /** Every entry outside the row of variable k of region r is as it was. */
  twostate predicate OnlyRowChanged(data: array3<real>, k: nat, r: nat)
    reads data
  {
    forall k', r', t :: 0 <= k' < data.Length0 && 0 <= r' < data.Length1 && 0 <= t < data.Length2 ==>
      (k' != k || r' != r) ==> data[k', r', t] == old(data[k', r', t])
  }

  /** `array[region_idx, :] += values` for one point. */
  method AddToRow(data: array3<real>, k: nat, r: nat, p: Point, channel: string, sample: Sample)
    requires k < data.Length0 && r < data.Length1
    modifies data
    ensures forall t :: 0 <= t < data.Length2 ==> data[k, r, t] == old(data[k, r, t]) + sample(channel, p, t)
    ensures OnlyRowChanged(data, k, r)
  {
    var t := 0;
    while t < data.Length2
      invariant 0 <= t <= data.Length2
      invariant forall t' :: 0 <= t' < t ==> data[k, r, t'] == old(data[k, r, t']) + sample(channel, p, t')
      invariant OnlyRowChanged(data, k, r)
      invariant forall t' :: t <= t' < data.Length2 ==> data[k, r, t'] == old(data[k, r, t'])
    {
      data[k, r, t] := data[k, r, t] + sample(channel, p, t);
      t := t + 1;
    }
  }

  /** `array[region_idx, :] /= n`. */
  method DivideRow(data: array3<real>, k: nat, r: nat, n: nat)
    requires k < data.Length0 && r < data.Length1 && n > 0
    modifies data
    ensures forall t :: 0 <= t < data.Length2 ==> data[k, r, t] == old(data[k, r, t]) / (n as real)
    ensures OnlyRowChanged(data, k, r)
  {
    var t := 0;
    while t < data.Length2
      invariant 0 <= t <= data.Length2
      invariant forall t' :: 0 <= t' < t ==> data[k, r, t'] == old(data[k, r, t']) / (n as real)
      invariant OnlyRowChanged(data, k, r)
      invariant forall t' :: t <= t' < data.Length2 ==> data[k, r, t'] == old(data[k, r, t'])
    {
      data[k, r, t] := data[k, r, t] / (n as real);
      t := t + 1;
    }
  }

  /** `height[region_idx, :] = height_mean`. */
  method FillRow(data: array3<real>, k: nat, r: nat, v: real)
    requires k < data.Length0 && r < data.Length1
    modifies data
    ensures forall t :: 0 <= t < data.Length2 ==> data[k, r, t] == v
    ensures OnlyRowChanged(data, k, r)
  {
    var t := 0;
    while t < data.Length2
      invariant 0 <= t <= data.Length2
      invariant forall t' :: 0 <= t' < t ==> data[k, r, t'] == v
      invariant OnlyRowChanged(data, k, r)
      invariant forall t' :: t <= t' < data.Length2 ==> data[k, r, t'] == old(data[k, r, t'])
    {
      data[k, r, t] := v;
      t := t + 1;
    }
  }

  /** Every entry outside the rows of region r is as it was. */
  twostate predicate OnlyRegionChanged(data: array3<real>, r: nat)
    reads data
  {
    forall k, r', t :: 0 <= k < data.Length0 && 0 <= r' < data.Length1 && 0 <= t < data.Length2 ==>
      r' != r ==> data[k, r', t] == old(data[k, r', t])
  }

  /** The rows of region r are still as `np.zeros` left them. */
  ghost predicate RegionRowsZero(data: array3<real>, r: nat)
    reads data
  {
    forall k, t :: 0 <= k < data.Length0 && 0 <= t < data.Length2 && r < data.Length1 ==> data[k, r, t] == 0.0
  }

  /** The rows of region r hold the region's values of every variable. */
  ghost predicate RegionRowsDone(data: array3<real>, r: nat, pts: seq<Point>, sample: Sample)
    reads data
  {
    && |pts| > 0
    && data.Length0 == 10
    && r < data.Length1
    && forall k, t :: 0 <= k < 10 && 0 <= t < data.Length2 ==>
         data[k, r, t] == RegionValue(pts, AllFeatures[k], t, sample)
  }

  /** The nine `+=` lines for one point: every variable but height. */
  method AddPoint(data: array3<real>, r: nat, p: Point, sample: Sample)
    requires data.Length0 == 10 && r < data.Length1
    modifies data
    ensures forall k, t :: 1 <= k < 10 && 0 <= t < data.Length2 ==>
      data[k, r, t] == old(data[k, r, t]) + sample(RawChannel(AllFeatures[k]), p, t)
    ensures forall t :: 0 <= t < data.Length2 ==> data[0, r, t] == old(data[0, r, t])
    ensures OnlyRegionChanged(data, r)
  {
    var k := 1;
    while k < 10
      invariant 1 <= k <= 10
      invariant forall k', t :: 1 <= k' < k && 0 <= t < data.Length2 ==>
        data[k', r, t] == old(data[k', r, t]) + sample(RawChannel(AllFeatures[k']), p, t)
      invariant forall k', t :: (k' == 0 || k <= k' < 10) && 0 <= t < data.Length2 ==>
        data[k', r, t] == old(data[k', r, t])
      invariant OnlyRegionChanged(data, r)
    {
      AddToRow(data, k, r, p, RawChannel(AllFeatures[k]), sample);
      k := k + 1;
    }
  }

  /** The nine `/=` lines: every variable but height divided by the point count. */
  method DivideRows(data: array3<real>, r: nat, n: nat)
    requires data.Length0 == 10 && r < data.Length1 && n > 0
    modifies data
    ensures forall k, t :: 1 <= k < 10 && 0 <= t < data.Length2 ==>
      data[k, r, t] == old(data[k, r, t]) / (n as real)
    ensures forall t :: 0 <= t < data.Length2 ==> data[0, r, t] == old(data[0, r, t])
    ensures OnlyRegionChanged(data, r)
  {
    var k := 1;
    while k < 10
      invariant 1 <= k <= 10
      invariant forall k', t :: 1 <= k' < k && 0 <= t < data.Length2 ==>
        data[k', r, t] == old(data[k', r, t]) / (n as real)
      invariant forall k', t :: (k' == 0 || k <= k' < 10) && 0 <= t < data.Length2 ==>
        data[k', r, t] == old(data[k', r, t])
      invariant OnlyRegionChanged(data, r)
    {
      DivideRow(data, k, r, n);
      k := k + 1;
    }
  }

  /**
   * One iteration of the region loop. With no assigned points the height
   * mean divides by zero: the source raises before writing anything.
   */
  method AverageRegion(data: array3<real>, r: nat, pts: seq<Point>, sample: Sample) returns (ok: bool)
    requires data.Length0 == 10 && r < data.Length1
    requires RegionRowsZero(data, r)
    modifies data
    ensures ok <==> |pts| > 0
    ensures ok ==> RegionRowsDone(data, r, pts, sample)
    ensures !ok ==> unchanged(data)
    ensures OnlyRegionChanged(data, r)
  {
    var heightSum := 0.0;
    var i := 0;
    while i < |pts|
      invariant 0 <= i <= |pts|
      invariant heightSum == PointSum(pts[..i], "height", 0, sample)
    {
      assert pts[..i + 1][..i] == pts[..i];
      heightSum := heightSum + sample("height", pts[i], 0);
      i := i + 1;
    }
    if |pts| == 0 {
      return false;
    }
    assert pts[..|pts|] == pts;
    var n := |pts|;
    var heightMean := heightSum / (n as real);
    FillRow(data, 0, r, heightMean);
    i := 0;
    while i < n
      invariant 0 <= i <= n
      invariant forall k, t :: 1 <= k < 10 && 0 <= t < data.Length2 ==>
        data[k, r, t] == PointSum(pts[..i], RawChannel(AllFeatures[k]), t, sample)
      invariant forall t :: 0 <= t < data.Length2 ==> data[0, r, t] == heightMean
      invariant OnlyRegionChanged(data, r)
    {
      assert pts[..i + 1][..i] == pts[..i];
      AddPoint(data, r, pts[i], sample);
      i := i + 1;
    }
    assert pts[..n] == pts;
    DivideRows(data, r, n);
    ok := true;
  }

  /** The regional dataset: variable `VariableNames[k]` of region `regions[r]` at time t is `data[k][r][t]`. */
  datatype RegionalDataset = RegionalDataset(regions: seq<string>, nTime: nat, data: seq<seq<seq<real>>>)
  {
    /** Ten variables, each holding one row of nTime values per region. */
    predicate Shaped()
    {
      && |data| == 10
      && (forall k :: 0 <= k < 10 ==> |data[k]| == |regions|)
      && (forall k, r :: 0 <= k < 10 && 0 <= r < |regions| ==> |data[k][r]| == nTime)
    }

    /** Shaped, and no two rows carry the same region label, so a label selects one row. */
    predicate WellFormed()
    {
      Shaped() && Distinct(regions)
    }
  }

  /**
   * A dataset of the aggregation's shape, labelled with the suffixed
   * shapefile names, is well formed exactly when each shapefile's names
   * are distinct.
   */
  lemma AggregatedWellFormed(ds: RegionalDataset, onNames: seq<string>, offNames: seq<string>)
    requires ds.Shaped() && ds.regions == RegionNames(onNames, offNames)
    ensures ds.WellFormed() <==> Distinct(onNames) && Distinct(offNames)
  {
    RegionNamesDistinct(onNames, offNames);
  }

  /** A region that received no grid point (the division by zero of the height mean). */
  datatype AggregationError = EmptyRegion(index: nat)

  /** `to_netcdf`: the values the file receives. */
  method ToNetcdf(data: array3<real>) returns (planes: seq<seq<seq<real>>>)
    ensures |planes| == data.Length0
    ensures forall k :: 0 <= k < data.Length0 ==> |planes[k]| == data.Length1
    ensures forall k, r :: 0 <= k < data.Length0 && 0 <= r < data.Length1 ==> |planes[k][r]| == data.Length2
    ensures forall k, r, t :: 0 <= k < data.Length0 && 0 <= r < data.Length1 && 0 <= t < data.Length2 ==>
      planes[k][r][t] == data[k, r, t]
  {
    planes := seq(data.Length0, k requires 0 <= k < data.Length0 reads data =>
      seq(data.Length1, r requires 0 <= r < data.Length1 reads data =>
        seq(data.Length2, t requires 0 <= t < data.Length2 reads data => data[k, r, t])));
  }

  /**
   * `_create_era5_region_data`: name the regions, then average every
   * region's points into the zero-initialised arrays, region by region.
   * The first region without points aborts the whole aggregation and no
   * dataset is written.
   */
  method CreateEra5RegionData(sample: Sample, nTime: nat,
                              onNames: array<string>, offNames: array<string>,
                              regionsOnshore: seq<seq<Point>>, regionsOffshore: seq<seq<Point>>)
    returns (result: Result<RegionalDataset, AggregationError>)
    requires onNames != offNames
    requires |regionsOnshore| == onNames.Length && |regionsOffshore| == offNames.Length
    modifies onNames, offNames
    ensures onNames[..] == Suffixed(old(onNames[..]), " on")
    ensures offNames[..] == Suffixed(old(offNames[..]), " off")
    ensures var coords := regionsOnshore + regionsOffshore;
      result.Err? <==> exists r :: 0 <= r < |coords| && |coords[r]| == 0
    ensures var coords := regionsOnshore + regionsOffshore;
      result.Err? ==> result.error.index < |coords| && |coords[result.error.index]| == 0
                      && forall j :: 0 <= j < result.error.index ==> |coords[j]| > 0
    ensures var coords := regionsOnshore + regionsOffshore;
      result.Ok? ==>
        && result.value.regions == RegionNames(old(onNames[..]), old(offNames[..]))
        && result.value.nTime == nTime
        && result.value.Shaped()
        && forall k, r, t :: 0 <= k < 10 && 0 <= r < |coords| && 0 <= t < nTime ==>
             |coords[r]| > 0 && result.value.data[k][r][t] == RegionValue(coords[r], AllFeatures[k], t, sample)
  {
    var regions := CreateRegionNames(onNames, offNames);
    var coords := regionsOnshore + regionsOffshore;
    var nRegions := |regions|;
    var data := new real[10, nRegions, nTime]((_, _, _) => 0.0);
    var regionIdx := 0;
    while regionIdx < nRegions
      invariant 0 <= regionIdx <= nRegions
      invariant forall r :: 0 <= r < regionIdx ==> RegionRowsDone(data, r, coords[r], sample)
      invariant forall r :: regionIdx <= r < nRegions ==> RegionRowsZero(data, r)
      modifies data
    {
      label before:
      var ok := AverageRegion(data, regionIdx, coords[regionIdx], sample);
      if !ok {
        return Err(EmptyRegion(regionIdx));
      }
      forall r | 0 <= r < regionIdx
        ensures RegionRowsDone(data, r, coords[r], sample)
      {
        assert old@before(RegionRowsDone(data, r, coords[r], sample));
        forall k, t | 0 <= k < 10 && 0 <= t < nTime
          ensures data[k, r, t] == old@before(data[k, r, t])
        {
        }
      }
      forall r | regionIdx < r < nRegions
        ensures RegionRowsZero(data, r)
      {
        assert old@before(RegionRowsZero(data, r));
      }
      regionIdx := regionIdx + 1;
    }
    var planes := ToNetcdf(data);
    result := Ok(RegionalDataset(regions, nTime, planes));
  }

  /** The point lists of all `n` regions of one side, in region order. */
  function AllAssigned(s: seq<Point>, n: nat, within: (Point, nat) -> bool): (lists: seq<seq<Point>>)
    ensures |lists| == n
  {
    seq(n, r requires 0 <= r < n => Assigned(s, r, n, within))
  }

  /**
   * `create_era5_region`: assign the grid points to the onshore and the
   * offshore regions, then aggregate them into the regional dataset. The
   * dataset exists iff every region received a grid point, and then each
   * region's value is the mean over the grid points assigned to it.
   */
  method CreateEra5Region(xs: seq<real>, ys: seq<real>, sample: Sample, nTime: nat,
                          onNames: array<string>, withinOn: (Point, nat) -> bool,
                          offNames: array<string>, withinOff: (Point, nat) -> bool)
    returns (result: Result<RegionalDataset, AggregationError>)
    requires onNames != offNames
    modifies onNames, offNames
    ensures onNames[..] == Suffixed(old(onNames[..]), " on")
    ensures offNames[..] == Suffixed(old(offNames[..]), " off")
    ensures var coords := AllAssigned(ScanOrder(xs, ys), onNames.Length, withinOn)
                        + AllAssigned(ScanOrder(xs, ys), offNames.Length, withinOff);
      && (result.Err? <==> exists r :: 0 <= r < |coords| && |coords[r]| == 0)
      && (result.Ok? ==>
            && result.value.regions == RegionNames(old(onNames[..]), old(offNames[..]))
            && |result.value.regions| == |coords| && result.value.nTime == nTime
            && result.value.Shaped()
            && forall k, r, t :: 0 <= k < 10 && 0 <= r < |coords| && 0 <= t < nTime ==>
                 |coords[r]| > 0 && result.value.data[k][r][t] == RegionValue(coords[r], AllFeatures[k], t, sample))
  {
    var regionsOnshore, regionsOffshore :=
      MapCoordinatesToRegions(xs, ys, onNames.Length, withinOn, offNames.Length, withinOff);
    assert regionsOnshore == AllAssigned(ScanOrder(xs, ys), onNames.Length, withinOn);
    assert regionsOffshore == AllAssigned(ScanOrder(xs, ys), offNames.Length, withinOff);
    result := CreateEra5RegionData(sample, nTime, onNames, offNames, regionsOnshore, regionsOffshore);
  }

  /** The height of every region at time index 0, the value its height plane repeats. */
  function HeightMeans(coords: seq<seq<Point>>, sample: Sample): seq<real>
  {
    seq(|coords|, r requires 0 <= r < |coords| =>
      if |coords[r]| > 0 then RegionValue(coords[r], Height, 0, sample) else 0.0)
  }

  /**
   * The height plane the loop writes is the per-region height mean
   * broadcast over all timesteps, for any number of regions and timesteps.
   */
  lemma HeightPlaneIsBroadcast(plane: seq<seq<real>>, coords: seq<seq<Point>>, sample: Sample, nTime: nat)
    requires |plane| == |coords|
    requires forall r :: 0 <= r < |coords| ==> |plane[r]| == nTime
    requires forall r, t :: 0 <= r < |coords| && 0 <= t < nTime ==>
      |coords[r]| > 0 && plane[r][t] == RegionValue(coords[r], Height, t, sample)
    ensures plane == HeightBroadcast(HeightMeans(coords, sample), nTime)
  {
    var b := HeightBroadcast(HeightMeans(coords, sample), nTime);
    forall r | 0 <= r < |coords| ensures plane[r] == b[r] {
      forall t | 0 <= t < nTime ensures plane[r][t] == b[r][t] {
        assert |coords[r]| > 0 && plane[r][t] == RegionValue(coords[r], Height, t, sample);
      }
    }
  }
}

/**
 * Reduction of the ERA5 grid to shapefile regions: the first-match
 * assignment of grid points to onshore and offshore regions, the region
 * names of the regional dataset, the lookup key `get_era5_region_name`,
 * and the height broadcast of src/era5_mapper.py.
 *
 * The assignment, the naming and the key are identical in
 * src/era5_mapper.py and era5_mapper.py; they are modelled once here.
 */
module Era5Mapper {
  import opened Results
  import opened EnergyTypes

  /** A grid point `(point.x, point.y)` in the grid's native projection. */
  datatype Point = Point(x: real, y: real)

  // ---------------------------------------------------------------------
  // Scan order of the grid: y outer, x inner
  // ---------------------------------------------------------------------

  /** The points of one grid row `y`, in x order. */
  function Row(xs: seq<real>, y: real): seq<Point>
  {
    seq(|xs|, i requires 0 <= i < |xs| => Point(xs[i], y))
  }

  /** All grid points in the order the nested loops visit them. */
  function ScanOrder(xs: seq<real>, ys: seq<real>): seq<Point>
  {
    if |ys| == 0 then [] else ScanOrder(xs, ys[..|ys| - 1]) + Row(xs, ys[|ys| - 1])
  }

  /** The scan visits `dim_x * dim_y` points. */
  lemma {:induction false} ScanOrderLength(xs: seq<real>, ys: seq<real>)
    ensures |ScanOrder(xs, ys)| == |xs| * |ys|
  {
    if |ys| > 0 {
      var init := ys[..|ys| - 1];
      ScanOrderLength(xs, init);
      assert |xs| * |ys| == |xs| * |init| + |xs| by {
        assert |ys| == |init| + 1;
      }
    }
  }

  /** Visit `y * dim_x + x` is the point `(xs[x], ys[y])`. */
  lemma {:induction false} ScanOrderPoint(xs: seq<real>, ys: seq<real>, y: nat, x: nat)
    requires y < |ys| && x < |xs|
    ensures y * |xs| + x < |ScanOrder(xs, ys)|
    ensures ScanOrder(xs, ys)[y * |xs| + x] == Point(xs[x], ys[y])
  {
    var init := ys[..|ys| - 1];
    var before := ScanOrder(xs, init);
    assert ScanOrder(xs, ys) == before + Row(xs, ys[|ys| - 1]);
    ScanOrderLength(xs, init);
    if y < |init| {
      ScanOrderPoint(xs, init, y, x);
      assert init[y] == ys[y];
    } else {
      assert y * |xs| == |xs| * |init|;
    }
  }

  // ---------------------------------------------------------------------
  // First-match assignment
  // ---------------------------------------------------------------------

  /**
   * The lowest region index below `n` whose polygon contains `p`, if any.
   * `within(p, i)` stands for shapely's `point.within(polygon_i)`.
   */
  function FirstContaining(p: Point, n: nat, within: (Point, nat) -> bool): (r: Option<nat>)
    ensures r.Some? ==> r.value < n && within(p, r.value)
    ensures r.Some? ==> forall j :: 0 <= j < r.value ==> !within(p, j)
    ensures r.None? ==> forall j :: 0 <= j < n ==> !within(p, j)
  {
    if n == 0 then None
    else
      match FirstContaining(p, n - 1, within)
      case Some(i) => Some(i)
      case None => if within(p, n - 1) then Some(n - 1) else None
  }

  /** The points of `s`, in order, whose first containing region is `r`. */
  function Assigned(s: seq<Point>, r: nat, n: nat, within: (Point, nat) -> bool): seq<Point>
  {
    if |s| == 0 then []
    else
      Assigned(s[..|s| - 1], r, n, within)
        + (if FirstContaining(s[|s| - 1], n, within) == Some(r) then [s[|s| - 1]] else [])
  }

  lemma AssignedSnoc(s: seq<Point>, p: Point, r: nat, n: nat, within: (Point, nat) -> bool)
    ensures Assigned(s + [p], r, n, within)
         == Assigned(s, r, n, within) + (if FirstContaining(p, n, within) == Some(r) then [p] else [])
  {
    assert (s + [p])[..|s|] == s;
  }

  /** A point is in region r's list iff r is the lowest-index region containing it. */
  lemma {:induction false} AssignedMembership(s: seq<Point>, r: nat, n: nat, within: (Point, nat) -> bool, p: Point)
    ensures p in Assigned(s, r, n, within) <==> p in s && FirstContaining(p, n, within) == Some(r)
  {
    if |s| > 0 {
      var init := s[..|s| - 1];
      AssignedMembership(init, r, n, within, p);
      assert s == init + [s[|s| - 1]];
    }
  }

  /**
   * A point is appended to at most one list of a side: the lists of two
   * different regions share no point, and a point inside region j is
   * never in the list of a region after j.
   */
  lemma AssignedDisjoint(s: seq<Point>, r1: nat, r2: nat, n: nat, within: (Point, nat) -> bool, p: Point)
    requires r1 != r2
    ensures !(p in Assigned(s, r1, n, within) && p in Assigned(s, r2, n, within))
    ensures p in Assigned(s, r1, n, within) ==> within(p, r1) && forall j :: 0 <= j < r1 ==> !within(p, j)
  {
    AssignedMembership(s, r1, n, within, p);
    AssignedMembership(s, r2, n, within, p);
  }

  /** Sum of the lengths of a side's lists. */
  function TotalLength(lists: seq<seq<Point>>): nat
  {
    if |lists| == 0 then 0 else TotalLength(lists[..|lists| - 1]) + |lists[|lists| - 1]|
  }

  /** Number of points of `s` whose first containing region is below `k`. */
  function CountBelow(s: seq<Point>, k: nat, n: nat, within: (Point, nat) -> bool): nat
  {
    if |s| == 0 then 0
    else
      var f := FirstContaining(s[|s| - 1], n, within);
      CountBelow(s[..|s| - 1], k, n, within) + (if f.Some? && f.value < k then 1 else 0)
  }

  lemma {:induction false} CountBelowBounded(s: seq<Point>, k: nat, n: nat, within: (Point, nat) -> bool)
    ensures CountBelow(s, k, n, within) <= |s|
  {
    if |s| > 0 {
      CountBelowBounded(s[..|s| - 1], k, n, within);
    }
  }

  lemma {:induction false} CountBelowStep(s: seq<Point>, k: nat, n: nat, within: (Point, nat) -> bool)
    ensures CountBelow(s, k + 1, n, within) == CountBelow(s, k, n, within) + |Assigned(s, k, n, within)|
  {
    if |s| > 0 {
      CountBelowStep(s[..|s| - 1], k, n, within);
    }
  }

  lemma {:induction false} TotalLengthIsCount(s: seq<Point>, lists: seq<seq<Point>>, n: nat, within: (Point, nat) -> bool)
    requires forall r :: 0 <= r < |lists| ==> lists[r] == Assigned(s, r, n, within)
    ensures TotalLength(lists) == CountBelow(s, |lists|, n, within)
  {
    if |lists| == 0 {
      CountBelowZero(s, n, within);
    } else {
      var k := |lists| - 1;
      TotalLengthIsCount(s, lists[..k], n, within);
      CountBelowStep(s, k, n, within);
    }
  }

  lemma {:induction false} CountBelowZero(s: seq<Point>, n: nat, within: (Point, nat) -> bool)
    ensures CountBelow(s, 0, n, within) == 0
  {
    if |s| > 0 {
      CountBelowZero(s[..|s| - 1], n, within);
    }
  }

  /** The lists of one side hold at most `dim_x * dim_y` entries in all. */
  lemma AssignmentTotalBound(xs: seq<real>, ys: seq<real>, lists: seq<seq<Point>>, n: nat, within: (Point, nat) -> bool)
    requires forall r :: 0 <= r < |lists| ==> lists[r] == Assigned(ScanOrder(xs, ys), r, n, within)
    ensures TotalLength(lists) <= |xs| * |ys|
  {
    TotalLengthIsCount(ScanOrder(xs, ys), lists, n, within);
    CountBelowBounded(ScanOrder(xs, ys), |lists|, n, within);
    ScanOrderLength(xs, ys);
  }

  /** The inner region loop: test regions in index order and stop at the first that contains `p`. */
  method FindRegion(p: Point, n: nat, within: (Point, nat) -> bool) returns (found: Option<nat>)
    ensures found == FirstContaining(p, n, within)
  {
    found := None;
    var regionIdx := 0;
    while regionIdx < n
      invariant 0 <= regionIdx <= n
      invariant found == None
      invariant forall j :: 0 <= j < regionIdx ==> !within(p, j)
    {
      if within(p, regionIdx) {
        found := Some(regionIdx);
        break;
      }
      regionIdx := regionIdx + 1;
    }
  }

  /** `lists` are the lists of one side after the points `s` have been scanned. */
  predicate IsAssignment(lists: seq<seq<Point>>, s: seq<Point>, n: nat, within: (Point, nat) -> bool)
  {
    |lists| == n && forall r :: 0 <= r < n ==> lists[r] == Assigned(s, r, n, within)
  }

  /** One side's step for one point: append it to the list of its first containing region. */
  method AppendToFirst(lists: seq<seq<Point>>, p: Point, n: nat, within: (Point, nat) -> bool,
                       ghost scanned: seq<Point>)
    returns (updated: seq<seq<Point>>)
    requires IsAssignment(lists, scanned, n, within)
    ensures IsAssignment(updated, scanned + [p], n, within)
  {
    forall r | 0 <= r < n {
      AssignedSnoc(scanned, p, r, n, within);
    }
    var found := FindRegion(p, n, within);
    updated := lists;
    if found.Some? {
      updated := lists[found.value := lists[found.value] + [p]];
    }
  }

  /**
   * `_map_coordinates_to_regions`: visit the grid y outer, x inner; append each
   * point to the first onshore region containing it, and independently to
   * the first offshore region containing it.
   */
  method MapCoordinatesToRegions(xs: seq<real>, ys: seq<real>,
                                 nOn: nat, withinOn: (Point, nat) -> bool,
                                 nOff: nat, withinOff: (Point, nat) -> bool)
    returns (onshore: seq<seq<Point>>, offshore: seq<seq<Point>>)
    ensures |onshore| == nOn && |offshore| == nOff
    ensures forall r :: 0 <= r < nOn ==> onshore[r] == Assigned(ScanOrder(xs, ys), r, nOn, withinOn)
    ensures forall r :: 0 <= r < nOff ==> offshore[r] == Assigned(ScanOrder(xs, ys), r, nOff, withinOff)
    ensures TotalLength(onshore) <= |xs| * |ys| && TotalLength(offshore) <= |xs| * |ys|
  {
    onshore := seq(nOn, _ => []);
    offshore := seq(nOff, _ => []);
    var y := 0;
    while y < |ys|
      invariant 0 <= y <= |ys|
      invariant IsAssignment(onshore, ScanOrder(xs, ys[..y]), nOn, withinOn)
      invariant IsAssignment(offshore, ScanOrder(xs, ys[..y]), nOff, withinOff)
    {
      ghost var done := ScanOrder(xs, ys[..y]);
      var x := 0;
      assert done + Row(xs[..x], ys[y]) == done;
      while x < |xs|
        invariant 0 <= x <= |xs|
        invariant IsAssignment(onshore, done + Row(xs[..x], ys[y]), nOn, withinOn)
        invariant IsAssignment(offshore, done + Row(xs[..x], ys[y]), nOff, withinOff)
      {
        var point := Point(xs[x], ys[y]);
        ghost var before := done + Row(xs[..x], ys[y]);
        assert before + [point] == done + Row(xs[..x + 1], ys[y]);
        onshore := AppendToFirst(onshore, point, nOn, withinOn, before);
        offshore := AppendToFirst(offshore, point, nOff, withinOff, before);
        x := x + 1;
      }
      assert xs[..|xs|] == xs;
      assert ys[..y + 1][..y] == ys[..y];
      y := y + 1;
    }
    assert ys[..|ys|] == ys;
    AssignmentTotalBound(xs, ys, onshore, nOn, withinOn);
    AssignmentTotalBound(xs, ys, offshore, nOff, withinOff);
  }

  // ---------------------------------------------------------------------
  // Region names of the regional dataset
  // ---------------------------------------------------------------------

  /** Every name with `suffix` appended. */
  function Suffixed(names: seq<string>, suffix: string): seq<string>
  {
    seq(|names|, i requires 0 <= i < |names| => names[i] + suffix)
  }

  /** The region coordinate of the regional dataset: onshore names + " on", then offshore names + " off". */
  function RegionNames(onNames: seq<string>, offNames: seq<string>): (names: seq<string>)
    ensures |names| == |onNames| + |offNames|
    ensures forall i :: 0 <= i < |onNames| ==> names[i] == onNames[i] + " on"
    ensures forall i :: 0 <= i < |offNames| ==> names[|onNames| + i] == offNames[i] + " off"
  {
    Suffixed(onNames, " on") + Suffixed(offNames, " off")
  }

  /** `regions_on[i] = regions_on[i] + suffix` for every i, in place. */
  method AppendSuffix(names: array<string>, suffix: string)
    modifies names
    ensures names[..] == Suffixed(old(names[..]), suffix)
  {
    var i := 0;
    while i < names.Length
      invariant 0 <= i <= names.Length
      invariant forall j :: 0 <= j < i ==> names[j] == old(names[j]) + suffix
      invariant forall j :: i <= j < names.Length ==> names[j] == old(names[j])
    {
      names[i] := names[i] + suffix;
      i := i + 1;
    }
  }

  /**
   * The naming step of `_create_era5_region_data`: both name arrays are
   * rewritten in place (they are the shapefiles' own name columns), then
   * concatenated, onshore first.
   */
  method CreateRegionNames(onNames: array<string>, offNames: array<string>) returns (regions: seq<string>)
    requires onNames != offNames
    modifies onNames, offNames
    ensures onNames[..] == Suffixed(old(onNames[..]), " on")
    ensures offNames[..] == Suffixed(old(offNames[..]), " off")
    ensures regions == RegionNames(old(onNames[..]), old(offNames[..]))
  {
    AppendSuffix(onNames, " on");
    AppendSuffix(offNames, " off");
    regions := onNames[..] + offNames[..];
  }

  lemma SuffixCancels(a: string, b: string, suffix: string)
    requires a + suffix == b + suffix
    ensures a == b
  {
    assert a == (a + suffix)[..|a|];
    assert b == (b + suffix)[..|b|];
  }

  lemma LastChar(a: string, suffix: string)
    requires |suffix| > 0
    ensures (a + suffix)[|a + suffix| - 1] == suffix[|suffix| - 1]
  {
  }

  /** Distinct names in each shapefile give distinct region names: the suffixes keep the two parts apart. */
  lemma DistinctPartsDistinctNames(onNames: seq<string>, offNames: seq<string>)
    requires Distinct(onNames) && Distinct(offNames)
    ensures Distinct(RegionNames(onNames, offNames))
  {
    var names := RegionNames(onNames, offNames);
    var k := |onNames|;
    forall i, j | 0 <= i < j < |names| ensures names[i] != names[j] {
      if j < k {
        if names[i] == names[j] { SuffixCancels(onNames[i], onNames[j], " on"); }
      } else if k <= i {
        if names[i] == names[j] { SuffixCancels(offNames[i - k], offNames[j - k], " off"); }
      } else {
        LastChar(onNames[i], " on");
        LastChar(offNames[j - k], " off");
      }
    }
  }

  /** Each part of a concatenation without repetitions is without repetitions. */
  lemma DistinctParts<T>(a: seq<T>, b: seq<T>)
    requires Distinct(a + b)
    ensures Distinct(a) && Distinct(b)
  {
    var ab := a + b;
    forall i, j | 0 <= i < j < |a| ensures a[i] != a[j] {
      assert ab[i] == a[i] && ab[j] == a[j];
    }
    forall i, j | 0 <= i < j < |b| ensures b[i] != b[j] {
      assert ab[|a| + i] == b[i] && ab[|a| + j] == b[j];
    }
  }

  /** Names that stay distinct once suffixed were distinct to begin with. */
  lemma SuffixedDistinct(names: seq<string>, suffix: string)
    requires Distinct(Suffixed(names, suffix))
    ensures Distinct(names)
  {
    var suffixed := Suffixed(names, suffix);
    forall i, j | 0 <= i < j < |names| ensures names[i] != names[j] {
      assert suffixed[i] != suffixed[j];
    }
  }

  /** A name repeated in either shapefile is repeated among the region names. */
  lemma DistinctNamesDistinctParts(onNames: seq<string>, offNames: seq<string>)
    requires Distinct(RegionNames(onNames, offNames))
    ensures Distinct(onNames) && Distinct(offNames)
  {
    DistinctParts(Suffixed(onNames, " on"), Suffixed(offNames, " off"));
    SuffixedDistinct(onNames, " on");
    SuffixedDistinct(offNames, " off");
  }

  /**
   * The region names are distinct exactly when the names of each
   * shapefile are, one region name per shapefile name.
   */
  lemma RegionNamesDistinct(onNames: seq<string>, offNames: seq<string>)
    ensures |RegionNames(onNames, offNames)| == |onNames| + |offNames|
    ensures Distinct(RegionNames(onNames, offNames)) <==> Distinct(onNames) && Distinct(offNames)
  {
    if Distinct(onNames) && Distinct(offNames) {
      DistinctPartsDistinctNames(onNames, offNames);
    }
    if Distinct(RegionNames(onNames, offNames)) {
      DistinctNamesDistinctParts(onNames, offNames);
    }
  }

  // ---------------------------------------------------------------------
  // Lookup key into the regional dataset
  // ---------------------------------------------------------------------

  predicate IsOnshoreType(e: EnergyType)
  {
    e == Onwind || e == Solar || e == Ror
  }

  predicate IsOffshoreType(e: EnergyType)
  {
    e == OffwindAc || e == OffwindDc
  }

  /** `get_era5_region_name`: the region name, " 0", and the side the energy type is produced on. */
  function GetEra5RegionName(regionName: string, energyType: EnergyType): (key: string)
    ensures IsOnshoreType(energyType) ==> key == regionName + " 0 on"
    ensures IsOffshoreType(energyType) ==> key == regionName + " 0 off"
    ensures energyType == NotDefined ==> key == regionName + " 0"
    ensures |key| >= |regionName| + 2 && key[..|regionName| + 2] == regionName + " 0"
  {
    var era5RegionName := regionName + " 0";
    if IsOnshoreType(energyType) then era5RegionName + " on"
    else if IsOffshoreType(energyType) then era5RegionName + " off"
    else era5RegionName + ""
  }

  /**
   * The key agrees with the aggregation's naming: for a shapefile region
   * named `regionName + " 0"`, the key of an onshore type is that region's
   * onshore name and the key of an offshore type its offshore name.
   */
  lemma KeyMatchesRegionNames(onNames: seq<string>, offNames: seq<string>, regionName: string, e: EnergyType)
    ensures IsOnshoreType(e) && regionName + " 0" in onNames ==> GetEra5RegionName(regionName, e) in RegionNames(onNames, offNames)
    ensures IsOffshoreType(e) && regionName + " 0" in offNames ==> GetEra5RegionName(regionName, e) in RegionNames(onNames, offNames)
    ensures e == NotDefined ==> GetEra5RegionName(regionName, e) !in RegionNames(onNames, offNames)
  {
    var names := RegionNames(onNames, offNames);
    var key := GetEra5RegionName(regionName, e);
    if IsOnshoreType(e) && regionName + " 0" in onNames {
      var i :| 0 <= i < |onNames| && onNames[i] == regionName + " 0";
      assert names[i] == (regionName + " 0") + " on";
    }
    if IsOffshoreType(e) && regionName + " 0" in offNames {
      var i :| 0 <= i < |offNames| && offNames[i] == regionName + " 0";
      assert names[|onNames| + i] == (regionName + " 0") + " off";
    }
    if e == NotDefined {
      LastChar(regionName, " 0");
      forall i | 0 <= i < |names| ensures names[i] != key {
        if i < |onNames| { LastChar(onNames[i], " on"); } else { LastChar(offNames[i - |onNames|], " off"); }
      }
    }
  }

  // ---------------------------------------------------------------------
  // Height broadcast (src/era5_mapper.py)
  // ---------------------------------------------------------------------

  datatype ShapeError = CannotReshape

  /** One height per region, repeated at every timestep: one row per region, each constant over time. */
  function HeightBroadcast(heights: seq<real>, nTime: nat): (b: seq<seq<real>>)
    ensures |b| == |heights|
    ensures forall r :: 0 <= r < |heights| ==> |b[r]| == nTime
    ensures forall r, t :: 0 <= r < |heights| && 0 <= t < nTime ==> b[r][t] == heights[r]
  {
    seq(|heights|, r requires 0 <= r < |heights| => seq(nTime, _ => heights[r]))
  }

  /**
   * The height variable as src/era5_mapper.py builds it:
   * `np.full((n_regions, n_time), np.repeat(h, 8760).reshape(65, 8760))`.
   * The reshape needs exactly 65 regions and the fill needs 8760 timesteps.
   */
  function HeightBroadcastAsWritten(heights: seq<real>, nTime: nat): (r: Result<seq<seq<real>>, ShapeError>)
    ensures r.Ok? <==> |heights| == 65 && nTime == 8760
    ensures r.Ok? ==> r.value == HeightBroadcast(heights, nTime)
  {
    if |heights| * 8760 == 65 * 8760 && nTime == 8760 then Ok(HeightBroadcast(heights, nTime))
    else Err(CannotReshape)
  }

  /** The hard-coded shape rejects a 37-region dataset and a leap year of 8784 hours. */
  lemma HeightBroadcastRejectsOtherShapes()
    ensures HeightBroadcastAsWritten(seq(37, _ => 0.0), 8760).Err?
    ensures HeightBroadcastAsWritten(seq(65, _ => 0.0), 8784).Err?
    ensures |HeightBroadcast(seq(37, _ => 0.0), 8760)| == 37
  {
  }
}

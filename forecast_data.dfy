/**
 * Access to the capacity-factor table and the regional weather dataset
 * (src/forecast_data.py): column-name parsing, the country filter, the
 * training data of one column and the stacking of its features.
 */
module ForecastData {
  import opened Results
  import opened EnergyTypes
  import opened Features
  import opened Era5Mapper
  import opened Era5RegionData

  // ---------------------------------------------------------------------
  // Python string helpers: str.split(sep) and str.find(sub)
  // ---------------------------------------------------------------------

  /** Number of occurrences of `c` in `s`. */
  function Count(s: string, c: char): nat
  {
    if |s| == 0 then 0 else (if s[0] == c then 1 else 0) + Count(s[1..], c)
  }

  /** The tokens joined back with `sep` between them. */
  function Join(tokens: seq<string>, sep: char): string
    requires |tokens| > 0
  {
    if |tokens| == 1 then tokens[0] else tokens[0] + [sep] + Join(tokens[1..], sep)
  }

  /**
   * `s.split(sep)` with an explicit one-character separator: every
   * occurrence separates, so empty tokens are kept and "" gives [""].
   */
  function Split(s: string, sep: char): (tokens: seq<string>)
    ensures |tokens| == Count(s, sep) + 1
    ensures forall i :: 0 <= i < |tokens| ==> sep !in tokens[i]
    ensures Join(tokens, sep) == s
  {
    if |s| == 0 then [""]
    else
      var rest := Split(s[1..], sep);
      if s[0] == sep then
        assert s == [] + [sep] + Join(rest, sep);
        [""] + rest
      else
        var tokens := [[s[0]] + rest[0]] + rest[1..];
        assert s == [s[0]] + s[1..];
        assert tokens[1..] == rest[1..];
        tokens
  }

  lemma {:induction false} SplitNoSeparator(a: string, sep: char)
    requires sep !in a
    ensures Split(a, sep) == [a]
  {
    if |a| > 0 {
      SplitNoSeparator(a[1..], sep);
      assert [a[0]] + a[1..] == a;
    }
  }

  lemma {:induction false} SplitAfterToken(a: string, b: string, sep: char)
    requires sep !in a
    ensures Split(a + [sep] + b, sep) == [a] + Split(b, sep)
  {
    if |a| == 0 {
      assert a + [sep] + b == [sep] + b;
      assert ([sep] + b)[1..] == b;
    } else {
      var s := a + [sep] + b;
      assert s[1..] == a[1..] + [sep] + b;
      SplitAfterToken(a[1..], b, sep);
      assert [a[0]] + a[1..] == a;
    }
  }

  /** `sub` occurs in `s` at position `i`. */
  predicate OccursAt(s: string, sub: string, i: nat)
  {
    i + |sub| <= |s| && s[i..i + |sub|] == sub
  }

  /** `sub` is a substring of `s`. */
  predicate Contains(s: string, sub: string)
  {
    exists i: nat | i <= |s| :: OccursAt(s, sub, i)
  }

  function FindFrom(s: string, sub: string, i: nat): (r: int)
    decreases |s| - i
    ensures r == -1 || (i <= r && OccursAt(s, sub, r))
    ensures r == -1 ==> forall j: nat :: i <= j ==> !OccursAt(s, sub, j)
    ensures r >= 0 ==> forall j: nat :: i <= j < r ==> !OccursAt(s, sub, j)
  {
    if i + |sub| > |s| then -1
    else if s[i..i + |sub|] == sub then i
    else FindFrom(s, sub, i + 1)
  }

  /** `s.find(sub)`: the lowest index where `sub` occurs, or -1. */
  function Find(s: string, sub: string): (r: int)
    ensures r >= 0 <==> Contains(s, sub)
    ensures r >= 0 ==> OccursAt(s, sub, r) && forall j: nat :: j < r ==> !OccursAt(s, sub, j)
    ensures r < 0 ==> r == -1
  {
    FindFrom(s, sub, 0)
  }

  // ---------------------------------------------------------------------
  // Column names of the capacity-factor table
  // ---------------------------------------------------------------------

  datatype ParsedColumn = ParsedColumn(regionName: string, energyType: EnergyType)

  /**
   * `parse_capfac_col`: split on a single space; exactly three tokens give
   * the first token and the decoded third token (the middle one is
   * ignored); any other shape gives `(None, None)`, here `None`.
   */
  function ParseCapfacCol(columnName: string): (r: Option<ParsedColumn>)
    ensures r.Some? <==> Count(columnName, ' ') == 2
    ensures r.Some? ==> ' ' !in r.value.regionName
  {
    var colArgs := Split(columnName, ' ');
    if |colArgs| == 3 then Some(ParsedColumn(colArgs[0], GetEnergyType(colArgs[2])))
    else None
  }

  /** The name `"<region> <index> <suffix>"` of a capacity-factor column. */
  function FormatColumn(regionName: string, index: string, suffix: string): string
  {
    regionName + " " + index + " " + suffix
  }

  /** Formatting then parsing gives the region and the decoded suffix back; the index is ignored. */
  lemma ParseFormatted(regionName: string, index: string, suffix: string)
    requires ' ' !in regionName && ' ' !in index && ' ' !in suffix
    ensures ParseCapfacCol(FormatColumn(regionName, index, suffix))
         == Some(ParsedColumn(regionName, GetEnergyType(suffix)))
  {
    var s := FormatColumn(regionName, index, suffix);
    assert s == regionName + [' '] + (index + [' '] + suffix);
    SplitAfterToken(regionName, index + [' '] + suffix, ' ');
    SplitAfterToken(index, suffix, ' ');
    SplitNoSeparator(suffix, ' ');
  }

  /** Every name that parses is a formatted name of its region and energy-type suffix. */
  lemma ParsedIsFormatted(columnName: string)
    requires ParseCapfacCol(columnName).Some?
    ensures exists index, suffix ::
      && ' ' !in index && ' ' !in suffix
      && columnName == FormatColumn(ParseCapfacCol(columnName).value.regionName, index, suffix)
      && ParseCapfacCol(columnName).value.energyType == GetEnergyType(suffix)
  {
    var t := Split(columnName, ' ');
    assert Join(t, ' ') == columnName;
    assert Join(t[1..], ' ') == t[1] + [' '] + t[2];
    assert columnName == FormatColumn(t[0], t[1], t[2]);
  }

  /** The literal column names of the examples below, spelled out by parts. */
  lemma ExampleNames()
    ensures FormatColumn("DE0", "0", "onwind") == "DE0 0 onwind"
    ensures FormatColumn("DE0", "0", "onwind-dc") == "DE0 0 onwind-dc"
    ensures FormatColumn("DE0", "", "onwind") == "DE0  onwind"
    ensures FormatColumn("DE0\t1", "0", "onwind") == "DE0\t1 0 onwind"
  {
  }

  /** Example: a well-formed onshore wind column. */
  lemma ParseOnwindExample()
    ensures ParseCapfacCol("DE0 0 onwind") == Some(ParsedColumn("DE0", Onwind))
  {
    ParseFormatted("DE0", "0", "onwind");
    ExampleNames();
  }

  /** Example: the ONWIND member's own value "onwind-dc" is not recognised as a suffix. */
  lemma ParseOnwindValueExample()
    ensures ParseCapfacCol("DE0 0 onwind-dc") == Some(ParsedColumn("DE0", NotDefined))
  {
    assert ' ' !in "onwind-dc";
    ParseFormatted("DE0", "0", "onwind-dc");
    DecodeIsExact();
    ExampleNames();
  }

  /** Example: a doubled space before the suffix adds an empty middle token, which is ignored. */
  lemma ParseEmptyMiddleExample()
    ensures ParseCapfacCol("DE0  onwind") == Some(ParsedColumn("DE0", Onwind))
  {
    assert ' ' !in "onwind";
    ParseFormatted("DE0", "", "onwind");
    ExampleNames();
  }

  /** Example: only a space separates tokens; a tab stays inside the region name. */
  lemma ParseTabExample()
    ensures ParseCapfacCol("DE0\t1 0 onwind") == Some(ParsedColumn("DE0\t1", Onwind))
  {
    assert ' ' !in "DE0\t1";
    ParseFormatted("DE0\t1", "0", "onwind");
    ExampleNames();
  }

  /** Example: a name without spaces does not parse. */
  lemma ParseNoSpaceExample()
    ensures ParseCapfacCol("invalid") == None
    ensures ParseCapfacCol("") == None
  {
    assert ' ' !in "invalid";
    SplitNoSeparator("invalid", ' ');
  }

  /** Example: a doubled space yields an empty token, hence four tokens. */
  lemma ParseDoubleSpaceExample()
    ensures ParseCapfacCol("DE0  0 onwind") == None
  {
    var rest := "0" + [' '] + "onwind";
    assert "DE0  0 onwind" == "DE0" + [' '] + ("" + [' '] + rest);
    SplitAfterToken("DE0", "" + [' '] + rest, ' ');
    SplitAfterToken("", rest, ' ');
    SplitAfterToken("0", "onwind", ' ');
    SplitNoSeparator("onwind", ' ');
  }

  // ---------------------------------------------------------------------
  // find_countries_in_capfacts
  // ---------------------------------------------------------------------

  /** The column names that contain `countryName`, in table order. */
  function Matching(columns: seq<string>, countryName: string): seq<string>
  {
    if |columns| == 0 then []
    else
      Matching(columns[..|columns| - 1], countryName)
        + (if Contains(columns[|columns| - 1], countryName) then [columns[|columns| - 1]] else [])
  }

  /** `find_countries_in_capfacts`: keep every column name in which `country_name` is found. */
  method FindCountriesInCapfacts(columns: seq<string>, countryName: string) returns (countries: seq<string>)
    ensures countries == Matching(columns, countryName)
  {
    countries := [];
    var i := 0;
    while i < |columns|
      invariant 0 <= i <= |columns|
      invariant countries == Matching(columns[..i], countryName)
    {
      var column := columns[i];
      assert columns[..i + 1][..i] == columns[..i];
      if Find(column, countryName) >= 0 {
        countries := countries + [column];
      }
      i := i + 1;
    }
    assert columns[..|columns|] == columns;
  }

  /** Exactly the names containing the country are kept, and no more of them than there are columns. */
  lemma {:induction false} MatchingMembers(columns: seq<string>, countryName: string)
    ensures |Matching(columns, countryName)| <= |columns|
    ensures forall c :: c in Matching(columns, countryName) <==> c in columns && Contains(c, countryName)
  {
    if |columns| > 0 {
      var init := columns[..|columns| - 1];
      MatchingMembers(init, countryName);
      assert columns == init + [columns[|columns| - 1]];
    }
  }

  /** The default empty country name keeps every column, in order. */
  lemma {:induction false} MatchingEmptyKeepsAll(columns: seq<string>)
    ensures Matching(columns, "") == columns
  {
    if |columns| > 0 {
      var init := columns[..|columns| - 1];
      MatchingEmptyKeepsAll(init);
      assert OccursAt(columns[|columns| - 1], "", 0);
      assert columns == init + [columns[|columns| - 1]];
    }
  }

  // ---------------------------------------------------------------------
  // The loaded data and get_training_data
  // ---------------------------------------------------------------------

  /**
   * The capacity-factor table: all column names in file order (the first
   * is the snapshot column), the snapshot values, and the numeric series
   * of the other columns.
   */
  datatype Capfacts = Capfacts(columns: seq<string>, snapshot: seq<string>, series: map<string, seq<real>>)
  {
    predicate WellFormed()
    {
      && |columns| > 0
      && columns[0] == "snapshot"
      && Distinct(columns)
      && forall i :: 1 <= i < |columns| ==> columns[i] in series && |series[columns[i]]| == |snapshot|
    }
  }

  /** The two inputs `ForecastData` loads: the regional dataset and the capacity factors. */
  datatype ForecastInputs = ForecastInputs(era5: RegionalDataset, capfacts: Capfacts)

  /** `config.feature_set`: the ordered features each energy type is trained on. */
  type FeatureSet = map<EnergyType, seq<Feature>>

  /** Why the preparation of one column fails. */
  datatype DataError =
    | MalformedColumn                  // `None + " 0"` in get_era5_region_name
    | UnknownEnergyType(e: EnergyType) // iterating the None of `feature_set.get`
    | MissingColumn(name: string)      // `capfacts[column_name]`
    | MissingRegion(key: string)       // `era5.sel(region=key)`
    | NothingToStack                   // `np.stack` of no arrays
    | ShapeMismatch                    // `np.stack` of arrays of different lengths
    | InconsistentSamples              // `train_test_split` of X and Y of different lengths

  /** The first index of `x` in `s`. */
  function IndexOf(s: seq<string>, x: string): (i: nat)
    requires x in s
    ensures i < |s| && s[i] == x && forall j :: 0 <= j < i ==> s[j] != x
  {
    if s[0] == x then 0 else 1 + IndexOf(s[1..], x)
  }

  /** `era5.sel(region=key)[variable].values`. */
  function Sel(ds: RegionalDataset, key: string, variable: string): (r: Option<seq<real>>)
    requires ds.WellFormed()
    ensures r.Some? <==> key in ds.regions && variable in VariableNames
    ensures r.Some? ==> |r.value| == ds.nTime
  {
    if key in ds.regions && variable in VariableNames then
      Some(ds.data[IndexOf(VariableNames, variable)][IndexOf(ds.regions, key)])
    else None
  }

  /** In a sequence without repetitions, the first index of an element is its only index. */
  lemma IndexOfDistinct(s: seq<string>, i: nat)
    requires Distinct(s) && i < |s|
    ensures IndexOf(s, s[i]) == i
  {
    var j := IndexOf(s, s[i]);
    assert s[j] == s[i];
  }

  /** Selecting region label `ds.regions[r]` and the k-th variable reads row r of plane k. */
  lemma SelReadsLabelledRow(ds: RegionalDataset, r: nat, k: nat)
    requires ds.WellFormed() && r < |ds.regions| && k < 10
    ensures Sel(ds, ds.regions[r], VariableNames[k]) == Some(ds.data[k][r])
  {
    IndexOfDistinct(ds.regions, r);
    VariablesAreFeatureValues();
    TenDistinctFeatures();
    IndexOfDistinct(VariableNames, k);
  }

  /** Lookups are keyed by the feature's value, so two different features read two different variables. */
  lemma DistinctFeaturesDistinctChannels(f1: Feature, f2: Feature)
    requires f1 != f2
    ensures f1.Value() in VariableNames && f2.Value() in VariableNames
    ensures IndexOf(VariableNames, f1.Value()) != IndexOf(VariableNames, f2.Value())
  {
    FeatureValueIsVariable(f1);
    FeatureValueIsVariable(f2);
    ValueInjective(f1, f2);
  }

  /** The dict `X`: feature keys in insertion order and their series. */
  datatype FeatureColumns = FeatureColumns(keys: seq<Feature>, values: seq<seq<real>>)

  /** `X[feature] = values`: a new key is appended, an existing key keeps its place. */
  function Put(x: FeatureColumns, f: Feature, v: seq<real>): FeatureColumns
    requires |x.keys| == |x.values|
  {
    if f in x.keys then
      FeatureColumns(x.keys, x.values[IndexOfFeature(x.keys, f) := v])
    else FeatureColumns(x.keys + [f], x.values + [v])
  }

  function IndexOfFeature(s: seq<Feature>, f: Feature): (i: nat)
    requires f in s
    ensures i < |s| && s[i] == f
  {
    if s[0] == f then 0 else 1 + IndexOfFeature(s[1..], f)
  }

  /** The features in first-occurrence order, each once. */
  function Dedup(fs: seq<Feature>): seq<Feature>
  {
    if |fs| == 0 then []
    else
      var init := Dedup(fs[..|fs| - 1]);
      if fs[|fs| - 1] in init then init else init + [fs[|fs| - 1]]
  }

  lemma {:induction false} DedupMembers(fs: seq<Feature>)
    ensures forall f :: f in Dedup(fs) <==> f in fs
    ensures forall i, j :: 0 <= i < j < |Dedup(fs)| ==> Dedup(fs)[i] != Dedup(fs)[j]
  {
    if |fs| > 0 {
      DedupMembers(fs[..|fs| - 1]);
      assert fs == fs[..|fs| - 1] + [fs[|fs| - 1]];
    }
  }

  lemma DedupEmpty(fs: seq<Feature>)
    ensures |Dedup(fs)| == 0 <==> |fs| == 0
  {
    DedupMembers(fs);
    if |fs| > 0 {
      assert fs[0] in Dedup(fs);
    }
  }

  /** A feature list without repetitions is kept as it is, in order. */
  lemma {:induction false} DedupOfDistinct(fs: seq<Feature>)
    requires forall i, j :: 0 <= i < j < |fs| ==> fs[i] != fs[j]
    ensures Dedup(fs) == fs
  {
    if |fs| > 0 {
      var init := fs[..|fs| - 1];
      DedupOfDistinct(init);
      DedupMembers(init);
      assert fs == init + [fs[|fs| - 1]];
    }
  }

  /** The series of each feature in `keys`, read at region `key` of the dataset. */
  function Lookup(ds: RegionalDataset, key: string, keys: seq<Feature>): (vs: seq<seq<real>>)
    requires ds.WellFormed()
    requires |keys| > 0 ==> key in ds.regions
    ensures |vs| == |keys|
    ensures forall i :: 0 <= i < |vs| ==> |vs[i]| == ds.nTime
  {
    seq(|keys|, i requires 0 <= i < |keys| =>
      ds.data[IndexOf(VariableNames, keys[i].Value())][IndexOf(ds.regions, key)])
  }

  /** Appending a feature appends it to the deduplicated list unless it is already there. */
  lemma {:induction false} DedupSnoc(fs: seq<Feature>, f: Feature)
    ensures Dedup(fs + [f]) == if f in Dedup(fs) then Dedup(fs) else Dedup(fs) + [f]
  {
    assert (fs + [f])[..|fs|] == fs;
  }

  /** Looking up one more key appends that key's series. */
  lemma {:induction false} LookupSnoc(ds: RegionalDataset, key: string, keys: seq<Feature>, f: Feature)
    requires ds.WellFormed() && key in ds.regions
    ensures Sel(ds, key, f.Value()).Some?
    ensures Lookup(ds, key, keys + [f]) == Lookup(ds, key, keys) + [Sel(ds, key, f.Value()).value]
  {
    FeatureValueIsVariable(f);
    var vs := Lookup(ds, key, keys + [f]);
    var ws := Lookup(ds, key, keys) + [Sel(ds, key, f.Value()).value];
    forall i | 0 <= i < |vs| ensures vs[i] == ws[i] {
      if i < |keys| {
        assert (keys + [f])[i] == keys[i];
      }
    }
  }

  /** Rewriting the series of a key already present with its own series changes nothing. */
  lemma {:induction false} LookupRewrite(ds: RegionalDataset, key: string, keys: seq<Feature>, f: Feature)
    requires ds.WellFormed() && key in ds.regions && f in keys
    ensures Sel(ds, key, f.Value()).Some?
    ensures Lookup(ds, key, keys)[IndexOfFeature(keys, f) := Sel(ds, key, f.Value()).value] == Lookup(ds, key, keys)
  {
    FeatureValueIsVariable(f);
  }

  /** One assignment `X[feature] = ...` turns the dict of `fs` into the dict of `fs + [f]`. */
  lemma {:induction false} PutStep(ds: RegionalDataset, key: string, fs: seq<Feature>, f: Feature)
    requires ds.WellFormed() && key in ds.regions
    ensures Sel(ds, key, f.Value()).Some?
    ensures Put(FeatureColumns(Dedup(fs), Lookup(ds, key, Dedup(fs))), f, Sel(ds, key, f.Value()).value)
         == FeatureColumns(Dedup(fs + [f]), Lookup(ds, key, Dedup(fs + [f])))
  {
    DedupSnoc(fs, f);
    var keys := Dedup(fs);
    if f in keys {
      LookupRewrite(ds, key, keys, f);
    } else {
      LookupSnoc(ds, key, keys, f);
    }
  }

  /** PutStep for iteration `i` of the loop over `features`. */
  lemma {:induction false} PutStepAt(ds: RegionalDataset, key: string, features: seq<Feature>, i: nat)
    requires ds.WellFormed() && key in ds.regions && i < |features|
    ensures Sel(ds, key, features[i].Value()).Some?
    ensures Put(FeatureColumns(Dedup(features[..i]), Lookup(ds, key, Dedup(features[..i]))), features[i],
                Sel(ds, key, features[i].Value()).value)
         == FeatureColumns(Dedup(features[..i + 1]), Lookup(ds, key, Dedup(features[..i + 1])))
  {
    var fs, gs := features[..i], features[..i + 1];
    assert gs == fs + [features[i]];
    PutStep(ds, key, fs, features[i]);
  }

  /** The training data of one column: the target Y and the feature dict X. */
  datatype TrainingData = TrainingData(y: seq<real>, x: FeatureColumns)

  /**
   * What `get_training_data` returns or the first error it meets, in the
   * order the source evaluates: the key, Y, the feature list (a missing
   * one fails when the loop iterates it), then one dataset lookup per
   * feature (none when the list is empty).
   */
  function TrainingDataOf(data: ForecastInputs, featureSet: FeatureSet, columnName: string): (r: Result<TrainingData, DataError>)
    requires data.era5.WellFormed()
    ensures r.Ok? ==> ParseCapfacCol(columnName).Some? && columnName in data.capfacts.series
    ensures r.Ok? ==> r.value.y == data.capfacts.series[columnName] && |r.value.x.keys| == |r.value.x.values|
  {
    match ParseCapfacCol(columnName)
    case None => Err(MalformedColumn)
    case Some(parsed) =>
      var key := GetEra5RegionName(parsed.regionName, parsed.energyType);
      if columnName !in data.capfacts.series then Err(MissingColumn(columnName))
      else if parsed.energyType !in featureSet then Err(UnknownEnergyType(parsed.energyType))
      else
        var features := featureSet[parsed.energyType];
        if |features| > 0 && key !in data.era5.regions then Err(MissingRegion(key))
        else
          var keys := Dedup(features);
          DedupEmpty(features);
          Ok(TrainingData(data.capfacts.series[columnName], FeatureColumns(keys, Lookup(data.era5, key, keys))))
  }

  /**
   * The loop of `get_training_data`: `X[feature] = era5.sel(region=key)[feature.value].values`
   * for each feature in turn; the first lookup of a missing region fails.
   */
  method CollectFeatures(ds: RegionalDataset, key: string, features: seq<Feature>)
    returns (x: Result<FeatureColumns, DataError>)
    requires ds.WellFormed()
    ensures x.Err? <==> |features| > 0 && key !in ds.regions
    ensures x.Err? ==> x.error == MissingRegion(key)
    ensures x.Ok? ==> |Dedup(features)| > 0 ==> key in ds.regions
    ensures x.Ok? ==> x.value == FeatureColumns(Dedup(features), Lookup(ds, key, Dedup(features)))
  {
    var acc := FeatureColumns([], []);
    var i := 0;
    while i < |features|
      invariant 0 <= i <= |features|
      invariant i > 0 ==> key in ds.regions
      invariant |Dedup(features[..i])| > 0 ==> i > 0
      invariant acc == FeatureColumns(Dedup(features[..i]), Lookup(ds, key, Dedup(features[..i])))
    {
      var feature := features[i];
      FeatureValueIsVariable(feature);
      var values := Sel(ds, key, feature.Value());
      if values.None? {
        return Err(MissingRegion(key));
      }
      PutStepAt(ds, key, features, i);
      acc := Put(acc, feature, values.value);
      i := i + 1;
    }
    assert features[..|features|] == features;
    DedupEmpty(features);
    x := Ok(acc);
  }

  /**
   * `get_training_data`: resolve the key of the column's region, read Y,
   * then fill `X` feature by feature from the regional dataset.
   */
  method GetTrainingData(data: ForecastInputs, featureSet: FeatureSet, columnName: string)
    returns (r: Result<TrainingData, DataError>)
    requires data.era5.WellFormed()
    ensures r == TrainingDataOf(data, featureSet, columnName)
  {
    var parsed := ParseCapfacCol(columnName);
    if parsed.None? {
      return Err(MalformedColumn);
    }
    var regionName, energyType := parsed.value.regionName, parsed.value.energyType;
    var era5RegionName := GetEra5RegionName(regionName, energyType);
    if columnName !in data.capfacts.series {
      return Err(MissingColumn(columnName));
    }
    var y := data.capfacts.series[columnName];
    if energyType !in featureSet {
      return Err(UnknownEnergyType(energyType));
    }
    var features := featureSet[energyType];
    var x := CollectFeatures(data.era5, era5RegionName, features);
    if x.Err? {
      return Err(x.error);
    }
    r := Ok(TrainingData(y, x.value));
  }

  /**
   * The training data of a parsed column: Y is the column itself, X has one
   * key per configured feature (in list order when the list has no
   * repetition), and each feature's series is the dataset variable named
   * by the feature's value, at the region key of the column.
   */
  lemma TrainingDataContents(data: ForecastInputs, featureSet: FeatureSet, columnName: string)
    requires data.era5.WellFormed()
    requires TrainingDataOf(data, featureSet, columnName).Ok?
    ensures var parsed := ParseCapfacCol(columnName).value;
            var key := GetEra5RegionName(parsed.regionName, parsed.energyType);
            var td := TrainingDataOf(data, featureSet, columnName).value;
            && parsed.energyType in featureSet
            && td.y == data.capfacts.series[columnName]
            && (forall f :: f in td.x.keys <==> f in featureSet[parsed.energyType])
            && ((forall i, j :: 0 <= i < j < |featureSet[parsed.energyType]| ==>
                  featureSet[parsed.energyType][i] != featureSet[parsed.energyType][j])
                ==> td.x.keys == featureSet[parsed.energyType])
            && |td.x.values| == |td.x.keys|
            && forall i :: 0 <= i < |td.x.keys| ==> Sel(data.era5, key, td.x.keys[i].Value()) == Some(td.x.values[i])
  {
    var parsed := ParseCapfacCol(columnName).value;
    var features := featureSet[parsed.energyType];
    var key := GetEra5RegionName(parsed.regionName, parsed.energyType);
    var td := TrainingDataOf(data, featureSet, columnName).value;
    DedupMembers(features);
    if forall i, j :: 0 <= i < j < |features| ==> features[i] != features[j] {
      DedupOfDistinct(features);
    }
    forall i | 0 <= i < |td.x.keys| ensures Sel(data.era5, key, td.x.keys[i].Value()) == Some(td.x.values[i]) {
      FeatureValueIsVariable(td.x.keys[i]);
      assert td.x.keys[i] in features;
    }
  }

  /**
   * The error paths: a malformed name fails at the key, an energy type
   * without features fails, and an energy type whose feature list is
   * empty never consults the dataset: it succeeds with Y and an empty X.
   */
  lemma TrainingDataErrors(data: ForecastInputs, featureSet: FeatureSet, columnName: string)
    requires data.era5.WellFormed()
    ensures ParseCapfacCol(columnName).None? ==> TrainingDataOf(data, featureSet, columnName) == Err(MalformedColumn)
    ensures ParseCapfacCol(columnName).Some? && ParseCapfacCol(columnName).value.energyType !in featureSet ==>
      TrainingDataOf(data, featureSet, columnName).Err?
    ensures ParseCapfacCol(columnName).Some? && columnName !in data.capfacts.series ==>
      TrainingDataOf(data, featureSet, columnName) == Err(MissingColumn(columnName))
    ensures (&& ParseCapfacCol(columnName).Some? && columnName in data.capfacts.series
             && ParseCapfacCol(columnName).value.energyType in featureSet
             && featureSet[ParseCapfacCol(columnName).value.energyType] == []) ==>
      TrainingDataOf(data, featureSet, columnName)
        == Ok(TrainingData(data.capfacts.series[columnName], FeatureColumns([], [])))
  {
    DedupEmpty([]);
  }

  // ---------------------------------------------------------------------
  // shape_multi_feature_data
  // ---------------------------------------------------------------------

  /** Column j of a matrix given as rows. */
  function Column(rows: seq<seq<real>>, j: nat): seq<real>
    requires forall i :: 0 <= i < |rows| ==> j < |rows[i]|
  {
    seq(|rows|, i requires 0 <= i < |rows| => rows[i][j])
  }

  /**
   * `shape_multi_feature_data`: `np.stack(list(X.values()), axis=-1)`, the
   * n x k matrix whose row i holds value i of every series, in key order.
   * Stacking needs at least one series and series of one length.
   */
  function ShapeMultiFeatureData(x: FeatureColumns): (r: Result<seq<seq<real>>, DataError>)
    ensures r.Ok? <==> |x.values| > 0 && forall j :: 0 <= j < |x.values| ==> |x.values[j]| == |x.values[0]|
    ensures |x.values| == 0 ==> r == Err(NothingToStack)
    ensures r.Ok? ==> |r.value| == |x.values[0]| && forall i :: 0 <= i < |r.value| ==> |r.value[i]| == |x.values|
  {
    var arrays := x.values;
    if |arrays| == 0 then Err(NothingToStack)
    else if exists j :: 0 <= j < |arrays| && |arrays[j]| != |arrays[0]| then Err(ShapeMismatch)
    else
      Ok(seq(|arrays[0]|, i requires 0 <= i < |arrays[0]| =>
           seq(|arrays|, j requires 0 <= j < |arrays| => arrays[j][i])))
  }

  /** Unstacking: column j of the stacked matrix is series j, so `out[i][j] == arrays[j][i]`. */
  lemma StackColumns(x: FeatureColumns, j: nat)
    requires ShapeMultiFeatureData(x).Ok? && j < |x.values|
    ensures Column(ShapeMultiFeatureData(x).value, j) == x.values[j]
  {
    var rows := ShapeMultiFeatureData(x).value;
    assert |x.values[j]| == |x.values[0]|;
  }
}

/**
 * The weather channels that can be read from the regional ERA5 dataset
 * (src/features.py). A feature's value is the dataset variable it is read from.
 */
module Features {
  import opened Results

  datatype Feature =
    | Height | Wnd100m | Roughness | InfluxToa | InfluxDirect
    | InfluxDiffuse | Albedo | Temperature | SoilTemperature | Runoff
  {
    function Value(): string
    {
      match this
      case Height => "height"
      case Wnd100m => "wnd100m"
      case Roughness => "roughness"
      case InfluxToa => "influx_toa"
      case InfluxDirect => "influx_direct"
      case InfluxDiffuse => "influx_diffuse"
      case Albedo => "albedo"
      case Temperature => "temperature"
      case SoilTemperature => "soil_temperature"
      case Runoff => "runoff"
    }
  }

  /** The members in declaration order. */
  const AllFeatures: seq<Feature> :=
    [Height, Wnd100m, Roughness, InfluxToa, InfluxDirect,
     InfluxDiffuse, Albedo, Temperature, SoilTemperature, Runoff]

  /**
   * Enum lookup by value (Python's `Feature(value)`); it is the inverse of
   * `Value` because the ten values are pairwise distinct.
   */
  function FeatureOf(s: string): (r: Option<Feature>)
    ensures r.Some? ==> r.value.Value() == s
    ensures forall f: Feature :: f.Value() == s ==> r == Some(f)
  {
    if s == "height" then Some(Height)
    else if s == "wnd100m" then Some(Wnd100m)
    else if s == "roughness" then Some(Roughness)
    else if s == "influx_toa" then Some(InfluxToa)
    else if s == "influx_direct" then Some(InfluxDirect)
    else if s == "influx_diffuse" then Some(InfluxDiffuse)
    else if s == "albedo" then Some(Albedo)
    else if s == "temperature" then Some(Temperature)
    else if s == "soil_temperature" then Some(SoilTemperature)
    else if s == "runoff" then Some(Runoff)
    else None
  }

  /** Exactly ten members, each listed once, with pairwise distinct values. */
  lemma TenDistinctFeatures()
    ensures |AllFeatures| == 10
    ensures forall f: Feature :: f in AllFeatures
    ensures forall i, j :: 0 <= i < j < |AllFeatures| ==> AllFeatures[i].Value() != AllFeatures[j].Value()
  {
    forall f: Feature ensures f in AllFeatures {
      match f
      case Height => assert AllFeatures[0] == f;
      case Wnd100m => assert AllFeatures[1] == f;
      case Roughness => assert AllFeatures[2] == f;
      case InfluxToa => assert AllFeatures[3] == f;
      case InfluxDirect => assert AllFeatures[4] == f;
      case InfluxDiffuse => assert AllFeatures[5] == f;
      case Albedo => assert AllFeatures[6] == f;
      case Temperature => assert AllFeatures[7] == f;
      case SoilTemperature => assert AllFeatures[8] == f;
      case Runoff => assert AllFeatures[9] == f;
    }
    forall i, j | 0 <= i < j < |AllFeatures|
      ensures AllFeatures[i].Value() != AllFeatures[j].Value()
    {
      assert FeatureOf(AllFeatures[i].Value()) == Some(AllFeatures[i]);
    }
  }

  /** Distinct features read distinct dataset variables. */
  lemma ValueInjective(f: Feature, g: Feature)
    ensures f.Value() == g.Value() ==> f == g
  {
    if f.Value() == g.Value() {
      assert FeatureOf(f.Value()) == Some(g);
    }
  }
}

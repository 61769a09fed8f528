/**
 * The renewable energy types of the capacity-factor table (src/energy_type.py)
 * and the string decoder `get_energy_type`.
 */
module EnergyTypes {

  datatype EnergyType = OffwindAc | OffwindDc | Onwind | Solar | Ror | NotDefined
  {
    /** The enum member's value. Note that ONWIND's value is "onwind-dc". */
    function Value(): string
    {
      match this
      case OffwindAc => "offwind-ac"
      case OffwindDc => "offwind-dc"
      case Onwind => "onwind-dc"
      case Solar => "solar"
      case Ror => "ror"
      case NotDefined => "not_defined"
    }
  }

  const AllEnergyTypes: seq<EnergyType> := [OffwindAc, OffwindDc, Onwind, Solar, Ror, NotDefined]

  /**
   * `get_energy_type`: exact, case-sensitive match of five literal names;
   * every other string is NOT_DEFINED. The name accepted for ONWIND is
   * "onwind", not its own value "onwind-dc".
   */
  function GetEnergyType(name: string): (e: EnergyType)
    ensures e == OffwindAc <==> name == "offwind-ac"
    ensures e == OffwindDc <==> name == "offwind-dc"
    ensures e == Onwind <==> name == "onwind"
    ensures e == Solar <==> name == "solar"
    ensures e == Ror <==> name == "ror"
    ensures e == NotDefined <==> name !in {"offwind-ac", "offwind-dc", "onwind", "solar", "ror"}
  {
    match name
    case "offwind-ac" => OffwindAc
    case "offwind-dc" => OffwindDc
    case "onwind" => Onwind
    case "solar" => Solar
    case "ror" => Ror
    case _ => NotDefined
  }

  /** Decoding a member's own value gives the member back, except for ONWIND. */
  lemma DecodeOwnValue(e: EnergyType)
    ensures GetEnergyType(e.Value()) == if e == Onwind then NotDefined else e
  {
  }

  /** ONWIND's own value and a capitalised name are both unrecognised. */
  lemma DecodeIsExact()
    ensures GetEnergyType("onwind-dc") == NotDefined
    ensures GetEnergyType("Solar") == NotDefined
    ensures GetEnergyType("") == NotDefined
  {
  }

  /** The six values are pairwise distinct, and the list of members is complete. */
  lemma ValuesDistinct(a: EnergyType, b: EnergyType)
    ensures a.Value() == b.Value() ==> a == b
    ensures a in AllEnergyTypes && |AllEnergyTypes| == 6
  {
  }
}

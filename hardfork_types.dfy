/**
 * The data model of hard-fork configuration: the features, the partial
 * configuration a chain spec supplies, the fully resolved switch and the
 * builder that turns one into the other.
 */
module HardForkTypes {
  import opened Wrappers

  /** `EpochNumber`: an unsigned 64-bit epoch index. */
  type EpochNumber = n: nat | n < 0x1_0000_0000_0000_0000

  /** The hard-fork features of the CKB2021 edition. */
  datatype Feature = RfcPr0221 | RfcPr0222 | RfcPr0223 | RfcPr0230

  /** Every feature, in the order the configuration declares and checks them. */
  const AllFeatures: seq<Feature> := [RfcPr0221, RfcPr0222, RfcPr0223, RfcPr0230]

  /** The position of a feature in `AllFeatures`. */
  function Index(f: Feature): (i: nat)
    ensures i < |AllFeatures| && AllFeatures[i] == f
  {
    match f
    case RfcPr0221 => 0
    case RfcPr0222 => 1
    case RfcPr0223 => 2
    case RfcPr0230 => 3
  }

  /** `g` is checked strictly before `f`. */
  predicate Before(g: Feature, f: Feature) {
    Index(g) < Index(f)
  }

  lemma IndexOfAllFeatures(j: nat)
    requires j < |AllFeatures|
    ensures Index(AllFeatures[j]) == j
  {
  }

  /** Why a configuration cannot be resolved into a switch. */
  datatype ConfigError =
    | IncorrectValue(feature: Feature, actual: EpochNumber, expected: EpochNumber)
    | Unconfigured(feature: Feature)

  /** `HardForkConfig`: one optional activation epoch per feature. */
  datatype HardForkConfig = HardForkConfig(
    rfcPr0221: Option<EpochNumber>,
    rfcPr0222: Option<EpochNumber>,
    rfcPr0223: Option<EpochNumber>,
    rfcPr0230: Option<EpochNumber>)
  {
    /** The field of this configuration that belongs to `f`. */
    function Get(f: Feature): Option<EpochNumber> {
      match f
      case RfcPr0221 => rfcPr0221
      case RfcPr0222 => rfcPr0222
      case RfcPr0223 => rfcPr0223
      case RfcPr0230 => rfcPr0230
    }

    /** This configuration with the field of `f` assigned `v`. */
    function With(f: Feature, v: Option<EpochNumber>): (c: HardForkConfig)
      ensures c.Get(f) == v
      ensures forall g :: g != f ==> c.Get(g) == Get(g)
    {
      match f
      case RfcPr0221 => this.(rfcPr0221 := v)
      case RfcPr0222 => this.(rfcPr0222 := v)
      case RfcPr0223 => this.(rfcPr0223 := v)
      case RfcPr0230 => this.(rfcPr0230 := v)
    }
  }

  /** The derived `Default` of `HardForkConfig`: nothing configured. */
  function DefaultConfig(): (c: HardForkConfig)
    ensures forall f :: c.Get(f) == None
  {
    HardForkConfig(None, None, None, None)
  }

  /** `HardForkSwitch`: an activation epoch for every feature, without gaps. */
  datatype HardForkSwitch = HardForkSwitch(
    rfcPr0221: EpochNumber,
    rfcPr0222: EpochNumber,
    rfcPr0223: EpochNumber,
    rfcPr0230: EpochNumber)
  {
    function Get(f: Feature): EpochNumber {
      match f
      case RfcPr0221 => rfcPr0221
      case RfcPr0222 => rfcPr0222
      case RfcPr0223 => rfcPr0223
      case RfcPr0230 => rfcPr0230
    }
  }

  /** The switch that activates every feature at `e`. */
  function Uniform(e: EpochNumber): (s: HardForkSwitch)
    ensures forall f :: s.Get(f) == e
  {
    HardForkSwitch(e, e, e, e)
  }

  /** Two switches that agree on every feature are the same switch. */
  lemma SwitchExtensionality(s: HardForkSwitch, t: HardForkSwitch)
    requires forall f :: s.Get(f) == t.Get(f)
    ensures s == t
  {
    assert s.Get(RfcPr0221) == t.Get(RfcPr0221) && s.Get(RfcPr0222) == t.Get(RfcPr0222);
    assert s.Get(RfcPr0223) == t.Get(RfcPr0223) && s.Get(RfcPr0230) == t.Get(RfcPr0230);
  }

  /**
   * `HardForkSwitchBuilder`: collects one epoch per feature; `Build` succeeds
   * once every feature has been supplied.
   */
  datatype HardForkSwitchBuilder = HardForkSwitchBuilder(
    rfcPr0221: Option<EpochNumber>,
    rfcPr0222: Option<EpochNumber>,
    rfcPr0223: Option<EpochNumber>,
    rfcPr0230: Option<EpochNumber>)
  {
    function Get(f: Feature): Option<EpochNumber> {
      match f
      case RfcPr0221 => rfcPr0221
      case RfcPr0222 => rfcPr0222
      case RfcPr0223 => rfcPr0223
      case RfcPr0230 => rfcPr0230
    }

    /** The builder's setter for `f` (`.rfc_pr_0221(e)` and its siblings). */
    function Set(f: Feature, e: EpochNumber): (b: HardForkSwitchBuilder)
      ensures b.Get(f) == Some(e)
      ensures forall g :: g != f ==> b.Get(g) == Get(g)
    {
      match f
      case RfcPr0221 => this.(rfcPr0221 := Some(e))
      case RfcPr0222 => this.(rfcPr0222 := Some(e))
      case RfcPr0223 => this.(rfcPr0223 := Some(e))
      case RfcPr0230 => this.(rfcPr0230 := Some(e))
    }

    /** The switch holding exactly the supplied epochs, or the first feature not supplied. */
    function Build(): (r: Result<HardForkSwitch, ConfigError>)
      ensures r.Ok? <==> forall f :: Get(f).Some?
      ensures r.Ok? ==> forall f :: Get(f) == Some(r.value.Get(f))
      ensures r.Err? ==>
        && r.error.Unconfigured?
        && Get(r.error.feature).None?
        && forall g :: Before(g, r.error.feature) ==> Get(g).Some?
    {
      if Get(RfcPr0221).None? then Err(Unconfigured(RfcPr0221))
      else if Get(RfcPr0222).None? then Err(Unconfigured(RfcPr0222))
      else if Get(RfcPr0223).None? then Err(Unconfigured(RfcPr0223))
      else if Get(RfcPr0230).None? then Err(Unconfigured(RfcPr0230))
      else Ok(HardForkSwitch(rfcPr0221.value, rfcPr0222.value, rfcPr0223.value, rfcPr0230.value))
    }
  }

  /** `HardForkSwitch::new_builder()`: nothing supplied yet. */
  function NewBuilder(): (b: HardForkSwitchBuilder)
    ensures forall f :: b.Get(f) == None
  {
    HardForkSwitchBuilder(None, None, None, None)
  }
}

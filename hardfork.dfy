/**
 * Resolution of a chain spec's `HardForkConfig` into a `HardForkSwitch`:
 * against the CKB2021 edition epoch of mainnet or testnet, where every
 * configured value must equal that epoch, or with a caller-supplied default
 * for development chains, where every configured value is accepted.
 */
module HardFork {
  import opened Wrappers
  import opened HardForkTypes
  import opened HardForkSpec

  /** `mainnet::CKB2021_START_EPOCH`; its value is not part of this model. */
  const MainnetCkb2021StartEpoch: EpochNumber

  /** `testnet::CKB2021_START_EPOCH`; its value is not part of this model. */
  const TestnetCkb2021StartEpoch: EpochNumber

  /** `check_default!`: the configured value of `f` must be absent or equal to `expected`. */
  function CheckDefault(c: HardForkConfig, f: Feature, expected: EpochNumber): (r: Result<EpochNumber, ConfigError>)
    ensures r.Ok? <==> !Conflicts(c, f, expected)
    ensures r.Ok? ==> r.value == expected
    ensures r.Err? ==> r.error == IncorrectValue(f, c.Get(f).value, expected)
  {
    match c.Get(f)
    case Some(input) =>
      if input != expected then Err(IncorrectValue(f, input, expected)) else Ok(expected)
    case None => Ok(expected)
  }

  /**
   * `update_builder_via_edition`: checks the features in declaration order,
   * stopping at the first conflict, and supplies `ckb2021` for each of them.
   */
  function UpdateBuilderViaEdition(c: HardForkConfig, builder: HardForkSwitchBuilder, ckb2021: EpochNumber)
    : (r: Result<HardForkSwitchBuilder, ConfigError>)
    ensures r.Ok? <==> FirstConflict(c, ckb2021, AllFeatures).None?
    ensures r.Err? ==> Some(r.error) == FirstConflict(c, ckb2021, AllFeatures)
    ensures r.Ok? ==> forall f :: r.value.Get(f) == Some(ckb2021)
  {
    FirstConflictOfAllFeatures(c, ckb2021);
    var e0221 :- CheckDefault(c, RfcPr0221, ckb2021);
    var b0221 := builder.Set(RfcPr0221, e0221);
    var e0222 :- CheckDefault(c, RfcPr0222, ckb2021);
    var b0222 := b0221.Set(RfcPr0222, e0222);
    var e0223 :- CheckDefault(c, RfcPr0223, ckb2021);
    var b0223 := b0222.Set(RfcPr0223, e0223);
    var e0230 :- CheckDefault(c, RfcPr0230, ckb2021);
    var b0230 := b0223.Set(RfcPr0230, e0230);
    Ok(b0230)
  }

  /** The body shared by `complete_mainnet` and `complete_testnet`. */
  function CompleteViaEdition(c: HardForkConfig, ckb2021: EpochNumber): (r: Result<HardForkSwitch, ConfigError>)
    ensures r == EditionResolution(c, ckb2021)
  {
    var b :- UpdateBuilderViaEdition(c, NewBuilder(), ckb2021);
    b.Build()
  }

  /**
   * `complete_mainnet`: succeeds exactly when every configured feature is
   * mainnet's edition epoch, and then activates every feature there.
   */
  function CompleteMainnet(c: HardForkConfig): (r: Result<HardForkSwitch, ConfigError>)
    ensures r == EditionResolution(c, MainnetCkb2021StartEpoch)
    ensures r.Ok? <==> Consistent(c, MainnetCkb2021StartEpoch)
    ensures r.Ok? ==> r.value == Uniform(MainnetCkb2021StartEpoch)
  {
    EditionResolutionOk(c, MainnetCkb2021StartEpoch);
    CompleteViaEdition(c, MainnetCkb2021StartEpoch)
  }

  /**
   * `complete_testnet`: succeeds exactly when every configured feature is
   * testnet's edition epoch, and then activates every feature there.
   */
  function CompleteTestnet(c: HardForkConfig): (r: Result<HardForkSwitch, ConfigError>)
    ensures r == EditionResolution(c, TestnetCkb2021StartEpoch)
    ensures r.Ok? <==> Consistent(c, TestnetCkb2021StartEpoch)
    ensures r.Ok? ==> r.value == Uniform(TestnetCkb2021StartEpoch)
  {
    EditionResolutionOk(c, TestnetCkb2021StartEpoch);
    CompleteViaEdition(c, TestnetCkb2021StartEpoch)
  }

  /**
   * `complete_with_default`: never rejects; each feature gets its configured
   * epoch, or `default` when it is not configured.
   */
  function CompleteWithDefault(c: HardForkConfig, default: EpochNumber): (r: Result<HardForkSwitch, ConfigError>)
    ensures r.Ok?
    ensures forall f :: c.Get(f).Some? ==> r.value.Get(f) == c.Get(f).value
    ensures forall f :: c.Get(f).None? ==> r.value.Get(f) == default
  {
    NewBuilder()
      .Set(RfcPr0221, c.rfcPr0221.GetOr(default))
      .Set(RfcPr0222, c.rfcPr0222.GetOr(default))
      .Set(RfcPr0223, c.rfcPr0223.GetOr(default))
      .Set(RfcPr0230, c.rfcPr0230.GetOr(default))
      .Build()
  }
}

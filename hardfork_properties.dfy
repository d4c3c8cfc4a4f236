/** Properties of hard-fork configuration resolution that relate several calls. */
module HardForkProperties {
  import opened Wrappers
  import opened HardForkTypes
  import opened HardForkSpec
  import opened HardFork

  /** With nothing configured, edition resolution activates every feature at the edition epoch. */
  lemma DefaultConfigResolvesToEdition(e: EpochNumber)
    ensures EditionResolution(DefaultConfig(), e) == Ok(Uniform(e))
  {
    FirstConflictOfAllFeatures(DefaultConfig(), e);
  }

  /** The default configuration is accepted on mainnet and on testnet, each at its own edition epoch. */
  lemma DefaultConfigOnNetworks()
    ensures CompleteMainnet(DefaultConfig()) == Ok(Uniform(MainnetCkb2021StartEpoch))
    ensures CompleteTestnet(DefaultConfig()) == Ok(Uniform(TestnetCkb2021StartEpoch))
  {
  }

  /** Setting a feature explicitly to the edition epoch gives the same outcome as leaving it unset. */
  lemma ExplicitEditionIsUnset(c: HardForkConfig, f: Feature, e: EpochNumber)
    ensures EditionResolution(c.With(f, Some(e)), e) == EditionResolution(c.With(f, None), e)
  {
    var explicit, unset := c.With(f, Some(e)), c.With(f, None);
    FirstConflictOfAllFeatures(explicit, e);
    FirstConflictOfAllFeatures(unset, e);
    assert forall g :: Conflicts(explicit, g, e) == Conflicts(unset, g, e);
    assert forall g :: Conflicts(explicit, g, e) ==> explicit.Get(g) == unset.Get(g);
  }

  /** The same, on the two named networks. */
  lemma ExplicitEditionIsUnsetOnNetworks(c: HardForkConfig, f: Feature)
    ensures CompleteMainnet(c.With(f, Some(MainnetCkb2021StartEpoch))) == CompleteMainnet(c.With(f, None))
    ensures CompleteTestnet(c.With(f, Some(TestnetCkb2021StartEpoch))) == CompleteTestnet(c.With(f, None))
  {
  }

  /**
   * A feature configured to anything but the edition epoch makes resolution
   * fail; the error names the first conflicting feature, which is `f` or a
   * feature checked before it, with its configured value and the edition epoch.
   */
  lemma MismatchIsRejected(c: HardForkConfig, f: Feature, e: EpochNumber)
    requires Conflicts(c, f, e)
    ensures EditionResolution(c, e).Err?
    ensures EditionResolution(c, e).error.IncorrectValue?
    ensures var err := EditionResolution(c, e).error;
      && IsFirstConflict(c, err.feature, e)
      && !Before(f, err.feature)
      && c.Get(err.feature) == Some(err.actual)
      && err.expected == e
  {
    EditionResolutionOk(c, e);
    EditionResolutionErrorIsFirstConflict(c, e);
  }

  /** On mainnet, a conflicting feature is rejected with the first conflict and no switch. */
  lemma MainnetMismatchIsRejected(c: HardForkConfig, f: Feature)
    requires Conflicts(c, f, MainnetCkb2021StartEpoch)
    ensures CompleteMainnet(c).Err?
    ensures CompleteMainnet(c).error.IncorrectValue?
    ensures IsFirstConflict(c, CompleteMainnet(c).error.feature, MainnetCkb2021StartEpoch)
    ensures !Before(f, CompleteMainnet(c).error.feature)
    ensures c.Get(CompleteMainnet(c).error.feature) == Some(CompleteMainnet(c).error.actual)
    ensures CompleteMainnet(c).error.expected == MainnetCkb2021StartEpoch
  {
  }

  /** On testnet, a conflicting feature is rejected with the first conflict and no switch. */
  lemma TestnetMismatchIsRejected(c: HardForkConfig, f: Feature)
    requires Conflicts(c, f, TestnetCkb2021StartEpoch)
    ensures CompleteTestnet(c).Err?
    ensures CompleteTestnet(c).error.IncorrectValue?
    ensures IsFirstConflict(c, CompleteTestnet(c).error.feature, TestnetCkb2021StartEpoch)
    ensures !Before(f, CompleteTestnet(c).error.feature)
    ensures c.Get(CompleteTestnet(c).error.feature) == Some(CompleteTestnet(c).error.actual)
    ensures CompleteTestnet(c).error.expected == TestnetCkb2021StartEpoch
  {
  }

  /** Once the first conflict is found, the features after it are not examined. */
  lemma LaterFeaturesNotExamined(c1: HardForkConfig, c2: HardForkConfig, f: Feature, e: EpochNumber)
    requires IsFirstConflict(c1, f, e)
    requires forall g :: !Before(f, g) ==> c2.Get(g) == c1.Get(g)
    ensures EditionResolution(c1, e) == EditionResolution(c2, e)
    ensures EditionResolution(c2, e) == Err(IncorrectValue(f, c1.Get(f).value, e))
  {
    assert forall g :: Before(g, f) ==> !Before(f, g);
    EditionResolutionError(c1, e, f, c1.Get(f).value, e);
    EditionResolutionError(c2, e, f, c1.Get(f).value, e);
  }

  /** Two configurations that both resolve against an edition produce the same switch. */
  lemma SuccessIgnoresConfig(c1: HardForkConfig, c2: HardForkConfig, e: EpochNumber)
    requires Consistent(c1, e) && Consistent(c2, e)
    ensures EditionResolution(c1, e) == EditionResolution(c2, e) == Ok(Uniform(e))
  {
    EditionResolutionOk(c1, e);
    EditionResolutionOk(c2, e);
  }

  /** With every feature configured, the default is never consulted. */
  lemma WithDefaultAllSetIgnoresDefault(c: HardForkConfig, d1: EpochNumber, d2: EpochNumber)
    requires forall f :: c.Get(f).Some?
    ensures CompleteWithDefault(c, d1) == CompleteWithDefault(c, d2)
  {
  }

  /** With nothing configured, every feature is activated at the default. */
  lemma WithDefaultOnDefaultConfig(d: EpochNumber)
    ensures CompleteWithDefault(DefaultConfig(), d) == Ok(Uniform(d))
  {
  }

  /**
   * The chain-spec change made by both epoch since tests: `rfc_pr_0223` is
   * overwritten with `v` on top of whatever hard-fork section the spec holds.
   */
  lemma WithDefaultRfcPr0223Overridden(c: HardForkConfig, v: EpochNumber, d: EpochNumber)
    ensures CompleteWithDefault(c.With(RfcPr0223, Some(v)), d)
      == Ok(HardForkSwitch(c.rfcPr0221.GetOr(d), c.rfcPr0222.GetOr(d), v, c.rfcPr0230.GetOr(d)))
  {
    var sw := CompleteWithDefault(c.With(RfcPr0223, Some(v)), d).value;
    SwitchExtensionality(sw, HardForkSwitch(c.rfcPr0221.GetOr(d), c.rfcPr0222.GetOr(d), v, c.rfcPr0230.GetOr(d)));
  }

  /**
   * The absolute-epoch since test (`CheckAbsoluteEpochSince`) on a spec with
   * no hard-fork section: `rfc_pr_0223` at 2, every other feature at the default.
   */
  lemma AbsoluteEpochSinceChainSpec(d: EpochNumber)
    ensures CompleteWithDefault(DefaultConfig().With(RfcPr0223, Some(2)), d) == Ok(HardForkSwitch(d, d, 2, d))
  {
    WithDefaultRfcPr0223Overridden(DefaultConfig(), 2, d);
  }

  /**
   * The relative-epoch since test (`CheckRelativeEpochSince`) on a spec with
   * no hard-fork section: `rfc_pr_0223` at 7, every other feature at the default.
   */
  lemma RelativeEpochSinceChainSpec(d: EpochNumber)
    ensures CompleteWithDefault(DefaultConfig().With(RfcPr0223, Some(7)), d) == Ok(HardForkSwitch(d, d, 7, d))
  {
    WithDefaultRfcPr0223Overridden(DefaultConfig(), 7, d);
  }

  /**
   * Where edition resolution accepts a configuration, resolving it with the
   * edition epoch as default gives the same switch; where it rejects one,
   * resolution with a default still accepts it.
   */
  lemma WithDefaultAgreesWithEdition(c: HardForkConfig, e: EpochNumber)
    ensures Consistent(c, e) ==> CompleteWithDefault(c, e) == EditionResolution(c, e)
    ensures !Consistent(c, e) ==> CompleteWithDefault(c, e).Ok? && EditionResolution(c, e).Err?
  {
    EditionResolutionOk(c, e);
    if Consistent(c, e) {
      forall f ensures CompleteWithDefault(c, e).value.Get(f) == e {
        assert !Conflicts(c, f, e);
      }
      SwitchExtensionality(CompleteWithDefault(c, e).value, Uniform(e));
    }
  }
}

/**
 * The reference description of resolving a configuration against a named
 * network's edition epoch, written as a table over the feature list: the
 * first feature (in list order) whose configured value differs from the
 * edition epoch is the error; without one, every feature gets the edition
 * epoch.
 */
module HardForkSpec {
  import opened Wrappers
  import opened HardForkTypes

  /** `f` is configured, and to an epoch other than `expected`. */
  predicate Conflicts(c: HardForkConfig, f: Feature, expected: EpochNumber) {
    c.Get(f).Some? && c.Get(f).value != expected
  }

  /** Every configured feature is configured to `expected`. */
  predicate Consistent(c: HardForkConfig, expected: EpochNumber) {
    forall f :: !Conflicts(c, f, expected)
  }

  /** `f` conflicts and no feature checked before it does. */
  predicate IsFirstConflict(c: HardForkConfig, f: Feature, expected: EpochNumber) {
    Conflicts(c, f, expected) && forall g :: Before(g, f) ==> !Conflicts(c, g, expected)
  }

  /** Entry `i` of `fs` conflicts and no earlier entry does. */
  predicate IsFirstConflictIn(c: HardForkConfig, expected: EpochNumber, fs: seq<Feature>, i: nat) {
    && i < |fs|
    && Conflicts(c, fs[i], expected)
    && forall j :: 0 <= j < i ==> !Conflicts(c, fs[j], expected)
  }

  /** The error for the first feature of `fs` that conflicts, if any does. */
  function FirstConflict(c: HardForkConfig, expected: EpochNumber, fs: seq<Feature>): Option<ConfigError> {
    if fs == [] then None
    else if Conflicts(c, fs[0], expected) then Some(IncorrectValue(fs[0], c.Get(fs[0]).value, expected))
    else FirstConflict(c, expected, fs[1..])
  }

  /** What resolving `c` against edition epoch `expected` must produce. */
  function EditionResolution(c: HardForkConfig, expected: EpochNumber): Result<HardForkSwitch, ConfigError> {
    match FirstConflict(c, expected, AllFeatures)
    case Some(err) => Err(err)
    case None => Ok(Uniform(expected))
  }

  /** The table over `AllFeatures`, written out feature by feature. */
  lemma FirstConflictOfAllFeatures(c: HardForkConfig, expected: EpochNumber)
    ensures FirstConflict(c, expected, AllFeatures) ==
      if Conflicts(c, RfcPr0221, expected) then Some(IncorrectValue(RfcPr0221, c.rfcPr0221.value, expected))
      else if Conflicts(c, RfcPr0222, expected) then Some(IncorrectValue(RfcPr0222, c.rfcPr0222.value, expected))
      else if Conflicts(c, RfcPr0223, expected) then Some(IncorrectValue(RfcPr0223, c.rfcPr0223.value, expected))
      else if Conflicts(c, RfcPr0230, expected) then Some(IncorrectValue(RfcPr0230, c.rfcPr0230.value, expected))
      else None
  {
    var s3 := [RfcPr0230];
    var s2 := [RfcPr0223, RfcPr0230];
    var s1 := [RfcPr0222, RfcPr0223, RfcPr0230];
    assert s3[1..] == [];
    assert s2[1..] == s3;
    assert s1[1..] == s2;
    assert AllFeatures[1..] == s1;
    assert FirstConflict(c, expected, s3) ==
      if Conflicts(c, RfcPr0230, expected) then Some(IncorrectValue(RfcPr0230, c.rfcPr0230.value, expected)) else None;
    assert FirstConflict(c, expected, s2) ==
      if Conflicts(c, RfcPr0223, expected) then Some(IncorrectValue(RfcPr0223, c.rfcPr0223.value, expected))
      else FirstConflict(c, expected, s3);
    assert FirstConflict(c, expected, s1) ==
      if Conflicts(c, RfcPr0222, expected) then Some(IncorrectValue(RfcPr0222, c.rfcPr0222.value, expected))
      else FirstConflict(c, expected, s2);
  }

  /** The table finds nothing exactly when no entry of `fs` conflicts. */
  lemma {:induction false} FirstConflictNone(c: HardForkConfig, expected: EpochNumber, fs: seq<Feature>)
    ensures FirstConflict(c, expected, fs).None? <==> forall j :: 0 <= j < |fs| ==> !Conflicts(c, fs[j], expected)
  {
    if fs != [] && !Conflicts(c, fs[0], expected) {
      FirstConflictNone(c, expected, fs[1..]);
      assert forall j :: 1 <= j < |fs| ==> fs[j] == fs[1..][j - 1];
    }
  }

  /** When entry `i` is the first conflicting one, the table reports exactly that entry. */
  lemma {:induction false} FirstConflictFinds(c: HardForkConfig, expected: EpochNumber, fs: seq<Feature>, i: nat)
    requires IsFirstConflictIn(c, expected, fs, i)
    ensures FirstConflict(c, expected, fs) == Some(IncorrectValue(fs[i], c.Get(fs[i]).value, expected))
  {
    if i > 0 {
      assert !Conflicts(c, fs[0], expected);
      assert forall j :: 0 <= j < i - 1 ==> fs[1..][j] == fs[j + 1];
      FirstConflictFinds(c, expected, fs[1..], i - 1);
    }
  }

  /** Whatever the table reports is the first conflicting entry of `fs`. */
  lemma {:induction false} FirstConflictSound(c: HardForkConfig, expected: EpochNumber, fs: seq<Feature>)
    requires FirstConflict(c, expected, fs).Some?
    ensures exists i: nat ::
      && IsFirstConflictIn(c, expected, fs, i)
      && FirstConflict(c, expected, fs).value == IncorrectValue(fs[i], c.Get(fs[i]).value, expected)
  {
    if !Conflicts(c, fs[0], expected) {
      FirstConflictSound(c, expected, fs[1..]);
      var k: nat :| IsFirstConflictIn(c, expected, fs[1..], k)
        && FirstConflict(c, expected, fs[1..]).value == IncorrectValue(fs[1..][k], c.Get(fs[1..][k]).value, expected);
      assert forall j :: 1 <= j < k + 1 ==> fs[j] == fs[1..][j - 1];
      assert fs[k + 1] == fs[1..][k];
    }
  }

  /** Edition resolution succeeds exactly when the configuration is consistent with the edition epoch. */
  lemma EditionResolutionOk(c: HardForkConfig, expected: EpochNumber)
    ensures EditionResolution(c, expected).Ok? <==> Consistent(c, expected)
  {
    FirstConflictNone(c, expected, AllFeatures);
    if !Consistent(c, expected) {
      var f :| Conflicts(c, f, expected);
      assert AllFeatures[Index(f)] == f;
    }
  }

  /**
   * Edition resolution fails with `IncorrectValue(f, actual, x)` exactly when
   * `f` is the first conflicting feature, `actual` is its configured epoch and
   * `x` is the edition epoch.
   */
  lemma EditionResolutionError(c: HardForkConfig, expected: EpochNumber, f: Feature, actual: EpochNumber, x: EpochNumber)
    ensures EditionResolution(c, expected) == Err(IncorrectValue(f, actual, x))
        <==> IsFirstConflict(c, f, expected) && c.Get(f) == Some(actual) && x == expected
  {
    if IsFirstConflict(c, f, expected) {
      forall j | 0 <= j < Index(f) ensures !Conflicts(c, AllFeatures[j], expected) {
        IndexOfAllFeatures(j);
      }
      FirstConflictFinds(c, expected, AllFeatures, Index(f));
    }
    if EditionResolution(c, expected) == Err(IncorrectValue(f, actual, x)) {
      FirstConflictSound(c, expected, AllFeatures);
      var i: nat :| IsFirstConflictIn(c, expected, AllFeatures, i)
        && FirstConflict(c, expected, AllFeatures).value == IncorrectValue(AllFeatures[i], c.Get(AllFeatures[i]).value, expected);
      IndexOfAllFeatures(i);
      forall g | Before(g, f) ensures !Conflicts(c, g, expected) {
        assert AllFeatures[Index(g)] == g;
      }
    }
  }

  /** Whenever edition resolution fails, it fails with `IncorrectValue` for the first conflicting feature. */
  lemma EditionResolutionErrorIsFirstConflict(c: HardForkConfig, expected: EpochNumber)
    requires EditionResolution(c, expected).Err?
    ensures EditionResolution(c, expected).error.IncorrectValue?
    ensures IsFirstConflict(c, EditionResolution(c, expected).error.feature, expected)
    ensures c.Get(EditionResolution(c, expected).error.feature) == Some(EditionResolution(c, expected).error.actual)
    ensures EditionResolution(c, expected).error.expected == expected
  {
    FirstConflictSound(c, expected, AllFeatures);
    var err := EditionResolution(c, expected).error;
    EditionResolutionError(c, expected, err.feature, err.actual, err.expected);
  }
}

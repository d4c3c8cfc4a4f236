# Hard-fork configuration resolution (CKB chain spec)

A Dafny model of how a CKB node turns the hard-fork section of its chain spec
into the activation epochs it validates with. A `HardForkConfig` holds one
optional activation epoch for each feature of the CKB2021 edition
(`rfc_pr_0221`, `rfc_pr_0222`, `rfc_pr_0223`, `rfc_pr_0230`). The node
resolves it into a `HardForkSwitch`, which has an epoch for every feature. It
does this in one of two ways:

- **Against a named network** (`complete_mainnet`, `complete_testnet`). Each
  configured epoch must equal that network's `CKB2021_START_EPOCH`. The first
  feature, in declaration order, that holds another value aborts resolution
  with an error naming the feature, its value and the expected epoch. Features
  left unset get the edition epoch.
- **With a caller-supplied default** (`complete_with_default`, for dev
  chains). Every configured epoch is accepted. Features left unset get the
  default.

Layout:

- `wrappers.dfy`: `Option` (with Rust's `unwrap_or` as `GetOr`) and `Result`.
  `Result` works with `:-`, which plays the part of Rust's `?`.
- `hardfork_types.dfy`: the data model. It holds `Feature` and the fixed
  declaration order `AllFeatures`, the config, the switch, and the switch
  builder. `EpochNumber` is the unsigned 64-bit range.
- `hardfork_spec.dfy`: the reference description of network resolution, as a
  table over the feature list (`FirstConflict`, `EditionResolution`). Its
  lemmas by induction characterise the table: it finds nothing exactly when
  nothing conflicts, and what it reports is the first conflict.
- `hardfork.dfy`: the operations, written the way the source writes them. The
  `check_default!` macro is `CheckDefault`. The builder chain stops at the
  first `?`. The network-resolution operations are proved equal to the
  reference description. `CompleteWithDefault` has its own per-feature
  contract and is related to network resolution by a lemma.
- `hardfork_properties.dfy`: properties that relate several calls.

The mainnet and testnet `CKB2021_START_EPOCH` values are defined outside the
modelled file. They are constants left unconstrained, so every property about
the networks holds whatever their values are.

## Model

| member | source | states |
|---|---|---|
| HardForkTypes.DefaultConfig | spec/src/hardfork.rs:11-23 | The derived `Default` config leaves every feature unset |
| HardForkTypes.NewBuilder | spec/src/hardfork.rs:47 | Assumed behaviour of `HardForkSwitch::new_builder()`: a builder with no feature supplied |
| HardForkTypes.HardForkSwitchBuilder.Set | spec/src/hardfork.rs:65-69 | Assumed behaviour of the setters `.rfc_pr_0221(e)` to `.rfc_pr_0230(e)`: each stores `e` for its own feature and leaves every other feature as it was |
| Wrappers.Option.GetOr | spec/src/hardfork.rs:78-81 | `unwrap_or`: the configured epoch when there is one, otherwise the default |
| HardForkTypes.HardForkConfig.With | test/src/specs/hardfork/v2021/since.rs:137-139 | Assigning one field of the config (as in `switch.rfc_pr_0223 = Some(2)`): that field takes the new value and every other field keeps its old one |
| HardForkTypes.HardForkSwitchBuilder.Build | spec/src/hardfork.rs:49 | Assumed behaviour of `build()`: it succeeds exactly when every feature was supplied, and then the switch holds exactly the supplied epochs. Otherwise it names the first feature not supplied |
| HardFork.CheckDefault | spec/src/hardfork.rs:25-41 | `check_default!` accepts exactly when the feature is unset or set to the expected epoch, and then yields the expected epoch. Otherwise it fails with `IncorrectValue(feature, configured value, expected)` |
| HardFork.UpdateBuilderViaEdition | spec/src/hardfork.rs:60-71 | Succeeds exactly when no feature conflicts with `ckb2021`, and then it has supplied `ckb2021` for every feature. Otherwise its error is the table's first conflict in the order 0221, 0222, 0223, 0230 |
| HardFork.CompleteViaEdition | spec/src/hardfork.rs:46-58 | The body shared by `complete_mainnet` and `complete_testnet`, for any edition epoch. It returns exactly the reference resolution `EditionResolution` |
| HardFork.CompleteMainnet | spec/src/hardfork.rs:44-50 | Equals the reference resolution at the mainnet edition epoch. It succeeds exactly when every configured value is that epoch, and then every feature is activated at that epoch |
| HardFork.CompleteTestnet | spec/src/hardfork.rs:52-58 | The same as `CompleteMainnet`, at the testnet edition epoch |
| HardFork.CompleteWithDefault | spec/src/hardfork.rs:73-83 | Never fails. A configured feature keeps its configured epoch and an unset one gets `default` |
| HardForkSpec.FirstConflictOfAllFeatures | spec/src/hardfork.rs:65-69 | Over the declared feature list, the table checks 0221, 0222, 0223, 0230 in turn and reports the first conflict |
| HardForkSpec.FirstConflictNone | spec/src/hardfork.rs:65-70 | For any feature list, the table reports nothing exactly when no listed feature conflicts |
| HardForkSpec.FirstConflictFinds | spec/src/hardfork.rs:28-39 | When entry `i` is the first conflicting entry, the table reports `IncorrectValue` for it, carrying its configured value and the expected epoch |
| HardForkSpec.FirstConflictSound | spec/src/hardfork.rs:28-39 | Whatever the table reports is the `IncorrectValue` of the first conflicting entry |
| HardForkSpec.EditionResolutionOk | spec/src/hardfork.rs:44-50 | Network resolution succeeds exactly when every configured feature equals the edition epoch |
| HardForkSpec.EditionResolutionError | spec/src/hardfork.rs:28-36 | Both directions: resolution fails with `IncorrectValue(f, a, x)` exactly when `f` is the first conflicting feature, `a` is its configured value and `x` is the edition epoch |
| HardForkSpec.EditionResolutionErrorIsFirstConflict | spec/src/hardfork.rs:28-39 | Every failure of network resolution is an `IncorrectValue` for the first conflicting feature, never a builder error |
| HardForkProperties.DefaultConfigResolvesToEdition | spec/src/hardfork.rs:38 | With nothing configured, resolution succeeds with every feature at the edition epoch |
| HardForkProperties.DefaultConfigOnNetworks | spec/src/hardfork.rs:46-58 | The default config resolves on mainnet and on testnet, with every feature at that network's `CKB2021_START_EPOCH` |
| HardForkProperties.ExplicitEditionIsUnset | spec/src/hardfork.rs:27-38 | Setting a feature explicitly to the edition epoch gives the same outcome as leaving it unset, whatever else is configured |
| HardForkProperties.ExplicitEditionIsUnsetOnNetworks | spec/src/hardfork.rs:46-58 | The same, for `complete_mainnet` and `complete_testnet` |
| HardForkProperties.MismatchIsRejected | spec/src/hardfork.rs:28-36 | Any conflicting feature makes resolution fail with no switch. The error names the first conflict (this feature or an earlier one), with its configured value and the edition epoch |
| HardForkProperties.MainnetMismatchIsRejected | spec/src/hardfork.rs:46-50 | A feature set to anything but mainnet's edition epoch makes `complete_mainnet` fail with the first conflict |
| HardForkProperties.TestnetMismatchIsRejected | spec/src/hardfork.rs:54-58 | A feature set to anything but testnet's edition epoch makes `complete_testnet` fail with the first conflict |
| HardForkProperties.LaterFeaturesNotExamined | spec/src/hardfork.rs:39 | After the first conflict, `?` stops the chain. Configs that agree up to that feature give the identical error, whatever the later features hold |
| HardForkProperties.SuccessIgnoresConfig | spec/src/hardfork.rs:38 | Every config that resolves against an edition gives the same switch, with every feature at the edition epoch |
| HardForkProperties.WithDefaultAllSetIgnoresDefault | spec/src/hardfork.rs:78-81 | With all four features configured, `complete_with_default` does not depend on the default |
| HardForkProperties.WithDefaultOnDefaultConfig | spec/src/hardfork.rs:76-83 | With nothing configured, every feature is activated at the default |
| HardForkProperties.WithDefaultRfcPr0223Overridden | test/src/specs/hardfork/v2021/since.rs:134-139 | The chain-spec change of both epoch since tests overwrites `rfc_pr_0223` with a value `v` on an existing config. The absolute test uses 2 (since.rs:131-140) and the relative test uses 7 (since.rs:250-259). With a default, 0223 resolves to `v` and every other feature to its configured epoch or the default |
| HardForkProperties.AbsoluteEpochSinceChainSpec | test/src/specs/hardfork/v2021/since.rs:134-139 | `CheckAbsoluteEpochSince` on a spec with no hard-fork section, which starts from `Default::default()`: 0223 resolves to 2 and every other feature to the default |
| HardForkProperties.RelativeEpochSinceChainSpec | test/src/specs/hardfork/v2021/since.rs:253-258 | `CheckRelativeEpochSince` on a spec with no hard-fork section: 0223 resolves to 7 and every other feature to the default |
| HardForkProperties.WithDefaultAgreesWithEdition | spec/src/hardfork.rs:46-83 | For a config that network resolution accepts, resolving with the edition epoch as default gives the same switch. For one it rejects, resolution with a default still succeeds |

## Left out

- HardForkTypes.HardForkSwitchBuilder.Build: `HardForkSwitchBuilder`, `HardForkSwitch::new_builder()`, the setters and `build()` are defined outside the modelled file. The model assumes three things. `new_builder()` (`NewBuilder`) starts with no feature supplied. Each setter (`HardForkSwitchBuilder.Set`) stores its epoch for its own feature and leaves the other features unchanged. `build()` succeeds exactly when all four features were supplied, and otherwise reports the first missing one. Every result of resolution depends on these assumptions. Every caller here supplies all four features first, so the error path of `build()` is never reached.
- The values of `mainnet::CKB2021_START_EPOCH` and `testnet::CKB2021_START_EPOCH` are defined outside the modelled file. They are unconstrained constants.
- The wording of the error message. It is a human-readable string formatted from the feature name, the configured value and the expected epoch. The model returns those three as the structured `ConfigError.IncorrectValue`.
- Deserialization (serde, with unknown fields rejected). It is done by a library; the model starts from the parsed `HardForkConfig`.
- `HardForkSwitch` queries such as whether a feature is active at an epoch. They are defined outside the modelled file.
- The since-maturity integration test in `test/src/specs/hardfork/v2021/since.rs`. It mines blocks and submits transactions over RPC. The since validator, the 64-bit since encoding and epoch-fraction arithmetic it exercises are defined outside the modelled files. The model uses only the chain-spec changes of its two tests. Each sets `rfc_pr_0223` on the existing hard-fork section, or on the default one when the spec has none. The absolute-epoch test (`CheckAbsoluteEpochSince`) sets it to 2, and the relative-epoch test (`CheckRelativeEpochSince`) sets it to 7.
- The alert test in `test/src/specs/alert/mod.rs`. It does random key generation and secp256k1 signing: randomness and foreign cryptography.

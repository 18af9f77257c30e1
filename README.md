# shipcat configuration core, modelled in Dafny

shipcat drives deployments to Kubernetes from one configuration file, `shipcat.conf`. It
names the clusters, the regions (abstract kube contexts), the context aliases, the teams,
the defaults for service manifests, and the version of shipcat the file needs. This
project models the part of the `shipcat_definitions` crate that handles that file:

- the entities it holds;
- `Config::verify`, its validation;
- how a kube context resolves to a region and a cluster;
- the one-way narrowing `File -> Base -> Completed`. It keeps one region, then fills in
  that region's Kong gateway secrets from the vault.

It also models the older configuration of the command line crate and its check.

Modules, one per concern:

- `Wrappers` (`wrappers.dfy`): `Option`, `Result`, and `Outcome` for Rust's `Result<()>`.
  It also defines `FirstFailure`, a loop that stops at its first `bail!`.
- `Lexical` (`lexical.dfy`): the order of Rust `String`s (code-point lexicographic).
  It defines the order in which a `BTreeMap` visits its keys (`SortedKeys`), and
  `ForEachEntry`, a `for (k, v) in &map` loop that stops at its first failure.
- `Text` (`text.dfy`): `ends_with`, `split` and UTF-8 `len`.
- `Versions` (`versions.dfy`): semantic-version precedence, as used by `semver::Version`'s `>`.
- `Errors` (`errors.dfy`): one constructor per failure the core reports.
- `SecretStore` (`secret_store.dfy`): an in-memory vault with `read` and `list`.
- `Kong` (`kong.dfy`): `KongConfig::secrets` and `KongConfig::verify_secrets_exist`.
- `Definitions` (`config.dfy`): the configuration entities, `VersionScheme::verify`,
  `Region::secrets`, and `class Config` with its validation, resolution and narrowing.
- `CliConfig` (`cli_config.dfy`): the older `Config` of the command line crate and its `verify`.

Modelling choices:

- `Config` is a `class`, because `remove_redundant_regions`, `complete` and `new` update
  its fields in place. Its queries are functions that read it.
- Regions, clusters and Kong settings are values stored in its maps.
- `KongConfig::secrets` is a loop with early returns. It is a method that is proved equal
  to a specification function (`WithSecrets`), and the lemmas are about that function.
- The values a failed read leaves behind are part of the result. `Config.Complete` stores
  them in the region, as the in-place update does.
- When a check runs over a map, the model visits the keys in `BTreeMap` order. So every
  "first failure" statement names the first failing key in key order.

Things the core gets from outside come in as parameters:

- `isSemver` stands for `semver::Version::parse(..).is_ok()`.
- `current` is the running tool's version.
- `contactOk` stands for `Contact::verify`.
- `chartExists` says whether `charts/<chart>/Chart.yaml` is a file.
- `filesystem` says whether the crate is built with its `filesystem` feature.
- `connect` stands for `Vault::regional`. It gives the vault client for a region's
  `VaultConfig`, or nothing when none can be built.

Behaviour of the code that the model keeps, and that is easy to miss:

- **Version checked last.** `verify` checks the declared version after every other rule
  (line 393). A newer version always makes `verify` fail. But another broken rule is
  reported first, and the out-of-date error comes only when all other rules hold
  (`Definitions.NewerVersionFails`).
- **Secrets are not all-or-nothing.** `KongConfig::secrets` writes each secret into the
  consumer entry as soon as it is read. A failed read returns at once and keeps the
  earlier writes (`Kong.SecretsPartialOnFailure`).
- **`complete` moves the state first.** It sets the state to `Completed` before it fetches
  anything, so a failed fetch still leaves the configuration `Completed`.
- **Panics become preconditions.** The `assert!`s of `remove_redundant_regions` and
  `complete` are `requires` clauses. So is the `regions[..]` index that panics for an alias
  pointing nowhere (`Config.Resolvable`). `VerifiedConfigResolves` shows that a verified
  configuration never breaks that.
- **`verify_secrets_exist` skips the provisioning key.** It only looks for consumer
  credentials.
- **Secret paths use the region name.** `Region::secrets` builds them from the region's
  `name`, not from its vault `folder`.
- **The older check reports the UTF-8 length.** Its "invalid region" error uses the name's
  length in UTF-8 bytes (`r.len()`).
- **The starting state is `File`.** The state is `ConfigType` (`File | Base | Completed` in
  the model), a field the deserialiser fills with its `Default`. That `Default` impl lives in
  the crate's `states` module, which is not part of this model. It is taken as `File`,
  because `Config::new` calls `remove_redundant_regions` on a freshly read configuration,
  and that asserts `kind == File` (line 479).

## Model

| member | source | states |
|---|---|---|
| Definitions.VersionScheme.Verify | shipcat_definitions/src/config.rs:61-77 | passes iff the tag is semver, or the scheme is `GitShaOrSemver` and the tag is 40 characters of `[0-9a-f-]`; the error is "illegal tag" or "not semver" by scheme |
| Definitions.GitShaOrSemverWidensSemver | shipcat_definitions/src/config.rs:61-77 | `GitShaOrSemver` accepts every tag `Semver` accepts, and the tags only it accepts are exactly the git shas that are not semver |
| Definitions.VersionSchemeExamples | shipcat_definitions/src/config.rs:603-615 | the cases of `version_validate_test`, given a semver parser that accepts and rejects what the test expects |
| Kong.ConsumerPathsAreEntries | shipcat_definitions/src/config.rs:168-189 | the paths `secrets` reads are the folder entries `verify_secrets_exist` looks for |
| Kong.FillConsumer | shipcat_definitions/src/config.rs:166-175 | one consumer's turn: passes iff each placeholder's read can succeed; on success both placeholders hold their secrets; an unreadable client id fails with its path and leaves the consumer as it was; a readable id with an unreadable secret fails with the secret's path, the id already written; only placeholders are ever replaced |
| Kong.FillConsumersPass | shipcat_definitions/src/config.rs:166-175 | the consumer loop keeps the keys; it passes iff every visited consumer's reads can succeed, and then every visited consumer is fully filled |
| Kong.FillConsumersFail | shipcat_definitions/src/config.rs:166-175 | a failed consumer loop stopped at one consumer: the ones before it are filled, it is as its failed turn left it, the ones after it are untouched |
| Kong.FillConsumersInPlace | shipcat_definitions/src/config.rs:166-175 | the field-by-field loop with early returns computes exactly the specified consumer loop |
| Kong.Secrets | shipcat_definitions/src/config.rs:165-181 | the method computes exactly `WithSecrets`: consumers in key order, then the provisioning key |
| Kong.SecretsKeepShape | shipcat_definitions/src/config.rs:165-181 | `secrets` changes only consumer credentials and the provisioning key, keeps the consumer names, and only replaces a placeholder by the secret read for it |
| Kong.SecretsSucceed | shipcat_definitions/src/config.rs:165-181 | `secrets` passes iff every read it needs can succeed, and then every placeholder holds the secret stored at its path |
| Kong.SecretsPartialOnFailure | shipcat_definitions/src/config.rs:166-180 | after a failure the provisioning key is untouched, and either all consumers were filled and that key was unreadable, or the loop stopped at one consumer in key order with the earlier ones filled and the later ones untouched |
| Kong.FirstMissing | shipcat_definitions/src/config.rs:198-202 | passes iff every expected name was listed; otherwise reports the first missing one |
| Kong.CollectExpected | shipcat_definitions/src/config.rs:183-191 | the loop builds the expected entry names, consumer by consumer, client id before client secret |
| Kong.CheckFound | shipcat_definitions/src/config.rs:198-202 | the loop reports the first expected name the listing lacks |
| Kong.VerifySecretsExist | shipcat_definitions/src/config.rs:182-204 | the method computes exactly `SecretsExist`, the outcome and the folders listed |
| Kong.SecretsExistListsOnce | shipcat_definitions/src/config.rs:192-196 | with no placeholder left nothing is listed and the check passes; otherwise exactly the consumers folder is listed, once |
| Kong.SecretsExistSucceeds | shipcat_definitions/src/config.rs:182-204 | passes iff no consumer needs the vault, or the consumers folder can be listed and names every placeholder's entry |
| Kong.SecretsExistMatchesReads | shipcat_definitions/src/config.rs:165-204 | against a vault whose listings agree with its reads, the existence check passes iff every consumer read of `secrets` can succeed |
| SecretStore.Vault.Read | shipcat_definitions/src/config.rs:169 | a read succeeds iff a secret is stored at the path, and returns it |
| SecretStore.Vault.List | shipcat_definitions/src/config.rs:196 | a listing succeeds iff the folder can be listed, and returns its names |
| Definitions.RegionSecrets | shipcat_definitions/src/config.rs:256-260 | the method computes exactly `RegionWithSecrets`: no client gives "vault unavailable"; otherwise `secrets` under the region's name |
| Definitions.RegionSecretsSucceed | shipcat_definitions/src/config.rs:256-260 | filling a region changes only its Kong settings, and succeeds iff a client exists and every read can succeed |
| Definitions.CheckCluster | shipcat_definitions/src/config.rs:337-348 | passes iff the name equals its key and, under the filesystem feature in the `File` state, every served region is defined; a name mismatch is reported first, otherwise the first undefined region in list order |
| Definitions.CheckClusters | shipcat_definitions/src/config.rs:337-348 | passes iff every cluster entry is fine |
| Definitions.CheckClustersFailsAtFirstBad | shipcat_definitions/src/config.rs:337-348 | a failing cluster stage reports the first broken cluster in key order |
| Definitions.CheckAlias | shipcat_definitions/src/config.rs:350-359 | passes iff the target is a region and the alias is not; an undefined target is reported before a self-alias |
| Definitions.CheckAliases | shipcat_definitions/src/config.rs:350-359 | passes iff every alias entry is fine |
| Definitions.CheckAliasesFailsAtFirstBad | shipcat_definitions/src/config.rs:350-359 | a failing alias stage reports the first broken alias in key order |
| Definitions.CheckRegion | shipcat_definitions/src/config.rs:361-382 | passes iff the name equals its key, and namespace, environment and vault url are set, and no base url ends with `/`; the first broken rule in that order gives the error |
| Definitions.CheckRegionIgnoresVaultFolder | shipcat_definitions/src/config.rs:374-376 | an empty vault folder, or any folder, never changes a region's outcome |
| Definitions.KongVerify | shipcat_definitions/src/config.rs:594-596 | Kong settings always pass |
| Definitions.CheckRegions | shipcat_definitions/src/config.rs:361-383 | passes iff every region entry is fine |
| Definitions.CheckRegionsFailsAtFirstBad | shipcat_definitions/src/config.rs:361-383 | a failing region stage reports the first broken region in key order |
| Definitions.CheckOwner | shipcat_definitions/src/config.rs:385-390 | passes iff the contact is valid and has a github id; a bad contact is reported before a missing github id |
| Definitions.CheckTeam | shipcat_definitions/src/config.rs:385-391 | passes iff every owner of the team is fine; otherwise the error of its first offending owner |
| Definitions.CheckTeams | shipcat_definitions/src/config.rs:384-392 | passes iff every owner of every team is fine |
| Definitions.CheckTeamsFailsAtFirstBad | shipcat_definitions/src/config.rs:384-392 | a failing team stage reports the first offending owner, every owner of earlier teams and every earlier owner of its team being fine |
| Definitions.CheckEntries | shipcat_definitions/src/config.rs:337-383 | clusters, aliases, then regions: passes iff all three stages pass |
| Definitions.CheckRules | shipcat_definitions/src/config.rs:325-392 | passes iff every rule before the version holds |
| Definitions.VerifyVersion | shipcat_definitions/src/config.rs:398-409 | passes iff the declared version is not greater than the running one; otherwise "out of date" with both versions |
| Definitions.VerifyVersionAcceptsUpToCurrent | shipcat_definitions/src/config.rs:398-409 | the accepted versions are exactly the running one and those of lower precedence |
| Versions.CompareFlip | shipcat_definitions/src/config.rs:400 | version comparison is antisymmetric, and equal iff the versions are equal |
| Definitions.Config.Verify | shipcat_definitions/src/config.rs:324-396 | passes iff every rule and the version check hold; once all other rules hold, the outcome is that of the version check (the error of each earlier stage is stated by the lemmas that follow) |
| Definitions.ChartErrorComesFirst | shipcat_definitions/src/config.rs:327-332 | under the filesystem feature a missing chart is what `verify` reports, whatever else is wrong |
| Definitions.PrefixErrorComesSecond | shipcat_definitions/src/config.rs:327-335 | with the chart found, an image prefix ending in `/` is what `verify` reports |
| Definitions.ClusterErrorIsFirstInKeyOrder | shipcat_definitions/src/config.rs:327-348 | with chart and prefix fine, a broken cluster makes `verify` report the first broken cluster in key order |
| Definitions.AliasErrorIsFirstInKeyOrder | shipcat_definitions/src/config.rs:327-359 | with the clusters fine too, a broken alias makes `verify` report the first broken alias in key order |
| Definitions.OwnerErrorIsFirst | shipcat_definitions/src/config.rs:327-392 | with every map entry fine, a broken owner makes `verify` report the first offending owner |
| Definitions.RegionErrorIsFirstInKeyOrder | shipcat_definitions/src/config.rs:324-383 | with the stages before it passing, a broken region makes `verify` report the first broken region in key order |
| Definitions.NewerVersionFails | shipcat_definitions/src/config.rs:393-407 | a declared version newer than the tool always fails `verify`, and with "out of date" when all other rules hold |
| Definitions.Config.ListRegions | shipcat_definitions/src/config.rs:471-473 | lists exactly the region names, in increasing order without repeats |
| Definitions.Config.HasSecrets | shipcat_definitions/src/config.rs:556-558 | true iff the configuration is `Completed` |
| Definitions.Config.HasAllRegions | shipcat_definitions/src/config.rs:560-562 | true iff the configuration is `File` |
| Definitions.Config.ResolveContext | shipcat_definitions/src/config.rs:567-579 | a region name resolves to itself, otherwise an alias to its target, otherwise nothing |
| Definitions.Config.GetRegion | shipcat_definitions/src/config.rs:585-590 | succeeds iff the context resolves, with that region; otherwise "define your kube context" |
| Definitions.VerifiedConfigResolves | shipcat_definitions/src/config.rs:574-576 | after `verify` passes no alias points nowhere, so every resolved context names a region |
| Definitions.Candidates | shipcat_definitions/src/config.rs:547-549 | the candidate keys are exactly the visited clusters serving the region, without repeats |
| Definitions.CandidatesCount | shipcat_definitions/src/config.rs:545-550 | there are as many candidates as clusters serving the region |
| Definitions.SoleServer | shipcat_definitions/src/config.rs:545-553 | a cluster is found iff exactly one cluster serves the region, and it is that one |
| Definitions.Config.ResolveCluster | shipcat_definitions/src/config.rs:531-554 | a region error propagates; a context naming a cluster gives that cluster; otherwise success iff exactly one cluster serves the region, else "ambiguous context" |
| Definitions.ServingOnly | shipcat_definitions/src/config.rs:483 | keeps exactly the clusters whose regions include the region |
| Definitions.AliasesTo | shipcat_definitions/src/config.rs:484 | keeps exactly the aliases pointing to the region |
| Definitions.Config.RemoveRedundantRegions | shipcat_definitions/src/config.rs:477-488 | keeps only the region, its clusters and its aliases, and moves to `Base`; nothing else changes |
| Definitions.NarrowedListsOneRegion | shipcat_definitions/src/config.rs:471-488 | once narrowed, `list_regions` gives the one region kept |
| Definitions.NarrowingKeepsRules | shipcat_definitions/src/config.rs:337-392 | a configuration passing the rules with all regions still passes them narrowed to any one region in `Base` |
| Definitions.Config.Complete | shipcat_definitions/src/config.rs:491-498 | moves to `Completed` whatever happens, then stores the region as the secret filling left it and returns its outcome |
| Definitions.Config.New | shipcat_definitions/src/config.rs:503-524 | undefined context and unsupported kind fail with nothing changed; otherwise narrows, fills for `Completed`, and returns the region or the filling's error |
| Definitions.Config.constructor | shipcat_definitions/src/config.rs:290-321 | a deserialised configuration holds the given fields and is in the `File` state |
| Wrappers.FirstFailure | shipcat_definitions/src/config.rs:384-392 | a loop that bails: passes iff every item passes, otherwise the first failing item's error |
| Lexical.SortedKeysSorted | shipcat_definitions/src/config.rs:472 | `BTreeMap` keys come strictly increasing |
| Lexical.ForEachEntry | shipcat_definitions/src/config.rs:337-383 | a loop over a map that bails: passes iff every entry passes, otherwise the error of the first failing key in key order |
| Text.Split | src/config.rs:116 | `split` gives one piece more than there are separators, and no piece holds a separator |
| Text.JoinSplit | src/config.rs:116 | the pieces of `split` joined by the separator give the string back |
| Text.Utf8Len | src/config.rs:118 | the UTF-8 length lies between one and four bytes per character |
| Text.CountOnce | src/config.rs:116-117 | a character occurs once iff the string is one occurrence with none before or after |
| CliConfig.CheckRegion | src/config.rs:115-126 | passes iff the name splits into two pieces and namespace and floating tag are set; the error is that of the first broken rule: a bad name with its UTF-8 length, then an empty namespace, then an empty floating tag |
| CliConfig.Verify | src/config.rs:104-130 | passes iff the chart exists, the image prefix is non-empty and has no trailing `/`, and every region is fine; errors in that order, the first bad region in key order |
| CliConfig.RegionNameShape | src/config.rs:116-119 | a name splits into two pieces iff it is two dash-free parts joined by one dash |
| CliConfig.TwoWordNameAccepted | src/config.rs:116-119 | `dev-uk` is accepted |
| CliConfig.OtherNamesRefused | src/config.rs:116-119 | `dev` and `prod-uk-green` are refused |
| CliConfig.LoneDashAccepted | src/config.rs:116-119 | `-` splits into two empty pieces and is accepted |
| CliConfig.NoRegionsChecksDefaultsOnly | src/config.rs:104-130 | without regions only the chart and the image prefix decide |

## Left out

- Reading `shipcat.conf` is not modelled: the file system, YAML parsing, and the rescue that pulls the version out with a regex when parsing fails (lines 411-462). The model starts from the deserialised value.
- The chart file check is not modelled. Its outcome is the `chartExists` parameter, and `cfg!(feature = "filesystem")` is the `filesystem` parameter.
- `has_all_regions`, `remove_redundant_regions` and `new` exist only with the `filesystem` feature (lines 477, 503, 559). The model provides `Config.HasAllRegions`, `Config.RemoveRedundantRegions` and `Config.New` whatever `filesystem` is.
- Printing and logging are left out: `Config::print`, `warn!`, `debug!`, `error!` and `trace!`.
- Vault clients and the network are left out. `Vault::regional` is the `connect` parameter, and the vault is an in-memory map of secrets and folder listings.
- The semver parser is not modelled. It is the `isSemver` parameter; the running version is a parameter; a `Version` here has no build metadata.
- The regular expression `^[0-9a-f\-]{40}$` is written out as a predicate on the string.
- `Contact::verify` is not modelled and is the `contactOk` parameter. A contact is reduced to its name and github id.
- `Region::verify_secrets_exist` (lines 261-266) is not modelled. Its Kong part is `Kong.VerifySecretsExist`.
- `extra_apis`, the `Kong` structs of the gateway settings, are not part of this model.
- `Definitions.Config.New`: reading the file and handing back the configuration value are not modelled. `this` plays the configuration read, and the method returns the region.
- `Definitions.Config.New`: when `complete` fails, the source drops the configuration along with the error. In the model, the narrowed and partly filled state stays in `this`.
- Kong settings are values. `KongConfig::secrets` changes them through `&mut self`; the model returns the changed value, including the partly filled value after a failure.
- `raftcat/src/lib.rs` is not part of this model.
- `u32` fields (`replicaCount`, `kong_token_expiration`) are unbounded naturals. Nothing in the core computes with them.

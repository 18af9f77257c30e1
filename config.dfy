/** The deployment configuration of the definitions crate (`shipcat.conf`): its entities,
    its validation, the resolution of a kube context to a region and a cluster, and the
    one-way narrowing `File -> Base -> Completed` that scopes it to one region and fills
    in that region's secrets. */
module Definitions {
  import opened Wrappers
  import opened Lexical
  import opened Text
  import opened Versions
  import opened Errors
  import opened SecretStore
  import opened Kong

  /** `replicaCount` is a `u32` in the source; nothing here computes with it. */
  datatype ManifestDefaults = ManifestDefaults(imagePrefix: string, chart: string, replicaCount: nat)

  // ---------------------------------------------------------------------------
  // VersionScheme::verify

  /** A character of the class `[0-9a-f\-]`. */
  predicate IsShaChar(c: char)
  {
    ('0' <= c <= '9') || ('a' <= c <= 'f') || c == '-'
  }

  /** The whole string matches `^[0-9a-f\-]{40}$`. */
  predicate IsGitSha(s: string)
  {
    |s| == 40 && forall i :: 0 <= i < |s| ==> IsShaChar(s[i])
  }

  datatype VersionScheme = Semver | GitShaOrSemver
  {
    /** `VersionScheme::verify`; `isSemver(s)` stands for `semver::Version::parse(s).is_ok()`. */
    function Verify(ver: string, isSemver: string -> bool): (r: Outcome<Error>)
      ensures r.Pass? <==> isSemver(ver) || (this == GitShaOrSemver && IsGitSha(ver))
      ensures r.Fail? ==> r.error == (if this == Semver then NotSemver(ver) else IllegalTag(ver))
    {
      match this
      case GitShaOrSemver => if !IsGitSha(ver) && !isSemver(ver) then Fail(IllegalTag(ver)) else Pass
      case Semver => if !isSemver(ver) then Fail(NotSemver(ver)) else Pass
    }
  }

  /** `GitShaOrSemver` accepts everything `Semver` accepts, and beyond that exactly the git shas. */
  lemma GitShaOrSemverWidensSemver(ver: string, isSemver: string -> bool)
    ensures Semver.Verify(ver, isSemver).Pass? ==> GitShaOrSemver.Verify(ver, isSemver).Pass?
    ensures (GitShaOrSemver.Verify(ver, isSemver).Pass? && Semver.Verify(ver, isSemver).Fail?) <==>
            (IsGitSha(ver) && !isSemver(ver))
  {
  }

  /** The test cases of `version_validate_test`: the 40 character sha passes under
      `GitShaOrSemver` whatever the semver parser says, and the strings the parser rejects
      (a 19 character sha, `1.0`, `v1.0.0`) are refused. */
  lemma VersionSchemeExamples(isSemver: string -> bool)
    requires isSemver("2.3.4") && isSemver("2.3.4-alpine")
    requires !isSemver("e7c1e5dd5de74b2b5da") && !isSemver("1.0") && !isSemver("v1.0.0")
    requires !isSemver("e7c1e5dd5de74b2b5da5eef76eb5bf12bdc2ac19")
    ensures GitShaOrSemver.Verify("2.3.4", isSemver).Pass?
    ensures GitShaOrSemver.Verify("2.3.4-alpine", isSemver).Pass?
    ensures GitShaOrSemver.Verify("e7c1e5dd5de74b2b5da5eef76eb5bf12bdc2ac19", isSemver).Pass?
    ensures GitShaOrSemver.Verify("e7c1e5dd5de74b2b5da", isSemver) == Fail(IllegalTag("e7c1e5dd5de74b2b5da"))
    ensures GitShaOrSemver.Verify("1.0", isSemver).Fail?
    ensures GitShaOrSemver.Verify("v1.0.0", isSemver).Fail?
    ensures Semver.Verify("2.3.4", isSemver).Pass?
    ensures Semver.Verify("e7c1e5dd5de74b2b5da5eef76eb5bf12bdc2ac19", isSemver).Fail?
  {
    var sha := "e7c1e5dd5de74b2b5da5eef76eb5bf12bdc2ac19";
    assert forall i :: 0 <= i < |sha| ==> IsShaChar(sha[i]);
  }

  // ---------------------------------------------------------------------------
  // Entities

  datatype Cluster = Cluster(name: string, api: string, regions: seq<string>)

  datatype VaultConfig = VaultConfig(url: string, folder: string)

  datatype KafkaConfig = KafkaConfig(brokers: seq<string>)

  datatype Region = Region(
    name: string,
    namespace: string,
    environment: string,
    versioningScheme: VersionScheme,
    baseUrls: map<string, string>,
    env: map<string, string>,
    kong: KongConfig,
    ipWhitelist: seq<string>,
    kafka: KafkaConfig,
    vault: VaultConfig,
    locations: seq<string>)

  datatype Location = Location(name: string)

  /** The part of a team owner the configuration checks look at. */
  datatype Contact = Contact(name: string, github: Option<string>)

  datatype Team = Team(name: string, owners: seq<Contact>)

  /** How far a configuration has been narrowed: all regions, one region, one region with secrets. */
  datatype ConfigType = File | Base | Completed

  // ---------------------------------------------------------------------------
  // Region::secrets

  /** `Region::secrets`: a client for the region's own vault, then `KongConfig::secrets`
      under the region's name. `connect` stands for `Vault::regional`. */
  function RegionWithSecrets(reg: Region, connect: VaultConfig -> Option<Vault>): (Region, Outcome<Error>)
  {
    match connect(reg.vault)
    case None => (reg, Fail(VaultUnavailable(reg.vault.url)))
    case Some(v) =>
      var (kong, o) := WithSecrets(reg.kong, v, reg.name);
      (reg.(kong := kong), o)
  }

  method RegionSecrets(reg: Region, connect: VaultConfig -> Option<Vault>) returns (updated: Region, res: Outcome<Error>)
    ensures (updated, res) == RegionWithSecrets(reg, connect)
  {
    var client := connect(reg.vault);
    if client.None? {
      return reg, Fail(VaultUnavailable(reg.vault.url));
    }
    var kong, o := Secrets(reg.kong, client.value, reg.name);
    updated := reg.(kong := kong);
    res := o;
  }

  /** Filling a region's secrets touches only its Kong settings, and succeeds exactly when the
      vault client can be built and every read the Kong settings need succeeds. */
  lemma RegionSecretsSucceed(reg: Region, connect: VaultConfig -> Option<Vault>)
    ensures var (updated, res) := RegionWithSecrets(reg, connect);
      && updated == reg.(kong := updated.kong)
      && (res.Pass? <==> connect(reg.vault).Some? && AllFetchable(reg.kong, connect(reg.vault).value, reg.name))
  {
    if connect(reg.vault).Some? {
      SecretsSucceed(reg.kong, connect(reg.vault).value, reg.name);
    }
  }

  // ---------------------------------------------------------------------------
  // The rules of Config::verify, entry by entry

  /** A cluster entry: its name is its key, and, while every region is still present and the
      filesystem feature is on, every region it serves is defined. */
  predicate ClusterOk(key: string, c: Cluster, regionNames: set<string>, kind: ConfigType, filesystem: bool)
  {
    && c.name == key
    && (filesystem && kind == File ==> forall i :: 0 <= i < |c.regions| ==> c.regions[i] in regionNames)
  }

  function CheckCluster(key: string, c: Cluster, regionNames: set<string>, kind: ConfigType, filesystem: bool)
    : (r: Outcome<Error>)
    ensures r.Pass? <==> ClusterOk(key, c, regionNames, kind, filesystem)
    ensures key != c.name ==> r == Fail(ClusterNameMismatch(key))
    ensures key == c.name && r.Fail? ==>
      exists i :: 0 <= i < |c.regions| && c.regions[i] !in regionNames &&
        r == Fail(ClusterUndefinedRegion(key, c.regions[i])) &&
        forall j :: 0 <= j < i ==> c.regions[j] in regionNames
  {
    if key != c.name then Fail(ClusterNameMismatch(key))
    else if !filesystem then Pass
    else FirstFailure(c.regions, r => if r !in regionNames && kind == File then Fail(ClusterUndefinedRegion(key, r)) else Pass)
  }

  /** An alias entry: it points to a defined region and is not itself a region. */
  predicate AliasOk(key: string, target: string, regionNames: set<string>)
  {
    target in regionNames && key !in regionNames
  }

  function CheckAlias(key: string, target: string, regionNames: set<string>): (r: Outcome<Error>)
    ensures r.Pass? <==> AliasOk(key, target, regionNames)
    ensures target !in regionNames ==> r == Fail(AliasUndefinedRegion(key, target))
    ensures target in regionNames && r.Fail? ==> r == Fail(SelfAlias(key))
  {
    if target !in regionNames then Fail(AliasUndefinedRegion(key, target))
    else if key in regionNames then Fail(SelfAlias(key))
    else Pass
  }

  /** `KongConfig::verify`: accepts every Kong configuration. */
  function KongVerify(kong: KongConfig): (r: Outcome<Error>)
    ensures r.Pass?
  {
    Pass
  }

  /** A region entry: its name is its key, namespace, environment and vault url are set, and
      no base url ends with a slash. The vault folder is not a rule: it only warns. */
  predicate RegionOk(key: string, reg: Region)
  {
    && reg.name == key
    && reg.namespace != ""
    && reg.environment != ""
    && reg.vault.url != ""
    && forall u :: u in reg.baseUrls ==> !EndsWith(reg.baseUrls[u], '/')
  }

  function CheckRegion(key: string, reg: Region): (r: Outcome<Error>)
    ensures r.Pass? <==> RegionOk(key, reg)
    ensures key != reg.name ==> r == Fail(RegionNameMismatch(key))
    ensures key == reg.name && reg.namespace == "" ==> r == Fail(MissingNamespace(key))
    ensures key == reg.name && reg.namespace != "" && reg.environment == "" ==> r == Fail(MissingEnvironment(key))
    ensures key == reg.name && reg.namespace != "" && reg.environment != "" && reg.vault.url == "" ==>
      r == Fail(MissingVaultUrl(key))
    ensures key == reg.name && reg.namespace != "" && reg.environment != "" && reg.vault.url != "" && r.Fail? ==>
      r == Fail(BaseUrlSlash)
  {
    if key != reg.name then Fail(RegionNameMismatch(key))
    else if reg.namespace == "" then Fail(MissingNamespace(key))
    else if reg.environment == "" then Fail(MissingEnvironment(key))
    else if reg.vault.url == "" then Fail(MissingVaultUrl(key))
    else AndThen(ForEachEntry(reg.baseUrls, (u, v) => if EndsWith(v, '/') then Fail(BaseUrlSlash) else Pass),
                 KongVerify(reg.kong))
  }

  /** An empty vault folder never makes a region fail, nor does any other folder. */
  lemma CheckRegionIgnoresVaultFolder(key: string, reg: Region, folder: string)
    ensures CheckRegion(key, reg.(vault := reg.vault.(folder := folder))) == CheckRegion(key, reg)
  {
    var other := reg.(vault := reg.vault.(folder := folder));
    assert other.baseUrls == reg.baseUrls && other.vault.url == reg.vault.url;
  }

  /** A team owner: it passes `Contact::verify` (`contactOk`) and has a github id. */
  predicate OwnerOk(o: Contact, contactOk: Contact -> bool)
  {
    contactOk(o) && o.github.Some?
  }

  function CheckOwner(o: Contact, contactOk: Contact -> bool): (r: Outcome<Error>)
    ensures r.Pass? <==> OwnerOk(o, contactOk)
    ensures r.Fail? ==> r.error == (if contactOk(o) then OwnerWithoutGithub else InvalidContact(o.name))
  {
    if !contactOk(o) then Fail(InvalidContact(o.name))
    else if o.github.None? then Fail(OwnerWithoutGithub)
    else Pass
  }

  /** Every owner of the team is fine. */
  predicate TeamOk(t: Team, contactOk: Contact -> bool)
  {
    forall j :: 0 <= j < |t.owners| ==> OwnerOk(t.owners[j], contactOk)
  }

  predicate TeamsOk(teams: seq<Team>, contactOk: Contact -> bool)
  {
    forall i :: 0 <= i < |teams| ==> TeamOk(teams[i], contactOk)
  }

  /** One team's owners in order; a failure is the first offending owner's. */
  function CheckTeam(t: Team, contactOk: Contact -> bool): (r: Outcome<Error>)
    ensures r.Pass? <==> TeamOk(t, contactOk)
    ensures r.Fail? ==>
      exists j :: 0 <= j < |t.owners| && !OwnerOk(t.owners[j], contactOk) && r == CheckOwner(t.owners[j], contactOk) &&
        forall j' :: 0 <= j' < j ==> OwnerOk(t.owners[j'], contactOk)
  {
    FirstFailure(t.owners, (o: Contact) => CheckOwner(o, contactOk))
  }

  /** Teams in order, and each team's owners in order. */
  function CheckTeams(teams: seq<Team>, contactOk: Contact -> bool): (r: Outcome<Error>)
    ensures r.Pass? <==> TeamsOk(teams, contactOk)
  {
    FirstFailure(teams, TeamCheck(contactOk))
  }

  /** The check `verify` runs on each team. */
  function TeamCheck(contactOk: Contact -> bool): Team -> Outcome<Error>
  {
    (t: Team) => CheckTeam(t, contactOk)
  }

  /** `r` is the error of the first owner that breaks a rule, teams and owners taken in order. */
  ghost predicate FailsAtFirstBadOwner(teams: seq<Team>, contactOk: Contact -> bool, r: Outcome<Error>)
  {
    exists i, j :: FirstBadOwnerAt(teams, contactOk, r, i, j)
  }

  /** Owner `j` of team `i` is the first owner that breaks a rule, and `r` is its error. */
  ghost predicate FirstBadOwnerAt(teams: seq<Team>, contactOk: Contact -> bool, r: Outcome<Error>, i: int, j: int)
  {
    && 0 <= i < |teams| && 0 <= j < |teams[i].owners|
    && !OwnerOk(teams[i].owners[j], contactOk) && r == CheckOwner(teams[i].owners[j], contactOk)
    && (forall i' :: 0 <= i' < i ==> TeamOk(teams[i'], contactOk))
    && (forall j' :: 0 <= j' < j ==> OwnerOk(teams[i].owners[j'], contactOk))
  }

  /** The team stage reports the error of the first owner that breaks a rule. */
  lemma {:induction false} CheckTeamsFailsAtFirstBad(teams: seq<Team>, contactOk: Contact -> bool)
    ensures CheckTeams(teams, contactOk).Fail? ==> FailsAtFirstBadOwner(teams, contactOk, CheckTeams(teams, contactOk))
  {
    var r := CheckTeams(teams, contactOk);
    if r.Fail? && teams != [] {
      if CheckTeam(teams[0], contactOk).Fail? {
        assert r == CheckTeam(teams[0], contactOk);
        FirstBadOwnerInHead(teams, contactOk);
      } else {
        assert r == CheckTeams(teams[1..], contactOk);
        CheckTeamsFailsAtFirstBad(teams[1..], contactOk);
        var i, j :| FirstBadOwnerAt(teams[1..], contactOk, r, i, j);
        FirstBadOwnerShift(teams, contactOk, r, i, j);
      }
    }
  }

  /** A failure in the first team is at its first offending owner. */
  lemma FirstBadOwnerInHead(teams: seq<Team>, contactOk: Contact -> bool)
    requires teams != [] && CheckTeam(teams[0], contactOk).Fail?
    ensures FailsAtFirstBadOwner(teams, contactOk, CheckTeam(teams[0], contactOk))
  {
    var r := CheckTeam(teams[0], contactOk);
    var j :| 0 <= j < |teams[0].owners| && !OwnerOk(teams[0].owners[j], contactOk) &&
             r == CheckOwner(teams[0].owners[j], contactOk) &&
             forall j' :: 0 <= j' < j ==> OwnerOk(teams[0].owners[j'], contactOk);
    assert FirstBadOwnerAt(teams, contactOk, r, 0, j);
  }

  /** Behind a team whose owners are all fine, the first offending owner moves one team on. */
  lemma FirstBadOwnerShift(teams: seq<Team>, contactOk: Contact -> bool, r: Outcome<Error>, i: int, j: int)
    requires teams != [] && TeamOk(teams[0], contactOk)
    requires FirstBadOwnerAt(teams[1..], contactOk, r, i, j)
    ensures FirstBadOwnerAt(teams, contactOk, r, i + 1, j)
  {
    var k := i + 1;
    assert teams[k] == teams[1..][i];
    forall i' | 0 < i' < k
      ensures TeamOk(teams[i'], contactOk)
    {
      assert teams[i'] == teams[1..][i' - 1];
    }
    assert FirstBadOwnerAt(teams, contactOk, r, k, j);
  }

  /** `Config::verify_version`: the declared version may not be newer than the running tool's. */
  function VerifyVersion(ver: Version, current: Version): (r: Outcome<Error>)
    ensures r.Pass? <==> !Greater(ver, current)
    ensures r.Fail? ==> r.error == OutOfDate(current, ver)
  {
    if Greater(ver, current) then Fail(OutOfDate(current, ver)) else Pass
  }

  /** The check accepts exactly the versions up to the running one: the running version itself
      and every version of lower precedence. */
  lemma VerifyVersionAcceptsUpToCurrent(ver: Version, current: Version)
    ensures VerifyVersion(ver, current).Pass? <==> ver == current || Greater(current, ver)
  {
    CompareFlip(ver, current);
  }

  // ---------------------------------------------------------------------------
  // Config::verify, on the values of the fields

  /** Every rule `verify` checks before the version. */
  ghost predicate RulesHold(defaults: ManifestDefaults, clusters: map<string, Cluster>, aliases: map<string, string>,
                            regions: map<string, Region>, teams: seq<Team>, kind: ConfigType,
                            filesystem: bool, chartExists: bool, contactOk: Contact -> bool)
  {
    && (filesystem ==> chartExists)
    && !EndsWith(defaults.imagePrefix, '/')
    && EntriesOk(clusters, aliases, regions, kind, filesystem)
    && TeamsOk(teams, contactOk)
  }

  /** The rules on the entries of the three maps. */
  predicate EntriesOk(clusters: map<string, Cluster>, aliases: map<string, string>, regions: map<string, Region>,
                      kind: ConfigType, filesystem: bool)
  {
    && ClustersOk(clusters, regions.Keys, kind, filesystem)
    && AliasesOk(aliases, regions.Keys)
    && RegionsOk(regions)
  }

  predicate ClustersOk(clusters: map<string, Cluster>, regionNames: set<string>, kind: ConfigType, filesystem: bool)
  {
    forall k :: k in clusters ==> ClusterOk(k, clusters[k], regionNames, kind, filesystem)
  }

  predicate AliasesOk(aliases: map<string, string>, regionNames: set<string>)
  {
    forall k :: k in aliases ==> AliasOk(k, aliases[k], regionNames)
  }

  predicate RegionsOk(regions: map<string, Region>)
  {
    forall k :: k in regions ==> RegionOk(k, regions[k])
  }

  /** The cluster stage of `verify`: every cluster in key order. */
  function CheckClusters(clusters: map<string, Cluster>, regionNames: set<string>, kind: ConfigType, filesystem: bool)
    : (r: Outcome<Error>)
    ensures r.Pass? <==> ClustersOk(clusters, regionNames, kind, filesystem)
  {
    ForEachEntry(clusters, (k, c) => CheckCluster(k, c, regionNames, kind, filesystem))
  }

  /** The alias stage of `verify`: every context alias in key order. */
  function CheckAliases(aliases: map<string, string>, regionNames: set<string>): (r: Outcome<Error>)
    ensures r.Pass? <==> AliasesOk(aliases, regionNames)
  {
    ForEachEntry(aliases, (k, v) => CheckAlias(k, v, regionNames))
  }

  /** `r` is the error of the first cluster, in key order, that breaks a rule. */
  ghost predicate FailsAtFirstBadCluster(clusters: map<string, Cluster>, regionNames: set<string>, kind: ConfigType,
                                         filesystem: bool, r: Outcome<Error>)
  {
    exists k :: k in clusters && !ClusterOk(k, clusters[k], regionNames, kind, filesystem) &&
      r == CheckCluster(k, clusters[k], regionNames, kind, filesystem) &&
      forall j :: j in clusters && Less(j, k) ==> ClusterOk(j, clusters[j], regionNames, kind, filesystem)
  }

  /** The cluster stage reports the error of the first cluster in key order that breaks a rule. */
  lemma CheckClustersFailsAtFirstBad(clusters: map<string, Cluster>, regionNames: set<string>, kind: ConfigType,
                                     filesystem: bool)
    ensures CheckClusters(clusters, regionNames, kind, filesystem).Fail? ==>
      FailsAtFirstBadCluster(clusters, regionNames, kind, filesystem, CheckClusters(clusters, regionNames, kind, filesystem))
  {
  }

  /** `r` is the error of the first context alias, in key order, that breaks a rule. */
  ghost predicate FailsAtFirstBadAlias(aliases: map<string, string>, regionNames: set<string>, r: Outcome<Error>)
  {
    exists k :: k in aliases && !AliasOk(k, aliases[k], regionNames) && r == CheckAlias(k, aliases[k], regionNames) &&
      forall j :: j in aliases && Less(j, k) ==> AliasOk(j, aliases[j], regionNames)
  }

  /** The alias stage reports the error of the first alias in key order that breaks a rule. */
  lemma CheckAliasesFailsAtFirstBad(aliases: map<string, string>, regionNames: set<string>)
    ensures CheckAliases(aliases, regionNames).Fail? ==>
      FailsAtFirstBadAlias(aliases, regionNames, CheckAliases(aliases, regionNames))
  {
  }

  /** `r` is the error of the first region, in key order, that breaks a rule. */
  ghost predicate FailsAtFirstBadRegion(regions: map<string, Region>, r: Outcome<Error>)
  {
    exists k :: k in regions && !RegionOk(k, regions[k]) && r == CheckRegion(k, regions[k]) &&
      forall j :: j in regions && Less(j, k) ==> RegionOk(j, regions[j])
  }

  /** The region stage of `verify`: every region in key order. */
  function CheckRegions(regions: map<string, Region>): (r: Outcome<Error>)
    ensures r.Pass? <==> RegionsOk(regions)
  {
    ForEachEntry(regions, (k, reg) => CheckRegion(k, reg))
  }

  /** The region stage reports the error of the first region in key order that breaks a rule. */
  lemma CheckRegionsFailsAtFirstBad(regions: map<string, Region>)
    ensures CheckRegions(regions).Fail? ==> FailsAtFirstBadRegion(regions, CheckRegions(regions))
  {
  }

  /** The stages of `verify` before the version, in the source's order, each stopping at its
      first failure. */
  function CheckRules(defaults: ManifestDefaults, clusters: map<string, Cluster>, aliases: map<string, string>,
                      regions: map<string, Region>, teams: seq<Team>, kind: ConfigType,
                      filesystem: bool, chartExists: bool, contactOk: Contact -> bool)
    : (r: Outcome<Error>)
    ensures r.Pass? <==> RulesHold(defaults, clusters, aliases, regions, teams, kind, filesystem, chartExists, contactOk)
  {
    if filesystem && !chartExists then Fail(ChartMissing(defaults.chart))
    else if EndsWith(defaults.imagePrefix, '/') then Fail(ImagePrefixSlash)
    else
      var entries := CheckEntries(clusters, aliases, regions, kind, filesystem);
      if entries.Fail? then entries else CheckTeams(teams, contactOk)
  }

  /** Clusters, then context aliases, then regions. */
  function CheckEntries(clusters: map<string, Cluster>, aliases: map<string, string>, regions: map<string, Region>,
                        kind: ConfigType, filesystem: bool): (r: Outcome<Error>)
    ensures r.Pass? <==> EntriesOk(clusters, aliases, regions, kind, filesystem)
  {
    var clusterStage := CheckClusters(clusters, regions.Keys, kind, filesystem);
    if clusterStage.Fail? then clusterStage
    else
      var aliasStage := CheckAliases(aliases, regions.Keys);
      if aliasStage.Fail? then aliasStage
      else CheckRegions(regions)
  }

  // ---------------------------------------------------------------------------
  // Narrowing to one region, on the values of the fields

  /** The clusters that serve `region`. */
  function ServingOnly(clusters: map<string, Cluster>, region: string): (r: map<string, Cluster>)
    ensures forall k :: k in r <==> k in clusters && region in clusters[k].regions
    ensures forall k :: k in r ==> r[k] == clusters[k]
  {
    map k | k in clusters && region in clusters[k].regions :: clusters[k]
  }

  /** The aliases that point to `region`. */
  function AliasesTo(aliases: map<string, string>, region: string): (r: map<string, string>)
    ensures forall k :: k in r <==> k in aliases && aliases[k] == region
    ensures forall k :: k in r ==> r[k] == region
  {
    map k | k in aliases && aliases[k] == region :: aliases[k]
  }

  /** A configuration that passed `verify` with every region still passes once narrowed to one
      of them: cluster region lists are no longer checked in the `Base` state, aliases left all
      point to the region kept, and no alias was a region to begin with. */
  lemma NarrowingKeepsRules(defaults: ManifestDefaults, clusters: map<string, Cluster>, aliases: map<string, string>,
                            regions: map<string, Region>, teams: seq<Team>,
                            filesystem: bool, chartExists: bool, contactOk: Contact -> bool, region: string)
    requires region in regions
    requires RulesHold(defaults, clusters, aliases, regions, teams, File, filesystem, chartExists, contactOk)
    ensures RulesHold(defaults, ServingOnly(clusters, region), AliasesTo(aliases, region),
                      map[region := regions[region]], teams, Base, filesystem, chartExists, contactOk)
  {
    var narrowed := map[region := regions[region]];
    assert narrowed.Keys == {region};
    forall k | k in AliasesTo(aliases, region)
      ensures AliasOk(k, AliasesTo(aliases, region)[k], narrowed.Keys)
    {
      assert AliasOk(k, aliases[k], regions.Keys);
    }
  }

  // ---------------------------------------------------------------------------
  // Config

  class Config {
    var defaults: ManifestDefaults
    var clusters: map<string, Cluster>
    var contextAliases: map<string, string>
    var regions: map<string, Region>
    var locations: map<string, Location>
    var teams: seq<Team>
    var version: Version
    var kind: ConfigType

    /** A configuration as it is deserialised: every region present, in the `File` state. */
    constructor (defaults: ManifestDefaults, clusters: map<string, Cluster>, contextAliases: map<string, string>,
                 regions: map<string, Region>, locations: map<string, Location>, teams: seq<Team>, version: Version)
      ensures this.defaults == defaults && this.clusters == clusters && this.contextAliases == contextAliases
      ensures this.regions == regions && this.locations == locations && this.teams == teams
      ensures this.version == version && kind == File
    {
      this.defaults := defaults;
      this.clusters := clusters;
      this.contextAliases := contextAliases;
      this.regions := regions;
      this.locations := locations;
      this.teams := teams;
      this.version := version;
      kind := File;
    }

    /** Every rule of `verify` holds. */
    ghost predicate PassesVerify(filesystem: bool, chartExists: bool, contactOk: Contact -> bool, current: Version)
      reads this
    {
      && RulesHold(defaults, clusters, contextAliases, regions, teams, kind, filesystem, chartExists, contactOk)
      && !Greater(version, current)
    }

    /** `Config::verify`. `filesystem` says whether the crate is built with its filesystem
        feature, `chartExists` whether `charts/<chart>/Chart.yaml` is a file, `contactOk` is
        `Contact::verify` and `current` the version of the running tool. The version is checked
        last: it decides the outcome only once every other rule holds. */
    function Verify(filesystem: bool, chartExists: bool, contactOk: Contact -> bool, current: Version): (r: Outcome<Error>)
      reads this
      ensures r.Pass? <==> PassesVerify(filesystem, chartExists, contactOk, current)
      ensures RulesHold(defaults, clusters, contextAliases, regions, teams, kind, filesystem, chartExists, contactOk) ==>
        r == VerifyVersion(version, current)
    {
      var rules := CheckRules(defaults, clusters, contextAliases, regions, teams, kind, filesystem, chartExists, contactOk);
      if rules.Fail? then rules else VerifyVersion(version, current)
    }

    /** `Config::list_regions`: the region names in increasing order. */
    function ListRegions(): (names: seq<string>)
      reads this
      ensures forall k :: k in names <==> k in regions
      ensures StrictlySorted(names)
    {
      SortedKeysSorted(regions.Keys);
      SortedKeys(regions.Keys)
    }

    /** `Config::has_secrets`. */
    function HasSecrets(): (b: bool)
      reads this
      ensures b <==> kind == Completed
    {
      kind == Completed
    }

    /** `Config::has_all_regions`. */
    function HasAllRegions(): (b: bool)
      reads this
      ensures b <==> kind == File
    {
      kind == File
    }

    /** `Config::resolve_context`: a region name stands for itself; otherwise an alias stands
        for its target. */
    function ResolveContext(context: string): (r: Option<string>)
      reads this
      ensures r.Some? <==> context in regions || context in contextAliases
      ensures context in regions ==> r == Some(context)
      ensures context !in regions && context in contextAliases ==> r == Some(contextAliases[context])
    {
      if context in regions then Some(context)
      else if context in contextAliases then Some(contextAliases[context])
      else None
    }

    /** What `get_region` and `Config::new` demand of a context: if it names an alias, the
        alias points to a region (indexing `regions` panics otherwise). */
    predicate Resolvable(context: string)
      reads this
    {
      context !in regions && context in contextAliases ==> contextAliases[context] in regions
    }

    /** `Config::get_region`. */
    function GetRegion(context: string): (r: Result<Region, Error>)
      reads this
      requires Resolvable(context)
      ensures r.Success? <==> ResolveContext(context).Some?
      ensures r.Success? ==> ResolveContext(context).value in regions && r.value == regions[ResolveContext(context).value]
      ensures r.Failure? ==> r.error == UndefinedRegionContext(context)
    {
      match ResolveContext(context)
      case Some(key) => Success(regions[key])
      case None => Failure(UndefinedRegionContext(context))
    }

    /** `Config::resolve_cluster`: the context is a cluster name, or names a region that
        exactly one cluster serves. */
    function ResolveCluster(context: string): (r: Result<(Cluster, Region), Error>)
      reads this
      requires Resolvable(context)
      ensures GetRegion(context).Failure? ==> r == Failure(GetRegion(context).error)
      ensures GetRegion(context).Success? && context in clusters ==>
        r == Success((clusters[context], GetRegion(context).value))
      ensures GetRegion(context).Success? && context !in clusters ==>
        var name := GetRegion(context).value.name;
        && (r.Success? <==> |ServedBy(clusters, name)| == 1)
        && (r.Success? ==> r.value.1 == GetRegion(context).value &&
                           exists k :: ServedBy(clusters, name) == {k} && r.value.0 == clusters[k])
        && (r.Failure? ==> r.error == AmbiguousContext(context))
    {
      match GetRegion(context)
      case Failure(e) => Failure(e)
      case Success(reg) =>
        if context in clusters then Success((clusters[context], reg))
        else
          match SoleServer(clusters, reg.name)
          case None => Failure(AmbiguousContext(context))
          case Some(k) => Success((clusters[k], reg))
    }

    /** `Config::remove_redundant_regions`: keep the region, the clusters serving it and the
        aliases pointing to it, and move to the `Base` state. */
    method RemoveRedundantRegions(region: string)
      requires kind == File
      requires region in regions
      modifies this
      ensures regions == map[region := old(regions)[region]]
      ensures clusters == ServingOnly(old(clusters), region)
      ensures contextAliases == AliasesTo(old(contextAliases), region)
      ensures kind == Base && !HasAllRegions() && !HasSecrets()
      ensures defaults == old(defaults) && locations == old(locations) && teams == old(teams) && version == old(version)
    {
      clusters := ServingOnly(clusters, region);
      contextAliases := AliasesTo(contextAliases, region);
      regions := map[region := regions[region]];
      kind := Base;
    }

    /** `Config::complete`: move to the `Completed` state, then fill in the region's secrets.
        The state moves even when the filling fails, and a failed filling keeps what it wrote. */
    method Complete(region: string, connect: VaultConfig -> Option<Vault>) returns (res: Outcome<Error>)
      requires kind == Base
      requires |regions| == 1
      requires region in regions
      modifies this
      ensures kind == Completed && HasSecrets()
      ensures var (filled, o) := RegionWithSecrets(old(regions)[region], connect);
        regions == old(regions)[region := filled] && res == o
      ensures clusters == old(clusters) && contextAliases == old(contextAliases)
      ensures defaults == old(defaults) && locations == old(locations) && teams == old(teams) && version == old(version)
    {
      kind := Completed;
      var filled, o := RegionSecrets(regions[region], connect);
      regions := regions[region := filled];
      res := o;
    }

    /** `Config::new` once the file has been read: resolve the context, narrow to its region
        for `Base` and `Completed`, fill in the secrets for `Completed`, and hand back the region. */
    method New(target: ConfigType, context: string, connect: VaultConfig -> Option<Vault>)
      returns (res: Result<Region, Error>)
      requires kind == File
      requires target != File ==> Resolvable(context)
      modifies this
      ensures old(ResolveContext(context)).None? ==>
        res == Failure(UndefinedContext(context)) && unchanged(this)
      ensures old(ResolveContext(context)).Some? && target == File ==>
        res == Failure(UnsupportedKind) && unchanged(this)
      ensures old(ResolveContext(context)).Some? && target != File ==>
        var key := old(ResolveContext(context)).value;
        && clusters == ServingOnly(old(clusters), key)
        && contextAliases == AliasesTo(old(contextAliases), key)
        && defaults == old(defaults) && locations == old(locations) && teams == old(teams) && version == old(version)
        && kind == target
        && (target == Base ==> regions == map[key := old(regions)[key]] && res == Success(regions[key]))
        && (target == Completed ==>
              var (filled, o) := RegionWithSecrets(old(regions)[key], connect);
              && regions == map[key := filled]
              && (o.Pass? ==> res == Success(filled))
              && (o.Fail? ==> res == Failure(o.error)))
    {
      var resolved := ResolveContext(context);
      if resolved.None? {
        return Failure(UndefinedContext(context));
      }
      var key := resolved.value;
      if target != Completed && target != Base {
        return Failure(UnsupportedKind);
      }
      ghost var original := regions[key];
      RemoveRedundantRegions(key);
      if target == Completed {
        ghost var filled := RegionWithSecrets(original, connect);
        var o := Complete(key, connect);
        assert regions == map[key := filled.0] && o == filled.1;
        if o.Fail? {
          return Failure(o.error);
        }
      }
      res := Success(regions[key]);
    }
  }

  /** The keys of the clusters in `keys` whose region list names `region`, in that order. */
  function Candidates(clusters: map<string, Cluster>, keys: seq<string>, region: string): (r: seq<string>)
    requires forall i :: 0 <= i < |keys| ==> keys[i] in clusters
    ensures forall k :: k in r <==> k in keys && region in clusters[k].regions
    ensures Distinct(keys) ==> Distinct(r)
  {
    if keys == [] then []
    else
      var rest := Candidates(clusters, keys[1..], region);
      assert forall k :: k in keys[1..] ==> k in keys;
      if region in clusters[keys[0]].regions then [keys[0]] + rest else rest
  }

  /** The keys of the clusters whose region list names `region`. */
  ghost function ServedBy(clusters: map<string, Cluster>, region: string): set<string>
  {
    set k | k in clusters && region in clusters[k].regions
  }

  /** The number of candidates `resolve_cluster` collects among all clusters in key order is
      the number of clusters serving the region. */
  lemma CandidatesCount(clusters: map<string, Cluster>, region: string)
    ensures |Candidates(clusters, SortedKeys(clusters.Keys), region)| == |ServedBy(clusters, region)|
  {
    var keys := SortedKeys(clusters.Keys);
    SortedKeysSorted(clusters.Keys);
    var r := Candidates(clusters, keys, region);
    DistinctSize(r);
    assert (set x | x in r) == ServedBy(clusters, region);
  }

  /** The only cluster serving `region`, when there is exactly one. */
  function SoleServer(clusters: map<string, Cluster>, region: string): (r: Option<string>)
    ensures r.Some? <==> |ServedBy(clusters, region)| == 1
    ensures r.Some? ==> r.value in clusters && ServedBy(clusters, region) == {r.value}
  {
    var candidates := Candidates(clusters, SortedKeys(clusters.Keys), region);
    CandidatesCount(clusters, region);
    if |candidates| != 1 then None
    else
      assert candidates[0] in ServedBy(clusters, region);
      OnlyMember(ServedBy(clusters, region), candidates[0]);
      Some(candidates[0])
  }

  /** A one-element set is the singleton of any of its members. */
  lemma OnlyMember<T>(s: set<T>, x: T)
    requires |s| == 1 && x in s
    ensures s == {x}
  {
    var rest := s - {x};
    assert s == rest + {x};
    assert |rest| == 0;
  }

  /** Once narrowed, `list_regions` lists the one region kept. */
  lemma NarrowedListsOneRegion(c: Config, region: string)
    requires c.regions.Keys == {region}
    ensures c.ListRegions() == [region]
  {
    var keys := SortedKeys(c.regions.Keys);
    assert |keys| == 1 && region in keys;
  }

  /** Once `verify` has passed, every alias points to a region, so neither `get_region` nor
      `Config::new` can panic, and every resolved context names a region. */
  lemma VerifiedConfigResolves(c: Config, context: string, filesystem: bool, chartExists: bool,
                               contactOk: Contact -> bool, current: Version)
    requires c.Verify(filesystem, chartExists, contactOk, current).Pass?
    ensures c.Resolvable(context)
    ensures c.ResolveContext(context).Some? ==> c.ResolveContext(context).value in c.regions
  {
    if context !in c.regions && context in c.contextAliases {
      assert AliasOk(context, c.contextAliases[context], c.regions.Keys);
    }
  }

  /** A region entry that breaks a rule makes `verify` fail once every earlier stage
      passes; the error is the one of the first offending region in key order. */
  lemma RegionErrorIsFirstInKeyOrder(c: Config, filesystem: bool, chartExists: bool, contactOk: Contact -> bool,
                                     current: Version)
    requires filesystem ==> chartExists
    requires !EndsWith(c.defaults.imagePrefix, '/')
    requires ClustersOk(c.clusters, c.regions.Keys, c.kind, filesystem)
    requires AliasesOk(c.contextAliases, c.regions.Keys)
    requires !RegionsOk(c.regions)
    ensures FailsAtFirstBadRegion(c.regions, c.Verify(filesystem, chartExists, contactOk, current))
  {
    assert CheckClusters(c.clusters, c.regions.Keys, c.kind, filesystem).Pass?;
    assert CheckAliases(c.contextAliases, c.regions.Keys).Pass?;
    assert CheckRegions(c.regions).Fail?;
    CheckRegionsFailsAtFirstBad(c.regions);
  }

  /** A missing chart, under the filesystem feature, is the first thing `verify` reports. */
  lemma ChartErrorComesFirst(c: Config, filesystem: bool, chartExists: bool, contactOk: Contact -> bool,
                             current: Version)
    requires filesystem && !chartExists
    ensures c.Verify(filesystem, chartExists, contactOk, current) == Fail(ChartMissing(c.defaults.chart))
  {
  }

  /** With the chart found, an image prefix ending in a slash is what `verify` reports. */
  lemma PrefixErrorComesSecond(c: Config, filesystem: bool, chartExists: bool, contactOk: Contact -> bool,
                               current: Version)
    requires filesystem ==> chartExists
    requires EndsWith(c.defaults.imagePrefix, '/')
    ensures c.Verify(filesystem, chartExists, contactOk, current) == Fail(ImagePrefixSlash)
  {
  }

  /** With the chart and the prefix fine, a broken cluster entry makes `verify` report the first
      offending cluster in key order. */
  lemma ClusterErrorIsFirstInKeyOrder(c: Config, filesystem: bool, chartExists: bool, contactOk: Contact -> bool,
                                      current: Version)
    requires filesystem ==> chartExists
    requires !EndsWith(c.defaults.imagePrefix, '/')
    requires !ClustersOk(c.clusters, c.regions.Keys, c.kind, filesystem)
    ensures FailsAtFirstBadCluster(c.clusters, c.regions.Keys, c.kind, filesystem,
                                   c.Verify(filesystem, chartExists, contactOk, current))
  {
    assert CheckClusters(c.clusters, c.regions.Keys, c.kind, filesystem).Fail?;
    CheckClustersFailsAtFirstBad(c.clusters, c.regions.Keys, c.kind, filesystem);
  }

  /** With the clusters fine as well, a broken alias makes `verify` report the first offending
      alias in key order. */
  lemma AliasErrorIsFirstInKeyOrder(c: Config, filesystem: bool, chartExists: bool, contactOk: Contact -> bool,
                                    current: Version)
    requires filesystem ==> chartExists
    requires !EndsWith(c.defaults.imagePrefix, '/')
    requires ClustersOk(c.clusters, c.regions.Keys, c.kind, filesystem)
    requires !AliasesOk(c.contextAliases, c.regions.Keys)
    ensures FailsAtFirstBadAlias(c.contextAliases, c.regions.Keys, c.Verify(filesystem, chartExists, contactOk, current))
  {
    assert CheckClusters(c.clusters, c.regions.Keys, c.kind, filesystem).Pass?;
    assert CheckAliases(c.contextAliases, c.regions.Keys).Fail?;
    CheckAliasesFailsAtFirstBad(c.contextAliases, c.regions.Keys);
  }

  /** With every map entry fine, a broken team owner makes `verify` report the first offending
      owner, teams and their owners taken in order. */
  lemma OwnerErrorIsFirst(c: Config, filesystem: bool, chartExists: bool, contactOk: Contact -> bool,
                          current: Version)
    requires filesystem ==> chartExists
    requires !EndsWith(c.defaults.imagePrefix, '/')
    requires EntriesOk(c.clusters, c.contextAliases, c.regions, c.kind, filesystem)
    requires !TeamsOk(c.teams, contactOk)
    ensures FailsAtFirstBadOwner(c.teams, contactOk, c.Verify(filesystem, chartExists, contactOk, current))
  {
    assert CheckEntries(c.clusters, c.contextAliases, c.regions, c.kind, filesystem).Pass?;
    assert CheckTeams(c.teams, contactOk).Fail?;
    CheckTeamsFailsAtFirstBad(c.teams, contactOk);
  }

  /** `verify` rejects a declared version newer than the running tool whatever else holds,
      and when every other rule holds it fails with exactly the out-of-date error. */
  lemma NewerVersionFails(c: Config, filesystem: bool, chartExists: bool, contactOk: Contact -> bool, current: Version)
    requires Greater(c.version, current)
    ensures c.Verify(filesystem, chartExists, contactOk, current).Fail?
    ensures RulesHold(c.defaults, c.clusters, c.contextAliases, c.regions, c.teams, c.kind,
                      filesystem, chartExists, contactOk) ==>
      c.Verify(filesystem, chartExists, contactOk, current) == Fail(OutOfDate(current, c.version))
  {
  }
}

/** The older configuration of the command line crate (`shipcat.conf` before the
    definitions crate): defaults, regions and teams, and its one check, `verify`. */
module CliConfig {
  import opened Wrappers
  import opened Lexical
  import opened Text

  datatype ManifestDefaults = ManifestDefaults(imagePrefix: string, chart: string, replicaCount: nat)

  /** A region's namespace and the floating tag of its images. */
  datatype RegionDefaults = RegionDefaults(namespace: string, version: string)

  datatype KongTcpLogConfig = KongTcpLogConfig(enabled: bool, host: string, port: string)

  datatype KongAnonymousConsumers = KongAnonymousConsumers(anonymous: map<string, string>)

  datatype KongConfig = KongConfig(
    baseUrl: string,
    configUrl: string,
    kongTokenExpiration: nat,
    oauthProvisionKey: string,
    tcpLog: KongTcpLogConfig,
    anonymousConsumers: Option<KongAnonymousConsumers>,
    consumers: map<string, map<string, string>>,
    internalIpsWhitelist: seq<string>)

  datatype Region = Region(defaults: RegionDefaults, env: map<string, string>, kong: Option<KongConfig>)

  datatype Team = Team(name: string)

  datatype Config = Config(defaults: ManifestDefaults, regions: map<string, Region>, teams: seq<Team>)

  /** The failures of `verify`, after their messages. */
  datatype CliError =
    | ChartMissing(chart: string)            // "Default chart {} does not exist"
    | BadImagePrefix                         // "image prefix must be non-empty and not end with a slash"
    | InvalidRegion(region: string, len: nat) // "invalid region {} of len {}", the length in UTF-8 bytes
    | EmptyNamespace                         // "Default namespace cannot be empty"
    | EmptyFloatingTag                       // "Default floating tag must be set"

  /** A region name is two words joined by a dash (`dev-uk`). */
  predicate RegionNameOk(name: string)
  {
    |Split(name, '-')| == 2
  }

  predicate RegionOk(name: string, reg: Region)
  {
    RegionNameOk(name) && reg.defaults.namespace != "" && reg.defaults.version != ""
  }

  predicate PrefixOk(prefix: string)
  {
    prefix != "" && !EndsWith(prefix, '/')
  }

  function CheckRegion(name: string, reg: Region): (r: Outcome<CliError>)
    ensures r.Pass? <==> RegionOk(name, reg)
    ensures !RegionNameOk(name) ==> r == Fail(InvalidRegion(name, Utf8Len(name)))
    ensures RegionNameOk(name) && reg.defaults.namespace == "" ==> r == Fail(EmptyNamespace)
    ensures RegionNameOk(name) && reg.defaults.namespace != "" && reg.defaults.version == "" ==> r == Fail(EmptyFloatingTag)
  {
    if |Split(name, '-')| != 2 then Fail(InvalidRegion(name, Utf8Len(name)))
    else if reg.defaults.namespace == "" then Fail(EmptyNamespace)
    else if reg.defaults.version == "" then Fail(EmptyFloatingTag)
    else Pass
  }

  /** `Config::verify`; `chartExists` says whether `charts/<chart>/Chart.yaml` is a file.
      The chart is checked first, then the image prefix, then every region in key order. */
  function Verify(config: Config, chartExists: bool): (r: Outcome<CliError>)
    ensures r.Pass? <==>
      && chartExists
      && PrefixOk(config.defaults.imagePrefix)
      && forall k :: k in config.regions ==> RegionOk(k, config.regions[k])
    ensures !chartExists ==> r == Fail(ChartMissing(config.defaults.chart))
    ensures chartExists && !PrefixOk(config.defaults.imagePrefix) ==> r == Fail(BadImagePrefix)
    ensures chartExists && PrefixOk(config.defaults.imagePrefix) && r.Fail? ==>
      exists k :: k in config.regions && !RegionOk(k, config.regions[k]) && r == CheckRegion(k, config.regions[k]) &&
        forall j :: j in config.regions && Less(j, k) ==> RegionOk(j, config.regions[j])
  {
    if !chartExists then Fail(ChartMissing(config.defaults.chart))
    else if config.defaults.imagePrefix == "" || EndsWith(config.defaults.imagePrefix, '/') then Fail(BadImagePrefix)
    else ForEachEntry(config.regions, CheckRegion)
  }

  /** The name rule in the source's terms: splitting on `-` gives two pieces exactly when the
      name holds one dash, with no dash before or after it. */
  lemma RegionNameShape(name: string)
    ensures RegionNameOk(name) <==>
      exists i :: 0 <= i < |name| && name[i] == '-' && '-' !in name[..i] && '-' !in name[i + 1..]
  {
    CountOnce(name, '-');
  }

  /** `dev-uk` is a proper region name. */
  lemma TwoWordNameAccepted()
    ensures RegionNameOk("dev-uk")
  {
    var name := "dev-uk";
    RegionNameShape(name);
    assert name[3] == '-' && name[..3] == "dev" && name[4..] == "uk";
  }

  /** `dev` has no dash and `prod-uk-green` two: both are refused. */
  lemma OtherNamesRefused()
    ensures !RegionNameOk("dev")
    ensures !RegionNameOk("prod-uk-green")
  {
    CountZero("dev", '-');
    var name := "prod-uk-green";
    RegionNameShape(name);
  }

  /** A lone dash splits into two empty pieces and is accepted. */
  lemma LoneDashAccepted()
    ensures RegionNameOk("-")
  {
    RegionNameShape("-");
    assert "-"[..0] == [] && "-"[1..] == [];
  }

  /** With no regions only the chart and the image prefix are checked. */
  lemma NoRegionsChecksDefaultsOnly(defaults: ManifestDefaults, teams: seq<Team>, chartExists: bool)
    ensures Verify(Config(defaults, map[], teams), chartExists).Pass? <==>
      chartExists && PrefixOk(defaults.imagePrefix)
  {
  }
}

/** The failures the configuration core reports, one constructor per `bail!` site
    (the comment gives the gist of the message). */
module Errors {
  import opened Versions

  datatype Error =
    // secret store
    | VaultUnavailable(url: string)                   // the regional vault client could not be built
    | ReadFailed(path: string)                        // `read` of a path that holds no secret
    | ListFailed(folder: string)                      // `list` of a folder that cannot be listed
    | KongSecretMissing(name: string, region: string) // "Kong secret {} not found in {} vault"
    // version schemes
    | IllegalTag(tag: string)                         // neither a 40 character git sha nor semver
    | NotSemver(tag: string)                          // "not a semver version in a region using semver"
    // configuration validation
    | ChartMissing(chart: string)                     // "Default chart {} does not exist"
    | ImagePrefixSlash                                // "image prefix must not end with a slash"
    | ClusterNameMismatch(cluster: string)            // ".name equal to its key in clusters"
    | ClusterUndefinedRegion(cluster: string, region: string)
    | AliasUndefinedRegion(alias: string, region: string)
    | SelfAlias(alias: string)                        // "cannot self-alias region {}"
    | RegionNameMismatch(region: string)              // ".name equal to its key in regions"
    | MissingNamespace(region: string)
    | MissingEnvironment(region: string)
    | MissingVaultUrl(region: string)
    | BaseUrlSlash                                    // "A base_url must not end with a slash"
    | InvalidContact(name: string)                    // raised by `Contact::verify`
    | OwnerWithoutGithub                              // "Every owner must have a github id attached"
    | OutOfDate(current: Version, declared: Version)  // "Your shipcat is out of date"
    // context and cluster resolution
    | UndefinedRegionContext(context: string)         // get_region: "define your kube context"
    | UndefinedContext(context: string)               // Config::new: "not defined in shipcat.conf"
    | UnsupportedKind                                 // "Config::new only supports Completed or Base type"
    | AmbiguousContext(context: string)               // "must be served by exactly one cluster"
}

/** Kong gateway settings of a region and the filling of their vault placeholders
    (`KongConfig::secrets`, `KongConfig::verify_secrets_exist`). */
module Kong {
  import opened Wrappers
  import opened Lexical
  import opened Errors
  import opened SecretStore

  /** The value of a credential field that is still to be fetched from the vault. */
  const Sentinel: string := "IN_VAULT"

  datatype KongTcpLogConfig = KongTcpLogConfig(enabled: bool, host: string, port: string)

  datatype KongAnonymousConsumers = KongAnonymousConsumers(anonymous: map<string, string>)

  datatype KongOauthConsumer = KongOauthConsumer(
    oauthClientId: string,
    oauthClientSecret: string,
    username: string)

  /** `kongTokenExpiration` is a `u32` in the source; nothing here computes with it. */
  datatype KongConfig = KongConfig(
    baseUrl: string,
    configUrl: string,
    kongTokenExpiration: nat,
    oauthProvisionKey: string,
    tcpLog: KongTcpLogConfig,
    anonymousConsumers: Option<KongAnonymousConsumers>,
    consumers: map<string, KongOauthConsumer>,
    internalIpsWhitelist: seq<string>)

  // ---------------------------------------------------------------------------
  // Secret names and paths

  function ConsumersFolder(region: string): string
  {
    region + "/kong/consumers"
  }

  function ClientIdName(svc: string): string
  {
    svc + "_oauth_client_id"
  }

  function ClientSecretName(svc: string): string
  {
    svc + "_oauth_client_secret"
  }

  function ClientIdPath(region: string, svc: string): string
  {
    region + "/kong/consumers/" + svc + "_oauth_client_id"
  }

  function ClientSecretPath(region: string, svc: string): string
  {
    region + "/kong/consumers/" + svc + "_oauth_client_secret"
  }

  function ProvisionKeyPath(region: string): string
  {
    region + "/kong/oauth_provision_key"
  }

  /** The paths `secrets` reads are the entries `verify_secrets_exist` looks for in the
      consumers folder. */
  lemma ConsumerPathsAreEntries(region: string, svc: string)
    ensures ClientIdPath(region, svc) == Entry(ConsumersFolder(region), ClientIdName(svc))
    ensures ClientSecretPath(region, svc) == Entry(ConsumersFolder(region), ClientSecretName(svc))
  {
    assert region + "/kong/consumers/" == region + "/kong/consumers" + "/";
  }

  // ---------------------------------------------------------------------------
  // KongConfig::secrets, as a specification

  /** The read a field needs, if it holds the placeholder, can succeed. */
  predicate Fetchable(vault: Vault, value: string, path: string)
  {
    value == Sentinel ==> path in vault.secrets
  }

  /** The value of a field once its placeholder, if it holds one, has been read from `path`. */
  function Resolved(vault: Vault, value: string, path: string): string
  {
    if value == Sentinel && path in vault.secrets then vault.secrets[path] else value
  }

  /** `after` is `before`, or the placeholder `before` replaced by the secret at `path`. */
  predicate FieldUpdated(vault: Vault, before: string, after: string, path: string)
  {
    after == before || (before == Sentinel && path in vault.secrets && after == vault.secrets[path])
  }

  predicate ConsumerFetchable(vault: Vault, region: string, svc: string, c: KongOauthConsumer)
  {
    && Fetchable(vault, c.oauthClientId, ClientIdPath(region, svc))
    && Fetchable(vault, c.oauthClientSecret, ClientSecretPath(region, svc))
  }

  /** The consumer with both of its placeholders read. */
  function FullyResolved(vault: Vault, region: string, svc: string, c: KongOauthConsumer): KongOauthConsumer
  {
    c.(oauthClientId := Resolved(vault, c.oauthClientId, ClientIdPath(region, svc)),
       oauthClientSecret := Resolved(vault, c.oauthClientSecret, ClientSecretPath(region, svc)))
  }

  /** Some of the consumer's placeholders read, nothing else touched. */
  predicate PartlyResolved(vault: Vault, region: string, svc: string, before: KongOauthConsumer, after: KongOauthConsumer)
  {
    && after.username == before.username
    && FieldUpdated(vault, before.oauthClientId, after.oauthClientId, ClientIdPath(region, svc))
    && FieldUpdated(vault, before.oauthClientSecret, after.oauthClientSecret, ClientSecretPath(region, svc))
  }

  /** One turn of the loop over the consumers: the client id first, then the client
      secret; a failed read stops the turn, keeping what was written before it. */
  function FillConsumer(vault: Vault, region: string, svc: string, c: KongOauthConsumer): (r: (KongOauthConsumer, Outcome<Error>))
    ensures r.1.Pass? <==> ConsumerFetchable(vault, region, svc, c)
    ensures r.1.Pass? ==> r.0 == FullyResolved(vault, region, svc, c)
    ensures r.1.Fail? ==> r.0.oauthClientSecret == c.oauthClientSecret
    ensures PartlyResolved(vault, region, svc, c, r.0)
    ensures !Fetchable(vault, c.oauthClientId, ClientIdPath(region, svc)) ==>
      r == (c, Fail(ReadFailed(ClientIdPath(region, svc))))
    ensures Fetchable(vault, c.oauthClientId, ClientIdPath(region, svc)) &&
            !Fetchable(vault, c.oauthClientSecret, ClientSecretPath(region, svc)) ==>
      && r.0 == c.(oauthClientId := Resolved(vault, c.oauthClientId, ClientIdPath(region, svc)))
      && r.1 == Fail(ReadFailed(ClientSecretPath(region, svc)))
  {
    var idPath := ClientIdPath(region, svc);
    var secretPath := ClientSecretPath(region, svc);
    if !Fetchable(vault, c.oauthClientId, idPath) then (c, Fail(ReadFailed(idPath)))
    else
      var withId := c.(oauthClientId := Resolved(vault, c.oauthClientId, idPath));
      if !Fetchable(vault, c.oauthClientSecret, secretPath) then (withId, Fail(ReadFailed(secretPath)))
      else (withId.(oauthClientSecret := Resolved(vault, c.oauthClientSecret, secretPath)), Pass)
  }

  /** The loop over the consumers visited in the order `keys`, stopping at the first failure. */
  function FillConsumers(vault: Vault, region: string, consumers: map<string, KongOauthConsumer>, keys: seq<string>)
    : (map<string, KongOauthConsumer>, Outcome<Error>)
    requires forall i :: 0 <= i < |keys| ==> keys[i] in consumers
    decreases |keys|
  {
    if keys == [] then (consumers, Pass)
    else
      var (c, o) := FillConsumer(vault, region, keys[0], consumers[keys[0]]);
      var m := consumers[keys[0] := c];
      if o.Fail? then (m, o) else FillConsumers(vault, region, m, keys[1..])
  }

  /** `KongConfig::secrets`: consumers in key order, then the provisioning key. The
      consumer entries are written in place, so a failed read leaves the earlier ones filled. */
  function WithSecrets(kong: KongConfig, vault: Vault, region: string): (KongConfig, Outcome<Error>)
  {
    WithSecretsIn(kong, vault, region, SortedKeys(kong.consumers.Keys))
  }

  /** `secrets` with the consumers visited in the order `keys`. */
  function WithSecretsIn(kong: KongConfig, vault: Vault, region: string, keys: seq<string>): (KongConfig, Outcome<Error>)
    requires forall i :: 0 <= i < |keys| ==> keys[i] in kong.consumers
  {
    var (consumers, o) := FillConsumers(vault, region, kong.consumers, keys);
    var partial := kong.(consumers := consumers);
    var keyPath := ProvisionKeyPath(region);
    if o.Fail? then (partial, o)
    else if !Fetchable(vault, kong.oauthProvisionKey, keyPath) then (partial, Fail(ReadFailed(keyPath)))
    else (partial.(oauthProvisionKey := Resolved(vault, kong.oauthProvisionKey, keyPath)), Pass)
  }

  /** `keys` lists the consumers of `m`, each once. */
  ghost predicate Enumerates(keys: seq<string>, m: map<string, KongOauthConsumer>)
  {
    Distinct(keys) && forall k :: k in keys <==> k in m
  }

  lemma SortedKeysEnumerate(m: map<string, KongOauthConsumer>)
    ensures Enumerates(SortedKeys(m.Keys), m)
  {
    SortedKeysSorted(m.Keys);
  }

  /** Every read `secrets` needs can succeed. */
  predicate AllFetchable(kong: KongConfig, vault: Vault, region: string)
  {
    && (forall svc :: svc in kong.consumers ==> ConsumerFetchable(vault, region, svc, kong.consumers[svc]))
    && Fetchable(vault, kong.oauthProvisionKey, ProvisionKeyPath(region))
  }

  // ---------------------------------------------------------------------------
  // What the loop does, whatever the order of the keys

  lemma {:induction false} FillConsumersFrame(vault: Vault, region: string, m: map<string, KongOauthConsumer>, keys: seq<string>)
    requires forall i :: 0 <= i < |keys| ==> keys[i] in m
    requires Distinct(keys)
    ensures var r := FillConsumers(vault, region, m, keys).0;
      && r.Keys == m.Keys
      && (forall k :: k in m && k !in keys ==> r[k] == m[k])
      && (forall k :: k in m ==> PartlyResolved(vault, region, k, m[k], r[k]))
    decreases |keys|
  {
    if keys != [] {
      var (c, o) := FillConsumer(vault, region, keys[0], m[keys[0]]);
      var m' := m[keys[0] := c];
      if o.Pass? {
        assert forall i, j :: 0 <= i < j < |keys[1..]| ==> keys[1..][i] == keys[i + 1] && keys[1..][j] == keys[j + 1];
        FillConsumersFrame(vault, region, m', keys[1..]);
        assert keys[0] !in keys[1..];
      }
    }
  }

  lemma {:induction false} FillConsumersPass(vault: Vault, region: string, m: map<string, KongOauthConsumer>, keys: seq<string>)
    requires forall i :: 0 <= i < |keys| ==> keys[i] in m
    requires Distinct(keys)
    ensures var (r, o) := FillConsumers(vault, region, m, keys);
      && r.Keys == m.Keys
      && (o.Pass? <==> forall i :: 0 <= i < |keys| ==> ConsumerFetchable(vault, region, keys[i], m[keys[i]]))
      && (o.Pass? ==> forall i :: 0 <= i < |keys| ==> r[keys[i]] == FullyResolved(vault, region, keys[i], m[keys[i]]))
    decreases |keys|
  {
    FillConsumersFrame(vault, region, m, keys);
    if keys != [] {
      var (c, o) := FillConsumer(vault, region, keys[0], m[keys[0]]);
      var m' := m[keys[0] := c];
      if o.Pass? {
        var rest := keys[1..];
        assert forall i :: 0 <= i < |rest| ==> rest[i] == keys[i + 1] && rest[i] != keys[0];
        FillConsumersPass(vault, region, m', rest);
        FillConsumersFrame(vault, region, m', rest);
        assert keys[0] !in rest;
        var (r, o') := FillConsumers(vault, region, m', rest);
        assert FillConsumers(vault, region, m, keys) == (r, o');
        assert forall i :: 0 < i < |keys| ==> keys[i] == rest[i - 1] && m'[keys[i]] == m[keys[i]];
      }
    }
  }

  lemma {:induction false} FillConsumersFail(vault: Vault, region: string, m: map<string, KongOauthConsumer>, keys: seq<string>)
    requires forall i :: 0 <= i < |keys| ==> keys[i] in m
    requires Distinct(keys)
    ensures var (r, o) := FillConsumers(vault, region, m, keys);
      o.Fail? ==> exists i :: 0 <= i < |keys| && FailedAt(vault, region, m, keys, r, o, i)
    decreases |keys|
  {
    if keys != [] {
      var (c, o) := FillConsumer(vault, region, keys[0], m[keys[0]]);
      var m' := m[keys[0] := c];
      var rest := keys[1..];
      if o.Fail? {
        assert FailedAt(vault, region, m, keys, m', o, 0);
      } else {
        var (r, o') := FillConsumers(vault, region, m', rest);
        assert FillConsumers(vault, region, m, keys) == (r, o');
        if o'.Fail? {
          assert forall i, j :: 0 <= i < j < |rest| ==> rest[i] == keys[i + 1] && rest[j] == keys[j + 1];
          FillConsumersFail(vault, region, m', rest);
          var i :| 0 <= i < |rest| && FailedAt(vault, region, m', rest, r, o', i);
          FillConsumersFrame(vault, region, m', rest);
          FailedAtShift(vault, region, m, keys, c, r, o', i);
        }
      }
    }
  }

  /** A failure `i` turns after the first, successful, turn is a failure at `i + 1`. */
  lemma FailedAtShift(vault: Vault, region: string, m: map<string, KongOauthConsumer>, keys: seq<string>,
                      c: KongOauthConsumer, r: map<string, KongOauthConsumer>, o: Outcome<Error>, i: nat)
    requires forall i :: 0 <= i < |keys| ==> keys[i] in m
    requires Distinct(keys)
    requires i + 1 < |keys|
    requires FillConsumer(vault, region, keys[0], m[keys[0]]) == (c, Pass)
    requires FailedAt(vault, region, m[keys[0] := c], keys[1..], r, o, i)
    requires keys[0] in r && r[keys[0]] == c
    ensures FailedAt(vault, region, m, keys, r, o, i + 1)
  {
    var rest := keys[1..];
    assert keys[0] !in rest;
    assert forall j :: 0 < j < |keys| ==> keys[j] == rest[j - 1] && m[keys[0] := c][keys[j]] == m[keys[j]];
  }

  /** The loop stopped at `keys[i]`: the consumers before it are filled, it is as the
      failed turn left it, and the ones after it were not visited. */
  ghost predicate FailedAt(vault: Vault, region: string, m: map<string, KongOauthConsumer>, keys: seq<string>,
                           r: map<string, KongOauthConsumer>, o: Outcome<Error>, i: nat)
    requires forall i :: 0 <= i < |keys| ==> keys[i] in m
    requires i < |keys|
  {
    && (forall j :: 0 <= j < |keys| ==> keys[j] in r)
    && (forall j :: 0 <= j < i ==>
          ConsumerFetchable(vault, region, keys[j], m[keys[j]]) &&
          r[keys[j]] == FullyResolved(vault, region, keys[j], m[keys[j]]))
    && (r[keys[i]], o) == FillConsumer(vault, region, keys[i], m[keys[i]])
    && (forall j :: i < j < |keys| ==> r[keys[j]] == m[keys[j]])
  }

  // ---------------------------------------------------------------------------
  // What `secrets` promises, for any order of the consumers

  lemma SecretsKeepShapeIn(kong: KongConfig, vault: Vault, region: string, keys: seq<string>)
    requires Enumerates(keys, kong.consumers)
    ensures var (updated, _) := WithSecretsIn(kong, vault, region, keys);
      && updated == kong.(consumers := updated.consumers, oauthProvisionKey := updated.oauthProvisionKey)
      && updated.consumers.Keys == kong.consumers.Keys
      && (forall svc :: svc in kong.consumers ==>
            PartlyResolved(vault, region, svc, kong.consumers[svc], updated.consumers[svc]))
      && FieldUpdated(vault, kong.oauthProvisionKey, updated.oauthProvisionKey, ProvisionKeyPath(region))
  {
    FillConsumersFrame(vault, region, kong.consumers, keys);
  }

  lemma SecretsSucceedIn(kong: KongConfig, vault: Vault, region: string, keys: seq<string>)
    requires Enumerates(keys, kong.consumers)
    ensures var (updated, res) := WithSecretsIn(kong, vault, region, keys);
      && updated.consumers.Keys == kong.consumers.Keys
      && (res.Pass? <==> AllFetchable(kong, vault, region))
      && (res.Pass? ==>
            && (forall svc :: svc in kong.consumers ==>
                  updated.consumers[svc] == FullyResolved(vault, region, svc, kong.consumers[svc]))
            && updated.oauthProvisionKey == Resolved(vault, kong.oauthProvisionKey, ProvisionKeyPath(region)))
  {
    FillConsumersPass(vault, region, kong.consumers, keys);
    var (r, o) := FillConsumers(vault, region, kong.consumers, keys);
    if o.Pass? {
      forall svc | svc in kong.consumers
        ensures ConsumerFetchable(vault, region, svc, kong.consumers[svc])
        ensures r[svc] == FullyResolved(vault, region, svc, kong.consumers[svc])
      {
        assert svc in keys;
        var i :| 0 <= i < |keys| && keys[i] == svc;
      }
    }
    if AllFetchable(kong, vault, region) {
      assert forall i :: 0 <= i < |keys| ==> keys[i] in keys && keys[i] in kong.consumers;
    }
  }

  /** What a failed `secrets` over the consumers in the order `keys` leaves behind: the
      provisioning key untouched, and either every consumer filled and the provisioning key
      unreadable, or the loop stopped at some consumer, the ones before it filled and the
      ones after it as they were. */
  ghost predicate LeftOnFailure(kong: KongConfig, vault: Vault, region: string, keys: seq<string>,
                                updated: KongConfig, res: Outcome<Error>)
    requires forall i :: 0 <= i < |keys| ==> keys[i] in kong.consumers
  {
    && updated.consumers.Keys == kong.consumers.Keys
    && (res.Fail? ==>
      && updated.oauthProvisionKey == kong.oauthProvisionKey
      && ((&& (forall svc :: svc in kong.consumers ==>
                 updated.consumers[svc] == FullyResolved(vault, region, svc, kong.consumers[svc]))
           && res == Fail(ReadFailed(ProvisionKeyPath(region))))
          || exists i :: 0 <= i < |keys| && FailedAt(vault, region, kong.consumers, keys, updated.consumers, res, i)))
  }

  lemma SecretsPartialOnFailureIn(kong: KongConfig, vault: Vault, region: string, keys: seq<string>)
    requires Enumerates(keys, kong.consumers)
    ensures var (updated, res) := WithSecretsIn(kong, vault, region, keys);
      LeftOnFailure(kong, vault, region, keys, updated, res)
  {
    FillConsumersPass(vault, region, kong.consumers, keys);
    var (r, o) := FillConsumers(vault, region, kong.consumers, keys);
    if o.Fail? {
      FillConsumersFail(vault, region, kong.consumers, keys);
      var i :| 0 <= i < |keys| && FailedAt(vault, region, kong.consumers, keys, r, o, i);
      assert WithSecretsIn(kong, vault, region, keys) == (kong.(consumers := r), o);
    } else {
      assert forall svc :: svc in kong.consumers ==> exists i :: 0 <= i < |keys| && keys[i] == svc;
    }
  }

  // ---------------------------------------------------------------------------
  // What `secrets` promises

  /** `secrets` touches only the consumer credentials and the provisioning key, keeps the
      set of consumers, and only ever replaces a placeholder by the secret read for it. */
  lemma SecretsKeepShape(kong: KongConfig, vault: Vault, region: string)
    ensures var (updated, _) := WithSecrets(kong, vault, region);
      && updated == kong.(consumers := updated.consumers, oauthProvisionKey := updated.oauthProvisionKey)
      && updated.consumers.Keys == kong.consumers.Keys
      && (forall svc :: svc in kong.consumers ==>
            PartlyResolved(vault, region, svc, kong.consumers[svc], updated.consumers[svc]))
      && FieldUpdated(vault, kong.oauthProvisionKey, updated.oauthProvisionKey, ProvisionKeyPath(region))
  {
    SortedKeysEnumerate(kong.consumers);
    SecretsKeepShapeIn(kong, vault, region, SortedKeys(kong.consumers.Keys));
  }

  /** `secrets` succeeds exactly when every read it needs succeeds, and then every
      placeholder holds the secret stored at its path. */
  lemma SecretsSucceed(kong: KongConfig, vault: Vault, region: string)
    ensures var (updated, res) := WithSecrets(kong, vault, region);
      && updated.consumers.Keys == kong.consumers.Keys
      && (res.Pass? <==> AllFetchable(kong, vault, region))
      && (res.Pass? ==>
            && (forall svc :: svc in kong.consumers ==>
                  updated.consumers[svc] == FullyResolved(vault, region, svc, kong.consumers[svc]))
            && updated.oauthProvisionKey == Resolved(vault, kong.oauthProvisionKey, ProvisionKeyPath(region)))
  {
    SortedKeysEnumerate(kong.consumers);
    SecretsSucceedIn(kong, vault, region, SortedKeys(kong.consumers.Keys));
  }

  /** A failed `secrets` is not undone: the provisioning key is untouched, and either every
      consumer was filled and the provisioning key could not be read, or the loop stopped at
      some consumer (in key order), leaving the ones before it filled and the ones after it
      as they were. */
  lemma SecretsPartialOnFailure(kong: KongConfig, vault: Vault, region: string)
    ensures var (updated, res) := WithSecrets(kong, vault, region);
      LeftOnFailure(kong, vault, region, SortedKeys(kong.consumers.Keys), updated, res)
  {
    SortedKeysEnumerate(kong.consumers);
    SecretsPartialOnFailureIn(kong, vault, region, SortedKeys(kong.consumers.Keys));
  }

  /** A turn of the loop that succeeds hands the updated map on to the rest of the loop. */
  lemma FillConsumersStep(vault: Vault, region: string, m: map<string, KongOauthConsumer>, keys: seq<string>,
                          c: KongOauthConsumer)
    requires keys != []
    requires forall i :: 0 <= i < |keys| ==> keys[i] in m
    requires FillConsumer(vault, region, keys[0], m[keys[0]]) == (c, Pass)
    ensures FillConsumers(vault, region, m, keys) == FillConsumers(vault, region, m[keys[0] := c], keys[1..])
  {
  }

  /** The loop of `KongConfig::secrets` over the consumers in the order `keys`: the entries
      are updated one field at a time, each write landing before the next read, and the
      first failed read stops the loop. */
  method FillConsumersInPlace(vault: Vault, region: string, consumers: map<string, KongOauthConsumer>, keys: seq<string>)
    returns (filled: map<string, KongOauthConsumer>, res: Outcome<Error>)
    requires forall i :: 0 <= i < |keys| ==> keys[i] in consumers
    ensures (filled, res) == FillConsumers(vault, region, consumers, keys)
  {
    filled := consumers;
    var i := 0;
    while i < |keys|
      invariant 0 <= i <= |keys|
      invariant filled.Keys == consumers.Keys
      invariant FillConsumers(vault, region, filled, keys[i..]) == FillConsumers(vault, region, consumers, keys)
    {
      var svc := keys[i];
      ghost var before := filled;
      ghost var turn := FillConsumer(vault, region, svc, before[svc]);
      assert keys[i..][0] == svc && keys[i..][1..] == keys[i + 1..];
      var data := filled[svc];
      if data.oauthClientId == Sentinel {
        var read := vault.Read(ClientIdPath(region, svc));
        if read.Failure? {
          assert turn == (data, Fail(read.error));
          assert before[svc := data] == before;
          assert FillConsumers(vault, region, before, keys[i..]) == (filled, Fail(read.error));
          return filled, Fail(read.error);
        }
        data := data.(oauthClientId := read.value);
        filled := filled[svc := data];
      }
      assert filled == before[svc := data];
      if data.oauthClientSecret == Sentinel {
        var read := vault.Read(ClientSecretPath(region, svc));
        if read.Failure? {
          assert turn == (data, Fail(read.error));
          assert FillConsumers(vault, region, before, keys[i..]) == (filled, Fail(read.error));
          return filled, Fail(read.error);
        }
        data := data.(oauthClientSecret := read.value);
        filled := filled[svc := data];
      }
      assert turn == (data, Pass);
      assert filled == before[svc := data];
      FillConsumersStep(vault, region, before, keys[i..], data);
      i := i + 1;
    }
    assert keys[|keys|..] == [];
    res := Pass;
  }

  /** `KongConfig::secrets`: the consumers in key order, then the provisioning key; a failed
      read returns at once, keeping the consumer entries written before it. */
  method Secrets(kong: KongConfig, vault: Vault, region: string) returns (updated: KongConfig, res: Outcome<Error>)
    ensures (updated, res) == WithSecrets(kong, vault, region)
  {
    var consumers, o := FillConsumersInPlace(vault, region, kong.consumers, SortedKeys(kong.consumers.Keys));
    if o.Fail? {
      return kong.(consumers := consumers), o;
    }
    if kong.oauthProvisionKey == Sentinel {
      var read := vault.Read(ProvisionKeyPath(region));
      if read.Failure? {
        return kong.(consumers := consumers), Fail(read.error);
      }
      updated := kong.(consumers := consumers, oauthProvisionKey := read.value);
    } else {
      updated := kong.(consumers := consumers);
    }
    res := Pass;
  }

  // ---------------------------------------------------------------------------
  // KongConfig::verify_secrets_exist

  /** The vault entries one consumer needs, client id before client secret. */
  function ExpectedFor(svc: string, c: KongOauthConsumer): seq<string>
  {
    (if c.oauthClientId == Sentinel then [ClientIdName(svc)] else []) +
    (if c.oauthClientSecret == Sentinel then [ClientSecretName(svc)] else [])
  }

  /** The list `verify_secrets_exist` builds, for the consumers visited in the order `keys`. */
  function ExpectedSecrets(consumers: map<string, KongOauthConsumer>, keys: seq<string>): seq<string>
    requires forall i :: 0 <= i < |keys| ==> keys[i] in consumers
  {
    if keys == [] then []
    else
      var last := keys[|keys| - 1];
      ExpectedSecrets(consumers, keys[..|keys| - 1]) + ExpectedFor(last, consumers[last])
  }

  /** The first expected name missing from what the listing found. */
  function FirstMissing(names: seq<string>, found: set<string>, region: string): (r: Outcome<Error>)
    ensures r.Pass? <==> forall i :: 0 <= i < |names| ==> names[i] in found
    ensures r.Fail? ==> exists i :: 0 <= i < |names| && names[i] !in found &&
                          r == Fail(KongSecretMissing(names[i], region)) &&
                          forall j :: 0 <= j < i ==> names[j] in found
  {
    if names == [] then Pass
    else if names[0] !in found then Fail(KongSecretMissing(names[0], region))
    else
      var rest := FirstMissing(names[1..], found, region);
      assert forall i :: 0 < i < |names| ==> names[i] == names[1..][i - 1];
      rest
  }

  /** `KongConfig::verify_secrets_exist`: its outcome, and the folders it lists. */
  function SecretsExist(kong: KongConfig, vault: Vault, region: string): (Outcome<Error>, seq<string>)
  {
    SecretsExistIn(kong, vault, region, SortedKeys(kong.consumers.Keys))
  }

  /** `verify_secrets_exist` with the consumers visited in the order `keys`. */
  function SecretsExistIn(kong: KongConfig, vault: Vault, region: string, keys: seq<string>): (Outcome<Error>, seq<string>)
    requires forall i :: 0 <= i < |keys| ==> keys[i] in kong.consumers
  {
    var expected := ExpectedSecrets(kong.consumers, keys);
    var folder := ConsumersFolder(region);
    if expected == [] then (Pass, [])
    else match vault.List(folder)
      case Failure(e) => (Fail(e), [folder])
      case Success(found) => (FirstMissing(expected, found, region), [folder])
  }

  /** The consumer has a field still to be fetched. */
  predicate NeedsVault(c: KongOauthConsumer)
  {
    c.oauthClientId == Sentinel || c.oauthClientSecret == Sentinel
  }

  lemma {:induction false} ExpectedSecretsMembers(consumers: map<string, KongOauthConsumer>, keys: seq<string>, name: string)
    requires forall i :: 0 <= i < |keys| ==> keys[i] in consumers
    ensures name in ExpectedSecrets(consumers, keys) <==>
            exists i :: 0 <= i < |keys| && name in ExpectedFor(keys[i], consumers[keys[i]])
    decreases |keys|
  {
    if keys != [] {
      var init := keys[..|keys| - 1];
      var last := keys[|keys| - 1];
      var tail := ExpectedFor(last, consumers[last]);
      ExpectedSecretsMembers(consumers, init, name);
      assert ExpectedSecrets(consumers, keys) == ExpectedSecrets(consumers, init) + tail;
      if name in ExpectedSecrets(consumers, keys) {
        if name !in tail {
          var i :| 0 <= i < |init| && name in ExpectedFor(init[i], consumers[init[i]]);
          assert init[i] == keys[i];
        }
      } else {
        forall i | 0 <= i < |keys| ensures name !in ExpectedFor(keys[i], consumers[keys[i]]) {
          if i < |init| {
            assert init[i] == keys[i];
          }
        }
      }
    }
  }

  lemma ExpectedSecretsExactlyIn(consumers: map<string, KongOauthConsumer>, keys: seq<string>, name: string)
    requires Enumerates(keys, consumers)
    ensures name in ExpectedSecrets(consumers, keys) <==>
            exists svc :: svc in consumers && name in ExpectedFor(svc, consumers[svc])
  {
    ExpectedSecretsMembers(consumers, keys, name);
    if exists svc :: svc in consumers && name in ExpectedFor(svc, consumers[svc]) {
      var svc :| svc in consumers && name in ExpectedFor(svc, consumers[svc]);
      assert svc in keys;
    }
  }

  lemma SecretsExistListsOnceIn(kong: KongConfig, vault: Vault, region: string, keys: seq<string>)
    requires Enumerates(keys, kong.consumers)
    ensures var (res, listed) := SecretsExistIn(kong, vault, region, keys);
      && (listed == [] <==> forall svc :: svc in kong.consumers ==> !NeedsVault(kong.consumers[svc]))
      && (listed == [] ==> res == Pass)
      && (listed != [] ==> listed == [ConsumersFolder(region)])
  {
    var expected := ExpectedSecrets(kong.consumers, keys);
    if expected == [] {
      forall svc | svc in kong.consumers ensures !NeedsVault(kong.consumers[svc]) {
        if NeedsVault(kong.consumers[svc]) {
          var name := if kong.consumers[svc].oauthClientId == Sentinel then ClientIdName(svc) else ClientSecretName(svc);
          ExpectedSecretsExactlyIn(kong.consumers, keys, name);
        }
      }
    } else {
      ExpectedSecretsExactlyIn(kong.consumers, keys, expected[0]);
    }
  }

  lemma SecretsExistSucceedsIn(kong: KongConfig, vault: Vault, region: string, keys: seq<string>)
    requires Enumerates(keys, kong.consumers)
    ensures var folder := ConsumersFolder(region);
      SecretsExistIn(kong, vault, region, keys).0.Pass? <==>
        || (forall svc :: svc in kong.consumers ==> !NeedsVault(kong.consumers[svc]))
        || (&& folder in vault.folders
            && forall svc :: svc in kong.consumers ==>
                 forall name :: name in ExpectedFor(svc, kong.consumers[svc]) ==> name in vault.folders[folder])
  {
    SecretsExistListsOnceIn(kong, vault, region, keys);
    var expected := ExpectedSecrets(kong.consumers, keys);
    var folder := ConsumersFolder(region);
    if expected != [] && folder in vault.folders {
      var found := vault.folders[folder];
      assert SecretsExistIn(kong, vault, region, keys).0 == FirstMissing(expected, found, region);
      if forall i :: 0 <= i < |expected| ==> expected[i] in found {
        forall svc, name | svc in kong.consumers && name in ExpectedFor(svc, kong.consumers[svc])
          ensures name in found
        {
          ExpectedSecretsExactlyIn(kong.consumers, keys, name);
          var i :| 0 <= i < |expected| && expected[i] == name;
        }
      } else {
        var i :| 0 <= i < |expected| && expected[i] !in found;
        ExpectedSecretsExactlyIn(kong.consumers, keys, expected[i]);
      }
    }
  }

  /** `verify_secrets_exist` lists the consumers folder once when some placeholder is left,
      and otherwise lists nothing and succeeds. */
  lemma SecretsExistListsOnce(kong: KongConfig, vault: Vault, region: string)
    ensures var (res, listed) := SecretsExist(kong, vault, region);
      && (listed == [] <==> forall svc :: svc in kong.consumers ==> !NeedsVault(kong.consumers[svc]))
      && (listed == [] ==> res == Pass)
      && (listed != [] ==> listed == [ConsumersFolder(region)])
  {
    SortedKeysEnumerate(kong.consumers);
    SecretsExistListsOnceIn(kong, vault, region, SortedKeys(kong.consumers.Keys));
  }

  /** `verify_secrets_exist` succeeds exactly when nothing needs the vault, or the consumers
      folder can be listed and names every placeholder's entry. */
  lemma SecretsExistSucceeds(kong: KongConfig, vault: Vault, region: string)
    ensures var folder := ConsumersFolder(region);
      SecretsExist(kong, vault, region).0.Pass? <==>
        || (forall svc :: svc in kong.consumers ==> !NeedsVault(kong.consumers[svc]))
        || (&& folder in vault.folders
            && forall svc :: svc in kong.consumers ==>
                 forall name :: name in ExpectedFor(svc, kong.consumers[svc]) ==> name in vault.folders[folder])
  {
    SortedKeysEnumerate(kong.consumers);
    SecretsExistSucceedsIn(kong, vault, region, SortedKeys(kong.consumers.Keys));
  }

  /** Against a store whose listings agree with its reads, `verify_secrets_exist` passes
      exactly when every consumer read `secrets` will make can succeed. */
  lemma SecretsExistMatchesReads(kong: KongConfig, vault: Vault, region: string)
    requires Consistent(vault)
    requires ConsumersFolder(region) in vault.folders
    ensures SecretsExist(kong, vault, region).0.Pass? <==>
            forall svc :: svc in kong.consumers ==> ConsumerFetchable(vault, region, svc, kong.consumers[svc])
  {
    SecretsExistSucceeds(kong, vault, region);
    var folder := ConsumersFolder(region);
    forall svc | svc in kong.consumers
      ensures ConsumerFetchable(vault, region, svc, kong.consumers[svc]) <==>
              forall name :: name in ExpectedFor(svc, kong.consumers[svc]) ==> name in vault.folders[folder]
    {
      ConsumerPathsAreEntries(region, svc);
      assert ClientIdName(svc) in vault.folders[folder] <==> ClientIdPath(region, svc) in vault.secrets;
      assert ClientSecretName(svc) in vault.folders[folder] <==> ClientSecretPath(region, svc) in vault.secrets;
    }
  }

  /** The list of expected entries, built consumer by consumer in the order `keys`. */
  method CollectExpected(consumers: map<string, KongOauthConsumer>, keys: seq<string>) returns (expected: seq<string>)
    requires forall i :: 0 <= i < |keys| ==> keys[i] in consumers
    ensures expected == ExpectedSecrets(consumers, keys)
  {
    expected := [];
    for i := 0 to |keys|
      invariant expected == ExpectedSecrets(consumers, keys[..i])
    {
      var svc := keys[i];
      var data := consumers[svc];
      assert keys[..i + 1][..i] == keys[..i];
      if data.oauthClientId == Sentinel {
        expected := expected + [ClientIdName(svc)];
      }
      if data.oauthClientSecret == Sentinel {
        expected := expected + [ClientSecretName(svc)];
      }
    }
    assert keys[..|keys|] == keys;
  }

  /** The check of the expected entries against the listing, first to last. */
  method CheckFound(expected: seq<string>, found: set<string>, region: string) returns (res: Outcome<Error>)
    ensures res == FirstMissing(expected, found, region)
  {
    for j := 0 to |expected|
      invariant FirstMissing(expected[j..], found, region) == FirstMissing(expected, found, region)
    {
      if expected[j] !in found {
        return Fail(KongSecretMissing(expected[j], region));
      }
      assert expected[j..][1..] == expected[j + 1..];
    }
    assert expected[|expected|..] == [];
    res := Pass;
  }

  /** `KongConfig::verify_secrets_exist`: collect the names of the entries the placeholders
      need, and when there are any, list the consumers folder once and look each of them up. */
  method VerifySecretsExist(kong: KongConfig, vault: Vault, region: string) returns (res: Outcome<Error>, listed: seq<string>)
    ensures (res, listed) == SecretsExist(kong, vault, region)
  {
    var expected := CollectExpected(kong.consumers, SortedKeys(kong.consumers.Keys));
    if expected == [] {
      return Pass, [];
    }
    var folder := ConsumersFolder(region);
    listed := [folder];
    var listing := vault.List(folder);
    if listing.Failure? {
      return Fail(listing.error), listed;
    }
    res := CheckFound(expected, listing.value, region);
  }
}

/**
 * The auth-key resolver: the services of the configuration file are
 * scanned in order, and the first one owning the presented key, enabled
 * and not expired, identifies the caller.
 */
module Service {
  import opened Wrappers

  /** One auth key of a configured service; `expiredAt` is a Unix time, 0 for "never". */
  datatype AuthKey = AuthKey(key: string, disabled: bool, expiredAt: int64)

  /** `settings.ConfigFileService`: a service as read from the configuration file. */
  datatype ConfigFileService = ConfigFileService(id: string, name: string, authKeys: seq<AuthKey>)

  /** `plugin.Service`: what the resolver hands back to the HTTP layer. */
  datatype PluginService = PluginService(id: string, name: string)

  /** The zero `plugin.Service{}`. */
  const ZeroService: PluginService := PluginService("", "")

  /** `ErrServiceNotFound`, the only error the resolver returns. */
  const ErrServiceNotFound: Error := Error("an error occurred when attempting to fetch the service")

  /** The pair `(plugin.Service, error)` returned by the resolver; `err == None` is Go's `nil`. */
  datatype Lookup = Lookup(service: PluginService, err: Option<Error>)

  /** The answer for every key that does not resolve. */
  const NotFound: Lookup := Lookup(ZeroService, Some(ErrServiceNotFound))

  /** isAuthKeyExpired, with the current Unix time `now` passed in. */
  predicate IsAuthKeyExpired(expiredAt: int64, now: int64)
  {
    if expiredAt == 0 then false else expiredAt < now
  }

  /** The test of the inner loop: the key is the one presented, enabled and not expired. */
  predicate Qualifies(a: AuthKey, authKey: string, now: int64)
  {
    a.key == authKey && !a.disabled && !IsAuthKeyExpired(a.expiredAt, now)
  }

  /** Some key of the service qualifies. */
  ghost predicate Owns(s: ConfigFileService, authKey: string, now: int64)
  {
    exists j :: 0 <= j < |s.authKeys| && Qualifies(s.authKeys[j], authKey, now)
  }

  /** The inner `for` over a service's keys: whether it reaches the `return`. */
  function HasQualifyingKey(keys: seq<AuthKey>, authKey: string, now: int64): (b: bool)
    ensures b <==> exists j :: 0 <= j < |keys| && Qualifies(keys[j], authKey, now)
  {
    if keys == [] then false
    else Qualifies(keys[0], authKey, now) || HasQualifyingKey(keys[1..], authKey, now)
  }

  /** The outer `for` over the services: the first owner of the key, in list order. */
  function FirstOwner(services: seq<ConfigFileService>, authKey: string, now: int64): (r: Option<PluginService>)
    ensures r.None? <==> forall i :: 0 <= i < |services| ==> !Owns(services[i], authKey, now)
    ensures r.Some? ==>
              exists i :: 0 <= i < |services| && Owns(services[i], authKey, now)
                       && (forall k :: 0 <= k < i ==> !Owns(services[k], authKey, now))
                       && r.value == PluginService(services[i].id, services[i].name)
  {
    if services == [] then None
    else if HasQualifyingKey(services[0].authKeys, authKey, now) then
      Some(PluginService(services[0].id, services[0].name))
    else
      var r := FirstOwner(services[1..], authKey, now);
      assert forall i :: 1 <= i < |services| ==> services[i] == services[1..][i - 1];
      r
  }

  /** `YAMLServiceFetcher`: the resolver over a fixed list of configured services. */
  datatype YAMLServiceFetcher = YAMLServiceFetcher(services: seq<ConfigFileService>)
  {
    /**
     * GetServiceByAuthKey at Unix time `now`. An empty key is refused
     * before any scan; every refusal is the same zero service with
     * ErrServiceNotFound; a success names the first service, in list
     * order, owning a qualifying key.
     */
    function GetServiceByAuthKey(authKey: string, now: int64): (r: Lookup)
      ensures authKey == "" ==> r == NotFound
      ensures r.err.Some? ==> r == NotFound
      ensures r.err.None? <==>
                authKey != "" && exists i :: 0 <= i < |services| && Owns(services[i], authKey, now)
      ensures r.err.None? ==>
                exists i :: 0 <= i < |services| && Owns(services[i], authKey, now)
                         && (forall k :: 0 <= k < i ==> !Owns(services[k], authKey, now))
                         && r.service == PluginService(services[i].id, services[i].name)
    {
      if authKey == "" then NotFound
      else match FirstOwner(services, authKey, now)
        case None => NotFound
        case Some(s) => Lookup(s, None)
    }
  }

  /** NewYAMLServiceFetcher: the resolver keeps the list it is given. */
  function NewYAMLServiceFetcher(services: seq<ConfigFileService>): (f: YAMLServiceFetcher)
    ensures f.services == services
  {
    YAMLServiceFetcher(services)
  }

  // ---------------------------------------------------------------------------
  // Properties
  // ---------------------------------------------------------------------------

  /** A key with `expiredAt == 0` never expires; any other expires exactly once `now` passes it. */
  lemma ExpiryBoundary(expiredAt: int64, now: int64)
    ensures expiredAt == 0 ==> !IsAuthKeyExpired(expiredAt, now)
    ensures expiredAt != 0 ==> (IsAuthKeyExpired(expiredAt, now) <==> expiredAt < now)
    ensures !IsAuthKeyExpired(now, now)
  {
  }

  /** Once expired, a key stays expired. */
  lemma ExpiryMonotone(expiredAt: int64, now: int64, later: int64)
    requires now <= later
    ensures IsAuthKeyExpired(expiredAt, now) ==> IsAuthKeyExpired(expiredAt, later)
  {
  }

  /** A key that resolves at some time also resolves at every earlier time. */
  lemma ResolvesEarlier(f: YAMLServiceFetcher, authKey: string, now: int64, later: int64)
    requires now <= later
    ensures f.GetServiceByAuthKey(authKey, later).err.None? ==> f.GetServiceByAuthKey(authKey, now).err.None?
  {
    if f.GetServiceByAuthKey(authKey, later).err.None? {
      var i :| 0 <= i < |f.services| && Owns(f.services[i], authKey, later);
      var j :| 0 <= j < |f.services[i].authKeys| && Qualifies(f.services[i].authKeys[j], authKey, later);
      ExpiryMonotone(f.services[i].authKeys[j].expiredAt, now, later);
      assert Owns(f.services[i], authKey, now);
    }
  }

  /** A disabled key never resolves, whatever its expiry: only the enabled keys matter. */
  lemma DisabledNeverMatches(f: YAMLServiceFetcher, authKey: string, now: int64)
    requires forall i, j :: 0 <= i < |f.services| && 0 <= j < |f.services[i].authKeys| ==>
               f.services[i].authKeys[j].key == authKey ==> f.services[i].authKeys[j].disabled
    ensures f.GetServiceByAuthKey(authKey, now) == NotFound
  {
  }

  /**
   * A key that is unknown, disabled or expired wherever it appears gets the
   * one same answer.
   */
  lemma UnusableKeyNotFound(f: YAMLServiceFetcher, authKey: string, now: int64)
    requires forall i, j :: 0 <= i < |f.services| && 0 <= j < |f.services[i].authKeys| ==>
               f.services[i].authKeys[j].key == authKey ==>
                 f.services[i].authKeys[j].disabled || IsAuthKeyExpired(f.services[i].authKeys[j].expiredAt, now)
    ensures f.GetServiceByAuthKey(authKey, now) == NotFound
  {
  }

  /** Services appended after the first owner of a key never change its answer. */
  lemma {:induction false} EarlierServiceShadows(services: seq<ConfigFileService>, more: seq<ConfigFileService>,
                                                 authKey: string, now: int64)
    requires FirstOwner(services, authKey, now).Some?
    ensures FirstOwner(services + more, authKey, now) == FirstOwner(services, authKey, now)
  {
    if !HasQualifyingKey(services[0].authKeys, authKey, now) {
      assert (services + more)[1..] == services[1..] + more;
      EarlierServiceShadows(services[1..], more, authKey, now);
    }
  }

  /** Services without a usable key can be put in front without changing any answer. */
  lemma {:induction false} NonOwnersTransparent(skipped: seq<ConfigFileService>, services: seq<ConfigFileService>,
                                                authKey: string, now: int64)
    requires forall i :: 0 <= i < |skipped| ==> !HasQualifyingKey(skipped[i].authKeys, authKey, now)
    ensures FirstOwner(skipped + services, authKey, now) == FirstOwner(services, authKey, now)
  {
    if skipped != [] {
      assert (skipped + services)[0] == skipped[0];
      assert (skipped + services)[1..] == skipped[1..] + services;
      NonOwnersTransparent(skipped[1..], services, authKey, now);
    } else {
      assert skipped + services == services;
    }
  }

  // ---------------------------------------------------------------------------
  // The scenario of pkg/service/service_fetcher_test.go
  // ---------------------------------------------------------------------------

  /**
   * A configuration shaped like the test fixture: service "1" holds a key
   * "key" that never expires and a key "expiredKey" that expired at
   * `expiredAt`, earlier than `now`.
   */
  lemma FixtureLookups(expiredAt: int64, now: int64, f: YAMLServiceFetcher)
    requires 0 < expiredAt < now
    requires f == NewYAMLServiceFetcher([ConfigFileService("1", "foo bar service",
                                          [AuthKey("key", false, 0), AuthKey("expiredKey", false, expiredAt)])])
    ensures f.GetServiceByAuthKey("key", now) == Lookup(PluginService("1", "foo bar service"), None)
    ensures f.GetServiceByAuthKey("expiredKey", now) == NotFound
  {
    var keys := f.services[0].authKeys;
    assert Qualifies(keys[0], "key", now);
    assert !Qualifies(keys[0], "expiredKey", now);
    assert !Qualifies(keys[1], "expiredKey", now);
  }
}

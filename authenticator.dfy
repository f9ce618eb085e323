/** The Core Networks DNS authenticator: perform and cleanup of one DNS-01
    challenge, the CNAME-following loop, and the two caches the class keeps. In
    the Python code the caches are class attributes shared by every instance;
    here they are fields of the one Authenticator object that stands for that
    shared state. */
module DnsAuthenticator {
  import opened Errors
  import opened Cnames
  import opened Zones
  import opened Records
  import opened CoreNetworksClient

  /** The ttl every TXT record is created with. */
  const DefaultTtl: int := 300

  datatype Credentials = Credentials(username: string, password: string)

  /** What one call runs with: the path of the credentials file, which keys
      the client cache, and the username and password read from it. */
  datatype Config = Config(credentialsPath: string, credentials: Credentials)

  /** The world outside the authenticator: public DNS, the provider's accounts
      by login (a login missing here is rejected with AuthError), and the fuel
      the model gives the CNAME loop. */
  datatype Environment = Environment(resolver: Resolver, accounts: map<Credentials, Account>, cnameFuel: nat)

  /** The resolved name a perform works with: the name cache's entry, or the
      outcome of following CNAMEs when there is none. */
  function CachedResolution(nameCache: map<string, string>, domain: string, validationName: string, env: Environment): Result<string> {
    if validationName in nameCache then Ok(nameCache[validationName])
    else Resolve(domain, env.resolver, validationName, env.cnameFuel)
  }

  class Authenticator {
    /** validation name -> resolved name, written on the first perform. */
    var nameCache: map<string, string>
    /** credentials path -> the client created for it. */
    var clientCache: map<string, CorenetworksClient>
    const ttl: int

    /** Every cache entry holds its own client: clients are created once per
        key and never shared between keys. */
    ghost predicate Valid()
      reads this
    {
      forall k1, k2 :: k1 in clientCache && k2 in clientCache && k1 != k2 ==> clientCache[k1] != clientCache[k2]
    }

    constructor ()
      ensures Valid() && nameCache == map[] && clientCache == map[] && ttl == DefaultTtl
    {
      nameCache := map[];
      clientCache := map[];
      ttl := DefaultTtl;
    }

    /** _follow_cnames: without the resolver library the name comes back
        unchanged; otherwise query CNAME at the current name, move to the first
        target while there is one, stop on no answer or NXDOMAIN, and fail on a
        timeout, YXDOMAIN or no nameservers. */
    method FollowCnames(domain: string, validationName: string, resolver: Resolver, fuel: nat)
      returns (r: Result<string>)
      ensures !resolver.available ==> r == Ok(validationName)
      ensures resolver.available ==> r == Follow(domain, resolver.answers, validationName, fuel)
    {
      if !resolver.available {
        return Ok(validationName);
      }
      var dns := resolver.answers;
      var name := validationName;
      var left := fuel;
      while true
        invariant Follow(domain, dns, name, left) == Follow(domain, dns, validationName, fuel)
        decreases left
      {
        if left == 0 {
          return Err(CnameChainTooLong(domain));
        }
        var answer := Lookup(dns, name);
        if answer.Cnames? && 1 <= |answer.targets| {
          name := answer.targets[0];
          left := left - 1;
        } else if answer.Cnames? || answer.NoAnswer? || answer.NxDomain? {
          break;
        } else {
          return Err(CnameLookupFailed(domain));
        }
      }
      return Ok(name);
    }

    /** _get_corenetworks_client: the client cached under the credentials
        path, or a new one logged in with the configured credentials and
        cached under that path. A rejected login caches nothing. */
    method GetCorenetworksClient(conf: Config, accounts: map<Credentials, Account>)
      returns (r: Result<CorenetworksClient>)
      requires Valid()
      modifies this`clientCache
      ensures Valid()
      ensures conf.credentialsPath in old(clientCache) ==>
        r == Ok(old(clientCache)[conf.credentialsPath]) && clientCache == old(clientCache)
      ensures conf.credentialsPath !in old(clientCache) && conf.credentials in accounts ==>
        r.Ok? && fresh(r.value)
        && r.value.zones == accounts[conf.credentials].zones
        && r.value.faults == accounts[conf.credentials].faults
        && r.value.records == accounts[conf.credentials].records
        && clientCache == old(clientCache)[conf.credentialsPath := r.value]
      ensures conf.credentialsPath !in old(clientCache) && conf.credentials !in accounts ==>
        r == Err(LoginFailed) && clientCache == old(clientCache)
    {
      var key := conf.credentialsPath;
      if key in clientCache {
        return Ok(clientCache[key]);
      }
      if conf.credentials !in accounts {
        return Err(LoginFailed);
      }
      var client := new CorenetworksClient(accounts[conf.credentials]);
      clientCache := clientCache[key := client];
      return Ok(client);
    }

    /** The account the client for `conf` works on: the cached client's, or
        the one a login with the configured credentials opens. */
    function AccountFor(conf: Config, accounts: map<Credentials, Account>): Account
      reads this, clientCache.Values
      requires conf.credentialsPath in clientCache || conf.credentials in accounts
    {
      if conf.credentialsPath in clientCache then
        var c := clientCache[conf.credentialsPath];
        Account(c.zones, c.records, c.faults)
      else accounts[conf.credentials]
    }

    /** _perform: resolve the validation name through the name cache
        (computing and storing it only on a miss), then add the TXT record
        through the client for the configured credentials, and return what
        the add returns. */
    method Perform(domain: string, validationName: string, validation: string, conf: Config, env: Environment)
      returns (r: Result<()>)
      requires Valid()
      modifies this`nameCache, this`clientCache, clientCache.Values
      ensures Valid()
      // the name cache is keyed by the validation name and written once
      ensures validationName in old(nameCache) ==> nameCache == old(nameCache)
      ensures validationName !in old(nameCache) ==>
        var resolved := Resolve(domain, env.resolver, validationName, env.cnameFuel);
        nameCache == (if resolved.Ok? then old(nameCache)[validationName := resolved.value] else old(nameCache))
      // other cached clients are left alone
      ensures forall k :: k in old(clientCache) && k != conf.credentialsPath ==>
        k in clientCache && clientCache[k] == old(clientCache)[k] && clientCache[k].records == old(clientCache[k].records)
      // a failed resolution fails before any client is obtained
      ensures var resolved := CachedResolution(old(nameCache), domain, validationName, env);
        resolved.Err? ==>
          r == Err(resolved.error) && clientCache == old(clientCache)
          && forall k :: k in clientCache ==> clientCache[k].records == old(clientCache[k].records)
      // the cached client: the outcome of add_txt_record on its account
      ensures var resolved := CachedResolution(old(nameCache), domain, validationName, env);
        resolved.Ok? && conf.credentialsPath in old(clientCache) ==>
          var c := old(clientCache)[conf.credentialsPath];
          var name := resolved.value;
          clientCache == old(clientCache)
          && r == AddOutcome(c.zones, c.faults, domain, name)
          && c.records == (if r.Ok? then old(c.records) + [TxtRecord(FindZoneSpec(c.zones, name).value, name, validation, ttl)]
                           else old(c.records))
      // a rejected login
      ensures var resolved := CachedResolution(old(nameCache), domain, validationName, env);
        resolved.Ok? && conf.credentialsPath !in old(clientCache) && conf.credentials !in env.accounts ==>
          r == Err(LoginFailed) && clientCache == old(clientCache)
      // a new client, cached under the credentials path: the outcome of
      // add_txt_record on the account it logged in to
      ensures var resolved := CachedResolution(old(nameCache), domain, validationName, env);
        resolved.Ok? && conf.credentialsPath !in old(clientCache) && conf.credentials in env.accounts ==>
          conf.credentialsPath in clientCache
          && var c := clientCache[conf.credentialsPath];
          var acct := env.accounts[conf.credentials];
          var name := resolved.value;
          fresh(c) && clientCache == old(clientCache)[conf.credentialsPath := c]
          && c.zones == acct.zones && c.faults == acct.faults
          && r == AddOutcome(acct.zones, acct.faults, domain, name)
          && c.records == (if r.Ok? then acct.records + [TxtRecord(FindZoneSpec(acct.zones, name).value, name, validation, ttl)]
                           else acct.records)
    {
      var resolved: string;
      if validationName in nameCache {
        resolved := nameCache[validationName];
      } else {
        resolved :- FollowCnames(domain, validationName, env.resolver, env.cnameFuel);
        nameCache := nameCache[validationName := resolved];
      }
      var client :- GetCorenetworksClient(conf, env.accounts);
      r := client.AddTxtRecord(domain, resolved, validation, ttl);
    }

    /** _cleanup: take the resolved name from the name cache (never computing
        it), then delete the TXT record through the client for the configured
        credentials, and return what the delete returns. A validation name
        with no entry fails before any client is obtained. */
    method Cleanup(domain: string, validationName: string, validation: string, conf: Config, env: Environment)
      returns (r: Result<()>)
      requires Valid()
      modifies this`clientCache, clientCache.Values
      ensures Valid()
      ensures nameCache == old(nameCache)
      // other cached clients are left alone
      ensures forall k :: k in old(clientCache) && k != conf.credentialsPath ==>
        k in clientCache && clientCache[k] == old(clientCache)[k] && clientCache[k].records == old(clientCache[k].records)
      ensures validationName !in nameCache ==>
        r == Err(NotInNameCache(validationName)) && clientCache == old(clientCache)
        && forall k :: k in clientCache ==> clientCache[k].records == old(clientCache[k].records)
      // the cached client: the outcome of del_txt_record on its account
      ensures validationName in nameCache && conf.credentialsPath in old(clientCache) ==>
        var c := old(clientCache)[conf.credentialsPath];
        var name := nameCache[validationName];
        clientCache == old(clientCache)
        && r == DelOutcome(c.zones, c.faults, old(c.records), domain, name, validation)
        && c.records == (if r.Ok? then DeleteMatching(old(c.records), TxtFilter(FindZoneSpec(c.zones, name).value, name, validation))
                         else old(c.records))
      // a rejected login
      ensures validationName in nameCache && conf.credentialsPath !in old(clientCache) && conf.credentials !in env.accounts ==>
        r == Err(LoginFailed) && clientCache == old(clientCache)
      // a new client, cached under the credentials path: the outcome of
      // del_txt_record on the account it logged in to
      ensures validationName in nameCache && conf.credentialsPath !in old(clientCache) && conf.credentials in env.accounts ==>
        conf.credentialsPath in clientCache
        && var c := clientCache[conf.credentialsPath];
        var acct := env.accounts[conf.credentials];
        var name := nameCache[validationName];
        fresh(c) && clientCache == old(clientCache)[conf.credentialsPath := c]
        && c.zones == acct.zones && c.faults == acct.faults
        && r == DelOutcome(acct.zones, acct.faults, acct.records, domain, name, validation)
        && c.records == (if r.Ok? then DeleteMatching(acct.records, TxtFilter(FindZoneSpec(acct.zones, name).value, name, validation))
                         else acct.records)
    {
      if validationName !in nameCache {
        return Err(NotInNameCache(validationName));
      }
      var resolved := nameCache[validationName];
      var client :- GetCorenetworksClient(conf, env.accounts);
      r := client.DelTxtRecord(domain, resolved, validation);
    }

    /** A proof scenario, not a model of any function of the plugin: certbot
        calls perform and later cleanup for one challenge, and this method
        makes those two calls in a row to state what they achieve together.
        One challenge end to end: a perform followed by the cleanup of the same
        challenge. When the name resolves, a client is at hand, its account has
        the zone, no call fails and no matching TXT record exists beforehand,
        both succeed, the name cache keeps the resolved name, and the client's
        records are what they were before the perform. */
    method PerformThenCleanup(domain: string, validationName: string, validation: string, conf: Config, env: Environment)
      returns (added: Result<()>, removed: Result<()>)
      requires Valid()
      requires CachedResolution(nameCache, domain, validationName, env).Ok?
      requires conf.credentialsPath in clientCache || conf.credentials in env.accounts
      requires var acct := AccountFor(conf, env.accounts);
        var name := CachedResolution(nameCache, domain, validationName, env).value;
        FindZoneSpec(acct.zones, name).Ok? && acct.faults == {}
        && Query(acct.records, TxtFilter(FindZoneSpec(acct.zones, name).value, name, validation)) == []
      modifies this`nameCache, this`clientCache, clientCache.Values
      ensures Valid()
      ensures added == Ok(()) && removed == Ok(())
      ensures validationName in nameCache
        && Ok(nameCache[validationName]) == old(CachedResolution(nameCache, domain, validationName, env))
      ensures conf.credentialsPath in clientCache
        && clientCache[conf.credentialsPath].records == old(AccountFor(conf, env.accounts).records)
    {
      ghost var acct := AccountFor(conf, env.accounts);
      ghost var name := CachedResolution(nameCache, domain, validationName, env).value;
      AddThenDelOutcomes(acct.zones, acct.faults, acct.records, domain, name, validation, ttl);
      added := Perform(domain, validationName, validation, conf, env);
      removed := Cleanup(domain, validationName, validation, conf, env);
    }
  }
}

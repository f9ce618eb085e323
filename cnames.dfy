/** CNAME following, as a function over a fixed table of DNS answers. The
    loop itself is DnsAuthenticator.Authenticator.FollowCnames; this module is
    the reference it is proved against, and the place where its properties are
    proved. */
module Cnames {
  import opened Errors

  /** The outcome of one CNAME query at a name: the answer's targets, in the
      order the resolver returns them, or the exception the query raises. */
  datatype Answer =
    | Cnames(targets: seq<string>)
    | NoAnswer
    | NxDomain
    | Timeout
    | YxDomain
    | NoNameservers

  /** Public DNS as seen by the resolver. A name that is not a key does not
      exist (NXDOMAIN). */
  type DnsAnswers = map<string, Answer>

  /** The resolver capability: `available` is false when the dnspython
      import fails. */
  datatype Resolver = Resolver(available: bool, answers: DnsAnswers)

  function Lookup(dns: DnsAnswers, name: string): Answer {
    if name in dns then dns[name] else NxDomain
  }

  /** The loop stops at `name` without error: no CNAME answer there. */
  predicate IsTerminal(dns: DnsAnswers, name: string) {
    match Lookup(dns, name)
    case Cnames(ts) => |ts| == 0
    case NoAnswer => true
    case NxDomain => true
    case _ => false
  }

  /** The loop follows a CNAME from `name`. */
  predicate HasCname(dns: DnsAnswers, name: string) {
    Lookup(dns, name).Cnames? && |Lookup(dns, name).targets| >= 1
  }

  /** The name the loop moves to from `name`: the first target. */
  function Next(dns: DnsAnswers, name: string): string
    requires HasCname(dns, name)
  {
    Lookup(dns, name).targets[0]
  }

  /** Every name some CNAME in the table points at first. */
  ghost function FirstTargets(dns: DnsAnswers): set<string> {
    set k | k in dns && HasCname(dns, k) :: Next(dns, k)
  }

  /** The resolved name after at most `fuel` queries, starting at `name`.
      The fuel is the model's: the code loops without a bound, and running out
      of fuel stands for that loop still going. */
  function Follow(domain: string, dns: DnsAnswers, name: string, fuel: nat): (r: Result<string>)
    ensures r.Ok? ==> IsTerminal(dns, r.value)
    ensures r.Ok? ==> r.value == name || r.value in FirstTargets(dns)
    ensures r.Err? ==> r.error == CnameLookupFailed(domain) || r.error == CnameChainTooLong(domain)
    ensures fuel > 0 && IsTerminal(dns, name) ==> r == Ok(name)
    decreases fuel
  {
    if fuel == 0 then Err(CnameChainTooLong(domain))
    else if HasCname(dns, name) then
      var r := Follow(domain, dns, Next(dns, name), fuel - 1);
      assert r.Ok? ==> Next(dns, name) in FirstTargets(dns);
      r
    else if IsTerminal(dns, name) then Ok(name)
    else Err(CnameLookupFailed(domain))
  }

  /** What _follow_cnames returns: the name unchanged when the resolver
      library is missing, the end of the CNAME chain otherwise. */
  function Resolve(domain: string, resolver: Resolver, name: string, fuel: nat): (r: Result<string>)
    ensures !resolver.available ==> r == Ok(name)
    ensures r.Ok? && resolver.available ==> IsTerminal(resolver.answers, r.value)
    ensures r.Err? ==> resolver.available && (r.error == CnameLookupFailed(domain) || r.error == CnameChainTooLong(domain))
  {
    if resolver.available then Follow(domain, resolver.answers, name, fuel) else Ok(name)
  }

  /** A hard DNS failure anywhere on the chain aborts the resolution. */
  lemma HardFailureAborts(domain: string, dns: DnsAnswers, name: string, fuel: nat)
    requires fuel > 0 && !HasCname(dns, name) && !IsTerminal(dns, name)
    ensures Follow(domain, dns, name, fuel) == Err(CnameLookupFailed(domain))
    ensures Lookup(dns, name) == Timeout || Lookup(dns, name) == YxDomain || Lookup(dns, name) == NoNameservers
  {
  }

  /** Following a CNAME step does not change the outcome. */
  lemma FollowStep(domain: string, dns: DnsAnswers, name: string, fuel: nat)
    requires HasCname(dns, name)
    ensures Follow(domain, dns, name, fuel + 1) == Follow(domain, dns, Next(dns, name), fuel)
  {
  }

  /** The chain a -> b -> c, where c has no CNAME, resolves a to c. */
  lemma ChainOfTwo(domain: string, dns: DnsAnswers, a: string, b: string, c: string, fuel: nat)
    requires HasCname(dns, a) && Next(dns, a) == b
    requires HasCname(dns, b) && Next(dns, b) == c
    requires IsTerminal(dns, c) && fuel >= 3
    ensures Follow(domain, dns, a, fuel) == Ok(c)
  {
    FollowStep(domain, dns, a, fuel - 1);
    FollowStep(domain, dns, b, fuel - 2);
  }

  /** The fuel is only a bound: an answer reached with some fuel is the
      answer with any more fuel, so every outcome other than running out is the
      outcome of the unbounded loop. */
  lemma {:induction false} FuelMonotone(domain: string, dns: DnsAnswers, name: string, fuel: nat, more: nat)
    requires fuel <= more
    requires Follow(domain, dns, name, fuel) != Err(CnameChainTooLong(domain))
    ensures Follow(domain, dns, name, more) == Follow(domain, dns, name, fuel)
    decreases fuel
  {
    if HasCname(dns, name) {
      FuelMonotone(domain, dns, Next(dns, name), fuel - 1, more - 1);
    }
  }

  /** On a CNAME cycle a -> b -> a the code loops forever; the model runs out
      of fuel whatever the fuel. */
  lemma {:induction false} CycleNeverResolves(domain: string, dns: DnsAnswers, a: string, b: string, fuel: nat)
    requires HasCname(dns, a) && Next(dns, a) == b
    requires HasCname(dns, b) && Next(dns, b) == a
    ensures Follow(domain, dns, a, fuel) == Err(CnameChainTooLong(domain))
    ensures Follow(domain, dns, b, fuel) == Err(CnameChainTooLong(domain))
    decreases fuel
  {
    if fuel > 0 {
      CycleNeverResolves(domain, dns, a, b, fuel - 1);
    }
  }
}

/** Zone resolution as the provider sees it: which of a record name's
    base-domain guesses decides the zone, and what the outcome is. The loop
    that walks the guesses is CoreNetworksClient.CorenetworksClient.FindZone;
    this module is the reference it is proved against. */
module Zones {
  import opened Errors
  import opened DomainNames

  /** What the provider reports for a zone: the "active" flag and the "type". */
  datatype ZoneInfo = ZoneInfo(active: bool, kind: string)

  const Master: string := "master"

  /** The zones an account can look up. A name that is not a key stands for a
      lookup that raises CoreNetworksException. */
  type ZoneDirectory = map<string, ZoneInfo>

  /** Index of the first guess the provider knows, or |guesses| if none. */
  function FirstKnown(zones: ZoneDirectory, guesses: seq<string>): (i: nat)
    ensures i <= |guesses|
    ensures forall j :: 0 <= j < i ==> guesses[j] !in zones
    ensures i < |guesses| ==> guesses[i] in zones
  {
    if guesses == [] then 0
    else if guesses[0] in zones then 0
    else 1 + FirstKnown(zones, guesses[1..])
  }

  /** The zone that _find_zone settles on for `domainName`: the first guess the
      provider knows decides, and it is accepted only if it is active and a
      master zone; when no guess is known, the search fails. */
  function FindZoneSpec(zones: ZoneDirectory, domainName: string): (r: Result<string>)
    ensures var gs := BaseDomainNameGuesses(domainName);
      r.Ok? ==> (r.value in gs && r.value in zones
                 && zones[r.value].active && zones[r.value].kind == Master)
    ensures var gs := BaseDomainNameGuesses(domainName);
      r == Err(NoBaseDomain(domainName, gs)) <==> forall g :: g in gs ==> g !in zones
    ensures r.Err? && r.error.ZoneInactive? ==>
      r.error.zone in zones && !zones[r.error.zone].active
    ensures r.Err? && r.error.ZoneNotMaster? ==>
      r.error.zone in zones && zones[r.error.zone].active && zones[r.error.zone].kind != Master
  {
    var gs := BaseDomainNameGuesses(domainName);
    var i := FirstKnown(zones, gs);
    if i == |gs| then Err(NoBaseDomain(domainName, gs))
    else if !zones[gs[i]].active then Err(ZoneInactive(gs[i]))
    else if zones[gs[i]].kind != Master then Err(ZoneNotMaster(gs[i]))
    else Ok(gs[i])
  }

  /** A guess the provider knows, with none known before it, decides the
      outcome: an inactive or non-master zone fails at once (the active check
      first), whatever later guesses would have given. */
  lemma FirstHitDecides(zones: ZoneDirectory, domainName: string, i: nat)
    requires var gs := BaseDomainNameGuesses(domainName);
      i < |gs| && gs[i] in zones && forall j :: 0 <= j < i ==> gs[j] !in zones
    ensures var gs := BaseDomainNameGuesses(domainName);
      FindZoneSpec(zones, domainName) ==
        if !zones[gs[i]].active then Err(ZoneInactive(gs[i]))
        else if zones[gs[i]].kind != Master then Err(ZoneNotMaster(gs[i]))
        else Ok(gs[i])
  {
  }

  /** The zone found is the most specific one the provider knows: no longer
      guess is known, so a parent zone is never chosen over a child. */
  lemma FoundZoneIsMostSpecific(zones: ZoneDirectory, domainName: string, g: string)
    requires FindZoneSpec(zones, domainName).Ok?
    requires g in BaseDomainNameGuesses(domainName) && g in zones
    ensures |g| <= |FindZoneSpec(zones, domainName).value|
  {
    var gs := BaseDomainNameGuesses(domainName);
    var i := FirstKnown(zones, gs);
    var j :| 0 <= j < |gs| && gs[j] == g;
    assert i <= j;
    GuessesShrink(domainName);
  }

  /** Zone data after the deciding guess is never consulted: two directories
      that agree on the guesses up to and including the first one known to the
      first directory give the same outcome. */
  lemma {:induction false} LaterGuessesIrrelevant(z1: ZoneDirectory, z2: ZoneDirectory, guesses: seq<string>)
    requires var i := FirstKnown(z1, guesses);
      forall j :: 0 <= j < |guesses| && j <= i ==>
        (guesses[j] in z1 <==> guesses[j] in z2)
        && (guesses[j] in z1 ==> z1[guesses[j]] == z2[guesses[j]])
    ensures FirstKnown(z2, guesses) == FirstKnown(z1, guesses)
    ensures FirstKnown(z1, guesses) < |guesses| ==>
      z2[guesses[FirstKnown(z1, guesses)]] == z1[guesses[FirstKnown(z1, guesses)]]
  {
    if guesses != [] && guesses[0] !in z1 {
      assert guesses[0] !in z2;
      var tail := guesses[1..];
      forall j | 0 <= j < |tail| && j <= FirstKnown(z1, tail)
        ensures (tail[j] in z1 <==> tail[j] in z2) && (tail[j] in z1 ==> z1[tail[j]] == z2[tail[j]])
      {
        assert tail[j] == guesses[j + 1];
      }
      LaterGuessesIrrelevant(z1, z2, tail);
    }
  }

  /** A two-label name such as example.com guesses itself, then its top-level
      label. */
  lemma GuessesOfTwoLabels(c: string, d: string)
    requires '.' !in c && '.' !in d
    ensures BaseDomainNameGuesses(c + "." + d) == [c + "." + d, d]
  {
    GuessesOfLabel(d);
    GuessesOfDotted(c, d);
  }

  /** A three-label name guesses itself, then the two guesses of its parent. */
  lemma GuessesOfThreeLabels(b: string, c: string, d: string)
    requires '.' !in b && '.' !in c && '.' !in d
    ensures BaseDomainNameGuesses(b + "." + (c + "." + d)) == [b + "." + (c + "." + d), c + "." + d, d]
  {
    GuessesOfTwoLabels(c, d);
    GuessesOfDotted(b, c + "." + d);
  }

  /** The guesses of a four-label name such as
      _acme-challenge.foo.example.com: the name, then each parent domain down
      to the top-level label, most specific first. */
  lemma GuessesOfFourLabels(a: string, b: string, c: string, d: string)
    requires '.' !in a && '.' !in b && '.' !in c && '.' !in d
    ensures var parent := b + "." + (c + "." + d);
      BaseDomainNameGuesses(a + "." + parent) == [a + "." + parent, parent, c + "." + d, d]
  {
    var parent := b + "." + (c + "." + d);
    var rest := BaseDomainNameGuesses(parent);
    assert rest == [parent, c + "." + d, d] by {
      GuessesOfThreeLabels(b, c, d);
    }
    assert BaseDomainNameGuesses(a + "." + parent) == [a + "." + parent] + rest by {
      GuessesOfDotted(a, parent);
    }
  }
}

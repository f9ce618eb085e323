/** _CorenetworksClient: one logged-in session with the provider. The remote
    account it talks to is held in the object itself: the zones the account
    can look up and the calls that raise CoreNetworksException do not change,
    the record store does. */
module CoreNetworksClient {
  import opened Errors
  import opened DomainNames
  import opened Zones
  import opened Records

  /** Provider calls that can raise CoreNetworksException. Zone lookups are
      not listed: a zone lookup that raises is a name missing from the zone
      directory. */
  datatype Call = AddRecord | QueryRecords | DeleteRecord

  /** The remote account as the provider holds it. */
  datatype Account = Account(zones: ZoneDirectory, records: seq<Record>, faults: set<Call>)

  /** The record add_txt_record sends for `recordName` in `zone`: a TXT
      record carrying the content and ttl, under the name with the zone
      suffix stripped. */
  function TxtRecord(zone: string, recordName: string, content: string, ttl: int): (rec: Record)
    ensures rec.zone == zone && rec.rtype == Txt && rec.data == content && rec.ttl == ttl
    ensures rec.name == recordName || rec.name + "." + zone == recordName
  {
    Record(zone, RelativeName(recordName, zone), Txt, content, ttl)
  }

  /** The filter del_txt_record queries and deletes with. It matches the
      record add_txt_record creates for the same arguments, whatever its ttl. */
  function TxtFilter(zone: string, recordName: string, content: string): (f: Filter)
    ensures forall ttl :: f.Matches(TxtRecord(zone, recordName, content, ttl))
  {
    Filter(zone, RelativeName(recordName, zone), Txt, content)
  }

  /** What add_txt_record returns on an account with these zones and failing
      calls. */
  function AddOutcome(zones: ZoneDirectory, faults: set<Call>, domainName: string, recordName: string): (r: Result<()>)
    ensures r.Ok? <==> FindZoneSpec(zones, recordName).Ok? && AddRecord !in faults
    ensures FindZoneSpec(zones, recordName).Err? ==> r == Err(FindZoneSpec(zones, recordName).error)
  {
    match FindZoneSpec(zones, recordName)
    case Err(e) => Err(e)
    case Ok(zone) =>
      if AddRecord in faults then Err(AddFailed(recordName, zone, domainName)) else Ok(())
  }

  /** What del_txt_record returns on an account with these zones, failing
      calls and records. */
  function DelOutcome(zones: ZoneDirectory, faults: set<Call>, records: seq<Record>,
                      domainName: string, recordName: string, content: string): (r: Result<()>)
    ensures r.Ok? <==> (FindZoneSpec(zones, recordName).Ok? && QueryRecords !in faults && DeleteRecord !in faults
      && |Query(records, TxtFilter(FindZoneSpec(zones, recordName).value, recordName, content))| == 1)
    ensures FindZoneSpec(zones, recordName).Err? ==> r == Err(FindZoneSpec(zones, recordName).error)
  {
    match FindZoneSpec(zones, recordName)
    case Err(e) => Err(e)
    case Ok(zone) =>
      var f := TxtFilter(zone, recordName, content);
      var found := Query(records, f);
      // a record the query returns matches the filter, so it has its name
      assert |found| == 1 ==> found[0] in found;
      if QueryRecords in faults then Err(RecordLookupFailed(recordName))
      else if |found| != 1 || found[0].name != f.name then Err(RecordNotFound(recordName))
      else if DeleteRecord in faults then Err(DeleteFailed(recordName, zone, domainName))
      else Ok(())
  }

  class CorenetworksClient {
    const zones: ZoneDirectory
    const faults: set<Call>
    var records: seq<Record>

    constructor (account: Account)
      ensures zones == account.zones && faults == account.faults && records == account.records
    {
      zones := account.zones;
      faults := account.faults;
      records := account.records;
    }

    /** _find_zone: try the guesses in order, skip those whose lookup raises,
        and let the first one that answers decide. */
    method FindZone(domainName: string) returns (r: Result<string>)
      ensures r == FindZoneSpec(zones, domainName)
      ensures r.Ok? ==> r.value in BaseDomainNameGuesses(domainName) && r.value in zones
    {
      var guesses := BaseDomainNameGuesses(domainName);
      for i := 0 to |guesses|
        invariant forall j :: 0 <= j < i ==> guesses[j] !in zones
      {
        var guess := guesses[i];
        if guess !in zones {
          continue;
        }
        var info := zones[guess];
        assert FirstKnown(zones, guesses) == i;
        if !info.active {
          return Err(ZoneInactive(guess));
        }
        if info.kind != Master {
          return Err(ZoneNotMaster(guess));
        }
        return Ok(guess);
      }
      return Err(NoBaseDomain(domainName, guesses));
    }

    /** add_txt_record: find the zone, then add {name, "TXT", data, ttl} with
        the name made relative to the zone. */
    method AddTxtRecord(domainName: string, recordName: string, content: string, ttl: int)
      returns (r: Result<()>)
      modifies this`records
      ensures r == AddOutcome(zones, faults, domainName, recordName)
      ensures FindZoneSpec(zones, recordName).Err? ==>
        r == Err(FindZoneSpec(zones, recordName).error) && records == old(records)
      ensures FindZoneSpec(zones, recordName).Ok? && AddRecord in faults ==>
        r == Err(AddFailed(recordName, FindZoneSpec(zones, recordName).value, domainName))
        && records == old(records)
      ensures FindZoneSpec(zones, recordName).Ok? && AddRecord !in faults ==>
        r == Ok(()) && records == old(records) + [TxtRecord(FindZoneSpec(zones, recordName).value, recordName, content, ttl)]
    {
      var zone :- FindZone(recordName);
      var name := RelativeName(recordName, zone);
      if AddRecord in faults {
        return Err(AddFailed(recordName, zone, domainName));
      }
      records := records + [Record(zone, name, Txt, content, ttl)];
      return Ok(());
    }

    /** del_txt_record: find the zone, query the TXT records with the relative
        name and the content, require exactly one answer carrying that name,
        then delete with the same filter. */
    method DelTxtRecord(domainName: string, recordName: string, content: string)
      returns (r: Result<()>)
      modifies this`records
      ensures r == DelOutcome(zones, faults, old(records), domainName, recordName, content)
      ensures FindZoneSpec(zones, recordName).Err? ==>
        r == Err(FindZoneSpec(zones, recordName).error) && records == old(records)
      ensures FindZoneSpec(zones, recordName).Ok? ==>
        var f := TxtFilter(FindZoneSpec(zones, recordName).value, recordName, content);
        var found := Query(old(records), f);
        if QueryRecords in faults then
          r == Err(RecordLookupFailed(recordName)) && records == old(records)
        else if |found| != 1 || found[0].name != f.name then
          r == Err(RecordNotFound(recordName)) && records == old(records)
        else if DeleteRecord in faults then
          r == Err(DeleteFailed(recordName, f.zone, domainName)) && records == old(records)
        else
          r == Ok(()) && records == DeleteMatching(old(records), f)
      ensures r.Ok? ==> (|records| == |old(records)| - 1
        && exists x :: x in old(records) && multiset(records) == multiset(old(records)) - multiset{x})
    {
      var zone :- FindZone(recordName);
      var name := RelativeName(recordName, zone);
      var f := Filter(zone, name, Txt, content);
      if QueryRecords in faults {
        return Err(RecordLookupFailed(recordName));
      }
      var info := Query(records, f);
      if |info| != 1 || info[0].name != name {
        return Err(RecordNotFound(recordName));
      }
      if DeleteRecord in faults {
        return Err(DeleteFailed(recordName, zone, domainName));
      }
      DeleteOfSingleMatch(records, f);
      records := DeleteMatching(records, f);
      return Ok(());
    }
  }

  /** For a record name n + "." + zone, add sends exactly
      {name: n, type: "TXT", data: content, ttl}. */
  lemma AddSendsRelativeName(n: string, zone: string, content: string, ttl: int)
    ensures TxtRecord(zone, n + "." + zone, content, ttl) == Record(zone, n, Txt, content, ttl)
  {
    RelativeNameOfQualified(n, zone);
  }

  /** The record a perform adds is the record the matching cleanup deletes:
      if no such record existed before, the cleanup's query finds exactly the
      added record, under the relative name it checks, and its delete restores
      the store. */
  lemma AddThenDelTxtRestores(store: seq<Record>, zone: string, recordName: string, content: string, ttl: int)
    requires Query(store, TxtFilter(zone, recordName, content)) == []
    ensures var rec := TxtRecord(zone, recordName, content, ttl);
      var f := TxtFilter(zone, recordName, content);
      Query(store + [rec], f) == [rec] && rec.name == f.name && DeleteMatching(store + [rec], f) == store
  {
    AddThenDeleteRestores(store, TxtRecord(zone, recordName, content, ttl), TxtFilter(zone, recordName, content));
  }

  /** The outcomes of a perform followed by its cleanup on one account: with
      the zone found, no failing call and no matching record beforehand, the add
      succeeds, the delete then finds exactly the added record and succeeds,
      and the delete restores the store. */
  lemma AddThenDelOutcomes(zones: ZoneDirectory, faults: set<Call>, store: seq<Record>,
                           domainName: string, recordName: string, content: string, ttl: int)
    requires FindZoneSpec(zones, recordName).Ok? && faults == {}
    requires Query(store, TxtFilter(FindZoneSpec(zones, recordName).value, recordName, content)) == []
    ensures AddOutcome(zones, faults, domainName, recordName) == Ok(())
    ensures var zone := FindZoneSpec(zones, recordName).value;
      var added := store + [TxtRecord(zone, recordName, content, ttl)];
      DelOutcome(zones, faults, added, domainName, recordName, content) == Ok(())
      && DeleteMatching(added, TxtFilter(zone, recordName, content)) == store
  {
    AddThenDelTxtRestores(store, FindZoneSpec(zones, recordName).value, recordName, content, ttl);
  }

  /** The concrete challenge: _acme-challenge.example.com with value abc123
      in zone example.com is added as {_acme-challenge, TXT, abc123, 300}. */
  lemma ExampleChallengeRecord()
    ensures TxtRecord("example.com", "_acme-challenge.example.com", "abc123", 300)
      == Record("example.com", "_acme-challenge", "TXT", "abc123", 300)
  {
    assert "_acme-challenge" + "." + "example.com" == "_acme-challenge.example.com";
    AddSendsRelativeName("_acme-challenge", "example.com", "abc123", 300);
  }
}

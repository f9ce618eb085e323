/** The provider's record store for one account, as a sequence of records,
    and the two filtered operations the client uses on it: the record query and
    the record delete, both keyed by zone, name, type and data. */
module Records {

  datatype Record = Record(zone: string, name: string, rtype: string, data: string, ttl: int)

  const Txt: string := "TXT"

  /** The filter sent with `records` and `delete_record`: the zone argument
      plus the {name, type, data} dictionary. The ttl takes no part in it. */
  datatype Filter = Filter(zone: string, name: string, rtype: string, data: string) {
    predicate Matches(r: Record) {
      r.zone == zone && r.name == name && r.rtype == rtype && r.data == data
    }
  }

  /** The records the provider returns for a query, in store order. */
  function Query(store: seq<Record>, f: Filter): (q: seq<Record>)
    ensures forall r :: r in q <==> r in store && f.Matches(r)
    ensures |q| <= |store|
  {
    if store == [] then []
    else (if f.Matches(store[0]) then [store[0]] else []) + Query(store[1..], f)
  }

  /** The store after the provider deletes every record the filter matches. */
  function DeleteMatching(store: seq<Record>, f: Filter): (s: seq<Record>)
    ensures forall r :: r in s <==> r in store && !f.Matches(r)
    ensures |s| <= |store|
  {
    if store == [] then []
    else (if f.Matches(store[0]) then [] else [store[0]]) + DeleteMatching(store[1..], f)
  }

  /** A delete splits the store: what it keeps and what the same query
      returns together make up the old store, record for record. */
  lemma {:induction false} DeletePartitions(store: seq<Record>, f: Filter)
    ensures multiset(DeleteMatching(store, f)) + multiset(Query(store, f)) == multiset(store)
  {
    if store != [] {
      var h, t := store[0], store[1..];
      DeletePartitions(t, f);
      assert store == [h] + t;
      assert multiset(store) == multiset{h} + multiset(t);
      if f.Matches(h) {
        assert Query(store, f) == [h] + Query(t, f);
        assert DeleteMatching(store, f) == DeleteMatching(t, f);
      } else {
        assert Query(store, f) == Query(t, f);
        assert DeleteMatching(store, f) == [h] + DeleteMatching(t, f);
      }
    }
  }

  /** When the query finds exactly one record, the delete removes exactly
      that record and nothing else. */
  lemma DeleteOfSingleMatch(store: seq<Record>, f: Filter)
    requires |Query(store, f)| == 1
    ensures multiset(DeleteMatching(store, f)) == multiset(store) - multiset{Query(store, f)[0]}
    ensures |DeleteMatching(store, f)| == |store| - 1
  {
    DeletePartitions(store, f);
    var q := Query(store, f);
    assert multiset(q) == multiset{q[0]} by { assert q == [q[0]]; }
    assert |multiset(DeleteMatching(store, f))| + 1 == |multiset(store)|;
  }

  /** Adding a record and querying finds what was there plus the new record
      if it matches. */
  lemma {:induction false} QueryAfterAppend(store: seq<Record>, r: Record, f: Filter)
    ensures Query(store + [r], f) == Query(store, f) + (if f.Matches(r) then [r] else [])
  {
    if store == [] {
      assert store + [r] == [r];
    } else {
      assert (store + [r])[1..] == store[1..] + [r];
      QueryAfterAppend(store[1..], r, f);
    }
  }

  /** Deleting from a store with an added record removes that record too if
      it matches. */
  lemma {:induction false} DeleteAfterAppend(store: seq<Record>, r: Record, f: Filter)
    ensures DeleteMatching(store + [r], f) == DeleteMatching(store, f) + (if f.Matches(r) then [] else [r])
  {
    if store == [] {
      assert store + [r] == [r];
    } else {
      assert (store + [r])[1..] == store[1..] + [r];
      DeleteAfterAppend(store[1..], r, f);
    }
  }

  /** A filter that matches nothing deletes nothing. */
  lemma {:induction false} DeleteNothing(store: seq<Record>, f: Filter)
    requires Query(store, f) == []
    ensures DeleteMatching(store, f) == store
  {
    if store != [] {
      DeleteNothing(store[1..], f);
    }
  }

  /** Adding a record and then deleting with a filter that matches it restores
      the store, provided nothing matched before the add: the query between
      the two finds exactly that record. */
  lemma AddThenDeleteRestores(store: seq<Record>, r: Record, f: Filter)
    requires f.Matches(r) && Query(store, f) == []
    ensures Query(store + [r], f) == [r]
    ensures DeleteMatching(store + [r], f) == store
  {
    QueryAfterAppend(store, r, f);
    DeleteAfterAppend(store, r, f);
    DeleteNothing(store, f);
  }
}

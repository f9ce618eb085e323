# Core Networks DNS-01 authenticator, modelled in Dafny

This project models the decision logic of the certbot plugin
`certbot_dns_corenetworks`. The plugin answers ACME DNS-01 challenges by
publishing a TXT record through the Core Networks DNS API.

For one challenge, `perform`:

1. takes the validation name (`_acme-challenge.<domain>`) and follows any CNAME
   chain on it through public DNS, caching the result per validation name;
2. gets the API client for the configured credentials file, creating and
   caching it once per file path;
3. finds the zone hosted at Core Networks by trying the name's base-domain
   guesses, most specific first;
4. adds a TXT record whose name is relative to that zone.

`cleanup` reads the resolved name back from the cache. It finds the zone again,
requires the record query to return exactly one matching record, and deletes
with the same filter.

Network I/O is replaced by values:

- the provider account is a `CoreNetworksClient.Account` holding a zone
  directory (a name that is absent is a lookup that raises
  `CoreNetworksException`), a record store (a sequence of records) and the set of
  record calls that raise;
- public DNS is a `Cnames.Resolver` holding a table of CNAME answers, plus a flag
  saying whether the `dns` library could be imported;
- every exception becomes an `Errors.Error` value inside a `Result`.

Modules, one file each:

| file | module | models |
|---|---|---|
| errors.dfy | `Errors` | the failures (`PluginError` with its reason, `KeyError` from the name cache) |
| domain_names.dfy | `DomainNames` | base-domain guesses; the relative-name suffix strip and the regular expression it is written with |
| zones.dfy | `Zones` | the outcome of `_find_zone` as a function, and its properties |
| records.dfy | `Records` | the record store, the filtered query and the filtered delete |
| cnames.dfy | `Cnames` | the outcome of `_follow_cnames` as a function, and its properties |
| client.dfy | `CoreNetworksClient` | class `_CorenetworksClient`: `_find_zone` (a loop), `add_txt_record`, `del_txt_record` |
| authenticator.dfy | `DnsAuthenticator` | class `Authenticator`: the two caches, `_follow_cnames` (a loop), `_perform`, `_cleanup`, `_get_corenetworks_client` |

Assumption: certbot's `dns_common.base_domain_name_guesses` lives in certbot,
not in this plugin. `DomainNames.BaseDomainNameGuesses` defines it the way certbot
does: split the name at every `.` and join each suffix of the fragment list,
from the whole name down to the last label.

In these places the model follows the code as written:

- every failure is a `PluginError` in the code. The distinct error kinds here
  only name the message each raise carries.
- an empty zone list from the provider raises an uncaught `IndexError` at line
  212, rather than falling through to the next guess (see Left out).
- a cleanup with no name-cache entry raises `KeyError` at line 101.
  `Authenticator.Cleanup` returns `NotInNameCache`.
- the regular expression at lines 142 and 174 interpolates the zone without
  escaping it. `DomainNames.RegexAgreesOnGuesses` proves this makes no
  difference for the zones `_find_zone` can return.

When the record name is itself a hosted zone (the first guess), nothing is
stripped. The name sent is then the full record name
(`DomainNames.RelativeNameOfGuess`).

## Model

| member | source | states |
|---|---|---|
| DomainNames.BaseDomainNameGuesses | certbot_dns_corenetworks/dns_corenetworks.py:207 | the first guess is the record name itself (certbot's definition, assumed) |
| DomainNames.GuessesShrink | certbot_dns_corenetworks/dns_corenetworks.py:207-209 | every later guess is a label suffix of the name, and the guesses get strictly shorter, so they are tried most specific first |
| DomainNames.GuessesAreLabelSuffixes | certbot_dns_corenetworks/dns_corenetworks.py:207 | a zone is among the guesses iff it is the name or a label suffix of it, so every candidate zone is tried and nothing else |
| DomainNames.GuessesOfDotted | certbot_dns_corenetworks/dns_corenetworks.py:207 | the guesses of `head.rest` are `head.rest` followed by the guesses of `rest` |
| DomainNames.GuessesOfLabel | certbot_dns_corenetworks/dns_corenetworks.py:207 | a single label is its own only guess |
| DomainNames.RelativeName | certbot_dns_corenetworks/dns_corenetworks.py:142 | the relative name is either the record name unchanged or the prefix `n` with `n + "." + zone == recordName` |
| DomainNames.RelativeNameOfQualified | certbot_dns_corenetworks/dns_corenetworks.py:174 | for a record name `n + "." + zone`, the relative name is exactly `n` |
| DomainNames.RelativeNameOfLabelSuffix | certbot_dns_corenetworks/dns_corenetworks.py:142 | for a zone that is a label suffix of the record name, the relative name, a dot and the zone rebuild the record name |
| DomainNames.RelativeNameOfGuess | certbot_dns_corenetworks/dns_corenetworks.py:141-142 | for a zone among the guesses: nothing is stripped when the zone is the whole name, and otherwise the relative name, a dot and the zone rebuild the record name |
| DomainNames.RegexRelativeName | certbot_dns_corenetworks/dns_corenetworks.py:142 | what the substitution with the unescaped pattern `\.{zone}$` leaves: the record name unchanged, or its prefix `n` where the rest is a dot and a string the zone matches with each of its dots read as any character; the substitution fires exactly when the name ends in a dot followed by such a string |
| DomainNames.RegexAgreesOnLabelSuffix | certbot_dns_corenetworks/dns_corenetworks.py:142 | for a label-suffix zone the unescaped pattern and the literal suffix strip give the same relative name |
| DomainNames.RegexAgreesOnGuesses | certbot_dns_corenetworks/dns_corenetworks.py:142 | the unescaped pattern `\.{zone}$` (every dot a wildcard) strips exactly what the literal suffix strip does whenever the zone is one of the name's guesses |
| DomainNames.RegexDiffersOffGuesses | certbot_dns_corenetworks/dns_corenetworks.py:174 | off the guesses the pattern differs: `b.c` matches `bxc`, so the two strips of `a.bxc` disagree |
| Zones.FirstKnown | certbot_dns_corenetworks/dns_corenetworks.py:209-214 | the index of the first guess whose lookup does not raise: every earlier lookup raises, and the one at the index succeeds |
| Zones.FindZoneSpec | certbot_dns_corenetworks/dns_corenetworks.py:198-228 | a found zone is a guess known to the provider that is active and master; the no-base-domain error happens exactly when every guess's lookup raises; an inactive error names an inactive known zone, a not-master error an active known non-master zone |
| Zones.FirstHitDecides | certbot_dns_corenetworks/dns_corenetworks.py:216-222 | the first guess the provider knows decides the outcome: inactive fails, then non-master fails, otherwise it is returned, whatever later guesses would give |
| Zones.FoundZoneIsMostSpecific | certbot_dns_corenetworks/dns_corenetworks.py:209-222 | no known guess is longer than the zone found, so a parent zone never wins over a hosted child |
| Zones.LaterGuessesIrrelevant | certbot_dns_corenetworks/dns_corenetworks.py:209-222 | two zone directories that agree up to and including the deciding guess give the same deciding guess and zone data |
| Zones.GuessesOfTwoLabels | certbot_dns_corenetworks/dns_corenetworks.py:207 | a two-label name such as `example.com` is tried as itself, then as its top-level label |
| Zones.GuessesOfThreeLabels | certbot_dns_corenetworks/dns_corenetworks.py:207 | a three-label name is tried as itself, then as its parent, then as the top-level label |
| Zones.GuessesOfFourLabels | certbot_dns_corenetworks/dns_corenetworks.py:207 | a four-label name such as `_acme-challenge.foo.example.com` is tried as itself, `foo.example.com`, `example.com`, `com`, in that order |
| Records.Query | certbot_dns_corenetworks/dns_corenetworks.py:177 | the query returns exactly the stored records the filter matches |
| Records.DeleteMatching | certbot_dns_corenetworks/dns_corenetworks.py:190 | the delete keeps exactly the stored records the filter does not match |
| Records.DeletePartitions | certbot_dns_corenetworks/dns_corenetworks.py:177-190 | what the delete keeps plus what the same query returns is the old store, as a multiset |
| Records.DeleteOfSingleMatch | certbot_dns_corenetworks/dns_corenetworks.py:178-190 | when the query returns one record, the delete removes exactly that record and no other |
| Records.QueryAfterAppend | certbot_dns_corenetworks/dns_corenetworks.py:145-152 | after an add, the query returns what it returned before plus the new record if it matches |
| Records.DeleteAfterAppend | certbot_dns_corenetworks/dns_corenetworks.py:189-190 | after an add, the delete keeps what it kept before plus the new record if it does not match |
| Records.DeleteNothing | certbot_dns_corenetworks/dns_corenetworks.py:190 | a filter that matches nothing deletes nothing |
| Records.AddThenDeleteRestores | certbot_dns_corenetworks/dns_corenetworks.py:145-190 | adding a record nothing else matched and deleting with its filter restores the store, and the query in between returns just that record |
| CoreNetworksClient.CorenetworksClient.constructor | certbot_dns_corenetworks/dns_corenetworks.py:121-123 | a client is a logged-in session on the given account |
| CoreNetworksClient.TxtRecord | certbot_dns_corenetworks/dns_corenetworks.py:141-152 | the record sent lies in the zone, has type TXT, the content and the ttl, and its name is the record name or the prefix that a dot and the zone complete |
| CoreNetworksClient.TxtFilter | certbot_dns_corenetworks/dns_corenetworks.py:173-177 | the filter of the delete matches the record the add creates for the same zone, record name and content, whatever its ttl |
| CoreNetworksClient.AddOutcome | certbot_dns_corenetworks/dns_corenetworks.py:127-158 | add_txt_record succeeds iff the zone is found and the add does not raise; a zone failure is returned as it is |
| CoreNetworksClient.DelOutcome | certbot_dns_corenetworks/dns_corenetworks.py:160-196 | del_txt_record succeeds iff the zone is found, neither the query nor the delete raises, and the query returns exactly one record; a zone failure is returned as it is |
| CoreNetworksClient.CorenetworksClient.FindZone | certbot_dns_corenetworks/dns_corenetworks.py:198-228 | the guess loop with `continue` and early returns computes exactly the reference outcome `FindZoneSpec` |
| CoreNetworksClient.CorenetworksClient.AddTxtRecord | certbot_dns_corenetworks/dns_corenetworks.py:127-158 | returns `AddOutcome` on the client's account; a zone failure or a failing add leaves the store unchanged with that error; otherwise exactly the record {relative name, TXT, content, ttl} in the found zone is appended |
| CoreNetworksClient.CorenetworksClient.DelTxtRecord | certbot_dns_corenetworks/dns_corenetworks.py:160-196 | returns `DelOutcome` on the client's account; zone failure, failing query, a query result that is not exactly one record with the relative name, or a failing delete each leave the store unchanged with their error; otherwise the store is the old one minus the records the same filter matches, one record fewer |
| CoreNetworksClient.AddSendsRelativeName | certbot_dns_corenetworks/dns_corenetworks.py:141-152 | for a record name `n + "." + zone`, add sends exactly {name: n, type: TXT, data, ttl} |
| CoreNetworksClient.AddThenDelTxtRestores | certbot_dns_corenetworks/dns_corenetworks.py:141-196 | the record an add creates passes the delete's exactly-one check (one match, same name), and the delete restores the store |
| CoreNetworksClient.AddThenDelOutcomes | certbot_dns_corenetworks/dns_corenetworks.py:127-196 | with the zone found, no failing call and no matching record beforehand, the add succeeds, the delete on the store with the added record succeeds, and that delete restores the store |
| CoreNetworksClient.ExampleChallengeRecord | certbot_dns_corenetworks/dns_corenetworks.py:145-152 | `_acme-challenge.example.com`, value `abc123`, zone `example.com` is added as {`_acme-challenge`, TXT, `abc123`, 300} |
| Cnames.Follow | certbot_dns_corenetworks/dns_corenetworks.py:71-86 | a resolved name has no CNAME (no answer, NXDOMAIN or an empty answer), and is the start name or some CNAME's first target; errors are lookup failure or fuel exhaustion only; with fuel left, a name without CNAME resolves to itself (with no fuel every resolution fails with fuel exhaustion) |
| Cnames.Resolve | certbot_dns_corenetworks/dns_corenetworks.py:56-86 | what _follow_cnames returns: the name unchanged when the resolver library is missing; otherwise a name without CNAME, or a lookup failure or fuel exhaustion |
| Cnames.HardFailureAborts | certbot_dns_corenetworks/dns_corenetworks.py:82-85 | an answer that is neither a CNAME nor terminal is a timeout, YXDOMAIN or no-nameservers, and aborts with the lookup error |
| Cnames.FollowStep | certbot_dns_corenetworks/dns_corenetworks.py:75-77 | following the first target does not change the outcome |
| Cnames.ChainOfTwo | certbot_dns_corenetworks/dns_corenetworks.py:73-86 | a -> b -> c with no CNAME at c resolves a to c |
| Cnames.FuelMonotone | certbot_dns_corenetworks/dns_corenetworks.py:73 | any outcome other than fuel exhaustion is the same for every larger fuel, so it is the unbounded loop's outcome |
| Cnames.CycleNeverResolves | certbot_dns_corenetworks/dns_corenetworks.py:73-85 | on a CNAME cycle a -> b -> a no fuel suffices: the loop does not terminate |
| DnsAuthenticator.Authenticator.constructor | certbot_dns_corenetworks/dns_corenetworks.py:25-28 | both caches start empty and the ttl is 300 |
| DnsAuthenticator.Authenticator.FollowCnames | certbot_dns_corenetworks/dns_corenetworks.py:56-86 | without the resolver library the name is returned unchanged; otherwise the loop computes exactly `Cnames.Follow` |
| DnsAuthenticator.Authenticator.GetCorenetworksClient | certbot_dns_corenetworks/dns_corenetworks.py:104-115 | a cached path returns its client and changes nothing; otherwise a fresh client for the account is created and cached under the path; a rejected login caches nothing; distinct paths never share a client |
| DnsAuthenticator.Authenticator.Perform | certbot_dns_corenetworks/dns_corenetworks.py:88-98 | name-cache entries are never overwritten; a hit reuses the entry; a miss stores a successful resolution under the validation name; a failed resolution is returned before any client is obtained; otherwise the result is exactly `AddOutcome` on the cached client's account, `LoginFailed` for unknown credentials, or `AddOutcome` on the new client's account; the client cache is unchanged or gains exactly the new client under the credentials path; the client's store gains exactly the TXT record for the resolved name iff the result is Ok; other clients are untouched |
| DnsAuthenticator.Authenticator.Cleanup | certbot_dns_corenetworks/dns_corenetworks.py:100-102 | the name cache is only read; without an entry it fails before any client is obtained; otherwise the result is exactly `DelOutcome` on the cached client's account, `LoginFailed` for unknown credentials, or `DelOutcome` on the new client's account; the client cache is unchanged or gains exactly the new client; the store loses the records the filter matches iff the result is Ok; other clients are untouched |
| DnsAuthenticator.Authenticator.PerformThenCleanup | certbot_dns_corenetworks/dns_corenetworks.py:88-102 | a perform and then the cleanup of the same challenge both succeed when the name resolves, a client is at hand, its account has the zone, no call fails and no matching TXT record exists beforehand; the name cache keeps the resolved name and the client's records end as they were before the perform |

## Left out

- The `corenetworks` HTTP library (`CoreNetworks`, `zone`, `records`, `add_record`, `delete_record`) is foreign network code. An `Account` value stands for it. Each client holds its own copy of the account, so two cache entries that log in with the same credentials do not see each other's records.
- The provider's filter semantics for `records` are not documented by the `corenetworks` library. The model assumes an exact match on zone, name, type and data. Under that assumption the name re-check at line 178 never fails once exactly one record is returned.
- dnspython (`dns.resolver`, `dns.name`) is network code. A table of answers stands for it. Its text normalisation (the root dot dropped by `to_text(True)`, escapes, `@` for the root) is not modelled: names are taken in their final text form. Resolver exceptions other than the five the code names are not modelled.
- DnsAuthenticator.Authenticator.FollowCnames: the code's loop has no bound. The model gives it fuel (`Environment.cnameFuel`), and `CnameChainTooLong` has no counterpart in the code. `Cnames.FuelMonotone` and `Cnames.CycleNeverResolves` relate the bounded model to the unbounded loop.
- certbot's `base_domain_name_guesses` lives in certbot, not in this plugin. It is defined as certbot defines it, as an assumption.
- The regular expression at lines 142 and 174 is modelled only for `.`. Other metacharacters in a zone name, and `$` matching before a trailing newline, are not modelled. Domain names contain neither.
- An empty zone list from the provider raises `IndexError` at line 212, which the code does not catch. The model treats a lookup as either succeeding with one zone or raising.
- The `active` value is modelled as a boolean, not as Python truthiness.
- Credentials file parsing and its missing-field errors (`_setup_credentials`), argument registration, `more_info` and the zope plugin wiring are certbot glue.
- certbot's `perform`/`cleanup` drivers (iterating over challenges, the propagation wait) are certbot code outside this plugin.
- Logging (lines 96, 210, 216) and the text of error messages are not modelled.
- The name and client caches are class attributes in the code (lines 27-28), shared by every authenticator instance. The model keeps them as fields of one `Authenticator` object that stands for that shared state, so its constructor starts both caches empty, and two model objects do not share entries the way two Python instances would.
- There is no concurrency: the code takes no locks and runs sequentially.
- `setup.py` is packaging only. `tests/dns_corenetwork_test.py` is a mock-based harness.

/** Domain-name string handling: certbot's base-domain guesses and the
    relative record name obtained by stripping the zone suffix. */
module DomainNames {

  /** Index of the first '.' in `s`, or |s| when `s` has none. */
  function FirstDot(s: string): (i: nat)
    ensures i <= |s|
    ensures i < |s| ==> s[i] == '.'
    ensures forall j :: 0 <= j < i ==> s[j] != '.'
  {
    if s == [] || s[0] == '.' then 0 else 1 + FirstDot(s[1..])
  }

  /** `zone` is what is left of `name` after dropping one or more leading
      labels: a proper suffix of `name` that starts right after a '.'. */
  predicate IsLabelSuffix(zone: string, name: string) {
    |zone| < |name| && name[|name| - |zone| - 1] == '.' && name[|name| - |zone|..] == zone
  }

  /** certbot's dns_common.base_domain_name_guesses, which this model assumes
      rather than verifies: split the name at every '.', and join each suffix of
      the fragment list, from the whole name down to the last fragment. */
  function BaseDomainNameGuesses(name: string): (gs: seq<string>)
    ensures |gs| >= 1 && gs[0] == name
    decreases |name|
  {
    var d := FirstDot(name);
    if d == |name| then [name] else [name] + BaseDomainNameGuesses(name[d + 1..])
  }

  /** Every guess after the first is a label suffix of the name, and the
      guesses get strictly shorter: most specific first. */
  lemma {:induction false} GuessesShrink(name: string)
    ensures forall i :: 0 < i < |BaseDomainNameGuesses(name)| ==>
      IsLabelSuffix(BaseDomainNameGuesses(name)[i], name)
    ensures forall i, j :: 0 <= i < j < |BaseDomainNameGuesses(name)| ==>
      |BaseDomainNameGuesses(name)[j]| < |BaseDomainNameGuesses(name)[i]|
    decreases |name|
  {
    var d := FirstDot(name);
    if d < |name| {
      var tail := name[d + 1..];
      var rest := BaseDomainNameGuesses(tail);
      GuessesShrink(tail);
      forall i | 0 <= i < |rest| ensures IsLabelSuffix(rest[i], name) {
        if i > 0 { LabelSuffixTransitive(rest[i], tail, name); }
      }
    }
  }

  lemma LabelSuffixTransitive(a: string, b: string, c: string)
    requires IsLabelSuffix(a, b)
    requires |b| < |c| && c[|c| - |b|..] == b
    ensures IsLabelSuffix(a, c)
  {
    assert c[|c| - |a| - 1] == c[|c| - |b|..][|b| - |a| - 1];
    assert c[|c| - |a|..] == c[|c| - |b|..][|b| - |a|..];
  }

  /** The guesses are exactly the name itself and every label suffix of it,
      so the provider is asked about every candidate zone and nothing else. */
  lemma GuessesAreLabelSuffixes(name: string, zone: string)
    ensures zone in BaseDomainNameGuesses(name) <==> zone == name || IsLabelSuffix(zone, name)
  {
    var gs := BaseDomainNameGuesses(name);
    if zone in gs {
      GuessesShrink(name);
      var i :| 0 <= i < |gs| && gs[i] == zone;
    }
    if IsLabelSuffix(zone, name) {
      GuessesComplete(name, zone);
    }
  }

  lemma {:induction false} GuessesComplete(name: string, zone: string)
    requires IsLabelSuffix(zone, name)
    ensures zone in BaseDomainNameGuesses(name)
    decreases |name|
  {
    var p := |name| - |zone| - 1;
    var d := FirstDot(name);
    assert d <= p by {
      assert name[p] == '.';
    }
    var tail := name[d + 1..];
    assert BaseDomainNameGuesses(name) == [name] + BaseDomainNameGuesses(tail);
    if p == d {
      assert zone == tail;
    } else {
      assert IsLabelSuffix(zone, tail) by {
        assert tail[|tail| - |zone| - 1] == name[p];
        assert tail[|tail| - |zone|..] == name[|name| - |zone|..];
      }
      GuessesComplete(tail, zone);
    }
  }

  /** One unfolding of the guesses, with the position of the first dot given. */
  lemma GuessesStep(name: string, d: nat)
    requires d <= |name| && (d < |name| ==> name[d] == '.')
    requires forall j :: 0 <= j < d ==> name[j] != '.'
    ensures BaseDomainNameGuesses(name)
      == if d == |name| then [name] else [name] + BaseDomainNameGuesses(name[d + 1..])
  {
  }

  /** A single label is its own only guess. */
  lemma GuessesOfLabel(head: string)
    requires '.' !in head
    ensures BaseDomainNameGuesses(head) == [head]
  {
    GuessesStep(head, |head|);
  }

  /** Dropping the first label of a name gives the rest of its guesses. */
  lemma GuessesOfDotted(head: string, rest: string)
    requires '.' !in head
    ensures BaseDomainNameGuesses(head + "." + rest) == [head + "." + rest] + BaseDomainNameGuesses(rest)
  {
    var name := head + "." + rest;
    assert name[|head| + 1..] == rest;
    assert forall j :: 0 <= j < |head| ==> name[j] == head[j];
    GuessesStep(name, |head|);
  }

  /** The record name relative to `zone`: `recordName` with a trailing
      "." + zone removed, or unchanged when it does not end that way. */
  function RelativeName(recordName: string, zone: string): (name: string)
    ensures name == recordName || name + "." + zone == recordName
  {
    var k := |zone| + 1;
    if k <= |recordName| && recordName[|recordName| - k..] == "." + zone then
      assert recordName[..|recordName| - k] + recordName[|recordName| - k..] == recordName;
      recordName[..|recordName| - k]
    else recordName
  }

  /** Stripping undoes appending the zone. */
  lemma RelativeNameOfQualified(name: string, zone: string)
    ensures RelativeName(name + "." + zone, zone) == name
  {
    var r := name + "." + zone;
    assert r[|r| - |zone| - 1..] == "." + zone;
    assert r[..|r| - |zone| - 1] == name;
  }

  /** For a zone that is a label suffix, the strip leaves the labels in front
      of it. */
  lemma RelativeNameOfLabelSuffix(recordName: string, zone: string)
    requires IsLabelSuffix(zone, recordName)
    ensures RelativeName(recordName, zone) + "." + zone == recordName
  {
    var p := |recordName| - |zone| - 1;
    var n := recordName[..p];
    assert recordName[p..] == "." + zone by {
      assert recordName[p..] == [recordName[p]] + recordName[p + 1..];
    }
    assert recordName == n + "." + zone by {
      assert recordName == recordName[..p] + recordName[p..];
    }
    RelativeNameOfQualified(n, zone);
  }

  /** For a zone found among the guesses, the relative name is the record name
      itself when the zone is the whole name, and otherwise the labels in front
      of the zone. */
  lemma RelativeNameOfGuess(recordName: string, zone: string)
    requires zone in BaseDomainNameGuesses(recordName)
    ensures zone == recordName ==> RelativeName(recordName, zone) == recordName
    ensures zone != recordName ==> RelativeName(recordName, zone) + "." + zone == recordName
  {
    GuessesAreLabelSuffixes(recordName, zone);
    if zone != recordName {
      RelativeNameOfLabelSuffix(recordName, zone);
    }
  }

  /** `s` matches the regular-expression text `pattern` read with every '.'
      as "any character" and every other character literally. */
  predicate WildcardMatch(pattern: string, s: string) {
    |pattern| == |s| && forall i :: 0 <= i < |s| ==> pattern[i] == '.' || pattern[i] == s[i]
  }

  /** What re.sub(r"\.{zone}$", "", recordName) computes when the zone holds
      no regular-expression metacharacter other than '.': the zone is put into
      the pattern unescaped, so each of its dots matches any character. */
  function RegexRelativeName(recordName: string, zone: string): (name: string)
    ensures name == recordName
      || (|name| + |zone| + 1 == |recordName| && recordName[..|name|] == name
          && recordName[|name|] == '.' && WildcardMatch(zone, recordName[|name| + 1..]))
    ensures name != recordName <==>
      (|zone| + 1 <= |recordName| && recordName[|recordName| - |zone| - 1] == '.'
       && WildcardMatch(zone, recordName[|recordName| - |zone|..]))
  {
    var k := |zone| + 1;
    if k <= |recordName| && recordName[|recordName| - k] == '.'
      && WildcardMatch(zone, recordName[|recordName| - |zone|..])
    then recordName[..|recordName| - k]
    else recordName
  }

  /** For a label-suffix zone the regular expression strips what the literal
      suffix strip does. */
  lemma RegexAgreesOnLabelSuffix(recordName: string, zone: string)
    requires IsLabelSuffix(zone, recordName)
    ensures RegexRelativeName(recordName, zone) == RelativeName(recordName, zone)
  {
    var k := |zone| + 1;
    assert recordName[|recordName| - k..] == "." + zone by {
      assert recordName[|recordName| - k..] == [recordName[|recordName| - k]] + recordName[|recordName| - |zone|..];
    }
    assert WildcardMatch(zone, recordName[|recordName| - |zone|..]);
  }

  /** The unescaped pattern does no harm in this program: the zone passed in
      is always one of the record name's guesses, and for those the regular
      expression and the literal suffix strip agree. */
  lemma RegexAgreesOnGuesses(recordName: string, zone: string)
    requires zone in BaseDomainNameGuesses(recordName)
    ensures RegexRelativeName(recordName, zone) == RelativeName(recordName, zone)
  {
    GuessesAreLabelSuffixes(recordName, zone);
    if zone != recordName {
      RegexAgreesOnLabelSuffix(recordName, zone);
    }
  }

  /** Off the guesses the two differ: a dot of the zone matches another character. */
  lemma RegexDiffersOffGuesses()
    ensures RegexRelativeName("a.bxc", "b.c") == "a"
    ensures RelativeName("a.bxc", "b.c") == "a.bxc"
  {
    assert WildcardMatch("b.c", "bxc");
    assert "a.bxc"[2..] != ".b.c";
  }
}

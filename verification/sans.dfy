/** The names the leaf certificate is issued for, computed from the registry's keys. */
module Sans {
  import opened Labels
  import opened Hosts
  import opened Ordering

  const APEX_HOST := "adj.ac"
  const WILDCARD_HOST := "*.adj.ac"

  function BaseSan(base: string): (r: string)
    ensures |r| == |base| + 9
  {
    "*." + base + HOST_SUFFIX
  }

  function BasesInOrder(keys: seq<string>): seq<string> {
    if keys == [] then [] else [BaseName(keys[0])] + BasesInOrder(keys[1..])
  }

  function BaseSans(bases: seq<string>): (r: seq<string>)
    ensures |r| == |bases| && forall i :: 0 <= i < |r| ==> r[i] == BaseSan(bases[i])
  {
    if bases == [] then [] else [BaseSan(bases[0])] + BaseSans(bases[1..])
  }

  function DistinctBases(keys: set<string>): seq<string> {
    Dedup(Sort(BasesInOrder(InOrder(keys))))
  }

  /** The apex, the one-label wildcard, and one wildcard per distinct base name in order. */
  function RegistrySans(keys: set<string>): seq<string> {
    [APEX_HOST, WILDCARD_HOST] + BaseSans(DistinctBases(keys))
  }

  method CollectBases(ordered: seq<string>) returns (bases: seq<string>)
    ensures bases == BasesInOrder(ordered)
  {
    bases := [];
    for i := 0 to |ordered|
      invariant bases == BasesInOrder(ordered[..i])
    {
      assert ordered[..i + 1] == ordered[..i] + [ordered[i]];
      BasesAppend(ordered[..i], ordered[i]);
      bases := bases + [BaseName(ordered[i])];
    }
    assert ordered[..|ordered|] == ordered;
  }

  lemma {:induction false} BasesAppend(keys: seq<string>, k: string)
    ensures BasesInOrder(keys + [k]) == BasesInOrder(keys) + [BaseName(k)]
  {
    if keys == [] {
      assert keys + [k] == [k];
      assert [k][1..] == [];
    } else {
      assert (keys + [k])[1..] == keys[1..] + [k];
      BasesAppend(keys[1..], k);
    }
  }

  method ComputeSans(keys: set<string>) returns (sans: seq<string>)
    ensures sans == RegistrySans(keys)
  {
    var bases := CollectBases(InOrder(keys));
    bases := Dedup(Sort(bases));
    sans := PushBaseSans([APEX_HOST, WILDCARD_HOST], bases);
  }

  method PushBaseSans(start: seq<string>, bases: seq<string>) returns (sans: seq<string>)
    ensures sans == start + BaseSans(bases)
  {
    ghost var all := BaseSans(bases);
    sans := start;
    for i := 0 to |bases|
      invariant sans == start + all[..i]
    {
      sans := sans + [BaseSan(bases[i])];
      assert all[..i + 1] == all[..i] + [all[i]];
    }
    assert all[..|bases|] == all;
  }

  // ---------------------------------------------------------------- properties

  function BasesOf(keys: set<string>): set<string> {
    set k <- keys :: BaseName(k)
  }

  lemma {:induction false} BasesInOrderElements(keys: seq<string>)
    ensures Elements(BasesInOrder(keys)) == BasesOf(Elements(keys))
  {
    if keys == [] {
      assert Elements(keys) == {};
    } else {
      BasesInOrderElements(keys[1..]);
      assert keys == [keys[0]] + keys[1..];
      ElementsCons(keys[0], keys[1..]);
      ElementsCons(BaseName(keys[0]), BasesInOrder(keys[1..]));
      BasesUnion(keys[0], Elements(keys[1..]));
    }
  }

  lemma BasesUnion(k: string, rest: set<string>)
    ensures BasesOf({k} + rest) == {BaseName(k)} + BasesOf(rest)
  {}

  lemma SameMultisetSameElements(a: seq<string>, b: seq<string>)
    requires multiset(a) == multiset(b)
    ensures Elements(a) == Elements(b)
  {
    forall x ensures x in a <==> x in b {
      assert x in a <==> x in multiset(a);
    }
  }

  lemma DistinctBasesSound(keys: set<string>)
    ensures StrictlySorted(DistinctBases(keys)) && Elements(DistinctBases(keys)) == BasesOf(keys)
  {
    var bases := BasesInOrder(InOrder(keys));
    BasesInOrderElements(InOrder(keys));
    SameMultisetSameElements(Sort(bases), bases);
    DedupSorted(Sort(bases));
  }

  lemma BaseSanInjective(a: string, b: string)
    requires BaseSan(a) == BaseSan(b)
    ensures a == b
  {
    assert a == BaseSan(a)[2..2 + |a|] && b == BaseSan(b)[2..2 + |b|];
  }

  lemma {:induction false} BaseSansInjective(a: seq<string>, b: seq<string>)
    requires BaseSans(a) == BaseSans(b)
    ensures a == b
  {
    assert |a| == |b|;
    forall i | 0 <= i < |a| ensures a[i] == b[i] {
      assert BaseSans(a)[i] == BaseSans(b)[i];
      BaseSanInjective(a[i], b[i]);
    }
  }

  /** The list is a function of the base names alone, and tells any two sets of them apart. */
  lemma SansDecideBases(a: set<string>, b: set<string>)
    ensures RegistrySans(a) == RegistrySans(b) <==> BasesOf(a) == BasesOf(b)
  {
    DistinctBasesSound(a);
    DistinctBasesSound(b);
    if BasesOf(a) == BasesOf(b) {
      StrictlySortedUnique(DistinctBases(a), DistinctBases(b));
    }
    if RegistrySans(a) == RegistrySans(b) {
      assert BaseSans(DistinctBases(a)) == RegistrySans(a)[2..];
      assert BaseSans(DistinctBases(b)) == RegistrySans(b)[2..];
      BaseSansInjective(DistinctBases(a), DistinctBases(b));
    }
  }

  /** The list, for the base names `bases` in order. */
  lemma SansExactly(keys: set<string>, bases: seq<string>)
    requires StrictlySorted(bases) && Elements(bases) == BasesOf(keys)
    ensures |RegistrySans(keys)| == 2 + |bases|
    ensures RegistrySans(keys)[0] == "adj.ac" && RegistrySans(keys)[1] == "*.adj.ac"
    ensures forall i :: 0 <= i < |bases| ==> RegistrySans(keys)[i + 2] == "*." + bases[i] + ".adj.ac"
  {
    DistinctBasesSound(keys);
    StrictlySortedUnique(bases, DistinctBases(keys));
  }

  lemma SansNoRepeats(keys: set<string>)
    ensures NoRepeats(RegistrySans(keys))
  {
    DistinctBasesSound(keys);
    BaseSansNoRepeats(DistinctBases(keys));
    assert |APEX_HOST| == 6 && |WILDCARD_HOST| == 8;
    ShortFirst(APEX_HOST, WILDCARD_HOST, BaseSans(DistinctBases(keys)));
  }

  lemma BaseSansNoRepeats(bases: seq<string>)
    requires NoRepeats(bases)
    ensures NoRepeats(BaseSans(bases)) && forall i :: 0 <= i < |bases| ==> |BaseSans(bases)[i]| >= 9
  {
    var sans := BaseSans(bases);
    forall i, j | 0 <= i < j < |sans| ensures sans[i] != sans[j] {
      if sans[i] == sans[j] {
        BaseSanInjective(bases[i], bases[j]);
      }
    }
  }

  /** Two names of different length before names that are longer than both repeat nothing. */
  lemma ShortFirst(a: string, b: string, rest: seq<string>)
    requires |a| < |b| < 9 && NoRepeats(rest) && forall i :: 0 <= i < |rest| ==> |rest[i]| >= 9
    ensures NoRepeats([a, b] + rest)
  {
    var all := [a, b] + rest;
    forall i, j | 0 <= i < j < |all| ensures all[i] != all[j] {
      if i >= 2 {
        assert all[i] == rest[i - 2] && all[j] == rest[j - 2];
      }
    }
  }

  /** Every name stays inside the subtree the CA is constrained to (section 4.2.1.10 of RFC 5280). */
  predicate InSubtree(name: string) {
    name == APEX_HOST || EndsWith(name, HOST_SUFFIX)
  }

  lemma SansInSubtree(keys: set<string>)
    ensures forall san <- RegistrySans(keys) :: InSubtree(san)
  {}

  /** A leading `*` stands for exactly one label (section 6.4.3 of RFC 6125). */
  ghost predicate Matches(san: string, host: string) {
    || san == host
    || (|san| > 1 && san[..2] == "*." && exists first: string :: OneLabel(first) && host == first + san[1..])
  }

  ghost predicate Covered(keys: set<string>, host: string) {
    exists san :: san in RegistrySans(keys) && Matches(san, host)
  }

  lemma MatchWildcard(first: string, rest: string)
    requires OneLabel(first)
    ensures Matches("*." + rest, first + "." + rest)
  {}

  lemma SanListed(keys: set<string>, base: string)
    requires base in BasesOf(keys)
    ensures BaseSan(base) in RegistrySans(keys)
  {
    DistinctBasesSound(keys);
    var bases := DistinctBases(keys);
    assert base in Elements(bases);
    var i :| 0 <= i < |bases| && bases[i] == base;
    assert RegistrySans(keys)[i + 2] == BaseSan(base);
  }

  lemma BareCovered(keys: set<string>, base: string)
    requires OneLabel(base)
    ensures Covered(keys, HostOf(base))
  {
    MatchWildcard(base, "adj.ac");
    assert HostOf(base) == base + "." + "adj.ac";
    assert RegistrySans(keys)[1] == WILDCARD_HOST == "*." + "adj.ac";
  }

  lemma InstanceCovered(keys: set<string>, tag: string, base: string)
    requires OneLabel(tag) && base in BasesOf(keys)
    ensures Covered(keys, HostOf(tag + "." + base))
  {
    SanListed(keys, base);
    MatchWildcard(tag, base + HOST_SUFFIX);
    Regroup("*.", base, HOST_SUFFIX);
    Regroup(tag + ".", base, HOST_SUFFIX);
  }

  lemma Regroup(a: string, b: string, c: string)
    ensures a + b + c == a + (b + c)
  {}

  /** A host with one label before a wildcard's rest: the rest is what follows the first dot. */
  lemma FirstDotDecides(a: string, x: string, b: string, y: string)
    requires '.' !in a && '.' !in b && a + "." + x == b + "." + y
    ensures a == b && x == y
  {
    SplitJoined(a, x);
    SplitJoined(b, y);
  }

  lemma WildcardRest(san: string, first: string, host: string, tag: string, rest: string)
    requires |san| > 1 && san[..2] == "*." && OneLabel(first) && OneLabel(tag)
    requires host == first + san[1..] && host == tag + "." + rest
    ensures san == "*." + rest
  {
    assert san == "*." + san[2..];
    assert san[1..] == "." + san[2..];
    assert host == first + "." + san[2..];
    FirstDotDecides(first, san[2..], tag, rest);
  }

  lemma MatchedInstance(san: string, tag: string, base: string)
    requires ValidLabel(tag) && Matches(san, HostOf(tag + "." + base)) && san != HostOf(tag + "." + base)
    ensures san == BaseSan(base)
  {
    var host := HostOf(tag + "." + base);
    var first: string :| OneLabel(first) && host == first + san[1..];
    Regroup(tag + ".", base, HOST_SUFFIX);
    Regroup("*.", base, HOST_SUFFIX);
    assert OneLabel(tag) by { assert forall i :: 0 <= i < |tag| ==> LabelChar(tag[i]); }
    WildcardRest(san, first, host, tag, base + HOST_SUFFIX);
  }

  lemma ListedIsBase(keys: set<string>, base: string)
    requires BaseSan(base) in RegistrySans(keys)
    ensures base in BasesOf(keys)
  {
    var sans := RegistrySans(keys);
    DistinctBasesSound(keys);
    var i :| 0 <= i < |sans| && sans[i] == BaseSan(base);
    assert |APEX_HOST| == 6 && |WILDCARD_HOST| == 8;
    BaseSanInjective(base, DistinctBases(keys)[i - 2]);
    assert base in Elements(DistinctBases(keys));
  }

  lemma NoSanIsInstanceHost(keys: set<string>, san: string, tag: string, base: string)
    requires san in RegistrySans(keys) && ValidLabel(tag)
    ensures san != HostOf(tag + "." + base)
  {
    var sans := RegistrySans(keys);
    var host := HostOf(tag + "." + base);
    assert LabelChar(host[0]) && |host| > 6;
    var i :| 0 <= i < |sans| && sans[i] == san;
    assert i >= 2 ==> san[0] == '*';
  }

  /**
   The certificate covers exactly the hosts it should: every bare name, and an instance exactly when some
   registered key has its base.
   */
  lemma CoveredExactly(keys: set<string>, key: string)
    requires ValidKey(key)
    ensures Covered(keys, HostOf(key)) <==> SplitKey(key).0.None? || BaseName(key) in BasesOf(keys)
  {
    var (tag, base) := SplitKey(key);
    if tag.None? {
      assert OneLabel(base);
      BareCovered(keys, base);
    } else {
      var host := HostOf(key);
      if base in BasesOf(keys) {
        assert OneLabel(tag.value);
        InstanceCovered(keys, tag.value, base);
      }
      if Covered(keys, host) {
        var san :| san in RegistrySans(keys) && Matches(san, host);
        NoSanIsInstanceHost(keys, san, tag.value, base);
        MatchedInstance(san, tag.value, base);
        ListedIsBase(keys, base);
      }
    }
  }

  /** Every registered app's host is covered. */
  lemma RegisteredCovered(keys: set<string>, key: string)
    requires ValidKey(key) && key in keys
    ensures Covered(keys, HostOf(key))
  {
    assert BaseName(key) in BasesOf(keys);
    CoveredExactly(keys, key);
  }
}

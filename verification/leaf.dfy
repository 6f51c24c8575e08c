/**
 The served leaf certificate, a cache over the registry. Certificates are abstract: a leaf is the list
 of names it was issued for, and issuing for a list yields a leaf with that list.
 */
module LeafCert {
  import opened Wrappers
  import opened Ordering
  import opened Sans

  /** The list compared on reload, and the list inside the served key. */
  datatype Leaf = Leaf(sans: seq<string>, key: seq<string>)

  /** The leaf files: the names in the certificate, and whether the key file makes a signing key. */
  datatype OnDisk = OnDisk(names: seq<string>, keyOk: bool)

  /** What asking for a leaf gives: the files to serve from, what is on disk then, and whether one was signed. */
  datatype Issue = Issue(leaf: Option<OnDisk>, disk: Option<OnDisk>, signed: bool)

  /** The same once the key is built: the names served, if any. */
  datatype Certified = Certified(key: Option<seq<string>>, disk: Option<OnDisk>, signed: bool)

  /** True when the cached leaf's names are the wanted ones in any order. */
  predicate LeafCovers(have: seq<string>, want: seq<string>) {
    Sort(have) == Sort(want)
  }

  lemma LeafCoversExactly(have: seq<string>, want: seq<string>)
    ensures LeafCovers(have, want) <==> multiset(have) == multiset(want)
  {
    SortDecides(have, want);
  }

  /** The leaf on disk carries exactly these names. */
  ghost predicate Covers(disk: Option<OnDisk>, sans: seq<string>) {
    disk.Some? && multiset(disk.value.names) == multiset(sans)
  }

  /** Reuse the leaf on disk if it is readable and covers exactly these names, else sign a new one. */
  function EnsureLeaf(disk: Option<OnDisk>, sans: seq<string>, canSign: bool): (r: Issue)
    ensures r.leaf.Some? ==> Covers(r.leaf, sans) && r.disk == r.leaf
    ensures r.leaf.None? <==> !canSign && !Covers(disk, sans)
    ensures r.signed <==> canSign && !Covers(disk, sans)
    ensures r.signed ==> r.leaf == Some(OnDisk(sans, true))
    ensures !r.signed ==> r.disk == disk
  {
    assert disk.Some? ==> (LeafCovers(disk.value.names, sans) <==> Covers(disk, sans)) by {
      if disk.Some? { LeafCoversExactly(disk.value.names, sans); }
    }
    if disk.Some? && LeafCovers(disk.value.names, sans) then Issue(disk, disk, false)
    else if canSign then
      var made := OnDisk(sans, true);
      Issue(Some(made), Some(made), true)
    else Issue(None, disk, false)
  }

  /** The key to serve, built from the leaf: reusing a leaf whose key file is bad fails. */
  function CertifiedKey(disk: Option<OnDisk>, sans: seq<string>, canSign: bool): (r: Certified)
    ensures r.key.Some? ==> multiset(r.key.value) == multiset(sans) && r.disk == Some(OnDisk(r.key.value, true))
    ensures r.key.Some? <==> if Covers(disk, sans) then disk.value.keyOk else canSign
    ensures r.signed <==> canSign && !Covers(disk, sans)
    ensures r.signed ==> r.key == Some(sans)
    ensures !r.signed ==> r.disk == disk
  {
    var issue := EnsureLeaf(disk, sans, canSign);
    var usable := issue.leaf.Some? && issue.leaf.value.keyOk;
    Certified(if usable then Some(issue.leaf.value.names) else None, issue.disk, issue.signed)
  }

  /** A reload gets through when the served names are the wanted ones already, or a leaf for them is to be had. */
  predicate Reloads(served: seq<string>, disk: Option<OnDisk>, wanted: seq<string>, canSign: bool) {
    served == wanted || CertifiedKey(disk, wanted, canSign).key.Some?
  }

  /**
   A cached leaf heals by itself, given a CA that signs, except in one case: its certificate covers the
   names and its key file is bad. Then nothing is signed, the files stay, and every retry fails the same way.
   */
  lemma HealsExactly(disk: Option<OnDisk>, sans: seq<string>)
    ensures CertifiedKey(disk, sans, true).key.Some? <==> !(Covers(disk, sans) && !disk.value.keyOk)
    ensures CertifiedKey(disk, sans, true).key.None? ==> CertifiedKey(disk, sans, true).disk == disk
  {}

  class LeafResolver {
    var sans: seq<string>
    var key: seq<string>
    // the leaf file, and how many certificates were signed so far
    var disk: Option<OnDisk>
    var issued: nat

    predicate Valid()
      reads this
    {
      multiset(sans) == multiset(key)
    }

    constructor (sans: seq<string>, key: seq<string>, disk: Option<OnDisk>, issued: nat)
      requires multiset(sans) == multiset(key)
      ensures Valid() && this.sans == sans && this.key == key && this.disk == disk && this.issued == issued
    {
      this.sans, this.key, this.disk, this.issued := sans, key, disk, issued;
    }

    /** What a TLS handshake is served. */
    method Resolve() returns (served: seq<string>)
      requires Valid()
      ensures served == key && multiset(served) == multiset(sans)
    {
      served := key;
    }

    /**
     Recompute the names and swap the served leaf if they changed. `loaded` is the registry's key set,
     or a failed load. A failure leaves the old pair in place; unchanged names sign nothing.
     */
    method Reload(loaded: Result<set<string>, ()>, canSign: bool) returns (ok: bool)
      requires Valid()
      modifies this
      ensures Valid()
      ensures ok <==> loaded.Ok? && Reloads(old(sans), old(disk), RegistrySans(loaded.value), canSign)
      ensures ok ==> sans == RegistrySans(loaded.value) && multiset(key) == multiset(RegistrySans(loaded.value))
      ensures !ok ==> sans == old(sans) && key == old(key) && disk == old(disk) && issued == old(issued)
      ensures loaded.Ok? && old(sans) == RegistrySans(loaded.value) ==>
                ok && key == old(key) && disk == old(disk) && issued == old(issued)
      ensures ok && old(sans) != RegistrySans(loaded.value) ==> disk == Some(OnDisk(key, true))
      ensures issued <= old(issued) + 1
    {
      if loaded.Err? {
        return false;
      }
      var wanted := ComputeSans(loaded.value);
      ok := Install(wanted, canSign);
    }

    /** Swap in a leaf for `wanted`, unless the served list is that already. */
    method Install(wanted: seq<string>, canSign: bool) returns (ok: bool)
      requires Valid()
      modifies this
      ensures Valid()
      ensures ok <==> Reloads(old(sans), old(disk), wanted, canSign)
      ensures ok ==> sans == wanted
      ensures !ok || old(sans) == wanted ==>
                sans == old(sans) && key == old(key) && disk == old(disk) && issued == old(issued)
      ensures ok && old(sans) != wanted ==> disk == Some(OnDisk(key, true))
      ensures var signs := old(sans) != wanted && CertifiedKey(old(disk), wanted, canSign).signed;
              issued == old(issued) + (if signs then 1 else 0)
    {
      if sans == wanted {
        return true;
      }
      var issue := CertifiedKey(disk, wanted, canSign);
      if issue.key.None? {
        return false;
      }
      disk := issue.disk;
      issued := if issue.signed then issued + 1 else issued;
      sans, key := wanted, issue.key.value;
      ok := true;
    }
  }

  /** Build the resolver for the registry as loaded now; without a CA or a signature there is none. */
  method NewResolver(caPresent: bool, loaded: Result<set<string>, ()>, disk: Option<OnDisk>, canSign: bool)
    returns (r: Option<LeafResolver>)
    ensures r.Some? ==> r.value.Valid() && fresh(r.value) && loaded.Ok? && r.value.sans == RegistrySans(loaded.value)
    ensures r.Some? ==> r.value.disk == Some(OnDisk(r.value.key, true))
    ensures r.Some? <==> caPresent && loaded.Ok? && CertifiedKey(disk, RegistrySans(loaded.value), canSign).key.Some?
  {
    if !caPresent || loaded.Err? {
      return None;
    }
    var sans := ComputeSans(loaded.value);
    var issue := CertifiedKey(disk, sans, canSign);
    if issue.key.None? {
      return None;
    }
    var resolver := new LeafResolver(sans, issue.key.value, issue.disk, if issue.signed then 1 else 0);
    r := Some(resolver);
  }
}

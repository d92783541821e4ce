/**
  The installed-bundles list, kept in the configuration under
  "bundlesInstalled". The two helpers that edit it (InstallBundle and
  UnInstallBundle of core.Bundles) are not part of this model: Add and Remove
  give them the behaviour the commands rely on, add-if-absent and
  remove-every-occurrence.
 */
module Ledger {

  ghost predicate NoDuplicates(l: seq<string>)
  {
    forall x :: multiset(l)[x] <= 1
  }

  /** The list with n appended, unless n is already listed. */
  function Add(l: seq<string>, n: string): (r: seq<string>)
    ensures n in r
    ensures forall x :: x in r <==> x in l || x == n
    ensures |l| <= |r| <= |l| + 1 && r[..|l|] == l
    ensures multiset(r)[n] == if n in l then multiset(l)[n] else 1
    ensures forall x :: x != n ==> multiset(r)[x] == multiset(l)[x]
  {
    if n in l then l else l + [n]
  }

  /** The list with every occurrence of n taken out. */
  function Remove(l: seq<string>, n: string): (r: seq<string>)
    ensures multiset(r) == multiset(l)[n := 0]
    ensures forall x :: x in r <==> x in l && x != n
    ensures n !in l ==> r == l
    decreases |l|
  {
    if l == [] then []
    else
      assert l == [l[0]] + l[1..];
      if l[0] == n then Remove(l[1..], n) else [l[0]] + Remove(l[1..], n)
  }

  /** Removing from a concatenation removes from each part. */
  lemma {:induction false} RemoveDistributes(l1: seq<string>, l2: seq<string>, n: string)
    ensures Remove(l1 + l2, n) == Remove(l1, n) + Remove(l2, n)
    decreases |l1|
  {
    if l1 == [] {
      assert l1 + l2 == l2;
    } else {
      assert (l1 + l2)[1..] == l1[1..] + l2;
      RemoveDistributes(l1[1..], l2, n);
    }
  }

  /** Uninstalling a bundle that an install added gives back the list as it was. */
  lemma {:induction false} RemoveUndoesAdd(l: seq<string>, n: string)
    requires n !in l
    ensures Remove(Add(l, n), n) == l
  {
    RemoveDistributes(l, [n], n);
  }

  /** Neither helper introduces a duplicate entry. */
  lemma AddRemoveKeepNoDuplicates(l: seq<string>, n: string)
    requires NoDuplicates(l)
    ensures NoDuplicates(Add(l, n)) && NoDuplicates(Remove(l, n))
  {
  }

  /** Removing and then re-adding a bundle (a reinstall) lists the same bundles as adding it. */
  lemma ReaddKeepsEntries(l: seq<string>, n: string)
    requires NoDuplicates(l)
    ensures multiset(Add(Remove(l, n), n)) == multiset(Add(l, n))
  {
  }
}

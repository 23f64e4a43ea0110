/**
 * The list of authorised wallet addresses edited on the "Create Token" panel,
 * as pure functions over `seq<Address>`: the membership test, the guarded
 * append of the add handler and the filter of the remove handler, together
 * with the list invariant (no duplicates, no empty address) they keep.
 */
module WalletList {

  type Address = string

  /** No address occurs twice. */
  ghost predicate NoDuplicates(wallets: seq<Address>) {
    forall i, j :: 0 <= i < j < |wallets| ==> wallets[i] != wallets[j]
  }

  /** The invariant of the list: set-like (no duplicates) and without the empty address. */
  ghost predicate IsWalletSet(wallets: seq<Address>) {
    NoDuplicates(wallets) && "" !in wallets
  }

  /** `r` is obtained from `s` by deleting some elements, the rest kept in order. */
  ghost predicate IsSubsequence(r: seq<Address>, s: seq<Address>)
    decreases |s|
  {
    if r == [] then true
    else if s == [] then false
    else if r[0] == s[0] then IsSubsequence(r[1..], s[1..])
    else IsSubsequence(r, s[1..])
  }

  /** The membership test `wallets.includes(x)`. */
  function Includes(wallets: seq<Address>, x: Address): (r: bool)
    ensures r <==> x in wallets
  {
    if wallets == [] then false
    else wallets[0] == x || Includes(wallets[1..], x)
  }

  /** Whether the add handler accepts `x`: it is non-empty and not yet listed. */
  function CanAdd(wallets: seq<Address>, x: Address): (r: bool)
    ensures r <==> |x| > 0 && x !in wallets
  {
    x != "" && !Includes(wallets, x)
  }

  /** The list after the add handler with `x` in the input field. */
  function Added(wallets: seq<Address>, x: Address): (r: seq<Address>)
    ensures x == "" || x in wallets ==> r == wallets
    ensures x != "" && x !in wallets ==> |r| == |wallets| + 1 && r[..|wallets|] == wallets && r[|wallets|] == x
    ensures IsWalletSet(wallets) ==> IsWalletSet(r)
  {
    if CanAdd(wallets, x) then wallets + [x] else wallets
  }

  /** The filter `wallets.filter(w => w !== addr)`. */
  function Without(wallets: seq<Address>, addr: Address): (r: seq<Address>)
    ensures forall x :: x in r <==> x in wallets && x != addr
    ensures |r| <= |wallets|
  {
    if wallets == [] then []
    else if wallets[0] != addr then [wallets[0]] + Without(wallets[1..], addr)
    else Without(wallets[1..], addr)
  }

  /** The filter keeps the other entries in their original relative order. */
  lemma {:induction false} WithoutIsSubsequence(wallets: seq<Address>, addr: Address)
    ensures IsSubsequence(Without(wallets, addr), wallets)
  {
    if wallets != [] {
      WithoutIsSubsequence(wallets[1..], addr);
      var r := Without(wallets, addr);
      if wallets[0] != addr {
        assert r[0] == wallets[0] && r[1..] == Without(wallets[1..], addr);
      } else if r != [] {
        assert r[0] in r;
      }
    }
  }

  /** The filter deletes every occurrence of `addr` and no occurrence of anything else. */
  lemma {:induction false} WithoutMultiset(wallets: seq<Address>, addr: Address)
    ensures multiset(Without(wallets, addr)) == multiset(wallets)[addr := 0]
  {
    if wallets != [] {
      WithoutMultiset(wallets[1..], addr);
      assert wallets == [wallets[0]] + wallets[1..];
    }
  }

  /** Removing an address that is not listed leaves the list unchanged. */
  lemma {:induction false} WithoutAbsent(wallets: seq<Address>, addr: Address)
    requires addr !in wallets
    ensures Without(wallets, addr) == wallets
  {
    if wallets != [] {
      WithoutAbsent(wallets[1..], addr);
      assert wallets == [wallets[0]] + wallets[1..];
    }
  }

  /** Removing the same address twice is the same as removing it once. */
  lemma {:induction false} WithoutIdempotent(wallets: seq<Address>, addr: Address)
    ensures Without(Without(wallets, addr), addr) == Without(wallets, addr)
  {
    WithoutAbsent(Without(wallets, addr), addr);
  }

  /** The filter distributes over concatenation. */
  lemma {:induction false} WithoutAppend(s: seq<Address>, t: seq<Address>, addr: Address)
    ensures Without(s + t, addr) == Without(s, addr) + Without(t, addr)
  {
    if s != [] {
      WithoutAppend(s[1..], t, addr);
      assert (s + t)[0] == s[0] && (s + t)[1..] == s[1..] + t;
      if s[0] != addr {
        calc {
          Without(s + t, addr);
          [s[0]] + Without(s[1..] + t, addr);
          [s[0]] + (Without(s[1..], addr) + Without(t, addr));
          ([s[0]] + Without(s[1..], addr)) + Without(t, addr);
        }
      }
    } else {
      assert s + t == t;
    }
  }

  /** On a duplicate-free list, removing a listed address deletes exactly its one position. */
  lemma {:induction false} WithoutAtIndex(wallets: seq<Address>, i: nat)
    requires NoDuplicates(wallets)
    requires i < |wallets|
    ensures Without(wallets, wallets[i]) == wallets[..i] + wallets[i + 1..]
  {
    var tail := wallets[1..];
    assert NoDuplicates(tail) by {
      forall a, b | 0 <= a < b < |tail| ensures tail[a] != tail[b] {
        assert tail[a] == wallets[a + 1] && tail[b] == wallets[b + 1];
      }
    }
    if i == 0 {
      assert wallets[0] !in tail by {
        forall k | 0 <= k < |tail| ensures tail[k] != wallets[0] {
          assert tail[k] == wallets[k + 1];
        }
      }
      WithoutAbsent(tail, wallets[0]);
    } else {
      assert wallets[0] != wallets[i];
      WithoutAtIndex(tail, i - 1);
      assert tail[i - 1] == wallets[i];
      assert wallets[..i] == [wallets[0]] + tail[..i - 1];
      assert wallets[i + 1..] == tail[i..];
    }
  }

  /** Prepending an address that is not in a duplicate-free list keeps it duplicate-free. */
  lemma ConsNoDuplicates(x: Address, s: seq<Address>)
    requires NoDuplicates(s) && x !in s
    ensures NoDuplicates([x] + s)
  {
  }

  /** The remove handler keeps the list invariant. */
  lemma {:induction false} WithoutKeepsWalletSet(wallets: seq<Address>, addr: Address)
    requires IsWalletSet(wallets)
    ensures IsWalletSet(Without(wallets, addr))
  {
    if wallets != [] {
      var tail := wallets[1..];
      assert NoDuplicates(tail) by {
        forall a, b | 0 <= a < b < |tail| ensures tail[a] != tail[b] {
          assert tail[a] == wallets[a + 1] && tail[b] == wallets[b + 1];
        }
      }
      assert "" !in tail by {
        forall k | 0 <= k < |tail| ensures tail[k] != "" {
          assert tail[k] == wallets[k + 1];
        }
      }
      WithoutKeepsWalletSet(tail, addr);
      if wallets[0] != addr {
        assert wallets[0] !in tail by {
          forall k | 0 <= k < |tail| ensures tail[k] != wallets[0] {
            assert tail[k] == wallets[k + 1];
          }
        }
        ConsNoDuplicates(wallets[0], Without(tail, addr));
      }
    }
  }

  /** Round trip: adding a fresh non-empty address and then removing it restores the list. */
  lemma AddThenRemove(wallets: seq<Address>, x: Address)
    requires x != "" && x !in wallets
    ensures Without(Added(wallets, x), x) == wallets
  {
    WithoutAppend(wallets, [x], x);
    WithoutAbsent(wallets, x);
    assert Without([x], x) == [];
  }

}

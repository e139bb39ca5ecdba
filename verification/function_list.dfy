/** Lists of functions to be called, each of which can be taken off again by whoever put it
    there. */
module FunctionLists {
  // A function on a list. What it does is up to its owner; which one it is matters here.
  class Entry {
    constructor ()
    {
    }
  }

  ghost predicate Distinct(s: seq<Entry>) {
    forall i, j :: 0 <= i < j < |s| ==> s[i] != s[j]
  }

  // The entries but e, in their order.
  function Without(s: seq<Entry>, e: Entry): seq<Entry> {
    if s == [] then [] else if s[0] == e then s[1..] else [s[0]] + Without(s[1..], e)
  }

  lemma {:induction false} WithoutAt(s: seq<Entry>, e: Entry, k: nat)
    requires k < |s| && s[k] == e && Distinct(s)
    ensures Without(s, e) == s[..k] + s[k + 1..]
  {
    if k > 0 {
      assert s[0] != e;
      WithoutAt(s[1..], e, k - 1);
      assert s[1..][..k - 1] == s[1..k] && s[1..][k..] == s[k + 1..];
      assert [s[0]] + (s[1..k] + s[k + 1..]) == s[..k] + s[k + 1..];
    }
  }

  // Taking off what was put on last leaves the list as it was, and taking off keeps the rest.
  lemma {:induction false} RemoveUndoesAdd(s: seq<Entry>, e: Entry)
    requires Distinct(s) && e !in s
    ensures Without(s + [e], e) == s && Distinct(s + [e])
  {
    WithoutAt(s + [e], e, |s|);
    assert (s + [e])[..|s|] + (s + [e])[|s| + 1..] == s;
  }

  lemma {:induction false} RemoveKeepsOthers(s: seq<Entry>, e: Entry)
    requires Distinct(s)
    ensures Distinct(Without(s, e)) && forall x :: x in Without(s, e) <==> x in s && x != e
  {
    if k :| 0 <= k < |s| && s[k] == e {
      WithoutAt(s, e, k);
      var r := s[..k] + s[k + 1..];
      assert forall i :: 0 <= i < |r| ==> r[i] == s[if i < k then i else i + 1];
      forall x ensures x in r <==> x in s && x != e {
        if x in s && x != e {
          var i :| 0 <= i < |s| && s[i] == x;
          assert r[if i < k then i else i - 1] == x;
        }
      }
    } else {
      NothingToRemove(s, e);
    }
  }

  lemma {:induction false} NothingToRemove(s: seq<Entry>, e: Entry)
    requires e !in s
    ensures Without(s, e) == s
  {
    if s != [] { NothingToRemove(s[1..], e); }
  }

  class FunctionList {
    var entries: seq<Entry>

    constructor ()
      ensures entries == []
    {
      entries := [];
    }

    // The entry returned is what its owner removes it by.
    method Add() returns (e: Entry)
      requires Distinct(entries)
      modifies this
      ensures fresh(e) && entries == old(entries) + [e] && Distinct(entries)
    {
      e := new Entry();
      entries := entries + [e];
    }

    // An entry can be removed only from the list it is on.
    method Remove(e: Entry)
      requires Distinct(entries) && e in entries
      modifies this
      ensures entries == Without(old(entries), e) && Distinct(entries)
      ensures forall x :: x in entries <==> x in old(entries) && x != e
    {
      var k := 0;
      while entries[k] != e
        invariant k < |entries| && e in entries[k..]
        invariant entries == old(entries)
        decreases |entries| - k
      {
        k := k + 1;
      }
      WithoutAt(entries, e, k);
      RemoveKeepsOthers(entries, e);
      entries := entries[..k] + entries[k + 1..];
    }
  }
}

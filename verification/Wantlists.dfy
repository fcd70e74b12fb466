/** Wantlists: keys with a priority and a want type (wantlist/wantlist.go). */
module Wantlists {
  import opened Basics
  import opened BitswapMessage

  datatype Item = Item(priority: int32, wantType: int32)

  type Wantlist = map<Want, Item>

  /** `Add`: a want-have does not replace anything, and nothing replaces a want-block. */
  function Add(wl: Wantlist, w: Want, priority: int32, wantType: int32): (r: Wantlist)
    ensures r.Keys == wl.Keys + {w}
    ensures r[w].wantType == BLOCK <==> wantType == BLOCK || (w in wl && wl[w].wantType == BLOCK)
  {
    if w in wl && (wl[w].wantType == BLOCK || wantType == HAVE) then wl
    else wl[w := Item(priority, wantType)]
  }

  /** Whether `RemoveType` removes `w`: a want-have request leaves a want-block in place. */
  predicate Removable(wl: Wantlist, w: Want, wantType: int32) {
    w in wl && !(wl[w].wantType == BLOCK && wantType == HAVE)
  }

  function RemoveType(wl: Wantlist, w: Want, wantType: int32): Wantlist {
    if Removable(wl, w, wantType) then wl - {w} else wl
  }

  /** `Absorb`: every entry of `other` is added. The keys differ, so the order does not matter. */
  function Absorb(wl: Wantlist, other: Wantlist): (r: Wantlist)
    ensures r.Keys == wl.Keys + other.Keys
  {
    map w | w in wl.Keys + other.Keys ::
      if w !in other then wl[w]
      else if w in wl && (wl[w].wantType == BLOCK || other[w].wantType == HAVE) then wl[w]
      else other[w]
  }

  /** An entry as `Entries` lists it. */
  datatype Listed = Listed(want: Want, item: Item)

  function List(wl: Wantlist, ks: seq<Want>): (es: seq<Listed>)
    requires forall k :: k in ks ==> k in wl
    ensures |es| == |ks| && forall i :: 0 <= i < |ks| ==> es[i] == Listed(ks[i], wl[ks[i]])
  {
    seq(|ks|, i requires 0 <= i < |ks| => Listed(ks[i], wl[ks[i]]))
  }

  /** By descending priority. */
  predicate Sorted(es: seq<Listed>) {
    forall i, j :: 0 <= i < j < |es| ==> es[i].item.priority >= es[j].item.priority
  }

  method Entries(wl: Wantlist) returns (es: seq<Listed>, ghost ks: seq<Want>)
    ensures Lists(ks, wl) && es == List(wl, ks)
  {
    var keys := KeysOf(wl);
    ks, es := keys, [];
    for i := 0 to |keys|
      invariant es == List(wl, keys[..i])
    {
      es := es + [Listed(keys[i], wl[keys[i]])];
    }
    assert keys[..|keys|] == keys;
  }

  /** The entries added one after the other. */
  function AddListed(wl: Wantlist, es: seq<Listed>): Wantlist {
    if es == [] then wl
    else
      var e := es[|es| - 1];
      Add(AddListed(wl, es[..|es| - 1]), e.want, e.item.priority, e.item.wantType)
  }

  lemma {:induction false} AddListedOther(wl: Wantlist, es: seq<Listed>, k: Want)
    requires forall i :: 0 <= i < |es| ==> es[i].want != k
    ensures (k in AddListed(wl, es) <==> k in wl) && (k in wl ==> AddListed(wl, es)[k] == wl[k])
  {
    if es != [] {
      AddListedOther(wl, es[..|es| - 1], k);
    }
  }

  /** Each key occurs once, as it does among the entries of a wantlist. */
  predicate Distinct(es: seq<Listed>) {
    forall i, j :: 0 <= i < j < |es| ==> es[i].want != es[j].want
  }

  lemma {:induction false} AddListedAt(wl: Wantlist, es: seq<Listed>, j: nat)
    requires Distinct(es) && j < |es|
    ensures var e := es[j];
            && e.want in AddListed(wl, es)
            && AddListed(wl, es)[e.want] == Add(wl, e.want, e.item.priority, e.item.wantType)[e.want]
  {
    var n := |es| - 1;
    var init := es[..n];
    if j < n {
      AddListedAt(wl, init, j);
      assert es[j].want != es[n].want;
    } else {
      AddListedOther(wl, init, es[n].want);
    }
  }

  lemma AbsorbedAt(wl: Wantlist, other: Wantlist, ks: seq<Want>, es: seq<Listed>, k: Want)
    requires Lists(ks, other) && es == List(other, ks)
    ensures k in AddListed(wl, es) <==> k in wl.Keys + other.Keys
    ensures k in wl.Keys + other.Keys ==> AddListed(wl, es)[k] == Absorb(wl, other)[k]
  {
    if k in other {
      var j :| 0 <= j < |ks| && ks[j] == k;
      AddListedAt(wl, es, j);
    } else {
      assert forall j :: 0 <= j < |ks| ==> ks[j] in ks;
      AddListedOther(wl, es, k);
    }
  }

  lemma Absorbed(wl: Wantlist, other: Wantlist, ks: seq<Want>, es: seq<Listed>)
    requires Lists(ks, other) && es == List(other, ks)
    ensures AddListed(wl, es) == Absorb(wl, other)
  {
    var r := AddListed(wl, es);
    forall k ensures (k in r <==> k in Absorb(wl, other)) && (k in r ==> r[k] == Absorb(wl, other)[k]) {
      AbsorbedAt(wl, other, ks, es, k);
    }
  }

  /** `Absorb` as a loop over the entries of `other`. */
  method AbsorbAll(wl: Wantlist, other: Wantlist) returns (r: Wantlist)
    ensures r == Absorb(wl, other)
  {
    var es, ks := Entries(other);
    r := wl;
    for i := 0 to |es|
      invariant r == AddListed(wl, es[..i])
    {
      assert es[..i + 1][..i] == es[..i];
      r := Add(r, es[i].want, es[i].item.priority, es[i].item.wantType);
    }
    assert es[..|es|] == es;
    Absorbed(wl, other, ks, es);
  }

  lemma InsertSorted(a: seq<Listed>, e: Listed, b: seq<Listed>)
    requires Sorted(a + b)
    requires forall i :: 0 <= i < |a| ==> a[i].item.priority >= e.item.priority
    requires b != [] ==> e.item.priority >= b[0].item.priority
    ensures Sorted(a + [e] + b) && multiset(a + [e] + b) == multiset(a + b) + multiset{e}
  {
    assert forall i :: 0 <= i < |a| ==> (a + b)[i] == a[i];
    assert forall j :: 0 <= j < |b| ==> (a + b)[|a| + j] == b[j];
  }

  /** Puts `e` behind the entries of at least its priority. */
  method Insert(es: seq<Listed>, e: Listed) returns (r: seq<Listed>)
    requires Sorted(es)
    ensures Sorted(r) && multiset(r) == multiset(es) + multiset{e}
  {
    var j := 0;
    while j < |es| && es[j].item.priority >= e.item.priority
      invariant 0 <= j <= |es|
      invariant forall k :: 0 <= k < j ==> es[k].item.priority >= e.item.priority
    {
      j := j + 1;
    }
    var a, b := es[..j], es[j..];
    assert es == a + b;
    InsertSorted(a, e, b);
    r := a + [e] + b;
  }

  /** `SortEntries`: the same entries by descending priority. */
  method SortEntries(es: seq<Listed>) returns (r: seq<Listed>)
    ensures Sorted(r) && multiset(r) == multiset(es)
  {
    r := [];
    for i := 0 to |es|
      invariant Sorted(r) && multiset(r) == multiset(es[..i])
    {
      assert es[..i + 1] == es[..i] + [es[i]];
      r := Insert(r, es[i]);
    }
    assert es[..|es|] == es;
  }

  lemma {:induction false} DistinctOnce(es: seq<Listed>, x: Listed)
    requires Distinct(es)
    ensures multiset(es)[x] <= 1
    decreases |es|
  {
    if es != [] {
      assert es == [es[0]] + es[1..];
      DistinctOnce(es[1..], x);
      if es[0] == x {
        assert x !in es[1..];
      }
    }
  }

  lemma RepeatedTwice(es: seq<Listed>, i: nat, j: nat)
    requires i < j < |es| && es[i] == es[j]
    ensures multiset(es)[es[i]] >= 2
  {
    assert es == es[..j] + es[j..];
    assert es[i] in es[..j] && es[j] in es[j..];
  }

  lemma SameMembers(es: seq<Listed>, r: seq<Listed>, x: Listed)
    requires multiset(r) == multiset(es)
    ensures x in r <==> x in es
  {
    assert x in r <==> x in multiset(r);
    assert x in es <==> x in multiset(es);
  }

  lemma ReorderedDistinct(es: seq<Listed>, r: seq<Listed>, i: nat, j: nat)
    requires Distinct(es) && multiset(r) == multiset(es) && i < j < |r|
    ensures r[i].want != r[j].want
  {
    SameMembers(es, r, r[i]);
    SameMembers(es, r, r[j]);
    if r[i] == r[j] {
      RepeatedTwice(r, i, j);
      DistinctOnce(es, r[i]);
    }
  }

  /** The entries of a wantlist in another order are its entries for its keys in another order. */
  lemma Reordered(wl: Wantlist, ks: seq<Want>, es: seq<Listed>, r: seq<Listed>, rs: seq<Want>)
    requires Lists(ks, wl) && es == List(wl, ks) && multiset(r) == multiset(es)
    requires |rs| == |r| && forall i :: 0 <= i < |r| ==> rs[i] == r[i].want
    ensures Lists(rs, wl) && r == List(wl, rs)
  {
    forall i | 0 <= i < |r| ensures rs[i] in wl && r[i] == Listed(rs[i], wl[rs[i]]) {
      SameMembers(es, r, r[i]);
    }
    forall k | k in wl ensures k in rs {
      var i :| 0 <= i < |ks| && ks[i] == k;
      SameMembers(es, r, es[i]);
    }
    forall i, j | 0 <= i < j < |rs| ensures rs[i] != rs[j] {
      ReorderedDistinct(es, r, i, j);
    }
  }
}

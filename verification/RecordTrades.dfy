/**
 * Records traded through the vault's storage: packages/plugin/src/spaces/remote.ts, and the edits a device makes of
 * its own, packages/plugin/src/spaces/records.ts.
 */
module RecordTrades {
  import opened Common
  import opened SpaceRecords

  /** The record a device trades: its own, but while it is unbound, against a known one, not always as it stands. */
  function Admitted(record: Record, known: Option<Record>, unbound: bool): Record
  {
    if !unbound || known.None? then record
    else if known.value.access.Owner? && record.access.Participant? then known.value
    else if known.value.closed && !record.closed then record.(rev := known.value.rev + 1)
    else record
  }

  function AllAdmitted(local: seq<Record>, theirs: Known, unbound: bool): seq<Record>
  {
    if local == [] then []
    else AllAdmitted(local[..|local| - 1], theirs, unbound) + [Admitted(local[|local| - 1], KnownAt(theirs, local[|local| - 1].id), unbound)]
  }

  /** The records' objects in storage, one each; those no device here can read are left alone. */
  class RecordStore {
    var records: Known
    const unreadable: set<string>

    constructor (records: Known, unreadable: set<string>)
      ensures this.records == records && this.unreadable == unreadable
    {
      this.records := records;
      this.unreadable := unreadable;
    }

    /** Puts what the remote lacks, or has older. */
    method Publish(mine: seq<Record>) returns (published: bool)
      requires KeyedById(records) && records.Keys !! unreadable && DistinctIds(mine)
      modifies this
      ensures KeyedById(records) && records == Join(old(records), Newest(mine) - unreadable)
      ensures published <==> records != old(records)
    {
      var theirs := records;
      published := false;
      assert Newest(mine[..0]) - unreadable == map[];
      for i := 0 to |mine|
        invariant records == Join(theirs, Newest(mine[..i]) - unreadable) && KeyedById(records)
        invariant published <==> records != theirs
      {
        var record := mine[i];
        NextPut(theirs, mine, i, unreadable);
        if record.id !in unreadable && (record.id !in theirs || IsNewer(record, theirs[record.id])) {
          records := records[record.id := record];
          published := true;
        }
      }
      assert mine[..|mine|] == mine;
    }

    /** One trade: `merged` is the device's next list; ids in `unreadable` stay as they are in the store. */
    method SyncRecords(local: seq<Record>, unbound: bool) returns (merged: seq<Record>, published: bool)
      requires KeyedById(records) && records.Keys !! unreadable && DistinctIds(local)
      modifies this
      ensures SortedById(merged) && Lists(merged, Join(old(records), Newest(AllAdmitted(local, old(records), unbound))))
      ensures KeyedById(records) && records == Join(old(records), Newest(AllAdmitted(local, old(records), unbound)) - unreadable)
      ensures !unbound ==>
        var v := Trade(Vault(old(records), [Newest(local)]), 0, unreadable); records == v.store && Lists(merged, v.devices[0])
      ensures published <==> records != old(records)
    {
      var theirs := records;
      if !unbound { AdmitsAll(local, theirs); }
      assert theirs - unreadable == theirs;
      var mine := AllAdmitted(local, theirs, unbound);
      AdmittedIds(local, theirs, unbound);
      published := Publish(mine);
      var remote := Listed(theirs);
      merged := MergeRecords([remote, mine]);
      NewestOfList(remote, theirs);
      TwoLists(remote, mine);
      NewestConcat(remote, mine);
    }
  }

  /** A device that knows the vault trades its records as they are. */
  lemma {:induction false} AdmitsAll(local: seq<Record>, theirs: Known)
    ensures AllAdmitted(local, theirs, false) == local
  {
    if local != [] {
      AdmitsAll(local[..|local| - 1], theirs);
      assert local == local[..|local| - 1] + [local[|local| - 1]];
    }
  }

  ghost predicate DistinctIds(list: seq<Record>)
  {
    forall i, j :: 0 <= i < j < |list| ==> list[i].id != list[j].id
  }

  lemma {:induction false} AdmittedIds(local: seq<Record>, theirs: Known, unbound: bool)
    requires KeyedById(theirs)
    ensures |AllAdmitted(local, theirs, unbound)| == |local|
    ensures forall i :: 0 <= i < |local| ==> AllAdmitted(local, theirs, unbound)[i].id == local[i].id
  {
    if local != [] { AdmittedIds(local[..|local| - 1], theirs, unbound); }
  }

  /** In a list that names each id once, every record is the newest of its id. */
  lemma {:induction false} NewestOfDistinct(list: seq<Record>, i: nat)
    requires DistinctIds(list) && i < |list|
    ensures KnownAt(Newest(list), list[i].id) == Some(list[i])
  {
    NewestIs(list);
    assert list[i] in list;
    var r := Newest(list)[list[i].id];
    var j :| 0 <= j < |list| && list[j] == r;
  }

  /**
   * What the first trade of a device that did not know the vault makes of a record both have: the vault owner's own
   * share stays, a share joined here stays joined whatever close the vault holds, else the newer one stays.
   */
  lemma {:induction false} AdmittedWins(local: seq<Record>, theirs: Known, i: nat)
    requires DistinctIds(local) && KeyedById(theirs) && i < |local| && local[i].id in theirs
    ensures var mine, known := local[i], theirs[local[i].id];
      KnownAt(Join(theirs, Newest(AllAdmitted(local, theirs, true))), mine.id)
        == Some(if known.access.Owner? && mine.access.Participant? then known
                else if known.closed && !mine.closed then mine.(rev := known.rev + 1)
                else if IsNewer(mine, known) then mine else known)
  {
    var mine, known, admitted := local[i], theirs[local[i].id], AllAdmitted(local, theirs, true);
    AdmittedDistinct(local, theirs, true);
    AdmittedAt(local, theirs, true, i);
    NewestOfDistinct(admitted, i);
    JoinAt(theirs, Newest(admitted), mine.id);
    NewerIsOrder(known, known, known);
  }

  lemma {:induction false} AdmittedDistinct(local: seq<Record>, theirs: Known, unbound: bool)
    requires DistinctIds(local) && KeyedById(theirs)
    ensures |AllAdmitted(local, theirs, unbound)| == |local| && DistinctIds(AllAdmitted(local, theirs, unbound))
  {
    AdmittedIds(local, theirs, unbound);
  }

  lemma {:induction false} AdmittedAt(local: seq<Record>, theirs: Known, unbound: bool, i: nat)
    requires i < |local|
    ensures |AllAdmitted(local, theirs, unbound)| == |local|
    ensures AllAdmitted(local, theirs, unbound)[i] == Admitted(local[i], KnownAt(theirs, local[i].id), unbound)
  {
    var n := |local| - 1;
    if n > 0 { AdmittedAt(local[..n], theirs, unbound, if i < n then i else 0); }
  }

  lemma {:induction false} NotYetPut(mine: seq<Record>, i: nat)
    requires DistinctIds(mine) && i < |mine|
    ensures mine[i].id !in Newest(mine[..i])
  {
    NewestIs(mine[..i]);
  }

  /** One more record put, unless it is unreadable there or no newer. */
  lemma {:induction false} NextPut(theirs: Known, mine: seq<Record>, i: nat, unreadable: set<string>)
    requires DistinctIds(mine) && i < |mine|
    ensures var r, before, after := mine[i], Join(theirs, Newest(mine[..i]) - unreadable), Join(theirs, Newest(mine[..i + 1]) - unreadable);
      if r.id !in unreadable && (r.id !in theirs || IsNewer(r, theirs[r.id])) then after == before[r.id := r] && after != theirs else after == before
  {
    NotYetPut(mine, i);
    assert mine[..i + 1][..i] == mine[..i];
    PutBut(theirs, Newest(mine[..i]), mine[i], unreadable);
    if mine[i].id in theirs { NewerIsOrder(mine[i], theirs[mine[i].id], theirs[mine[i].id]); }
  }

  /** One more record put, unless it is unreadable there. */
  lemma {:induction false} PutBut(theirs: Known, known: Known, r: Record, unreadable: set<string>)
    ensures r.id in unreadable ==> Put(known, r) - unreadable == known - unreadable
    ensures r.id !in unreadable ==> Put(known, r) - unreadable == Put(known - unreadable, r)
    ensures Join(theirs, Put(known - unreadable, r)) == Put(Join(theirs, known - unreadable), r)
  {
    PutIsJoin(known - unreadable, r);
    JoinAssociates(theirs, known - unreadable, map[r.id := r]);
    PutIsJoin(Join(theirs, known - unreadable), r);
  }

  /** A list of what is known is known again. */
  lemma {:induction false} NewestOfList(list: seq<Record>, k: Known)
    requires Lists(list, k) && KeyedById(k)
    ensures Newest(list) == k
  {
    NewestIs(list);
    forall id | id in k ensures id in Newest(list) && Newest(list)[id] == k[id] {
      assert k[id] in list;
    }
  }

  lemma {:induction false} TwoLists(a: seq<Record>, b: seq<Record>)
    ensures FlatOf([a, b]) == a + b
  {
    assert [a, b][..1] == [a] && [a][..0] == [];
    assert FlatOf([a]) == [] + a == a;
  }

  /** What storage holds, and what each device does. */
  datatype Vault = Vault(store: Known, devices: seq<Known>)

  /** A trade of everything: the store gains what the device knows, and it what the store holds. */
  function FullTrade(v: Vault, i: nat): Vault
    requires i < |v.devices|
  {
    Vault(Join(v.store, v.devices[i]), v.devices[i := Join(v.store, v.devices[i])])
  }

  /** All there is to know. */
  function Total(v: Vault, n: nat): Known
    requires n <= |v.devices|
  {
    if n == 0 then v.store else Join(Total(v, n - 1), v.devices[n - 1])
  }

  ghost predicate VaultWithin(v: Vault, all: set<Record>)
  {
    Named(all) && Within(v.store, all) && forall i :: 0 <= i < |v.devices| ==> Within(v.devices[i], all)
  }

  ghost predicate FullTrades(vs: seq<Vault>, order: seq<nat>)
  {
    && |vs| == |order| + 1
    && forall k :: 0 <= k < |order| ==> order[k] < |vs[k].devices| && vs[k + 1] == FullTrade(vs[k], order[k])
  }

  lemma {:induction false} TotalCovers(v: Vault, n: nat, all: set<Record>)
    requires VaultWithin(v, all) && n <= |v.devices|
    ensures Within(Total(v, n), all) && Covers(Total(v, n), v.store)
    ensures forall i :: 0 <= i < n ==> Covers(Total(v, n), v.devices[i])
  {
    if n > 0 {
      TotalCovers(v, n - 1, all);
      var before, d := Total(v, n - 1), v.devices[n - 1];
      JoinWithin(before, d, all);
      JoinCovers(before, d, all);
      CoversTransitive(v.store, before, Total(v, n));
      forall i | 0 <= i < n - 1 ensures Covers(Total(v, n), v.devices[i]) { CoversTransitive(v.devices[i], before, Total(v, n)); }
    } else {
      JoinIdempotent(v.store);
    }
  }

  lemma {:induction false} TotalIsLeast(v: Vault, n: nat, top: Known)
    requires n <= |v.devices| && Covers(top, v.store) && forall i :: 0 <= i < n ==> Covers(top, v.devices[i])
    ensures Covers(top, Total(v, n))
  {
    if n > 0 {
      TotalIsLeast(v, n - 1, top);
      CoversBoth(Total(v, n - 1), v.devices[n - 1], top);
    }
  }

  /** Nothing is lost by a trade, and nothing is made up. */
  ghost predicate Between(v: Vault, first: Vault, top: Known, all: set<Record>)
  {
    && VaultWithin(v, all) && |v.devices| == |first.devices| && Covers(v.store, first.store) && Covers(top, v.store)
    && forall i :: 0 <= i < |v.devices| ==> Covers(v.devices[i], first.devices[i]) && Covers(top, v.devices[i])
  }

  lemma {:induction false} TradeBetween(v: Vault, i: nat, first: Vault, top: Known, all: set<Record>)
    requires Between(v, first, top, all) && i < |v.devices|
    ensures Between(FullTrade(v, i), first, top, all)
    ensures Covers(FullTrade(v, i).store, first.devices[i]) && Covers(FullTrade(v, i).store, v.store)
  {
    var s, d := v.store, v.devices[i];
    JoinWithin(s, d, all);
    JoinCovers(s, d, all);
    CoversTransitive(first.store, s, Join(s, d));
    CoversTransitive(first.devices[i], d, Join(s, d));
    CoversBoth(s, d, top);
  }

  /** Where a run of trades stands after `k` of them. */
  lemma {:induction false} StandsAfter(vs: seq<Vault>, order: seq<nat>, all: set<Record>, top: Known, k: nat)
    requires FullTrades(vs, order) && VaultWithin(vs[0], all) && top == Total(vs[0], |vs[0].devices|) && k <= |order|
    ensures Between(vs[k], vs[0], top, all)
    ensures forall i :: i in order[..k] ==> i < |vs[0].devices| && Covers(vs[k].store, vs[0].devices[i])
  {
    if k == 0 {
      TotalCovers(vs[0], |vs[0].devices|, all);
      JoinIdempotent(vs[0].store);
      forall i | 0 <= i < |vs[0].devices| ensures Covers(vs[0].devices[i], vs[0].devices[i]) { JoinIdempotent(vs[0].devices[i]); }
    } else {
      StandsAfter(vs, order, all, top, k - 1);
      TradeBetween(vs[k - 1], order[k - 1], vs[0], top, all);
      forall i | i in order[..k] ensures i < |vs[0].devices| && Covers(vs[k].store, vs[0].devices[i]) {
        if i in order[..k - 1] { CoversTransitive(vs[0].devices[i], vs[k - 1].store, vs[k].store); }
      }
    }
  }

  /** Once every device has traded, the store holds all there is. */
  lemma {:induction false} StoreIsTotal(vs: seq<Vault>, order: seq<nat>, all: set<Record>, k: nat)
    requires FullTrades(vs, order) && VaultWithin(vs[0], all) && k <= |order|
    requires forall i: nat :: i < |vs[0].devices| ==> i in order[..k]
    ensures vs[k].store == Total(vs[0], |vs[0].devices|)
  {
    var n := |vs[0].devices|;
    var top := Total(vs[0], n);
    StandsAfter(vs, order, all, top, k);
    TotalIsLeast(vs[0], n, vs[k].store);
    TotalCovers(vs[0], n, all);
    CoversEachOther(vs[k].store, top, all);
  }

  lemma {:induction false} InLonger(order: seq<nat>, k: nat, m: nat, i: nat)
    requires k <= m <= |order| && i in order[..k]
    ensures i in order[..m]
  {
    assert order[..k] <= order[..m];
  }

  lemma {:induction false} EveryoneBy(vs: seq<Vault>, order: seq<nat>, all: set<Record>, k: nat, m: nat)
    requires FullTrades(vs, order) && VaultWithin(vs[0], all) && k <= m <= |order|
    requires forall i: nat :: i < |vs[0].devices| ==> i in order[..k]
    ensures |vs[m].devices| == |vs[0].devices| && vs[m].store == Total(vs[0], |vs[0].devices|)
    ensures forall i :: i in order[k..m] ==> i < |vs[m].devices| && vs[m].devices[i] == vs[m].store
    decreases m
  {
    var n := |vs[0].devices|;
    var top := Total(vs[0], n);
    forall i: nat | i < n ensures i in order[..m] { InLonger(order, k, m, i); }
    StoreIsTotal(vs, order, all, m);
    StandsAfter(vs, order, all, top, m);
    if k < m {
      EveryoneBy(vs, order, all, k, m - 1);
      var j := order[m - 1];
      assert vs[m] == FullTrade(vs[m - 1], j);
      assert order[k..m] == order[k..m - 1] + [j];
    }
  }

  /** Once every device has traded and then every one has again, all hold the join of everything there was. */
  lemma {:induction false} FullTradesConverge(vs: seq<Vault>, order: seq<nat>, all: set<Record>, k: nat)
    requires FullTrades(vs, order) && VaultWithin(vs[0], all) && k <= |order|
    requires forall i: nat :: i < |vs[0].devices| ==> i in order[..k] && i in order[k..]
    ensures var last := vs[|order|];
      && last.store == Total(vs[0], |vs[0].devices|) && |last.devices| == |vs[0].devices|
      && forall i :: 0 <= i < |last.devices| ==> last.devices[i] == last.store
  {
    EveryoneBy(vs, order, all, k, |order|);
    assert order[k..|order|] == order[k..];
  }

  /** A device trades, some ids unreadable to it: it neither takes nor writes those. */
  function Trade(v: Vault, i: nat, unreadable: set<string>): Vault
    requires i < |v.devices|
  {
    Vault(Join(v.store, v.devices[i] - unreadable), v.devices[i := Join(v.store - unreadable, v.devices[i])])
  }

  /** Trades in some order, each device with the ids it cannot read. */
  ghost predicate Trades(vs: seq<Vault>, order: seq<nat>, unreadable: seq<set<string>>)
  {
    && |vs| == |order| + 1 && |unreadable| == |vs[0].devices|
    && forall k :: 0 <= k < |order| ==>
         order[k] < |vs[k].devices| == |unreadable| && vs[k + 1] == Trade(vs[k], order[k], unreadable[order[k]])
  }

  function Outside(v: Vault, ids: set<string>): Vault
  {
    Vault(v.store - ids, seq(|v.devices|, i requires 0 <= i < |v.devices| => v.devices[i] - ids))
  }

  lemma {:induction false} JoinOutside(x: Known, y: Known, ids: set<string>)
    ensures Join(x, y) - ids == Join(x - ids, y - ids)
  {
  }

  /** What a device cannot read plays no part in what is traded outside those ids. */
  lemma {:induction false} TradeOutside(v: Vault, i: nat, unreadable: set<string>, ids: set<string>)
    requires i < |v.devices| && unreadable <= ids
    ensures Outside(Trade(v, i, unreadable), ids) == FullTrade(Outside(v, ids), i)
  {
    var d := v.devices[i];
    JoinOutside(v.store, d - unreadable, ids);
    JoinOutside(v.store - unreadable, d, ids);
    assert (d - unreadable) - ids == d - ids && (v.store - unreadable) - ids == v.store - ids;
    assert Outside(Trade(v, i, unreadable), ids).devices == FullTrade(Outside(v, ids), i).devices;
  }

  lemma {:induction false} OutsideWithin(v: Vault, ids: set<string>, all: set<Record>)
    requires VaultWithin(v, all)
    ensures VaultWithin(Outside(v, ids), all)
  {
    forall r | r in (v.store - ids).Values ensures r in v.store.Values { }
    forall i, r | 0 <= i < |v.devices| && r in (v.devices[i] - ids).Values ensures r in v.devices[i].Values { }
  }

  /** A device keeps its own record of an id it cannot read. */
  lemma {:induction false} KeepsUnreadable(vs: seq<Vault>, order: seq<nat>, unreadable: seq<set<string>>, k: nat, i: nat, id: string)
    requires Trades(vs, order, unreadable) && k <= |order| && i < |unreadable| && id in unreadable[i]
    ensures |vs[k].devices| == |unreadable| && KnownAt(vs[k].devices[i], id) == KnownAt(vs[0].devices[i], id)
  {
    if k > 0 { KeepsUnreadable(vs, order, unreadable, k - 1, i, id); }
  }

  /**
   * Any order of trades converges: once every device has traded and then every one has again, all of them and the
   * store hold the join of everything there was, but for ids some device cannot read; of those, such a device still
   * holds what it held.
   */
  lemma {:induction false} TradesConverge(vs: seq<Vault>, order: seq<nat>, unreadable: seq<set<string>>, ids: set<string>, all: set<Record>, k: nat)
    requires Trades(vs, order, unreadable) && VaultWithin(vs[0], all) && k <= |order|
    requires forall i :: 0 <= i < |unreadable| ==> unreadable[i] <= ids
    requires forall i: nat :: i < |vs[0].devices| ==> i in order[..k] && i in order[k..]
    ensures var first, last := vs[0], vs[|order|];
      && last.store - ids == Total(Outside(first, ids), |first.devices|) && |last.devices| == |first.devices|
      && (forall i :: 0 <= i < |last.devices| ==> last.devices[i] - ids == last.store - ids)
      && forall i, id :: 0 <= i < |last.devices| && id in unreadable[i] ==> KnownAt(last.devices[i], id) == KnownAt(first.devices[i], id)
  {
    var outside := seq(|vs|, n requires 0 <= n < |vs| => Outside(vs[n], ids));
    forall n | 0 <= n < |order| ensures order[n] < |outside[n].devices| && outside[n + 1] == FullTrade(outside[n], order[n]) {
      TradeOutside(vs[n], order[n], unreadable[order[n]], ids);
    }
    OutsideWithin(vs[0], ids, all);
    FullTradesConverge(outside, order, all, k);
    var last := vs[|order|];
    forall i | 0 <= i < |last.devices| ensures last.devices[i] - ids == last.store - ids {
      assert outside[|order|].devices[i] == last.devices[i] - ids;
    }
    forall i, id | 0 <= i < |last.devices| && id in unreadable[i]
      ensures KnownAt(last.devices[i], id) == KnownAt(vs[0].devices[i], id)
    {
      KeepsUnreadable(vs, order, unreadable, |order|, i, id);
    }
  }

  /** The list a device keeps and edits; `localRoots` names the roots where it still has some folder. */
  class WorkingCopy {
    var spaces: seq<Record>
    var localRoots: map<string, string>

    ghost predicate Valid()
      reads this
    {
      SortedById(spaces)
    }

    constructor ()
      ensures Valid() && spaces == []
    {
      spaces, localRoots := [], map[];
    }

    method Find(id: string) returns (found: Option<Record>)
      requires Valid()
      ensures found == KnownAt(Newest(spaces), id)
    {
      SortedIsNewest(spaces);
      for i := 0 to |spaces|
        invariant forall j :: 0 <= j < i ==> spaces[j].id != id
      {
        if spaces[i].id == id {
          assert spaces[i] in spaces;
          return Some(spaces[i]);
        }
      }
      return None;
    }

    method Add(record: Record)
      requires Valid()
      modifies this`spaces
      ensures Valid() && Newest(spaces) == Put(Newest(old(spaces)), record)
    {
      var merged := MergeRecords([spaces, [record]]);
      TwoLists(spaces, [record]);
      NewestIs(spaces + [record]);
      NewestOfList(merged, Newest(spaces + [record]));
      assert (spaces + [record])[..|spaces|] == spaces;
      spaces := merged;
    }

    /** An open record turns closed and takes a rank no short chain of edits reaches; the folder here is forgotten. */
    method Close(id: string, author: string)
      requires Valid()
      modifies this
      ensures Valid()
      ensures var known := Newest(old(spaces));
        if id in known && !known[id].closed then
          Newest(spaces) == known[id := CloseRecord(known[id], author)] && localRoots == old(localRoots) - {id}
        else spaces == old(spaces) && localRoots == old(localRoots)
    {
      var record := Find(id);
      NewestIs(spaces);
      if record.None? || record.value.closed { return; }
      localRoots := localRoots - {id};
      Add(CloseRecord(record.value, author));
    }

    /** Only a root that differs makes a new revision. */
    method MoveRoot(id: string, root: string, author: string)
      requires Valid()
      modifies this
      ensures Valid()
      ensures var known := Newest(old(spaces));
        if id !in known then spaces == old(spaces) && localRoots == old(localRoots)
        else (
          && localRoots == old(localRoots) - {id}
          && Newest(spaces) == if known[id].root == root then known
                               else known[id := known[id].(root := root, rev := known[id].rev + 1, author := author)]
        )
    {
      var record := Find(id);
      NewestIs(spaces);
      if record.None? { return; }
      localRoots := localRoots - {id};
      if record.value.root == root { return; }
      Add(record.value.(root := root, rev := record.value.rev + 1, author := author));
    }
  }

  /** In a sorted list each record is the newest of its id. */
  lemma {:induction false} SortedIsNewest(list: seq<Record>)
    requires SortedById(list)
    ensures forall r :: r in list ==> KnownAt(Newest(list), r.id) == Some(r)
    ensures forall id :: id in Newest(list) ==> exists i :: 0 <= i < |list| && list[i].id == id
  {
    NewestIs(list);
    forall r | r in list ensures KnownAt(Newest(list), r.id) == Some(r) {
      var k := Newest(list)[r.id];
      var i :| 0 <= i < |list| && list[i] == r;
      var j :| 0 <= j < |list| && list[j] == k;
      BeforeIsOrder(r.id, r.id, r.id);
    }
  }
}

/** What the collections are after a check, in closed form. */
module OperationChecks {
  import opened Counting
  import opened Hashes
  import opened OperationScheduling
  import opened Wrappers

  function KeptEntries(entries: seq<Entry<nat, Item>>, s: Settings, conn: nat, now: int): seq<Entry<nat, Item>> {
    if entries == [] then []
    else
      var front, last := KeptEntries(entries[..|entries| - 1], s, conn, now), entries[|entries| - 1];
      if Check(last.value, s, conn, now).Keep? then front + [last] else front
  }

  function Limited(items: seq<Item>, reached: bool): seq<Item> {
    if items == [] then []
    else if LimitReached(items[0]) == reached then [items[0]] + Limited(items[1..], reached)
    else Limited(items[1..], reached)
  }

  ghost predicate HasId(items: seq<Item>, key: nat) {
    exists i :: 0 <= i < |items| && items[i].correlationId == key
  }

  ghost function Without(entries: seq<Entry<nat, Item>>, items: seq<Item>): seq<Entry<nat, Item>> {
    if entries == [] then []
    else
      var front, last := Without(entries[..|entries| - 1], items), entries[|entries| - 1];
      if HasId(items, last.key) then front else front + [last]
  }

  lemma {:induction false} WithoutNone(entries: seq<Entry<nat, Item>>)
    ensures Without(entries, []) == entries
  {
    if entries != [] {
      WithoutNone(entries[..|entries| - 1]);
    }
  }

  lemma HasIdFirst(item: Item, items: seq<Item>, key: nat)
    ensures HasId([item] + items, key) <==> item.correlationId == key || HasId(items, key)
  {
    var all := [item] + items;
    assert all[0] == item;
    assert forall i :: 0 <= i < |items| ==> all[i + 1] == items[i];
    assert forall i :: 0 < i < |all| ==> all[i] == items[i - 1];
  }

  lemma {:induction false} WithoutDeleted(entries: seq<Entry<nat, Item>>, item: Item, items: seq<Item>)
    ensures Without(Deleted(entries, item.correlationId), items) == Without(entries, [item] + items)
  {
    hide HasId;
    if entries != [] {
      var front, last := entries[..|entries| - 1], entries[|entries| - 1];
      WithoutDeleted(front, item, items);
      HasIdFirst(item, items, last.key);
      var d := Deleted(front, item.correlationId);
      assert (d + [last])[..|d|] == d;
    }
  }

  lemma RetryEffect(o: Ops, item: Item)
    ensures var r := ScheduleOperationRetry(o, item);
            && r.active == Removed(o.active, item.correlationId)
            && r.retryPending == o.retryPending + Limited([item], false)
            && r.callbacks == o.callbacks + Failures(Limited([item], true), "Retry limit reached")
            && r.waiting == o.waiting && r.wire == o.wire && r.nextId == o.nextId && r.nextSeqNo == o.nextSeqNo
  {
    assert Failures([item], "Retry limit reached") == [Failure(item, "Retry limit reached")];
    assert Failures([], "Retry limit reached") == [];
    assert [item][1..] == [];
  }

  lemma {:induction false} RetryAllExact(o: Ops, items: seq<Item>)
    ensures var r := RetryAll(o, items);
            && r.active.entries == Without(o.active.entries, items)
            && r.active.length == o.active.length - |items|
            && r.retryPending == o.retryPending + Limited(items, false)
            && r.callbacks == o.callbacks + Failures(Limited(items, true), "Retry limit reached")
            && r.waiting == o.waiting && r.wire == o.wire && r.nextId == o.nextId && r.nextSeqNo == o.nextSeqNo
    decreases |items|
  {
    hide ScheduleOperationRetry, Deleted, LimitReached, Without, HasId, Limited, Failures;
    if items == [] {
      WithoutNone(o.active.entries);
      NoneLimited("Retry limit reached");
    } else {
      RetryEffect(o, items[0]);
      RetryAllExact(ScheduleOperationRetry(o, items[0]), items[1..]);
      WithoutDeleted(o.active.entries, items[0], items[1..]);
      assert [items[0]] + items[1..] == items;
      LimitedFirst(items, false);
      LimitedFirst(items, true);
      FailuresAppend(Limited([items[0]], true), Limited(items[1..], true), "Retry limit reached");
    }
  }

  lemma NoneLimited(reason: string)
    ensures Limited([], false) == [] && Failures(Limited([], true), reason) == []
  {
  }

  lemma {:induction false} LimitedFirst(items: seq<Item>, reached: bool)
    requires items != []
    ensures Limited(items, reached) == Limited([items[0]], reached) + Limited(items[1..], reached)
  {
    hide LimitReached;
    assert [items[0]][1..] == [];
    assert Limited([items[0]], reached) == if LimitReached(items[0]) == reached then [items[0]] else [];
  }

  lemma FailuresAppend(xs: seq<Item>, ys: seq<Item>, reason: string)
    ensures Failures(xs + ys, reason) == Failures(xs, reason) + Failures(ys, reason)
  {
  }

  lemma {:induction false} RemoveAllExact(o: Ops, items: seq<Item>)
    ensures var r := RemoveAll(o, items);
            && r.active.entries == Without(o.active.entries, items)
            && r.active.length == o.active.length - |items|
            && r == o.(active := r.active, total := r.total)
    decreases |items|
  {
    hide Deleted, Without;
    if items == [] {
      WithoutNone(o.active.entries);
    } else {
      RemoveAllExact(RemoveOperation(o, items[0]), items[1..]);
      WithoutDeleted(o.active.entries, items[0], items[1..]);
      assert [items[0]] + items[1..] == items;
    }
  }

  lemma NoneHasId(key: nat)
    ensures !HasId([], key)
  {
  }

  lemma HasIdLast(items: seq<Item>, item: Item, key: nat)
    ensures HasId(items + [item], key) <==> HasId(items, key) || item.correlationId == key
  {
    var all := items + [item];
    assert all[|items|] == item;
    assert forall i :: 0 <= i < |items| ==> all[i] == items[i];
  }

  ghost predicate Keyed(entries: seq<Entry<nat, Item>>) {
    UniqueKeys(entries) && forall i :: 0 <= i < |entries| ==> entries[i].key == entries[i].value.correlationId
  }

  lemma {:induction false} SelectedIds(
    entries: seq<Entry<nat, Item>>, v: Verdict, s: Settings, conn: nat, now: int, key: nat)
    requires Keyed(entries)
    ensures var ids := Select(Items(entries), v, s, conn, now);
            && (!HasKey(entries, key) ==> !HasId(ids, key))
            && (forall k :: 0 <= k < |entries| && entries[k].key == key ==>
                  (HasId(ids, key) <==> Check(entries[k].value, s, conn, now) == v))
  {
    hide HasId, Check;
    if entries == [] {
      NoneHasId(key);
    } else {
      var front, last := entries[..|entries| - 1], entries[|entries| - 1];
      SelectedIds(front, v, s, conn, now, key);
      assert Items(entries)[..|entries| - 1] == Items(front);
      HasIdLast(Select(Items(front), v, s, conn, now), last.value, key);
      assert forall k :: 0 <= k < |front| ==> entries[k] == front[k];
    }
  }

  lemma {:induction false} WithoutVoted(
    entries: seq<Entry<nat, Item>>, xs: seq<Item>, ys: seq<Item>, s: Settings, conn: nat, now: int)
    requires forall i :: 0 <= i < |entries| ==>
               (!Check(entries[i].value, s, conn, now).Keep? <==>
                HasId(xs, entries[i].key) || HasId(ys, entries[i].key))
    ensures Without(Without(entries, xs), ys) == KeptEntries(entries, s, conn, now)
  {
    hide HasId, Check;
    if entries != [] {
      var front, last := entries[..|entries| - 1], entries[|entries| - 1];
      WithoutVoted(front, xs, ys, s, conn, now);
      var w := Without(front, xs);
      assert (w + [last])[..|w|] == w;
    }
  }

  /** The sweep: which operations stay active, which wait for a retry, and which have failed. */
  lemma SweptExact(o: Ops, s: Settings, conn: nat, now: int)
    requires Keyed(o.active.entries)
    ensures var r := Swept(o, s, conn, now);
            var items := Items(o.active.entries);
            var resend, expired := Select(items, Resend, s, conn, now), Select(items, Expire, s, conn, now);
            && r.active == Table(KeptEntries(o.active.entries, s, conn, now), o.active.length - |resend| - |expired|)
            && r.retryPending == o.retryPending + Limited(resend, false)
            && r.callbacks == o.callbacks + Failures(expired, "no response")
                              + Failures(Limited(resend, true), "Retry limit reached")
            && r.waiting == o.waiting && r.wire == o.wire && r.nextId == o.nextId && r.nextSeqNo == o.nextSeqNo
  {
    hide Select, Failures, Limited, RetryAll, RemoveAll, Without, KeptEntries, HasId, Check;
    var entries := o.active.entries;
    var items := Items(entries);
    var resend, expired := Select(items, Resend, s, conn, now), Select(items, Expire, s, conn, now);
    var failed := o.(callbacks := o.callbacks + Failures(expired, "no response"));
    RetryAllExact(failed, resend);
    RemoveAllExact(RetryAll(failed, resend), expired);
    forall i | 0 <= i < |entries|
      ensures HasId(resend, entries[i].key) || HasId(expired, entries[i].key)
              <==> !Check(entries[i].value, s, conn, now).Keep?
    {
      SelectedIds(entries, Resend, s, conn, now, entries[i].key);
      SelectedIds(entries, Expire, s, conn, now, entries[i].key);
    }
    WithoutVoted(entries, resend, expired, s, conn, now);
  }

  lemma {:induction false} CountVerdicts(items: seq<Item>, s: Settings, conn: nat, now: int, f: Item -> nat)
    ensures Count(items, f)
            == Count(Select(items, Keep, s, conn, now), f) + Count(Select(items, Resend, s, conn, now), f)
                               + Count(Select(items, Expire, s, conn, now), f)
    ensures |items| == |Select(items, Keep, s, conn, now)| + |Select(items, Resend, s, conn, now)|
                       + |Select(items, Expire, s, conn, now)|
  {
    hide Check;
    if items != [] {
      var front, last := items[..|items| - 1], items[|items| - 1];
      CountVerdicts(front, s, conn, now, f);
      CountSnoc(Select(front, Check(last, s, conn, now), s, conn, now), last, f);
    }
  }

  lemma {:induction false} KeptAreSelected(entries: seq<Entry<nat, Item>>, s: Settings, conn: nat, now: int)
    ensures Items(KeptEntries(entries, s, conn, now)) == Select(Items(entries), Keep, s, conn, now)
  {
    if entries != [] {
      KeptAreSelected(entries[..|entries| - 1], s, conn, now);
      assert Items(entries)[..|entries| - 1] == Items(entries[..|entries| - 1]);
    }
  }

  lemma {:induction false} CountLimited(items: seq<Item>, f: Item -> nat)
    ensures Count(items, f) == Count(Limited(items, false), f) + Count(Limited(items, true), f)
  {
    if items != [] {
      CountLimited(items[1..], f);
      var rest := Limited(items[1..], LimitReached(items[0]));
      CountAppend([items[0]], rest, f);
      CountAppend([items[0]], items[1..], f);
      assert [items[0]] + items[1..] == items;
    }
  }

  lemma {:induction false} CountInserted(items: seq<Item>, item: Item, f: Item -> nat)
    ensures Count(Inserted(items, item), f) == Count(items, f) + f(item)
    ensures |Inserted(items, item)| == |items| + 1
  {
    if items == [] || items[|items| - 1].seqNo <= item.seqNo {
      CountSnoc(items, item, f);
    } else {
      CountInserted(items[..|items| - 1], item, f);
      CountSnoc(Inserted(items[..|items| - 1], item), items[|items| - 1], f);
    }
  }

  /** Sorting loses and invents nothing, and puts the items in ascending order. */
  lemma {:induction false} SortedExact(items: seq<Item>, f: Item -> nat)
    ensures Count(Sorted(items), f) == Count(items, f)
    ensures |Sorted(items)| == |items|
    ensures forall i, j :: 0 <= i < j < |items| ==> Sorted(items)[i].seqNo <= Sorted(items)[j].seqNo
  {
    if items != [] {
      SortedExact(items[..|items| - 1], f);
      CountInserted(Sorted(items[..|items| - 1]), items[|items| - 1], f);
      InsertedSorted(Sorted(items[..|items| - 1]), items[|items| - 1]);
    }
  }

  lemma {:induction false} InsertedSorted(items: seq<Item>, item: Item)
    requires forall i, j :: 0 <= i < j < |items| ==> items[i].seqNo <= items[j].seqNo
    ensures var r := Inserted(items, item);
            && |r| == |items| + 1
            && (forall i, j :: 0 <= i < j < |r| ==> r[i].seqNo <= r[j].seqNo)
            && r[|items|].seqNo == if items == [] || items[|items| - 1].seqNo <= item.seqNo then item.seqNo
                                   else items[|items| - 1].seqNo
  {
    if items != [] {
      InsertedSorted(items[..|items| - 1], item);
    }
  }

  function Renumbered(items: seq<Item>, id: nat): (r: seq<Item>)
    ensures |r| == |items|
  {
    seq(|items|, i requires 0 <= i < |items| =>
      items[i].(correlationId := id + i, retryCount := items[i].retryCount + 1))
  }

  function Activated(items: seq<Item>, conn: nat, now: int): (r: seq<Entry<nat, Item>>)
    ensures |r| == |items|
  {
    seq(|items|, i requires 0 <= i < |items| => Entry(items[i].correlationId, Stamped(items[i], conn, now)))
  }

  function Packages(items: seq<Item>, conn: nat): seq<Sent> {
    seq(|items|, i requires 0 <= i < |items| => Sent(items[i].operation.id, items[i].correlationId, conn))
  }

  function Room(active: Table<nat, Item>, s: Settings): nat {
    if active.length < s.maxConcurrentItems then s.maxConcurrentItems - active.length else 0
  }

  /** From `o` to `r`, the items `sent` went out on the connection and the items `queued` joined the waiting ones. */
  ghost predicate Placed(o: Ops, r: Ops, sent: seq<Item>, queued: seq<Item>, conn: nat, now: int) {
    && r.active == Table(o.active.entries + Activated(sent, conn, now), o.active.length + |sent|)
    && r.waiting == o.waiting + queued && r.wire == o.wire + Packages(sent, conn)
    && r.callbacks == o.callbacks && r.nextSeqNo == o.nextSeqNo
  }

  lemma PlacedChain(
    o: Ops, m: Ops, r: Ops, sent1: seq<Item>, queued1: seq<Item>, sent2: seq<Item>, queued2: seq<Item>,
    conn: nat, now: int)
    requires Placed(o, m, sent1, queued1, conn, now) && Placed(m, r, sent2, queued2, conn, now)
    ensures Placed(o, r, sent1 + sent2, queued1 + queued2, conn, now)
  {
    assert Activated(sent1 + sent2, conn, now) == Activated(sent1, conn, now) + Activated(sent2, conn, now);
    assert Packages(sent1 + sent2, conn) == Packages(sent1, conn) + Packages(sent2, conn);
  }

  lemma SchedulePlaces(o: Ops, s: Settings, item: Item, conn: nat, now: int)
    requires !HasKey(o.active.entries, item.correlationId)
    ensures var r := ScheduleOperation(o, s, item, conn, now);
            if Room(o.active, s) > 0 then Placed(o, r, [item], [], conn, now)
                && Room(r.active, s) == Room(o.active, s) - 1
            else Placed(o, r, [], [item], conn, now) && r.active == o.active
  {
    assert Activated([item], conn, now) == [Entry(item.correlationId, Stamped(item, conn, now))];
    assert Packages([item], conn) == [Sent(item.operation.id, item.correlationId, conn)];
    assert Activated([], conn, now) == [] && Packages([], conn) == [];
  }

  lemma ScheduleKeeps(o: Ops, s: Settings, item: Item, conn: nat, now: int)
    ensures var r := ScheduleOperation(o, s, item, conn, now);
            r.retryPending == o.retryPending && r.nextId == o.nextId
  {
  }

  ghost predicate KeysBelow(entries: seq<Entry<nat, Item>>, id: nat) {
    forall i :: 0 <= i < |entries| ==> entries[i].key < id
  }

  lemma {:induction false} ReissuePlaces(o: Ops, s: Settings, items: seq<Item>, conn: nat, now: int)
    requires KeysBelow(o.active.entries, o.nextId)
    ensures var r, all := ReissueAll(o, s, items, conn, now), Renumbered(items, o.nextId);
            var k := Min(Room(o.active, s), |items|);
            && Placed(o, r, all[..k], all[k..], conn, now)
            && r.nextId == o.nextId + |items| && r.retryPending == o.retryPending
    decreases |items|
  {
    hide Room, ScheduleOperation, HasKey, Assigned, Placed;
    var all := Renumbered(items, o.nextId);
    if items == [] {
      PlacedNothing(o, conn, now);
      assert all == [] && all[..0] == [] && all[0..] == [];
    } else {
      var item := items[0].(correlationId := o.nextId, retryCount := items[0].retryCount + 1);
      var o1 := o.(nextId := o.nextId + 1);
      var m := ScheduleOperation(o1, s, item, conn, now);
      KeyUnused(o.active.entries, o.nextId);
      SchedulePlaces(o1, s, item, conn, now);
      ScheduleKeeps(o1, s, item, conn, now);
      var rest := Renumbered(items[1..], o1.nextId);
      assert all == [item] + rest;
      PlacedIgnoresIds(o, m, [item], [], conn, now);
      PlacedIgnoresIds(o, m, [], [item], conn, now);
      PlacedBelow(o, m, s, item, conn, now);
      ReissuePlaces(m, s, items[1..], conn, now);
      var r := ReissueAll(m, s, items[1..], conn, now);
      if Room(o.active, s) > 0 {
        var k := Min(Room(m.active, s), |rest|);
        PlacedChain(o, m, r, [item], [], rest[..k], rest[k..], conn, now);
        assert all[..k + 1] == [item] + rest[..k] && all[k + 1..] == [] + rest[k..];
      } else {
        PlacedChain(o, m, r, [], [item], rest[..0], rest[0..], conn, now);
        assert all[..0] == [] + rest[..0] && all[0..] == [item] + rest[0..];
      }
    }
  }

  lemma PlacedBelow(o: Ops, m: Ops, s: Settings, item: Item, conn: nat, now: int)
    requires KeysBelow(o.active.entries, o.nextId) && item.correlationId == o.nextId && m.nextId == o.nextId + 1
    requires Placed(o, m, [item], [], conn, now) || Placed(o, m, [], [item], conn, now)
    ensures KeysBelow(m.active.entries, m.nextId)
  {
  }

  lemma PlacedIgnoresIds(o: Ops, r: Ops, sent: seq<Item>, queued: seq<Item>, conn: nat, now: int)
    ensures Placed(o.(nextId := o.nextId + 1), r, sent, queued, conn, now) <==> Placed(o, r, sent, queued, conn, now)
  {
  }

  lemma PlacedNothing(o: Ops, conn: nat, now: int)
    ensures Placed(o, o, [], [], conn, now)
  {
    assert Activated([], conn, now) == [] && Packages([], conn) == [];
  }

  lemma KeyUnused(entries: seq<Entry<nat, Item>>, id: nat)
    requires KeysBelow(entries, id)
    ensures !HasKey(entries, id)
  {
  }

  /** No two of the active and waiting operations have the same correlation id. */
  ghost predicate Apart(entries: seq<Entry<nat, Item>>, waiting: seq<Item>) {
    && (forall i, j :: 0 <= i < |entries| && 0 <= j < |waiting| ==> entries[i].key != waiting[j].correlationId)
    && (forall i, j :: 0 <= i < j < |waiting| ==> waiting[i].correlationId != waiting[j].correlationId)
  }

  lemma ApartFirst(entries: seq<Entry<nat, Item>>, waiting: seq<Item>, conn: nat, now: int)
    requires Apart(entries, waiting) && waiting != []
    ensures !HasKey(entries, waiting[0].correlationId)
    ensures Apart(entries + Activated([waiting[0]], conn, now), waiting[1..])
  {
  }

  lemma {:induction false} DrainPlaces(o: Ops, s: Settings, conn: nat, now: int)
    requires Apart(o.active.entries, o.waiting)
    ensures var r, k := ScheduleWaitingOperations(o, s, conn, now), Min(Room(o.active, s), |o.waiting|);
            && Placed(o.(waiting := o.waiting[k..]), r, o.waiting[..k], [], conn, now)
            && r.nextId == o.nextId && r.retryPending == o.retryPending
    decreases |o.waiting|
  {
    hide Apart, HasKey, Assigned;
    var k := Min(Room(o.active, s), |o.waiting|);
    if k == 0 {
      PlacedNothing(o, conn, now);
      assert o.waiting[0..] == o.waiting && o.waiting[..0] == [];
    } else {
      var first, rest := o.waiting[0], o.waiting[1..];
      var o1 := o.(waiting := rest);
      var m := ScheduleOperation(o1, s, first, conn, now);
      ApartFirst(o.active.entries, o.waiting, conn, now);
      SchedulePlaces(o1, s, first, conn, now);
      ScheduleKeeps(o1, s, first, conn, now);
      assert m.waiting == rest;
      DrainPlaces(m, s, conn, now);
      DrainStep(o1, m, ScheduleWaitingOperations(m, s, conn, now), first, rest, k - 1, conn, now);
      assert o.waiting[..k] == [first] + rest[..k - 1] && o.waiting[k..] == rest[k - 1..];
    }
  }

  lemma DrainStep(o1: Ops, m: Ops, r: Ops, first: Item, rest: seq<Item>, k: nat, conn: nat, now: int)
    requires k <= |rest| && o1.waiting == rest
    requires Placed(o1, m, [first], [], conn, now)
    requires Placed(m.(waiting := rest[k..]), r, rest[..k], [], conn, now)
    ensures Placed(o1.(waiting := rest[k..]), r, [first] + rest[..k], [], conn, now)
  {
    PlacedChain(o1.(waiting := rest[k..]), m.(waiting := rest[k..]), r, [first], [], rest[..k], [], conn, now);
  }
}

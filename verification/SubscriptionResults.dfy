/** What every function of the subscriptions manager keeps. */
module SubscriptionResults {
  import opened Counting
  import opened Hashes
  import opened Picking
  import opened SubscriptionOperations
  import opened SubscriptionScheduling
  import opened TableCounting
  import opened Wrappers

  predicate WithinLimit(item: SubItem, plus: nat) { item.maxRetries >= 0 ==> item.retryCount + plus <= item.maxRetries }

  /** The operation knows itself by this id, and the server has been asked for it on the connection. */
  predicate Asked(op: SubOperation, id: nat, conn: nat) {
    op.correlationId == Some(id) && Subscribe(id, conn) in op.sent
  }

  /** How often the server has been asked. */
  function Asks(sent: seq<SubscriptionPackage>): nat {
    if sent == [] then 0 else Asks(sent[..|sent| - 1]) + if sent[|sent| - 1].Subscribe? then 1 else 0
  }

  /**
   * An active subscription has been asked for under its id on its connection, once and again for every retry, is
   * confirmed exactly when its item says so, and not dropped before that.
   */
  ghost predicate ActiveOk(e: Entry<nat, SubItem>, id: nat) {
    && e.key == e.value.correlationId < id && e.value.connectionId.Some? && WithinLimit(e.value, 0)
    && Orderly(e.value.operation) && Live(e.value.operation) && e.value.isSubscribed == e.value.operation.subscribed
    && Asked(e.value.operation, e.key, e.value.connectionId.value)
    && Asks(e.value.operation.sent) == e.value.retryCount + 1
  }

  /** A waiting or retry-pending subscription is neither confirmed nor dropped. */
  ghost predicate PendingOk(item: SubItem, plus: nat) {
    && Orderly(item.operation) && CanSubscribe(item.operation) && !item.isSubscribed && WithinLimit(item, plus)
    && Asks(item.operation.sent) == item.retryCount + plus
  }

  ghost predicate AllActive(entries: seq<Entry<nat, SubItem>>, id: nat) {
    forall i :: 0 <= i < |entries| ==> ActiveOk(entries[i], id)
  }

  ghost predicate AllPending(items: seq<SubItem>, plus: nat) {
    forall i :: 0 <= i < |items| ==> PendingOk(items[i], plus)
  }

  ghost predicate AllOrderly(ops: seq<SubOperation>) {
    forall i :: 0 <= i < |ops| ==> Orderly(ops[i])
  }

  ghost predicate Inv(m: Subs) {
    && UniqueKeys(m.active.entries) && m.active.length == |m.active.entries| && AllActive(m.active.entries, m.nextId)
    && AllPending(m.waiting, 0) && AllPending(m.retryPending, 1) && AllOrderly(m.released)
  }

  ghost function OfItem(id: nat): SubItem -> nat { (x: SubItem) => if x.operation.id == id then 1 else 0 }

  ghost function OfOperation(id: nat): SubOperation -> nat { (x: SubOperation) => if x.id == id then 1 else 0 }

  /** In how many places a subscription operation is. */
  ghost function Tally(m: Subs, id: nat): nat {
    Count(Items(m.active.entries), OfItem(id)) + Count(m.waiting, OfItem(id)) + Count(m.retryPending, OfItem(id))
    + Count(m.released, OfOperation(id))
  }

  lemma {:induction false} DeletedActive(entries: seq<Entry<nat, SubItem>>, key: nat, id: nat)
    requires AllActive(entries, id)
    ensures AllActive(Deleted(entries, key), id)
  {
    hide ActiveOk;
    if entries != [] {
      var front, last := entries[..|entries| - 1], entries[|entries| - 1];
      assert AllActive(front, id);
      DeletedActive(front, key, id);
      var d := Deleted(front, key);
      assert AllActive(d + [last], id);
    }
  }

  lemma GetAt(entries: seq<Entry<nat, SubItem>>, key: nat) returns (i: nat)
    requires Get(entries, key).Some?
    ensures i < |entries| && entries[i] == Entry(key, Get(entries, key).value)
  {
    i :| 0 <= i < |entries| && entries[i] == Entry(key, Get(entries, key).value);
  }

  /** An entry that leaves the table. */
  lemma TakenOut(m: Subs, item: SubItem, id: nat)
    requires Inv(m) && Get(m.active.entries, item.correlationId).Some?
    ensures var t, was := Removed(m.active, item.correlationId), Get(m.active.entries, item.correlationId).value;
            && UniqueKeys(t.entries) && t.length == |t.entries| && AllActive(t.entries, m.nextId)
            && Count(Items(t.entries), OfItem(id)) + OfItem(id)(was) == Count(Items(m.active.entries), OfItem(id))
            && ActiveOk(Entry(item.correlationId, was), m.nextId)
  {
    hide ActiveOk, Deleted, Items, Count;
    var i := GetAt(m.active.entries, item.correlationId);
    DeletedUnique(m.active.entries, item.correlationId);
    DeletedActive(m.active.entries, item.correlationId, m.nextId);
    CountDeleted(m.active.entries, item.correlationId, i, OfItem(id));
  }

  lemma PendingSnoc(items: seq<SubItem>, item: SubItem, plus: nat)
    requires AllPending(items, plus) && PendingOk(item, plus)
    ensures AllPending(items + [item], plus)
  {
  }

  lemma OrderlySnoc(ops: seq<SubOperation>, op: SubOperation)
    requires AllOrderly(ops) && Orderly(op)
    ensures AllOrderly(ops + [op])
  {
  }

  ghost predicate SameBut(m: Subs, r: Subs) { r.waiting == m.waiting && r.nextId == m.nextId }

  /** An unconfirmed subscription leaves the active ones for a retry, or for good when it has had them all. */
  lemma RetryKeeps(m: Subs, item: SubItem, id: nat)
    requires Inv(m) && Get(m.active.entries, item.correlationId) == Some(item) && !item.isSubscribed
    ensures var r := ScheduleSubscriptionRetry(m, item);
            && Inv(r) && Tally(r, id) == Tally(m, id) && SameBut(m, r)
            && r.active == Removed(m.active, item.correlationId)
  {
    hide AllActive, AllOrderly, AllPending, Orderly, Deleted, Items, Count, UniqueKeys;
    TakenOut(m, item, id);
    var dropped := DropFor(item.operation, SubscribingError);
    DropKeeps(item.operation, SubscribingError, true, Omitted);
    OrderlySnoc(m.released, dropped);
    CountSnoc(m.released, dropped, OfOperation(id));
    CountSnoc(m.retryPending, item, OfItem(id));
    if !(item.maxRetries >= 0 && item.retryCount >= item.maxRetries) {
      PendingSnoc(m.retryPending, item, 1);
    }
  }

  /** A subscription leaves the active ones for good. */
  lemma ReleaseKeeps(m: Subs, item: SubItem, op: SubOperation, id: nat)
    requires Inv(m) && Get(m.active.entries, item.correlationId).Some? && Orderly(op)
    requires op.id == Get(m.active.entries, item.correlationId).value.operation.id
    ensures var r := Release(RemoveSubscription(m, item), op);
            && Inv(r) && Tally(r, id) == Tally(m, id) && SameBut(m, r)
            && r.active == Removed(m.active, item.correlationId) && r.retryPending == m.retryPending
  {
    hide AllActive, AllOrderly, AllPending, Orderly, Deleted, Items, Count, ActiveOk, UniqueKeys;
    TakenOut(m, item, id);
    OrderlySnoc(m.released, op);
    CountSnoc(m.released, op, OfOperation(id));
  }

  /** The items are those the table has under their ids, each once. */
  ghost predicate Listed(entries: seq<Entry<nat, SubItem>>, items: seq<SubItem>) {
    && (forall i :: 0 <= i < |items| ==> Get(entries, items[i].correlationId) == Some(items[i]))
    && (forall i, j :: 0 <= i < j < |items| ==> items[i].correlationId != items[j].correlationId)
  }

  lemma ListedRest(t: Table<nat, SubItem>, items: seq<SubItem>)
    requires UniqueKeys(t.entries) && Listed(t.entries, items) && items != []
    ensures Listed(Removed(t, items[0].correlationId).entries, items[1..])
  {
    hide Get, Removed;
    forall i | 0 <= i < |items| - 1
      ensures Get(Removed(t, items[0].correlationId).entries, items[1..][i].correlationId) == Some(items[1..][i])
    {
      GetAfterRemove(t, items[0].correlationId, items[i + 1].correlationId);
    }
  }

  /** Every entry outside the listed items satisfies `p`. */
  ghost predicate AllBut(entries: seq<Entry<nat, SubItem>>, p: SubItem -> bool, items: seq<SubItem>) {
    forall i :: 0 <= i < |entries| ==> p(entries[i].value) || HasId(items, entries[i].key)
  }

  ghost predicate HasId(items: seq<SubItem>, key: nat) {
    exists j :: 0 <= j < |items| && items[j].correlationId == key
  }

  lemma {:induction false} AllButRest(entries: seq<Entry<nat, SubItem>>, p: SubItem -> bool, items: seq<SubItem>)
    requires AllBut(entries, p, items) && items != []
    ensures AllBut(Deleted(entries, items[0].correlationId), p, items[1..])
  {
    if entries != [] {
      var front, last := entries[..|entries| - 1], entries[|entries| - 1];
      assert AllBut(front, p, items);
      AllButRest(front, p, items);
      if last.key != items[0].correlationId {
        assert p(last.value) || HasId(items[1..], last.key) by {
          if HasId(items, last.key) {
            var j :| 0 <= j < |items| && items[j].correlationId == last.key;
            assert items[1..][j - 1] == items[j];
          }
        }
        var d := Deleted(front, items[0].correlationId);
        assert AllBut(d + [last], p, items[1..]);
      }
    }
  }

  lemma {:induction false} RetryAllKeeps(m: Subs, items: seq<SubItem>, others: seq<SubItem>, p: SubItem -> bool,
      id: nat)
    requires Inv(m) && Listed(m.active.entries, items + others) && AllBut(m.active.entries, p, items)
    requires forall i :: 0 <= i < |items| ==> !items[i].isSubscribed
    ensures var r := RetryAll(m, items);
            && Inv(r) && Tally(r, id) == Tally(m, id) && SameBut(m, r)
            && Listed(r.active.entries, others) && AllBut(r.active.entries, p, [])
    decreases |items|
  {
    hide Inv, Tally, Get, Deleted, AllBut, ScheduleSubscriptionRetry;
    if items == [] {
      assert items + others == others;
    } else {
      var all := items + others;
      var r := ScheduleSubscriptionRetry(m, items[0]);
      assert all[0] == items[0] && all[1..] == items[1..] + others;
      RetryKeeps(m, items[0], id);
      InvUnique(m);
      ListedRest(m.active, all);
      AllButRest(m.active.entries, p, items);
      RetryAllKeeps(r, items[1..], others, p, id);
    }
  }

  lemma InvUnique(m: Subs)
    requires Inv(m)
    ensures UniqueKeys(m.active.entries)
  {
  }

  lemma {:induction false} ReleaseAllKeeps(m: Subs, items: seq<SubItem>, reason: DropReason, p: SubItem -> bool,
      id: nat)
    requires Inv(m) && Listed(m.active.entries, items) && AllBut(m.active.entries, p, items)
    ensures var r := ReleaseAll(m, items, reason);
            && Inv(r) && Tally(r, id) == Tally(m, id) && SameBut(m, r) && r.retryPending == m.retryPending
            && AllBut(r.active.entries, p, [])
    decreases |items|
  {
    hide Inv, Tally, Get, Deleted, AllBut, Release, RemoveSubscription, DropFor;
    if items != [] {
      var op := DropFor(items[0].operation, reason);
      ListedOrderly(m, items[0], reason);
      ReleaseKeeps(m, items[0], op, id);
      InvUnique(m);
      ListedRest(m.active, items);
      AllButRest(m.active.entries, p, items);
      ReleaseAllKeeps(Release(RemoveSubscription(m, items[0]), op), items[1..], reason, p, id);
    }
  }

  lemma ListedOrderly(m: Subs, item: SubItem, reason: DropReason)
    requires Inv(m) && Get(m.active.entries, item.correlationId) == Some(item)
    ensures var op := DropFor(item.operation, reason); Orderly(op) && op.id == item.operation.id
  {
    var i := GetAt(m.active.entries, item.correlationId);
    assert ActiveOk(m.active.entries[i], m.nextId);
    DropKeeps(item.operation, reason, true, Omitted);
  }

  lemma KeyAt(entries: seq<Entry<nat, SubItem>>, id: nat, k: nat)
    requires UniqueKeys(entries) && AllActive(entries, id) && k < |entries|
    ensures Items(entries)[k].correlationId == entries[k].key
    ensures Get(entries, Items(entries)[k].correlationId) == Some(Items(entries)[k])
  {
    hide Orderly;
    assert ActiveOk(entries[k], id);
    GetUnique(entries, entries[k].key);
  }

  /** What is picked from the table, and two picks that exclude each other, are listed by it. */
  lemma PicksListed(entries: seq<Entry<nat, SubItem>>, id: nat, p: SubItem -> bool, q: SubItem -> bool)
    requires UniqueKeys(entries) && AllActive(entries, id) && forall x :: !(p(x) && q(x))
    ensures var items := Items(entries);
            && Listed(entries, Filter(items, p) + Filter(items, q))
            && AllBut(entries, (x: SubItem) => !p(x), Filter(items, p))
            && forall i :: 0 <= i < |Filter(items, p)| ==> p(Filter(items, p)[i])
  {
    hide Get, AllActive, Filter, Places, UniqueKeys;
    var items := Items(entries);
    var xs, ys := Filter(items, p), Filter(items, q);
    var at, bt := Places(items, p), Places(items, q);
    PickedAt(items, p);
    PickedAt(items, q);
    var all, ct := xs + ys, at + bt;
    assert forall i :: 0 <= i < |all| ==> ct[i] < |items| && all[i] == items[ct[i]];
    assert forall i, j :: 0 <= i < j < |ct| ==> ct[i] != ct[j];
    forall i | 0 <= i < |all|
      ensures Get(entries, all[i].correlationId) == Some(all[i]) && all[i].correlationId == entries[ct[i]].key
    {
      KeyAt(entries, id, ct[i]);
    }
    KeysApart(entries, ct);
    forall i | 0 <= i < |entries| ensures !p(entries[i].value) || HasId(xs, entries[i].key) {
      if p(items[i]) {
        var j := FilterCovers(items, p, i);
        KeyAt(entries, id, i);
      }
    }
  }

  lemma KeysApart(entries: seq<Entry<nat, SubItem>>, at: seq<nat>)
    requires UniqueKeys(entries) && forall i :: 0 <= i < |at| ==> at[i] < |entries|
    requires forall i, j :: 0 <= i < j < |at| ==> at[i] != at[j]
    ensures forall i, j :: 0 <= i < j < |at| ==> entries[at[i]].key != entries[at[j]].key
  {
  }

  ghost predicate BoundTo(entries: seq<Entry<nat, SubItem>>, conn: nat) {
    forall i :: 0 <= i < |entries| ==> entries[i].value.isSubscribed || entries[i].value.connectionId == Some(conn)
  }

  /** Whatever has come to the table has just been asked for on the connection. */
  ghost predicate Fresh(before: seq<Entry<nat, SubItem>>, after: seq<Entry<nat, SubItem>>, conn: nat, now: int) {
    && before <= after
    && forall i :: |before| <= i < |after| ==>
         after[i].value.connectionId == Some(conn) && after[i].value.lastUpdated == now && !after[i].value.isSubscribed
  }

  lemma FreshTrans(a: seq<Entry<nat, SubItem>>, b: seq<Entry<nat, SubItem>>, c: seq<Entry<nat, SubItem>>, conn: nat,
      now: int)
    requires Fresh(a, b, conn, now) && Fresh(b, c, conn, now)
    ensures Fresh(a, c, conn, now)
  {
    forall i | |a| <= i < |c|
      ensures c[i].value.connectionId == Some(conn) && c[i].value.lastUpdated == now && !c[i].value.isSubscribed
    {
      assert i < |b| ==> c[i] == b[i];
    }
  }

  lemma FreshSame(a: seq<Entry<nat, SubItem>>, conn: nat, now: int)
    ensures Fresh(a, a, conn, now)
  {
  }

  lemma AsksSnoc(sent: seq<SubscriptionPackage>, p: SubscriptionPackage)
    ensures Asks(sent + [p]) == Asks(sent) + if p.Subscribe? then 1 else 0
  {
    assert (sent + [p])[..|sent|] == sent;
  }

  /** Starting a pending subscription always works: it is never one already subscribed, and it becomes active. */
  lemma StartKeeps(m: Subs, item: SubItem, conn: nat, now: int, id: nat)
    requires Inv(m) && PendingOk(item, 0)
    ensures var r := StartSubscription(m, item, conn, now);
            && Inv(r) && Tally(r, id) == Tally(m, id) + OfItem(id)(item)
            && r.waiting == m.waiting && r.retryPending == m.retryPending && r.released == m.released
            && r.active.length == m.active.length + 1
            && (BoundTo(m.active.entries, conn) ==> BoundTo(r.active.entries, conn))
            && Fresh(m.active.entries, r.active.entries, conn, now)
  {
    hide Count, Items, Orderly, Asks;
    AsksSnoc(item.operation.sent, Subscribe(m.nextId, conn));
    var r := StartSubscription(m, item, conn, now);
    assert Orderly(Subscribing(item.operation, m.nextId, conn)) by { SubscribingOrderly(item.operation, m.nextId,
        conn); }
    var e := Entry(m.nextId, item.(correlationId := m.nextId, connectionId := Some(conn), lastUpdated := now,
                                   operation := Subscribing(item.operation, m.nextId, conn)));
    assert !HasKey(m.active.entries, m.nextId);
    assert r.active.entries == m.active.entries + [e];
    ItemsAppend(m.active.entries, [e]);
    OneItem(e);
    CountSnoc(Items(m.active.entries), e.value, OfItem(id));
  }

  lemma OneItem(e: Entry<nat, SubItem>)
    ensures Items([e]) == [e.value]
  {
  }

  lemma SubscribingOrderly(op: SubOperation, correlationId: nat, conn: nat)
    requires Orderly(op)
    ensures Orderly(Subscribing(op, correlationId, conn))
  {
  }

  lemma {:induction false} RestartAllKeeps(m: Subs, items: seq<SubItem>, conn: nat, now: int, id: nat)
    requires Inv(m) && AllPending(items, 1) && BoundTo(m.active.entries, conn)
    ensures var r := RestartAll(m, items, conn, now);
            && Inv(r) && Tally(r, id) == Tally(m, id) + Count(items, OfItem(id)) && BoundTo(r.active.entries, conn)
            && r.waiting == m.waiting && r.retryPending == m.retryPending
            && r.active.length == m.active.length + |items| && Fresh(m.active.entries, r.active.entries, conn, now)
    decreases |items|
  {
    hide Inv, Tally, StartSubscription, BoundTo, Orderly, Fresh, Asks;
    FreshSame(m.active.entries, conn, now);
    if items != [] {
      var next := items[0].(retryCount := items[0].retryCount + 1);
      assert PendingOk(items[0], 1);
      StartKeeps(m, next, conn, now, id);
      RestartAllKeeps(StartSubscription(m, next, conn, now), items[1..], conn, now, id);
      FreshTrans(m.active.entries, StartSubscription(m, next, conn, now).active.entries,
                 RestartAll(m, items, conn, now).active.entries, conn, now);
      CountSplit(items, 1, OfItem(id));
      CountOne(items[0], OfItem(id));
      assert items[..1] == [items[0]];
    }
  }

  lemma RestartedKeeps(m: Subs, conn: nat, now: int, id: nat)
    requires Inv(m) && BoundTo(m.active.entries, conn)
    ensures var r := Restarted(m, conn, now);
            && Inv(r) && Tally(r, id) == Tally(m, id) && BoundTo(r.active.entries, conn)
            && r.waiting == m.waiting && r.retryPending == []
            && r.active.length == m.active.length + |m.retryPending|
            && Fresh(m.active.entries, r.active.entries, conn, now)
  {
    hide RestartAll, Orderly, AllActive, AllOrderly, Fresh, Asks;
    RestartAllKeeps(m, m.retryPending, conn, now, id);
  }

  lemma {:induction false} StartWaitingKeeps(m: Subs, conn: nat, now: int, id: nat)
    requires Inv(m) && BoundTo(m.active.entries, conn) && m.retryPending == []
    ensures var r := StartWaiting(m, conn, now);
            && Inv(r) && Tally(r, id) == Tally(m, id) && BoundTo(r.active.entries, conn)
            && r.waiting == [] && r.retryPending == []
            && r.active.length == m.active.length + |m.waiting| && Fresh(m.active.entries, r.active.entries, conn, now)
    decreases |m.waiting|
  {
    hide Inv, Tally, StartSubscription, BoundTo, Orderly, Fresh, Asks;
    FreshSame(m.active.entries, conn, now);
    if m.waiting != [] {
      var first, m1 := m.waiting[0], m.(waiting := m.waiting[1..]);
      ShiftKeeps(m, id);
      StartKeeps(m1, first, conn, now, id);
      StartWaitingKeeps(StartSubscription(m1, first, conn, now), conn, now, id);
      FreshTrans(m.active.entries, StartSubscription(m1, first, conn, now).active.entries,
                 StartWaiting(m, conn, now).active.entries, conn, now);
    }
  }

  lemma ShiftKeeps(m: Subs, id: nat)
    requires Inv(m) && m.waiting != []
    ensures var m1 := m.(waiting := m.waiting[1..]);
            Inv(m1) && PendingOk(m.waiting[0], 0) && Tally(m, id) == Tally(m1, id) + OfItem(id)(m.waiting[0])
  {
    hide Orderly, AllActive, AllOrderly;
    CountSplit(m.waiting, 1, OfItem(id));
    CountOne(m.waiting[0], OfItem(id));
    assert m.waiting[..1] == [m.waiting[0]];
  }

  lemma SweptKeeps(m: Subs, s: Settings, conn: nat, now: int, id: nat)
    requires Inv(m)
    ensures var r := Swept(m, s, conn, now);
            && Inv(r) && Tally(r, id) == Tally(m, id) && r.waiting == m.waiting && r.nextId == m.nextId
            && BoundTo(r.active.entries, conn)
  {
    hide Inv, Tally, RetryAll, ReleaseAll, Filter, Listed;
    var p, q := (x: SubItem) => ToRetry(x, s, conn, now), (x: SubItem) => ToRemove(x, s, conn, now);
    var items := Items(m.active.entries);
    InvParts(m);
    PicksListed(m.active.entries, m.nextId, p, q);
    var xs, ys := Filter(items, p), Filter(items, q);
    var notP := (x: SubItem) => !p(x);
    RetryAllKeeps(m, xs, ys, notP, id);
    var r := RetryAll(m, xs);
    AllButWeaker(r.active.entries, notP, [], ys);
    ReleaseAllKeeps(r, ys, SubscribingError, notP, id);
    NotRetryBound(ReleaseAll(r, ys, SubscribingError).active.entries, notP, s, conn, now);
  }

  lemma InvParts(m: Subs)
    requires Inv(m)
    ensures UniqueKeys(m.active.entries) && AllActive(m.active.entries, m.nextId)
  {
  }

  lemma AllButWeaker(entries: seq<Entry<nat, SubItem>>, p: SubItem -> bool, items: seq<SubItem>, more: seq<SubItem>)
    requires AllBut(entries, p, items) && items == []
    ensures AllBut(entries, p, more)
  {
  }

  lemma NotRetryBound(entries: seq<Entry<nat, SubItem>>, p: SubItem -> bool, s: Settings, conn: nat, now: int)
    requires AllBut(entries, p, []) && forall x :: p(x) ==> !ToRetry(x, s, conn, now)
    ensures BoundTo(entries, conn)
  {
  }

  /**
   * After a check nothing waits or is left to retry, every active subscription is confirmed or bound to the current
   * connection, and each subscription is still in exactly as many places as it was.
   */
  lemma CheckKeeps(m: Subs, s: Settings, conn: nat, now: int, id: nat)
    requires Inv(m)
    ensures var r := CheckTimeoutsAndRetry(m, s, conn, now);
            && Inv(r) && Tally(r, id) == Tally(m, id)
            && r.waiting == [] && r.retryPending == [] && BoundTo(r.active.entries, conn)
            && Fresh(Swept(m, s, conn, now).active.entries, r.active.entries, conn, now)
  {
    hide Inv, Tally, Swept, Restarted, StartWaiting, BoundTo, Fresh;
    SweptKeeps(m, s, conn, now, id);
    RestartedKeeps(Swept(m, s, conn, now), conn, now, id);
    StartWaitingKeeps(Restarted(Swept(m, s, conn, now), conn, now), conn, now, id);
    FreshTrans(Swept(m, s, conn, now).active.entries, Restarted(Swept(m, s, conn, now), conn, now).active.entries,
               CheckTimeoutsAndRetry(m, s, conn, now).active.entries, conn, now);
  }

  /** After a purge no active subscription is confirmed on the closed connection. */
  lemma PurgeKeeps(m: Subs, conn: nat, id: nat)
    requires Inv(m)
    ensures var r := PurgeSubscribedAndDropped(m, conn);
            && Inv(r) && Tally(r, id) == Tally(m, id) && SameBut(m, r) && r.retryPending == m.retryPending
            && forall i :: 0 <= i < |r.active.entries| ==>
                 !(r.active.entries[i].value.isSubscribed && r.active.entries[i].value.connectionId == Some(conn))
  {
    hide Inv, Tally, ReleaseAll, Filter, Listed;
    var p, q := (x: SubItem) => Purged(x, conn), (x: SubItem) => false;
    var items := Items(m.active.entries);
    InvParts(m);
    PicksListed(m.active.entries, m.nextId, p, q);
    var notP := (x: SubItem) => !p(x);
    NoneFiltered(items);
    assert Filter(items, p) + Filter(items, q) == Filter(items, p);
    ReleaseAllKeeps(m, Filter(items, p), ConnectionClosed, notP, id);
  }

  lemma {:induction false} NoneFiltered(items: seq<SubItem>)
    ensures Filter(items, (x: SubItem) => false) == []
  {
    if items != [] {
      NoneFiltered(items[..|items| - 1]);
    }
  }

  lemma NewSubsOk()
    ensures Inv(NewSubs())
    ensures forall id :: Tally(NewSubs(), id) == 0
  {
  }

  lemma NewItemPending(m: Subs, id: nat, maxRetries: int, timeout: int, now: int)
    ensures PendingOk(NewSubItem(m, id, maxRetries, timeout, now), 0)
  {
  }

  lemma EnqueueKeeps(m: Subs, item: SubItem, id: nat)
    requires Inv(m) && PendingOk(item, 0)
    ensures var r := EnqueueSubscription(m, item);
            Inv(r) && Tally(r, id) == Tally(m, id) + OfItem(id)(item)
  {
    hide Count, Items, PendingOk, AllActive, AllOrderly, UniqueKeys;
    CountSnoc(m.waiting, item, OfItem(id));
    PendingSnoc(m.waiting, item, 0);
  }

  /**
   * Closing lets go of everything: every subscription that was pending or active has been dropped, and one that was
   * never confirmed has had its start callback called with the error.
   */
  lemma CleanUpKeeps(m: Subs, id: nat)
    requires Inv(m)
    ensures var r := CleanUp(m);
            && Inv(r) && Tally(r, id) == Tally(m, id)
            && r.active.entries == [] && r.waiting == [] && r.retryPending == []
            && m.released <= r.released
            && forall i :: |m.released| <= i < |r.released| ==>
                 r.released[i].unsubscribed && |r.released[i].calls| == 1
  {
    hide Count, Items, Orderly, AllOrderly, AllPending, AllActive, DropFor, DropAll;
    var items := Items(m.active.entries);
    DropAllKeeps(items, id) by { ActiveItems(m.active.entries, m.nextId); }
    DropAllKeeps(m.waiting, id) by { PendingItems(m.waiting, 0); }
    DropAllKeeps(m.retryPending, id) by { PendingItems(m.retryPending, 1); }
    var a, b, c := DropAll(items), DropAll(m.waiting), DropAll(m.retryPending);
    CountAppend(m.released + a + b, c, OfOperation(id));
    CountAppend(m.released + a, b, OfOperation(id));
    CountAppend(m.released, a, OfOperation(id));
    OrderlyAppend(m.released, a);
    OrderlyAppend(m.released + a, b);
    OrderlyAppend(m.released + a + b, c);
    NothingLeft(CleanUp(m));
    DroppedParts(m.released, a, b, c);
  }

  /** And everybody is told that the connection was closed. */
  lemma CleanUpTells(m: Subs)
    ensures LetGo(m.released, CleanUp(m).released, Items(m.active.entries) + m.waiting + m.retryPending,
                  (x: SubItem) => true, ConnectionClosed)
  {
    hide LetGo, DropFor;
    var all := Items(m.active.entries) + m.waiting + m.retryPending;
    PickedLetGo(m.released, all, (x: SubItem) => true, ConnectionClosed);
    AllPicked(all);
    assert m.released + DropEach(all, ConnectionClosed) == CleanUp(m).released;
  }

  lemma {:induction false} AllPicked(items: seq<SubItem>)
    ensures Filter(items, (x: SubItem) => true) == items
  {
    if items != [] {
      AllPicked(items[..|items| - 1]);
    }
  }

  ghost predicate Clean(item: SubItem) { Orderly(item.operation) && Live(item.operation) }

  ghost predicate DroppedOnce(ops: seq<SubOperation>) {
    forall i :: 0 <= i < |ops| ==> ops[i].unsubscribed && |ops[i].calls| == 1
  }

  lemma ActiveItems(entries: seq<Entry<nat, SubItem>>, id: nat)
    requires AllActive(entries, id)
    ensures forall i :: 0 <= i < |Items(entries)| ==> Clean(Items(entries)[i])
  {
    forall i | 0 <= i < |entries| ensures Clean(Items(entries)[i]) {
      assert ActiveOk(entries[i], id);
    }
  }

  lemma PendingItems(items: seq<SubItem>, plus: nat)
    requires AllPending(items, plus)
    ensures forall i :: 0 <= i < |items| ==> Clean(items[i])
  {
  }

  lemma DropAllKeeps(items: seq<SubItem>, id: nat)
    requires forall i :: 0 <= i < |items| ==> Clean(items[i])
    ensures AllOrderly(DropAll(items)) && Count(DropAll(items), OfOperation(id)) == Count(items, OfItem(id))
    ensures DroppedOnce(DropAll(items))
  {
    hide Count, Orderly, Live, DropFor;
    var ops := DropAll(items);
    forall i | 0 <= i < |items|
      ensures Orderly(ops[i]) && ops[i].id == items[i].operation.id && ops[i].unsubscribed && |ops[i].calls| == 1
    {
      assert Clean(items[i]);
      DroppedWell(items[i].operation);
    }
    CountMapped(ops, items, OfOperation(id), OfItem(id));
  }

  lemma DroppedWell(op: SubOperation)
    requires Orderly(op) && Live(op)
    ensures var r := DropFor(op, ConnectionClosed); Orderly(r) && r.id == op.id && r.unsubscribed && |r.calls| == 1
  {
    DropKeeps(op, ConnectionClosed, true, Omitted);
  }

  lemma OrderlyAppend(xs: seq<SubOperation>, ys: seq<SubOperation>)
    requires AllOrderly(xs) && AllOrderly(ys)
    ensures AllOrderly(xs + ys)
  {
  }

  lemma NothingLeft(m: Subs)
    requires m.active == Table([], 0) && m.waiting == [] && m.retryPending == []
    ensures UniqueKeys(m.active.entries) && AllActive(m.active.entries, m.nextId)
    ensures AllPending(m.waiting, 0) && AllPending(m.retryPending, 1)
    ensures forall id :: Tally(m, id) == Count(m.released, OfOperation(id))
  {
  }

  lemma DroppedParts(xs: seq<SubOperation>, a: seq<SubOperation>, b: seq<SubOperation>, c: seq<SubOperation>)
    requires DroppedOnce(a) && DroppedOnce(b) && DroppedOnce(c)
    ensures xs <= xs + a + b + c
    ensures forall i :: |xs| <= i < |xs + a + b + c| ==>
              (xs + a + b + c)[i].unsubscribed && |(xs + a + b + c)[i].calls| == 1
  {
    var all := xs + a + b + c;
    forall i | |xs| <= i < |all| ensures all[i].unsubscribed && |all[i].calls| == 1 {
      if i < |xs| + |a| {
        assert all[i] == a[i - |xs|];
      } else if i < |xs| + |a| + |b| {
        assert all[i] == b[i - |xs| - |a|];
      } else {
        assert all[i] == c[i - |xs| - |a| - |b|];
      }
    }
  }

  lemma AssignedAt(entries: seq<Entry<nat, SubItem>>, k: nat, item: SubItem, id: nat)
    requires UniqueKeys(entries) && k < |entries| && entries[k].key == item.correlationId
    requires item.operation.id == entries[k].value.operation.id
    ensures var r := Assigned(entries, item.correlationId, item);
            r == entries[k := Entry(item.correlationId, item)]
                && Count(Items(r), OfItem(id)) == Count(Items(entries), OfItem(id))
  {
    var r := Assigned(entries, item.correlationId, item);
    assert HasKey(entries, item.correlationId);
    assert r == entries[k := Entry(item.correlationId, item)];
    CountMapped(Items(r), Items(entries), OfItem(id), OfItem(id));
  }

  /** A change of an active subscription's item in place. */
  lemma UpdatedKeeps(m: Subs, item: SubItem, id: nat)
    requires Inv(m) && Get(m.active.entries, item.correlationId).Some?
    requires item.operation.id == Get(m.active.entries, item.correlationId).value.operation.id
    requires ActiveOk(Entry(item.correlationId, item), m.nextId)
    ensures Inv(Updated(m, item)) && Tally(Updated(m, item), id) == Tally(m, id)
  {
    hide Count, Items, AllOrderly, AllPending, ActiveOk, Get;
    var k := GetAt(m.active.entries, item.correlationId);
    AssignedAt(m.active.entries, k, item, id);
  }

  /** A package asks for nothing. */
  lemma InspectAsked(op: SubOperation, reply: SubReply, id: nat, conn: nat)
    requires Orderly(op) && Live(op) && Asked(op, id, conn)
    ensures var r := InspectSubscription(op, reply).op; Asked(r, id, conn) && Asks(r.sent) == Asks(op.sent)
  {
    hide Orderly, InspectSubscription, ReplyActions, ReplyCalls, ReplyDecision;
    if op.unsubscribed {
      SilentOnceDropped(op, reply, ByUser, false, Null);
    } else if op.subscribed {
      ConfirmedExact(op, reply);
    } else {
      UnconfirmedExact(op, reply);
    }
  }

  /** A package for an active subscription keeps everything in order, whatever it says. */
  lemma ResolvedKeeps(m: Subs, key: nat, reply: SubReply, id: nat)
    requires Inv(m) && Get(m.active.entries, key).Some?
    ensures var item := Get(m.active.entries, key).value;
            var r := Resolved(m, item, InspectSubscription(item.operation, reply));
            Inv(r) && Tally(r, id) == Tally(m, id) && r.nextId == m.nextId
  {
    hide Inv, Tally, Orderly, InspectSubscription, Release, RemoveSubscription, Updated, ScheduleSubscriptionRetry, Get,
      Asked;
    var item := Get(m.active.entries, key).value;
    ActiveAt(m, key);
    InspectKeeps(item.operation, reply);
    InspectAsked(item.operation, reply, key, item.connectionId.value);
    var r := InspectSubscription(item.operation, reply);
    var left := item.(operation := r.op);
    match r.decision
    case DoNothing => UpdatedKeeps(m, left, id); UpdatedIds(m, left);
    case Subscribed => UpdatedKeeps(m, left.(isSubscribed := true), id); UpdatedIds(m, left.(isSubscribed := true));
    case EndOperation => ReleaseKeeps(m, left, r.op, id);
    case Retry =>
      assert left == item;
      RetryKeeps(m, item, id);
    case Reconnect(_, _) =>
      assert left == item;
      RetryKeeps(m, item, id);
  }

  lemma UpdatedIds(m: Subs, item: SubItem)
    ensures Updated(m, item).nextId == m.nextId
  {
  }

  lemma ActiveAt(m: Subs, key: nat)
    requires Inv(m) && Get(m.active.entries, key).Some?
    ensures ActiveOk(Entry(key, Get(m.active.entries, key).value), m.nextId)
  {
    hide ActiveOk, Get;
    var i := GetAt(m.active.entries, key);
  }

  lemma TouchKeeps(op: SubOperation, touch: Touch)
    requires Orderly(op)
    ensures var r := Touched(op, touch);
            Orderly(r) && r.id == op.id && r.subscribed == op.subscribed && (Live(op) ==> Live(r))
            && r.correlationId == op.correlationId && op.sent <= r.sent && Asks(r.sent) == Asks(op.sent)
  {
    hide Orderly, Asks;
    match touch
    case Turn(async) => TurnKeeps(op, async);
    case Settle => TurnKeeps(op, false);
    case UserUnsubscribes(connection) =>
      DropKeeps(op, ByUser, false, if connection.Some? then Via(connection.value) else Null);
      if connection.Some? {
        AsksSnoc(op.sent, Unsubscribe(op.correlationId, connection.value));
      }
  }

  /** So do the turns of the action queues and a user's unsubscription. */
  lemma TouchedKeeps(m: Subs, place: Place, touch: Touch, id: nat)
    requires Inv(m)
    ensures var r := TouchedAt(m, place, touch); Inv(r) && Tally(r, id) == Tally(m, id) && r.nextId == m.nextId
  {
    hide Inv, Tally, Orderly, Touched, Updated, Get;
    match place
    case ActivePlace(key) =>
      if Get(m.active.entries, key).Some? {
        var item := Get(m.active.entries, key).value;
        ActiveAt(m, key);
        TouchKeeps(item.operation, touch);
        UpdatedKeeps(m, item.(operation := Touched(item.operation, touch)), id);
        UpdatedIds(m, item.(operation := Touched(item.operation, touch)));
      }
    case ReleasedPlace(i) =>
      if i < |m.released| {
        ReleasedAt(m, i);
        TouchKeeps(m.released[i], touch);
        ReleasedUpdated(m, i, Touched(m.released[i], touch), id);
      }
  }

  /** What a turn of the action queue, a settled promise, or the user's unsubscription makes of an operation. */
  ghost predicate TouchDoes(op: SubOperation, touch: Touch, d: SubOperation) {
    match touch
    case Turn(async) =>
      if !op.scheduled then d == op
      else if op.queue == [] then d == op.(executing := false, scheduled := false)
      else d == op.(queue := op.queue[1..], begun := op.begun + [op.queue[0]], scheduled := !async, inFlight := async)
    case Settle => d == if op.inFlight then op.(scheduled := true, inFlight := false) else op
    case UserUnsubscribes(connection) =>
      if !op.subscribed || op.unsubscribed then d == op
      else
        && d.unsubscribed && d.queued == op.queued + [Dropped(ByUser)] && d.queue == op.queue + [Dropped(ByUser)]
        && d.executing && d.begun == op.begun
        && d.sent == op.sent + if connection.Some? then [Unsubscribe(op.correlationId, connection.value)] else []
  }

  lemma TouchedDoes(op: SubOperation, touch: Touch)
    ensures TouchDoes(op, touch, Touched(op, touch))
  {
    assert op.sent + [] == op.sent;
  }

  /** It is done to the operation at the place, and to nothing else. */
  ghost predicate TouchedAs(m: Subs, r: Subs, place: Place, touch: Touch) {
    && r.waiting == m.waiting && r.retryPending == m.retryPending && r.nextId == m.nextId
    && match place
       case ActivePlace(key) =>
         var item := Get(m.active.entries, key);
         && r.released == m.released && (item.None? ==> r == m)
         && (item.Some? ==>
               exists d :: TouchDoes(item.value.operation, touch, d) && r.active.length == m.active.length
                           && r.active.entries == Assigned(m.active.entries, key, item.value.(operation := d)))
       case ReleasedPlace(i) =>
         && r.active == m.active && (i >= |m.released| ==> r == m)
         && (i < |m.released| ==> exists d :: TouchDoes(m.released[i], touch, d) && r.released == m.released[i := d])
  }

  lemma TouchedExact(m: Subs, place: Place, touch: Touch)
    requires Inv(m)
    ensures TouchedAs(m, TouchedAt(m, place, touch), place, touch)
  {
    hide Get, Orderly, TouchDoes, Touched;
    match place
    case ActivePlace(key) =>
      if Get(m.active.entries, key).Some? {
        ActiveAt(m, key);
        TouchedDoes(Get(m.active.entries, key).value.operation, touch);
      }
    case ReleasedPlace(i) =>
      if i < |m.released| {
        TouchedDoes(m.released[i], touch);
      }
  }

  lemma ReleasedAt(m: Subs, i: nat)
    requires Inv(m) && i < |m.released|
    ensures Orderly(m.released[i])
  {
  }

  lemma ReleasedUpdated(m: Subs, i: nat, op: SubOperation, id: nat)
    requires Inv(m) && i < |m.released| && Orderly(op) && op.id == m.released[i].id
    ensures var r := m.(released := m.released[i := op]); Inv(r) && Tally(r, id) == Tally(m, id)
  {
    hide Orderly, AllActive, AllPending;
    CountMapped(m.released[i := op], m.released, OfOperation(id), OfOperation(id));
  }

  lemma HasIdFirst(items: seq<SubItem>, key: nat)
    requires items != []
    ensures HasId(items, key) <==> items[0].correlationId == key || HasId(items[1..], key)
  {
    if HasId(items, key) && items[0].correlationId != key {
      var j :| 0 <= j < |items| && items[j].correlationId == key;
      assert items[1..][j - 1] == items[j];
    }
    if HasId(items[1..], key) {
      var j :| 0 <= j < |items[1..]| && items[1..][j].correlationId == key;
      assert items[j + 1] == items[1..][j];
    }
  }

  lemma {:induction false} ReleaseAllGet(m: Subs, items: seq<SubItem>, reason: DropReason, key: nat)
    requires UniqueKeys(m.active.entries)
    ensures var r := ReleaseAll(m, items, reason);
            && UniqueKeys(r.active.entries)
            && Get(r.active.entries, key) == if HasId(items, key) then None else Get(m.active.entries, key)
    decreases |items|
  {
    hide Get, Deleted, UniqueKeys, DropFor, HasId;
    if items != [] {
      HasIdFirst(items, key);
      GetAfterRemove(m.active, items[0].correlationId, key);
      DeletedUnique(m.active.entries, items[0].correlationId);
      ReleaseAllGet(Release(RemoveSubscription(m, items[0]), DropFor(items[0].operation, reason)), items[1..], reason,
          key);
    } else {
      NoIds(key);
    }
  }

  lemma NoIds(key: nat)
    ensures !HasId([], key)
  {
  }

  lemma {:induction false} RetryAllGet(m: Subs, items: seq<SubItem>, key: nat)
    requires UniqueKeys(m.active.entries)
    ensures var r := RetryAll(m, items);
            && UniqueKeys(r.active.entries)
            && Get(r.active.entries, key) == if HasId(items, key) then None else Get(m.active.entries, key)
    decreases |items|
  {
    hide Get, Deleted, UniqueKeys, DropFor, HasId;
    if items != [] {
      HasIdFirst(items, key);
      GetAfterRemove(m.active, items[0].correlationId, key);
      DeletedUnique(m.active.entries, items[0].correlationId);
      RetryAllGet(ScheduleSubscriptionRetry(m, items[0]), items[1..], key);
    } else {
      NoIds(key);
    }
  }

  /** An entry is among those picked exactly when it satisfies what they were picked by. */
  lemma PickedExact(entries: seq<Entry<nat, SubItem>>, id: nat, p: SubItem -> bool, key: nat)
    requires UniqueKeys(entries) && AllActive(entries, id) && Get(entries, key).Some?
    ensures HasId(Filter(Items(entries), p), key) <==> p(Get(entries, key).value)
  {
    hide Get, AllActive, UniqueKeys, Filter, Places;
    var items, i := Items(entries), GetIndex(entries, key);
    KeyAt(entries, id, i);
    if p(items[i]) {
      var j := FilterCovers(items, p, i);
      assert Filter(items, p)[j].correlationId == key;
    }
    if HasId(Filter(items, p), key) {
      var j :| 0 <= j < |Filter(items, p)| && Filter(items, p)[j].correlationId == key;
      PickedAt(items, p);
      KeyAt(entries, id, Places(items, p)[j]);
    }
  }

  ghost function GetIndex(entries: seq<Entry<nat, SubItem>>, key: nat): (i: nat)
    requires Get(entries, key).Some?
    ensures i < |entries| && entries[i] == Entry(key, Get(entries, key).value)
  {
    var i :| 0 <= i < |entries| && entries[i] == Entry(key, Get(entries, key).value);
    i
  }

  /** A purge takes out exactly the subscriptions confirmed on the closed connection. */
  lemma PurgeExact(m: Subs, conn: nat, key: nat)
    requires Inv(m) && Get(m.active.entries, key).Some?
    ensures var item := Get(m.active.entries, key).value;
            Get(PurgeSubscribedAndDropped(m, conn).active.entries, key)
            == if item.isSubscribed && item.connectionId == Some(conn) then None else Some(item)
  {
    hide Get, ReleaseAll, Filter, AllActive, UniqueKeys, HasId;
    var p := (x: SubItem) => Purged(x, conn);
    PickedExact(m.active.entries, m.nextId, p, key);
    ReleaseAllGet(m, Filter(Items(m.active.entries), p), ConnectionClosed, key);
  }

  lemma StartGet(m: Subs, item: SubItem, conn: nat, now: int, key: nat)
    requires Inv(m) && PendingOk(item, 0) && key < m.nextId
    ensures var r := StartSubscription(m, item, conn, now);
            Get(r.active.entries, key) == Get(m.active.entries, key) && r.nextId >= m.nextId
  {
    hide Get, Orderly, AllActive, UniqueKeys, Assigned;
    var e := item.(correlationId := m.nextId, connectionId := Some(conn), lastUpdated := now,
                   operation := Subscribing(item.operation, m.nextId, conn));
    GetAfterAdd(m.active, m.nextId, e, key);
  }

  lemma {:induction false} RestartAllGet(m: Subs, items: seq<SubItem>, conn: nat, now: int, key: nat)
    requires Inv(m) && AllPending(items, 1) && key < m.nextId
    ensures var r := RestartAll(m, items, conn, now);
            Get(r.active.entries, key) == Get(m.active.entries, key) && r.nextId >= m.nextId
    decreases |items|
  {
    hide Inv, StartSubscription, Get, Orderly;
    if items != [] {
      var next := items[0].(retryCount := items[0].retryCount + 1);
      assert PendingOk(items[0], 1);
      StartGet(m, next, conn, now, key);
      StartKeeps(m, next, conn, now, 0);
      RestartAllGet(StartSubscription(m, next, conn, now), items[1..], conn, now, key);
    }
  }

  lemma {:induction false} StartWaitingGet(m: Subs, conn: nat, now: int, key: nat)
    requires Inv(m) && key < m.nextId
    ensures Get(StartWaiting(m, conn, now).active.entries, key) == Get(m.active.entries, key)
    decreases |m.waiting|
  {
    hide Inv, StartSubscription, Get, Orderly;
    if m.waiting != [] {
      var first, m1 := m.waiting[0], m.(waiting := m.waiting[1..]);
      ShiftKeeps(m, 0);
      StartGet(m1, first, conn, now, key);
      StartKeeps(m1, first, conn, now, 0);
      StartWaitingGet(StartSubscription(m1, first, conn, now), conn, now, key);
    }
  }

  lemma RestartedGet(m: Subs, conn: nat, now: int, key: nat)
    requires Inv(m) && BoundTo(m.active.entries, conn) && key < m.nextId
    ensures var r := Restarted(m, conn, now);
            Get(r.active.entries, key) == Get(m.active.entries, key) && r.nextId >= m.nextId
  {
    hide RestartAll, Orderly, AllActive, AllOrderly, Get;
    RestartAllGet(m, m.retryPending, conn, now, key);
  }

  lemma SweptGet(m: Subs, s: Settings, conn: nat, now: int, key: nat)
    requires Inv(m) && Get(m.active.entries, key).Some?
    ensures var item := Get(m.active.entries, key).value;
            Get(Swept(m, s, conn, now).active.entries, key)
            == if ToRetry(item, s, conn, now) || ToRemove(item, s, conn, now) then None else Some(item)
  {
    hide Get, RetryAll, ReleaseAll, Filter, AllActive, UniqueKeys, HasId, ToRetry, ToRemove;
    var p, q := (x: SubItem) => ToRetry(x, s, conn, now), (x: SubItem) => ToRemove(x, s, conn, now);
    var items := Items(m.active.entries);
    PickedExact(m.active.entries, m.nextId, p, key);
    PickedExact(m.active.entries, m.nextId, q, key);
    RetryAllGet(m, Filter(items, p), key);
    ReleaseAllGet(RetryAll(m, Filter(items, p)), Filter(items, q), SubscribingError, key);
  }

  /**
   * In a check an active subscription stays as it is exactly when it is confirmed, or bound to the current connection
   * and not silent for too long; any other is asked for again under a new id, or given up.
   */
  lemma CheckExact(m: Subs, s: Settings, conn: nat, now: int, key: nat)
    requires Inv(m) && Get(m.active.entries, key).Some?
    ensures var item := Get(m.active.entries, key).value;
            var silent := item.timeout > 0 && now - item.lastUpdated > s.operationTimeout;
            Get(CheckTimeoutsAndRetry(m, s, conn, now).active.entries, key)
            == if item.isSubscribed || (item.connectionId == Some(conn) && !silent) then Some(item) else None
  {
    hide Inv, Get, Swept, Restarted, StartWaiting, BoundTo, Tally;
    KeyBelow(m, key);
    SweptKeeps(m, s, conn, now, 0);
    SweptGet(m, s, conn, now, key);
    RestartedGet(Swept(m, s, conn, now), conn, now, key);
    RestartedKeeps(Swept(m, s, conn, now), conn, now, 0);
    StartWaitingGet(Restarted(Swept(m, s, conn, now), conn, now), conn, now, key);
  }

  /** Nothing new is in a table that entries were taken out of. */
  ghost predicate Within(some: seq<Entry<nat, SubItem>>, entries: seq<Entry<nat, SubItem>>) {
    forall i :: 0 <= i < |some| ==> some[i] in entries
  }

  lemma {:induction false} DeletedWithin(entries: seq<Entry<nat, SubItem>>, key: nat)
    ensures Within(Deleted(entries, key), entries)
  {
    if entries != [] {
      var front, last := entries[..|entries| - 1], entries[|entries| - 1];
      DeletedWithin(front, key);
      assert entries == front + [last];
    }
  }

  lemma WithinTrans(a: seq<Entry<nat, SubItem>>, b: seq<Entry<nat, SubItem>>, c: seq<Entry<nat, SubItem>>)
    requires Within(a, b) && Within(b, c)
    ensures Within(a, c)
  {
  }

  lemma {:induction false} RetryAllWithin(m: Subs, items: seq<SubItem>)
    ensures Within(RetryAll(m, items).active.entries, m.active.entries)
    decreases |items|
  {
    hide Deleted, DropFor, Within;
    if items == [] {
      assert Within(m.active.entries, m.active.entries) by { WithinSame(m.active.entries); }
    } else {
      var next := ScheduleSubscriptionRetry(m, items[0]);
      DeletedWithin(m.active.entries, items[0].correlationId);
      RetryAllWithin(next, items[1..]);
      WithinTrans(RetryAll(next, items[1..]).active.entries, next.active.entries, m.active.entries);
    }
  }

  lemma WithinSame(a: seq<Entry<nat, SubItem>>)
    ensures Within(a, a)
  {
  }

  lemma {:induction false} ReleaseAllWithin(m: Subs, items: seq<SubItem>, reason: DropReason)
    ensures Within(ReleaseAll(m, items, reason).active.entries, m.active.entries)
    decreases |items|
  {
    hide Deleted, DropFor, Within;
    if items == [] {
      assert Within(m.active.entries, m.active.entries) by { WithinSame(m.active.entries); }
    } else {
      var next := Release(RemoveSubscription(m, items[0]), DropFor(items[0].operation, reason));
      DeletedWithin(m.active.entries, items[0].correlationId);
      ReleaseAllWithin(next, items[1..], reason);
      WithinTrans(ReleaseAll(next, items[1..], reason).active.entries, next.active.entries, m.active.entries);
    }
  }

  /** After a check, whatever is active was so before, unchanged, or has just been asked for on the connection. */
  lemma CheckRenews(m: Subs, s: Settings, conn: nat, now: int)
    requires Inv(m)
    ensures var r := CheckTimeoutsAndRetry(m, s, conn, now);
            forall i :: 0 <= i < |r.active.entries| ==>
              r.active.entries[i] in m.active.entries
              || (r.active.entries[i].value.connectionId == Some(conn) && r.active.entries[i].value.lastUpdated == now
                  && !r.active.entries[i].value.isSubscribed)
  {
    hide Inv, Tally, RetryAll, ReleaseAll, Filter, Restarted, StartWaiting, BoundTo;
    var p, q := (x: SubItem) => ToRetry(x, s, conn, now), (x: SubItem) => ToRemove(x, s, conn, now);
    var items := Items(m.active.entries);
    var retried := RetryAll(m, Filter(items, p));
    CheckKeeps(m, s, conn, now, 0);
    RetryAllWithin(m, Filter(items, p));
    ReleaseAllWithin(retried, Filter(items, q), SubscribingError);
    WithinTrans(Swept(m, s, conn, now).active.entries, retried.active.entries, m.active.entries);
  }

  lemma KeyBelow(m: Subs, key: nat)
    requires Inv(m) && Get(m.active.entries, key).Some?
    ensures key < m.nextId
  {
    hide Get, Orderly;
    ActiveAt(m, key);
  }

  // ---- What those who are let go are told ----

  /** From `op` to `d`: dropped, which is queued for a confirmed one and told the start callback of any other. */
  predicate DroppedAs(op: SubOperation, d: SubOperation, reason: DropReason) {
    && d.id == op.id && d.unsubscribed && d.subscribed == op.subscribed && d.begun == op.begun && d.sent == op.sent
    && d.queued == op.queued + (if op.subscribed && !op.unsubscribed then [Dropped(reason)] else [])
    && d.calls == op.calls + (if op.subscribed || op.unsubscribed then [] else [StartFailed(reason)])
  }

  lemma DropForTells(op: SubOperation, reason: DropReason)
    requires reason != ByUser
    ensures DroppedAs(op, DropFor(op, reason), reason)
  {
    assert op.queued + [] == op.queued && op.calls + [] == op.calls;
  }

  ghost predicate OneOf(d: SubOperation, items: seq<SubItem>, p: SubItem -> bool, reason: DropReason) {
    exists i :: 0 <= i < |items| && p(items[i]) && DroppedAs(items[i].operation, d, reason)
  }

  ghost predicate Found(op: SubOperation, ops: seq<SubOperation>, from: nat, reason: DropReason) {
    exists k :: from <= k < |ops| && DroppedAs(op, ops[k], reason)
  }

  /** Exactly the items picked by `p` have been let go, and have been told the reason. */
  ghost predicate LetGo(before: seq<SubOperation>, after: seq<SubOperation>, items: seq<SubItem>, p: SubItem -> bool,
      reason: DropReason)
  {
    && before <= after
    && (forall k :: |before| <= k < |after| ==> OneOf(after[k], items, p, reason))
    && (forall i :: 0 <= i < |items| && p(items[i]) ==> Found(items[i].operation, after, |before|, reason))
  }

  function DropEach(items: seq<SubItem>, reason: DropReason): (r: seq<SubOperation>)
    ensures |r| == |items|
  {
    seq(|items|, i requires 0 <= i < |items| => DropFor(items[i].operation, reason))
  }

  lemma PickedLetGo(released: seq<SubOperation>, items: seq<SubItem>, p: SubItem -> bool, reason: DropReason)
    requires reason != ByUser
    ensures LetGo(released, released + DropEach(Filter(items, p), reason), items, p, reason)
  {
    hide DropFor, DroppedAs, Filter, Places;
    var picked, after := Filter(items, p), released + DropEach(Filter(items, p), reason);
    PickedAt(items, p);
    forall k | |released| <= k < |after| ensures OneOf(after[k], items, p, reason) {
      DropForTells(picked[k - |released|].operation, reason);
      assert p(items[Places(items, p)[k - |released|]]);
    }
    forall i | 0 <= i < |items| && p(items[i]) ensures Found(items[i].operation, after, |released|, reason) {
      var j := FilterCovers(items, p, i);
      DropForTells(picked[j].operation, reason);
      assert after[|released| + j] == DropFor(picked[j].operation, reason);
    }
  }

  lemma OneOfMore(d: SubOperation, items: seq<SubItem>, p: SubItem -> bool, q: SubItem -> bool, reason: DropReason)
    requires OneOf(d, items, p, reason) && forall i :: 0 <= i < |items| && p(items[i]) ==> q(items[i])
    ensures OneOf(d, items, q, reason)
  {
    hide DroppedAs;
    var i :| 0 <= i < |items| && p(items[i]) && DroppedAs(items[i].operation, d, reason);
    assert q(items[i]);
  }

  lemma FoundIn(op: SubOperation, ops: seq<SubOperation>, from: nat, more: seq<SubOperation>, before: nat,
      reason: DropReason)
    requires Found(op, ops, from, reason) && ops <= more && before <= from
    ensures Found(op, more, before, reason)
  {
    hide DroppedAs;
    var k :| from <= k < |ops| && DroppedAs(op, ops[k], reason);
    assert more[k] == ops[k];
  }

  lemma LetGoBoth(a: seq<SubOperation>, b: seq<SubOperation>, c: seq<SubOperation>, items: seq<SubItem>,
      p: SubItem -> bool, q: SubItem -> bool, both: SubItem -> bool, reason: DropReason)
    requires LetGo(a, b, items, p, reason) && LetGo(b, c, items, q, reason)
    requires forall i :: 0 <= i < |items| ==> (both(items[i]) <==> p(items[i]) || q(items[i]))
    ensures LetGo(a, c, items, both, reason)
  {
    hide OneOf, Found;
    forall k | |a| <= k < |c| ensures OneOf(c[k], items, both, reason) {
      if k < |b| {
        assert OneOf(b[k], items, p, reason);
        OneOfMore(b[k], items, p, both, reason);
      } else {
        OneOfMore(c[k], items, q, both, reason);
      }
    }
    forall i | 0 <= i < |items| && both(items[i]) ensures Found(items[i].operation, c, |a|, reason) {
      if p(items[i]) {
        FoundIn(items[i].operation, b, |a|, c, |a|, reason);
      } else {
        FoundIn(items[i].operation, c, |b|, c, |a|, reason);
      }
    }
  }

  predicate HadAllRetries(item: SubItem) { item.maxRetries >= 0 && item.retryCount >= item.maxRetries }

  function Exhausted(items: seq<SubItem>): seq<SubItem>
    decreases |items|
  {
    if items == [] then []
    else if HadAllRetries(items[0]) then [items[0]] + Exhausted(items[1..])
    else Exhausted(items[1..])
  }

  lemma {:induction false} ExhaustedSnoc(items: seq<SubItem>, item: SubItem)
    ensures Exhausted(items + [item]) == Exhausted(items) + if HadAllRetries(item) then [item] else []
    decreases |items|
  {
    hide HadAllRetries;
    if items == [] {
      assert items + [item] == [item] && [item][1..] == [];
    } else {
      assert (items + [item])[1..] == items[1..] + [item];
      ExhaustedSnoc(items[1..], item);
    }
  }

  lemma {:induction false} ExhaustedFiltered(items: seq<SubItem>, p: SubItem -> bool, q: SubItem -> bool)
    requires forall i :: 0 <= i < |items| ==> (q(items[i]) <==> p(items[i]) && HadAllRetries(items[i]))
    ensures Exhausted(Filter(items, p)) == Filter(items, q)
  {
    hide HadAllRetries;
    if items != [] {
      var front, last := items[..|items| - 1], items[|items| - 1];
      ExhaustedFiltered(front, p, q);
      if p(last) {
        ExhaustedSnoc(Filter(front, p), last);
      }
    }
  }

  lemma {:induction false} RetryAllReleased(m: Subs, items: seq<SubItem>)
    ensures RetryAll(m, items).released == m.released + DropEach(Exhausted(items), SubscribingError)
    decreases |items|
  {
    hide Removed, DropFor;
    if items == [] {
      assert m.released + [] == m.released;
    } else {
      RetryAllReleased(ScheduleSubscriptionRetry(m, items[0]), items[1..]);
      if HadAllRetries(items[0]) {
        DropEachFirst(m.released, items[0], Exhausted(items[1..]), SubscribingError);
      }
    }
  }

  lemma DropEachFirst(released: seq<SubOperation>, item: SubItem, rest: seq<SubItem>, reason: DropReason)
    ensures released + [DropFor(item.operation, reason)] + DropEach(rest, reason)
            == released + DropEach([item] + rest, reason)
  {
    hide DropFor;
    assert [DropFor(item.operation, reason)] + DropEach(rest, reason) == DropEach([item] + rest, reason);
  }

  lemma {:induction false} ReleaseAllReleased(m: Subs, items: seq<SubItem>, reason: DropReason)
    ensures ReleaseAll(m, items, reason).released == m.released + DropEach(items, reason)
    decreases |items|
  {
    hide Removed, DropFor;
    if items == [] {
      assert m.released + [] == m.released;
    } else {
      ReleaseAllReleased(Release(RemoveSubscription(m, items[0]), DropFor(items[0].operation, reason)), items[1..],
          reason);
      DropEachFirst(m.released, items[0], items[1..], reason);
      assert [items[0]] + items[1..] == items;
    }
  }

  lemma {:induction false} RestartAllReleased(m: Subs, items: seq<SubItem>, conn: nat, now: int)
    requires Inv(m) && AllPending(items, 1)
    ensures RestartAll(m, items, conn, now).released == m.released
    decreases |items|
  {
    hide Inv, StartSubscription, Orderly;
    if items != [] {
      var next := items[0].(retryCount := items[0].retryCount + 1);
      assert PendingOk(items[0], 1);
      StartKeeps(m, next, conn, now, 0);
      RestartAllReleased(StartSubscription(m, next, conn, now), items[1..], conn, now);
    }
  }

  lemma {:induction false} StartWaitingReleased(m: Subs, conn: nat, now: int)
    requires Inv(m)
    ensures StartWaiting(m, conn, now).released == m.released
    decreases |m.waiting|
  {
    hide Inv, StartSubscription, Orderly;
    if m.waiting != [] {
      var first, m1 := m.waiting[0], m.(waiting := m.waiting[1..]);
      ShiftKeeps(m, 0);
      StartKeeps(m1, first, conn, now, 0);
      StartWaitingReleased(StartSubscription(m1, first, conn, now), conn, now);
    }
  }

  lemma RestartedReleased(m: Subs, conn: nat, now: int)
    requires Inv(m)
    ensures Restarted(m, conn, now).released == m.released
  {
    hide RestartAll, Orderly, AllActive, AllOrderly;
    RestartAllReleased(m, m.retryPending, conn, now);
  }

  /** Silent for too long on the connection it was asked for. */
  predicate Silent(item: SubItem, s: Settings, conn: nat, now: int) {
    item.connectionId == Some(conn) && item.timeout > 0 && now - item.lastUpdated > s.operationTimeout
  }

  /** Whom a check gives up: silent where the settings want that, or silent or left behind with no retry to go. */
  predicate GivesUpOn(item: SubItem, s: Settings, conn: nat, now: int) {
    && !item.isSubscribed && (item.connectionId != Some(conn) || Silent(item, s, conn, now))
    && (HadAllRetries(item) || (Silent(item, s, conn, now) && s.failOnNoServerResponse))
  }

  /**
   * A check gives up exactly the unconfirmed subscriptions that are silent where the settings want that, or that are
   * silent or left behind and have had all their retries; and their start callbacks are told so.
   */
  lemma GivesUpExact(m: Subs, s: Settings, conn: nat, now: int)
    requires Inv(m)
    ensures LetGo(m.released, CheckTimeoutsAndRetry(m, s, conn, now).released, Items(m.active.entries),
                  (x: SubItem) => GivesUpOn(x, s, conn, now), SubscribingError)
  {
    hide Inv, Swept, Restarted, StartWaiting, BoundTo, Tally, LetGo;
    var r := Swept(m, s, conn, now);
    SweptKeeps(m, s, conn, now, 0);
    SweptReleased(m, s, conn, now);
    RestartedKeeps(r, conn, now, 0);
    RestartedReleased(r, conn, now);
    StartWaitingReleased(Restarted(r, conn, now), conn, now);
  }

  lemma SweptReleased(m: Subs, s: Settings, conn: nat, now: int)
    ensures LetGo(m.released, Swept(m, s, conn, now).released, Items(m.active.entries),
                  (x: SubItem) => GivesUpOn(x, s, conn, now), SubscribingError)
  {
    hide RetryAll, ReleaseAll, Filter, LetGo, DropEach;
    var p, q := (x: SubItem) => ToRetry(x, s, conn, now), (x: SubItem) => ToRemove(x, s, conn, now);
    var pq, both :=
      (x: SubItem) => ToRetry(x, s, conn, now) && HadAllRetries(x), (x: SubItem) => GivesUpOn(x, s, conn, now);
    var items, m1 := Items(m.active.entries), RetryAll(m, Filter(Items(m.active.entries), p));
    RetryAllReleased(m, Filter(items, p));
    ExhaustedFiltered(items, p, pq);
    PickedLetGo(m.released, items, pq, SubscribingError);
    ReleaseAllReleased(m1, Filter(items, q), SubscribingError);
    PickedLetGo(m1.released, items, q, SubscribingError);
    LetGoBoth(m.released, m1.released, Swept(m, s, conn, now).released, items, pq, q, both, SubscribingError);
  }

  /** When a connection is closed, exactly the subscriptions confirmed on it are dropped, for that reason. */
  lemma PurgeTells(m: Subs, conn: nat)
    ensures LetGo(m.released, PurgeSubscribedAndDropped(m, conn).released, Items(m.active.entries),
                  (x: SubItem) => x.isSubscribed && x.connectionId == Some(conn), ConnectionClosed)
  {
    hide ReleaseAll, Filter, LetGo, DropEach;
    var p, q := (x: SubItem) => Purged(x, conn), (x: SubItem) => x.isSubscribed && x.connectionId == Some(conn);
    var items := Items(m.active.entries);
    ReleaseAllReleased(m, Filter(items, p), ConnectionClosed);
    PickedLetGo(m.released, items, p, ConnectionClosed);
    SamePicked(m.released, PurgeSubscribedAndDropped(m, conn).released, items, p, q, ConnectionClosed);
  }

  lemma SamePicked(before: seq<SubOperation>, after: seq<SubOperation>, items: seq<SubItem>, p: SubItem -> bool,
      q: SubItem -> bool, reason: DropReason)
    requires LetGo(before, after, items, p, reason)
    requires forall i :: 0 <= i < |items| ==> (p(items[i]) <==> q(items[i]))
    ensures LetGo(before, after, items, q, reason)
  {
    hide OneOf, Found;
    forall k | |before| <= k < |after| ensures OneOf(after[k], items, q, reason) {
      OneOfMore(after[k], items, p, q, reason);
    }
  }
}

/** The subscriptions manager as the object the source keeps. */
module SubscriptionsManagers {
  import opened Hashes
  import opened Picking
  import opened SubscriptionOperations
  import opened SubscriptionScheduling
  import opened Wrappers
  import SubscriptionResults

  /** No active subscription is confirmed on the connection. */
  ghost predicate NoneOn(entries: seq<Entry<nat, SubItem>>, conn: nat) {
    forall i :: 0 <= i < |entries| ==> !(entries[i].value.isSubscribed && entries[i].value.connectionId == Some(conn))
  }

  lemma StartCounts(m: Subs, item: SubItem, conn: nat, now: int)
    requires SubscriptionResults.Inv(m) && SubscriptionResults.PendingOk(item, 0)
    ensures var r := StartSubscription(m, item, conn, now);
            && SubscriptionResults.Inv(r) && r.active.length == m.active.length + 1
            && |r.active.entries| == |m.active.entries| + 1
  {
    hide StartSubscription, SubscriptionResults.PendingOk, SubscriptionResults.AllActive,
      SubscriptionResults.AllPending, SubscriptionResults.AllOrderly;
    SubscriptionResults.StartKeeps(m, item, conn, now, 0);
  }

  class SubscriptionsManager {
    const settings: Settings
    const active: Hash<nat, SubItem>
    var waiting: seq<SubItem>
    var retryPending: seq<SubItem>
    /** Operations the manager no longer refers to. */
    var released: seq<SubOperation>
    var nextId: nat

    ghost predicate Valid()
      reads this, active
    {
      SubscriptionResults.Inv(State())
    }

    ghost function State(): Subs
      reads this, active
    {
      Subs(active.State(), waiting, retryPending, released, nextId)
    }

    constructor (settings: Settings)
      ensures Valid() && State() == NewSubs() && this.settings == settings && fresh(active)
    {
      this.settings := settings;
      active := new Hash();
      waiting, retryPending, released, nextId := [], [], [], 0;
      new;
      SubscriptionResults.NewSubsOk();
    }

    method RemoveSubscription(item: SubItem)
      modifies active
      ensures State() == SubscriptionScheduling.RemoveSubscription(old(State()), item)
    {
      active.Remove(item.correlationId);
    }

    method EnqueueSubscription(item: SubItem)
      modifies this
      ensures State() == SubscriptionScheduling.EnqueueSubscription(old(State()), item)
      ensures old(Valid()) && SubscriptionResults.PendingOk(item, 0) ==> Valid()
    {
      hide SubscriptionResults.Inv, SubscriptionResults.PendingOk;
      if Valid() && SubscriptionResults.PendingOk(item, 0) {
        SubscriptionResults.EnqueueKeeps(State(), item, 0);
      }
      waiting := waiting + [item];
    }

    method ScheduleSubscriptionRetry(item: SubItem)
      modifies this, active
      ensures State() == SubscriptionScheduling.ScheduleSubscriptionRetry(old(State()), item)
      ensures old(Valid() && Get(active.entries, item.correlationId) == Some(item)) && !item.isSubscribed ==> Valid()
    {
      hide SubscriptionResults.Inv, Get;
      if Valid() && Get(active.entries, item.correlationId) == Some(item) && !item.isSubscribed {
        SubscriptionResults.RetryKeeps(State(), item, 0);
      }
      RemoveSubscription(item);
      if item.maxRetries >= 0 && item.retryCount >= item.maxRetries {
        released := released + [DropFor(item.operation, SubscribingError)];
        return;
      }
      retryPending := retryPending + [item];
    }

    method StartSubscription(item: SubItem, conn: nat, now: int)
      modifies this, active
      ensures State() == SubscriptionScheduling.StartSubscription(old(State()), item, conn, now)
      ensures old(Valid()) && SubscriptionResults.PendingOk(item, 0) ==>
                Valid() && active.length == old(active.length) + 1 && |active.entries| == |old(active.entries)| + 1
    {
      hide SubscriptionResults.Inv, SubscriptionResults.PendingOk;
      if Valid() && SubscriptionResults.PendingOk(item, 0) {
        StartCounts(State(), item, conn, now);
      }
      if item.isSubscribed {
        RemoveSubscription(item);
        released := released + [item.operation];
        return;
      }
      var renewed := item.(correlationId := nextId, connectionId := Some(conn), lastUpdated := now);
      nextId := nextId + 1;
      if CanSubscribe(item.operation) {
        active.Add(renewed.correlationId,
                   renewed.(operation := Subscribing(item.operation, renewed.correlationId, conn)));
      } else {
        active.Add(renewed.correlationId, renewed);
        RemoveSubscription(renewed);
        released := released + [item.operation];
      }
    }

    /** Drops and removes each of the items. */
    method ReleaseEach(items: seq<SubItem>, reason: DropReason)
      modifies this, active
      ensures State() == ReleaseAll(old(State()), items, reason)
    {
      for i := 0 to |items|
        invariant ReleaseAll(State(), items[i..], reason) == ReleaseAll(old(State()), items, reason)
      {
        assert items[i..][1..] == items[i + 1..];
        RemoveSubscription(items[i]);
        released := released + [DropFor(items[i].operation, reason)];
      }
    }

    method PurgeSubscribedAndDroppedSubscriptions(conn: nat)
      modifies this, active
      ensures State() == PurgeSubscribedAndDropped(old(State()), conn)
      ensures old(Valid()) ==> Valid() && NoneOn(active.entries, conn)
    {
      hide SubscriptionResults.Inv;
      if Valid() {
        SubscriptionResults.PurgeKeeps(State(), conn, 0);
      }
      ghost var p := (x: SubItem) => Purged(x, conn);
      var items, toRemove := Items(active.entries), [];
      for i := 0 to |items|
        invariant toRemove == Filter(items[..i], p)
      {
        assert items[..i + 1][..i] == items[..i];
        if items[i].isSubscribed && items[i].connectionId == Some(conn) {
          toRemove := toRemove + [items[i]];
        }
      }
      assert items[..|items|] == items;
      ReleaseEach(toRemove, ConnectionClosed);
    }

    /** Which active subscriptions to ask for again, and which to give up. */
    method Classify(conn: nat, now: int) returns (retry: seq<SubItem>, remove: seq<SubItem>)
      ensures retry == Filter(Items(active.entries), (x: SubItem) => ToRetry(x, settings, conn, now))
      ensures remove == Filter(Items(active.entries), (x: SubItem) => ToRemove(x, settings, conn, now))
    {
      ghost var p, q := (x: SubItem) => ToRetry(x, settings, conn, now),
          (x: SubItem) => ToRemove(x, settings, conn, now);
      var items := Items(active.entries);
      retry, remove := [], [];
      for i := 0 to |items|
        invariant retry == Filter(items[..i], p)
        invariant remove == Filter(items[..i], q)
      {
        assert items[..i + 1][..i] == items[..i];
        var item := items[i];
        if !item.isSubscribed {
          if item.connectionId != Some(conn) {
            retry := retry + [item];
          } else if item.timeout > 0 && now - item.lastUpdated > settings.operationTimeout {
            if settings.failOnNoServerResponse {
              remove := remove + [item];
            } else {
              retry := retry + [item];
            }
          }
        }
      }
      assert items[..|items|] == items;
    }

    method CheckTimeoutsAndRetry(conn: nat, now: int)
      modifies this, active
      ensures State() == SubscriptionScheduling.CheckTimeoutsAndRetry(old(State()), settings, conn, now)
      ensures old(Valid()) ==>
                Valid() && waiting == [] && retryPending == [] && SubscriptionResults.BoundTo(active.entries, conn)
    {
      hide SubscriptionResults.Inv, SubscriptionResults.BoundTo;
      if Valid() {
        SubscriptionResults.CheckKeeps(State(), settings, conn, now, 0);
      }
      Sweep(conn, now);
      Restart(conn, now);
      ghost var restarted := State();
      while |waiting| > 0
        invariant StartWaiting(State(), conn, now) == StartWaiting(restarted, conn, now)
        decreases |waiting|
      {
        hide SubscriptionScheduling.StartSubscription;
        StartFirst(conn, now);
      }
    }

    method StartFirst(conn: nat, now: int)
      requires |waiting| > 0
      modifies this, active
      ensures State() == SubscriptionScheduling.StartSubscription(
                           old(State()).(waiting := old(waiting)[1..]), old(waiting)[0], conn, now)
      ensures |waiting| < |old(waiting)|
    {
      var first := waiting[0];
      waiting := waiting[1..];
      StartSubscription(first, conn, now);
    }

    method Sweep(conn: nat, now: int)
      modifies this, active
      ensures State() == Swept(old(State()), settings, conn, now)
    {
      hide SubscriptionScheduling.ScheduleSubscriptionRetry, ReleaseAll, Filter;
      var retry, remove := Classify(conn, now);
      for i := 0 to |retry|
        invariant RetryAll(State(), retry[i..]) == RetryAll(old(State()), retry)
      {
        assert retry[i..][1..] == retry[i + 1..];
        ScheduleSubscriptionRetry(retry[i]);
      }
      ReleaseEach(remove, SubscribingError);
    }

    method Restart(conn: nat, now: int)
      modifies this, active
      ensures State() == Restarted(old(State()), conn, now)
    {
      hide SubscriptionScheduling.StartSubscription;
      var items := retryPending;
      for i := 0 to |items|
        invariant RestartAll(State(), items[i..], conn, now) == RestartAll(old(State()), items, conn, now)
      {
        assert items[i..][1..] == items[i + 1..];
        StartSubscription(items[i].(retryCount := items[i].retryCount + 1), conn, now);
      }
      retryPending := [];
    }

    /** The user unsubscribes, or the action queue of an operation moves on, wherever the operation is kept. */
    method TouchSubscription(place: Place, touch: Touch)
      modifies this, active
      ensures State() == TouchedAt(old(State()), place, touch)
      ensures old(Valid()) ==> Valid()
    {
      hide SubscriptionResults.Inv, Get, Assigned, Touched;
      if Valid() {
        SubscriptionResults.TouchedKeeps(State(), place, touch, 0);
      }
      match place
      case ActivePlace(key) =>
        var item := Get(active.entries, key);
        if item.Some? {
          var left := item.value.(operation := Touched(item.value.operation, touch));
          active.entries := Assigned(active.entries, left.correlationId, left);
        }
      case ReleasedPlace(i) =>
        if i < |released| {
          released := released[i := Touched(released[i], touch)];
        }
    }

    method DropEach(items: seq<SubItem>)
      modifies this
      ensures State() == old(State()).(released := old(released) + DropAll(items))
    {
      for i := 0 to |items|
        invariant State() == old(State()).(released := old(released) + DropAll(items[..i]))
      {
        released := released + [DropFor(items[i].operation, ConnectionClosed)];
        assert DropAll(items[..i + 1]) == DropAll(items[..i]) + [DropFor(items[i].operation, ConnectionClosed)];
      }
      assert items[..|items|] == items;
    }

    method CleanUp()
      modifies this, active
      ensures State() == SubscriptionScheduling.CleanUp(old(State()))
      ensures old(Valid()) ==> Valid() && active.entries == [] && waiting == [] && retryPending == []
    {
      hide SubscriptionResults.Inv;
      if Valid() {
        SubscriptionResults.CleanUpKeeps(State(), 0);
      }
      DropEach(Items(active.entries));
      DropEach(waiting);
      DropEach(retryPending);
      active.Clear();
      waiting, retryPending := [], [];
    }
  }
}

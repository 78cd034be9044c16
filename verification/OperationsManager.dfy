/** The operations manager as the object the source keeps. */
module OperationsManagers {
  import opened Hashes
  import opened Operations
  import opened OperationScheduling
  import OperationAccounts
  import OperationBooks
  import OperationSettlement
  import opened Wrappers

  ghost predicate AllCalled(o: Ops, book: map<nat, int>) {
    && o.active.entries == [] && o.waiting == [] && o.retryPending == []
    && forall id :: id in book ==> OperationBooks.Calls(o, id) == 1
  }

  lemma EveryoneCalled(o: Ops, s: Settings, book: map<nat, int>)
    requires OperationBooks.Sound(o, s, book)
    ensures OperationBooks.Sound(CleanUp(o), s, book) && AllCalled(CleanUp(o), book)
  {
    hide OperationBooks.Sound, CleanUp, OperationBooks.Calls;
    OperationSettlement.CleanUpSettles(o, s, book);
  }

  /** Nothing waits while there is room. */
  predicate RoomFilled(o: Ops, s: Settings) { o.waiting == [] || |o.active.entries| >= s.maxConcurrentItems }

  class OperationsManager {
    const settings: Settings
    const active: Hash<nat, Item>
    var waiting: seq<Item>
    var retryPending: seq<Item>
    var total: int
    /** Where the next sequence number and correlation id come from. */
    var nextSeqNo: nat
    var nextId: nat
    /** What has left the manager: calls of operations' callbacks, and packages handed to connections. */
    var callbacks: seq<Callback>
    var wire: seq<Sent>

    /**
     * Tables, limits, ids and accounts are right, `book` holding the retry limit of every operation accepted so far.
     */
    ghost predicate Valid(book: map<nat, int>)
      reads this, active
    {
      OperationBooks.Sound(State(), settings, book)
    }

    ghost function State(): Ops
      reads this, active
    {
      Ops(active.State(), waiting, retryPending, total, nextSeqNo, nextId, callbacks, wire)
    }

    constructor (settings: Settings)
      ensures Valid(map[]) && State() == NewOps() && this.settings == settings && fresh(active)
    {
      this.settings := settings;
      active := new Hash();
      waiting, retryPending, total, nextSeqNo, nextId, callbacks, wire := [], [], 0, 0, 0, [], [];
      new;
      OperationSettlement.NewSound(settings);
    }

    method GetActiveOperation(correlationId: nat) returns (item: Option<Item>)
      ensures item == Get(State().active.entries, correlationId)
    {
      item := Get(active.entries, correlationId);
    }

    method Refresh()
      modifies this
      ensures State() == Refreshed(old(State()))
    {
      total := active.length + |waiting|;
    }

    /** An item for a new operation, with the next number and id. */
    method CreateItem(id: nat, maxRetries: int, timeout: int, now: int) returns (item: Item)
      modifies this
      ensures State() == Numbered(old(State())) && item == NewItem(old(State()), id, maxRetries, timeout, now)
    {
      item := Item(nextSeqNo, NewOperation(id), maxRetries, timeout, nextId, 0, now, None);
      nextSeqNo, nextId := nextSeqNo + 1, nextId + 1;
    }

    method FailEach(items: seq<Item>, reason: string)
      modifies this
      ensures State() == old(State()).(callbacks := old(callbacks) + Failures(items, reason))
    {
      for i := 0 to |items|
        invariant State() == old(State()).(callbacks := old(callbacks) + Failures(items[..i], reason))
      {
        callbacks := callbacks + [Failure(items[i], reason)];
        assert Failures(items[..i + 1], reason) == Failures(items[..i], reason) + [Failure(items[i], reason)];
      }
      assert items[..|items|] == items;
    }

    /** Afterwards nothing is held, and every operation accepted so far has been called back once. */
    method CleanUp()
      modifies this, active
      ensures State() == OperationScheduling.CleanUp(old(State()))
      ensures forall book: map<nat, int> :: old(Valid(book)) ==> Valid(book) && AllCalled(State(), book)
    {
      hide OperationBooks.Sound, AllCalled;
      forall book: map<nat, int> | Valid(book)
        ensures OperationBooks.Sound(OperationScheduling.CleanUp(State()), settings, book)
        ensures AllCalled(OperationScheduling.CleanUp(State()), book)
      {
        EveryoneCalled(State(), settings, book);
      }
      FailEach(Items(active.entries), "closed");
      FailEach(waiting, "closed");
      FailEach(retryPending, "closed");
      active.Clear();
      waiting, retryPending, total := [], [], 0;
    }

    method EnqueueOperation(item: Item)
      modifies this
      ensures State() == OperationScheduling.EnqueueOperation(old(State()), item)
    {
      waiting := waiting + [item];
    }

    method ScheduleOperation(item: Item, conn: nat, now: int)
      modifies this, active
      ensures State() == OperationScheduling.ScheduleOperation(old(State()), settings, item, conn, now)
    {
      if active.length >= settings.maxConcurrentItems {
        waiting := waiting + [item];
      } else {
        active.Add(item.correlationId, Stamped(item, conn, now));
        wire := wire + [Sent(item.operation.id, item.correlationId, conn)];
      }
      Refresh();
    }

    method ScheduleWaitingOperations(conn: nat, now: int)
      modifies this, active
      ensures State() == OperationScheduling.ScheduleWaitingOperations(old(State()), settings, conn, now)
      ensures forall book: map<nat, int> :: old(Valid(book)) ==> Valid(book) && RoomFilled(State(), settings)
    {
      hide OperationBooks.Sound;
      forall book: map<nat, int> | Valid(book)
        ensures var r := OperationScheduling.ScheduleWaitingOperations(State(), settings, conn, now);
                OperationBooks.Sound(r, settings, book) && RoomFilled(r, settings)
      {
        OperationAccounts.DrainSound(State(), settings, conn, now, book);
      }
      while |waiting| > 0 && active.length < settings.maxConcurrentItems
        invariant OperationScheduling.ScheduleWaitingOperations(State(), settings, conn, now)
                  == OperationScheduling.ScheduleWaitingOperations(old(State()), settings, conn, now)
        decreases |waiting|
      {
        var first := waiting[0];
        waiting := waiting[1..];
        ScheduleOperation(first, conn, now);
      }
      Refresh();
    }

    method RemoveOperation(item: Item)
      modifies this, active
      ensures State() == OperationScheduling.RemoveOperation(old(State()), item)
    {
      active.Remove(item.correlationId);
      Refresh();
    }

    method ScheduleOperationRetry(item: Item)
      modifies this, active
      ensures State() == OperationScheduling.ScheduleOperationRetry(old(State()), item)
    {
      RemoveOperation(item);
      if item.maxRetries >= 0 && item.retryCount >= item.maxRetries {
        callbacks := callbacks + [Failure(item, "Retry limit reached")];
        return;
      }
      retryPending := retryPending + [item];
    }

    /** Which active operations to send again and which have expired; the expired ones fail on the way. */
    method Classify(conn: nat, now: int) returns (resend: seq<Item>, expired: seq<Item>)
      modifies this
      ensures resend == Select(Items(old(active.entries)), Resend, settings, conn, now)
      ensures expired == Select(Items(old(active.entries)), Expire, settings, conn, now)
      ensures State() == old(State()).(callbacks := old(callbacks) + Failures(expired, "no response"))
    {
      var items := Items(active.entries);
      resend, expired := [], [];
      for i := 0 to |items|
        invariant resend == Select(items[..i], Resend, settings, conn, now)
        invariant expired == Select(items[..i], Expire, settings, conn, now)
        invariant State() == old(State()).(callbacks := old(callbacks) + Failures(expired, "no response"))
      {
        var item := items[i];
        assert items[..i + 1][..i] == items[..i];
        if item.connectionId != Some(conn) {
          resend := resend + [item];
        } else if item.timeout > 0 && now - item.lastUpdated > settings.operationTimeout {
          if settings.failOnNoServerResponse {
            assert Failures(expired + [item], "no response")
                == Failures(expired, "no response") + [Failure(item, "no response")];
            callbacks := callbacks + [Failure(item, "no response")];
            expired := expired + [item];
          } else {
            resend := resend + [item];
          }
        }
      }
      assert items[..|items|] == items;
    }

    method Sweep(conn: nat, now: int)
      modifies this, active
      ensures State() == Swept(old(State()), settings, conn, now)
    {
      var resend, expired := Classify(conn, now);
      ghost var failed := State();
      for i := 0 to |resend|
        invariant RetryAll(State(), resend[i..]) == RetryAll(failed, resend)
      {
        assert resend[i..][1..] == resend[i + 1..];
        ScheduleOperationRetry(resend[i]);
      }
      ghost var retried := State();
      for i := 0 to |expired|
        invariant RemoveAll(State(), expired[i..]) == RemoveAll(retried, expired)
      {
        assert expired[i..][1..] == expired[i + 1..];
        RemoveOperation(expired[i]);
      }
    }

    /** One more try of an item: a fresh correlation id, one more retry, and scheduled like a new one. */
    method ReissueFirst(items: seq<Item>, conn: nat, now: int)
      requires items != []
      modifies this, active
      ensures ReissueAll(State(), settings, items[1..], conn, now)
              == ReissueAll(old(State()), settings, items, conn, now)
    {
      hide OperationScheduling.ScheduleOperation;
      var item := items[0].(correlationId := nextId, retryCount := items[0].retryCount + 1);
      nextId := nextId + 1;
      ScheduleOperation(item, conn, now);
    }

    method Reissue(conn: nat, now: int)
      modifies this, active
      ensures State() == Reissued(old(State()), settings, conn, now)
    {
      hide OperationScheduling.ScheduleOperation, Sorted;
      if |retryPending| > 0 {
        retryPending := Sorted(retryPending);
        ghost var sorted := State();
        var items := retryPending;
        for i := 0 to |items|
          invariant ReissueAll(State(), settings, items[i..], conn, now)
                    == ReissueAll(sorted, settings, items, conn, now)
        {
          assert items[i..][1..] == items[i + 1..];
          ReissueFirst(items[i..], conn, now);
        }
        retryPending := [];
      }
    }

    method CheckTimeoutsAndRetry(conn: nat, now: int)
      modifies this, active
      ensures State() == OperationScheduling.CheckTimeoutsAndRetry(old(State()), settings, conn, now)
      ensures forall book: map<nat, int> :: old(Valid(book)) ==> Valid(book)
    {
      hide OperationBooks.Sound;
      forall book: map<nat, int> | Valid(book)
        ensures OperationBooks.Sound(OperationScheduling.CheckTimeoutsAndRetry(State(), settings, conn, now),
                settings, book)
      {
        OperationAccounts.CheckSound(State(), settings, conn, now, book);
      }
      Sweep(conn, now);
      Reissue(conn, now);
      ScheduleWaitingOperations(conn, now);
    }
  }
}

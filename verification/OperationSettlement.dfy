/** Replies, new operations and closing keep the accounts too; closing settles every one of them. */
module OperationSettlement {
  import opened Counting
  import opened Hashes
  import opened OperationAccounts
  import opened OperationBooks
  import opened OperationChecks
  import opened Operations
  import opened OperationScheduling
  import opened TableCounting
  import opened Wrappers

  /** From `o` to `r`, `item` left the active operations and either waits for a retry or was called back. */
  ghost predicate Left(o: Ops, r: Ops, item: Item, pending: bool) {
    && r.active == Removed(o.active, item.correlationId) && r.waiting == o.waiting && r.wire == o.wire
    && r.nextId == o.nextId
    && if pending then r.callbacks == o.callbacks && r.retryPending == o.retryPending + [item]
       else
         r.retryPending == o.retryPending
         && exists c: Callback :: c.op == item.operation.id && r.callbacks == o.callbacks + [c]
  }

  lemma LeftShape(o: Ops, s: Settings, r: Ops, item: Item, pending: bool)
    requires Shape(o, s) && HasKey(o.active.entries, item.correlationId) && Left(o, r, item, pending)
    ensures Shape(r, s)
  {
    hide Keyed, KeysBelow, IdsBelow, Apart, HasKey, Deleted;
    DeletedKeeps(o.active.entries, item.correlationId, o.nextId, o.waiting);
  }

  lemma LeftBalanced(o: Ops, r: Ops, before: Item, item: Item, pending: bool, i: nat, id: nat)
    requires Keyed(o.active.entries) && Left(o, r, item, pending)
    requires i < |o.active.entries| && o.active.entries[i] == Entry(item.correlationId, before)
    requires before.operation.id == item.operation.id && before.retryCount == item.retryCount
    ensures Balanced(o, r, id)
  {
    hide Count, Items, Deleted;
    var key := item.correlationId;
    CountDeleted(o.active.entries, key, i, One(id));
    CountDeleted(o.active.entries, key, i, Tries(id, 1));
    if pending {
      CountSnoc(o.retryPending, item, One(id));
      CountSnoc(o.retryPending, item, Tries(id, 1));
    } else {
      var c: Callback :| c.op == item.operation.id && r.callbacks == o.callbacks + [c];
      var f := (c: Callback) => if c.op == id then 1 else 0;
      CountAppend(o.callbacks, [c], f);
      CountOne(c, f);
    }
  }

  lemma LeftTracked(o: Ops, r: Ops, before: Item, item: Item, pending: bool, i: nat, book: map<nat, int>)
    requires Keyed(o.active.entries) && Left(o, r, item, pending) && AllTracked(o, book)
    requires i < |o.active.entries| && o.active.entries[i] == Entry(item.correlationId, before)
    requires pending ==> item == before.(operation := item.operation) && item.operation.id == before.operation.id
                         && !item.operation.completed && !LimitReached(item)
    ensures AllTracked(r, book)
  {
    hide Count, Deleted;
    CountDeleted(o.active.entries, item.correlationId, i, Stray(book, 0));
    TrackedCount(Items(o.active.entries), book, 0);
    TrackedCount(Items(r.active.entries), book, 0);
    assert Items(o.active.entries)[i] == before;
    assert OnBook(before, book, 0);
  }

  /** A reply to an active operation leaves all accounts right, and calls back exactly when it ends the operation. */
  lemma ResolvedSound(o: Ops, s: Settings, key: nat, reply: Reply, book: map<nat, int>)
    requires Sound(o, s, book) && Get(o.active.entries, key).Some?
    ensures var item := Get(o.active.entries, key).value;
            var r := InspectPackage(item.operation, reply);
            var after := Resolved(o, item, r);
            && Sound(after, s, book) && !HasKey(after.active.entries, key)
            && after.nextId == o.nextId && after.nextSeqNo == o.nextSeqNo
            && Calls(after, item.operation.id)
               == (if r.decision.EndOperation? || LimitReached(item) then 1 else 0)
  {
    hide InspectPackage, Keyed, KeysBelow, IdsBelow, Apart, Tracked, Account, Balanced, Held, Owed, Sends, Calls,
      Deleted, OnBook;
    var item := Get(o.active.entries, key).value;
    var i :| 0 <= i < |o.active.entries| && o.active.entries[i] == Entry(key, item);
    ActiveFacts(o, i, book);
    InspectSettles(item.operation, reply);
    var r := InspectPackage(item.operation, reply);
    var after, left := Resolved(o, item, r), item.(operation := r.operation);
    var pending := !r.decision.EndOperation? && !LimitReached(item);
    ResolvedLeaves(o, item, r);
    LeftShape(o, s, after, left, pending);
    LeftTracked(o, after, item, left, pending, i, book);
    forall id ensures Account(after, id, book) {
      assert Account(o, id, book);
      LeftBalanced(o, after, item, left, pending, i, id);
      AccountStep(o, after, id, book);
    }
    ActiveUncalled(o, i, book);
    LeftCalls(o, after, left, pending);
    DeletedGone(o.active.entries, key);
  }

  lemma ActiveFacts(o: Ops, i: nat, book: map<nat, int>)
    requires Keyed(o.active.entries) && AllTracked(o, book) && i < |o.active.entries|
    ensures var item := o.active.entries[i].value;
            && UniqueKeys(o.active.entries) && o.active.entries[i].key == item.correlationId
            && OnBook(item, book, 0) && !item.operation.completed && item.operation.id in book
  {
    assert Items(o.active.entries)[i] == o.active.entries[i].value;
  }

  lemma ResolvedLeaves(o: Ops, item: Item, r: Inspected)
    requires r.operation.id == item.operation.id
    requires r.decision.EndOperation? <==> |r.calls| == 1
    requires |r.calls| == 0 || (|r.calls| == 1 && r.calls[0].op == item.operation.id)
    requires r.decision != DoNothing && r.decision != Subscribed
    ensures var after := Resolved(o, item, r);
            && Left(o, after, item.(operation := r.operation), !r.decision.EndOperation? && !LimitReached(item))
            && after.nextSeqNo == o.nextSeqNo
  {
    var left := item.(operation := r.operation);
    var after := Resolved(o, item, r);
    if r.decision.EndOperation? {
      assert r.calls == [r.calls[0]];
      assert after.callbacks == o.callbacks + [r.calls[0]];
    } else {
      assert o.callbacks + r.calls == o.callbacks;
      assert LimitReached(item) ==> after.callbacks == o.callbacks + [Failure(left, "Retry limit reached")];
    }
  }

  lemma ActiveUncalled(o: Ops, i: nat, book: map<nat, int>)
    requires i < |o.active.entries| && Account(o, o.active.entries[i].value.operation.id, book)
    ensures Calls(o, o.active.entries[i].value.operation.id) == 0
  {
    hide Count, Calls;
    CountAt(Items(o.active.entries), i, One(o.active.entries[i].value.operation.id));
  }

  lemma LeftCalls(o: Ops, r: Ops, item: Item, pending: bool)
    requires Left(o, r, item, pending)
    ensures Calls(r, item.operation.id) == Calls(o, item.operation.id) + if pending then 0 else 1
  {
    hide Count;
    if !pending {
      var c: Callback :| c.op == item.operation.id && r.callbacks == o.callbacks + [c];
      var f := (c: Callback) => if c.op == item.operation.id then 1 else 0;
      CountAppend(o.callbacks, [c], f);
      CountOne(c, f);
    }
  }

  /** Closing calls back whatever is pending: afterwards every accepted operation has been called back exactly once. */
  lemma CleanUpSettles(o: Ops, s: Settings, book: map<nat, int>)
    requires Sound(o, s, book)
    ensures var r := CleanUp(o);
            && Sound(r, s, book)
            && r.active.entries == [] && r.waiting == [] && r.retryPending == []
            && (forall id :: id in book ==> Calls(r, id) == 1)
            && o.callbacks <= r.callbacks
            && (forall i :: |o.callbacks| <= i < |r.callbacks| ==> r.callbacks[i].outcome == Failed("closed"))
            && r.nextId == o.nextId && r.nextSeqNo == o.nextSeqNo && r.wire == o.wire
  {
    hide Account, Balanced;
    var r := CleanUp(o);
    forall id ensures Account(r, id, book) && (id in book ==> Calls(r, id) == 1) {
      assert Account(o, id, book);
      CleanUpBalanced(o, id);
      AccountStep(o, r, id, book);
      SettledOnce(r, id, book);
    }
  }

  lemma SettledOnce(o: Ops, id: nat, book: map<nat, int>)
    requires Account(o, id, book) && Held(o, id) == 0
    ensures id in book ==> Calls(o, id) == 1
  {
  }

  lemma CleanUpBalanced(o: Ops, id: nat)
    ensures Balanced(o, CleanUp(o), id) && Held(CleanUp(o), id) == 0
  {
    hide Count, Items, Failures;
    var items := Items(o.active.entries);
    CallCounts(o.callbacks, items, "closed", id);
    CallCounts(o.callbacks + Failures(items, "closed"), o.waiting, "closed", id);
    CallCounts(o.callbacks + Failures(items, "closed") + Failures(o.waiting, "closed"), o.retryPending, "closed", id);
    assert |Items(CleanUp(o).active.entries)| == 0;
    NoneHeld(One(id));
    NoneHeld(Tries(id, 0));
    NoneHeld(Tries(id, 1));
    if Held(o, id) == 0 {
      NothingOwed(o, id);
    }
  }

  lemma AcceptTracked(items: seq<Item>, book: map<nat, int>, plus: nat, id: nat, maxRetries: int)
    requires Tracked(items, book, plus) && id !in book
    ensures Tracked(items, book[id := maxRetries], plus)
  {
  }

  lemma NothingOwed(o: Ops, id: nat)
    requires Held(o, id) == 0
    ensures Owed(o, id) == 0
  {
    NoTries(Items(o.active.entries), id, 1);
    NoTries(o.waiting, id, 0);
    NoTries(o.retryPending, id, 1);
  }

  lemma AcceptAccount(o: Ops, r: Ops, id: nat, other: nat, maxRetries: int, book: map<nat, int>)
    requires id !in book && Account(o, other, book)
    requires Held(r, other) + Calls(r, other) == Held(o, other) + Calls(o, other) + (if other == id then 1 else 0)
    requires Calls(r, other) >= Calls(o, other)
    requires Sends(r, other) + Owed(o, other) == Owed(r, other) + Sends(o, other)
    requires other != id ==> Calls(r, other) == Calls(o, other) && Sends(r, other) == Sends(o, other)
    requires other == id ==> Sends(r, other) <= Sends(o, other) + 1
    ensures Account(r, other, book[id := maxRetries])
  {
    hide Held, Owed, Calls, Sends;
    if Held(o, id) == 0 {
      NothingOwed(o, id);
    }
  }

  /** An operation given to a connecting handler waits, unsent. */
  lemma EnqueueSound(o: Ops, s: Settings, id: nat, maxRetries: int, timeout: int, now: int, book: map<nat, int>)
    requires Sound(o, s, book) && id !in book
    ensures var item := NewItem(o, id, maxRetries, timeout, now);
            Sound(EnqueueOperation(Numbered(o), item), s, book[id := maxRetries])
  {
    hide Account, Held, Owed, Calls, Sends;
    var all := book[id := maxRetries];
    var item := NewItem(o, id, maxRetries, timeout, now);
    var r := EnqueueOperation(Numbered(o), item);
    AcceptTracked(Items(o.active.entries), book, 0, id, maxRetries);
    AcceptTracked(o.waiting, book, 0, id, maxRetries);
    AcceptTracked(o.retryPending, book, 1, id, maxRetries);
    forall other ensures Account(r, other, all) {
      assert Account(o, other, book);
      EnqueueCounts(o, item, r, other);
      AcceptAccount(o, r, id, other, maxRetries, book);
    }
  }

  lemma EnqueueCounts(o: Ops, item: Item, r: Ops, other: nat)
    requires item.retryCount == 0
    requires r.active == o.active && r.waiting == o.waiting + [item] && r.retryPending == o.retryPending
    requires r.callbacks == o.callbacks && r.wire == o.wire
    ensures Held(r, other) == Held(o, other) + (if other == item.operation.id then 1 else 0)
    ensures Calls(r, other) == Calls(o, other) && Sends(r, other) == Sends(o, other) && Owed(r, other) == Owed(o, other)
  {
    hide Count, Items;
    CountSnoc(o.waiting, item, One(other));
    CountSnoc(o.waiting, item, Tries(other, 0));
  }

  /** An operation given to a connected handler is sent if there is room and waits otherwise. */
  lemma ScheduleSound(
    o: Ops, s: Settings, id: nat, maxRetries: int, timeout: int, conn: nat, now: int, book: map<nat, int>)
    requires Sound(o, s, book) && id !in book
    ensures var item := NewItem(o, id, maxRetries, timeout, now);
            Sound(ScheduleOperation(Numbered(o), s, item, conn, now), s, book[id := maxRetries])
  {
    hide Account, Held, Owed, Calls, Sends, Tracked, Keyed, KeysBelow, IdsBelow, Apart, HasKey, Items, Activated;
    var all := book[id := maxRetries];
    var item := NewItem(o, id, maxRetries, timeout, now);
    var r := ScheduleOperation(Numbered(o), s, item, conn, now);
    if o.active.length >= s.maxConcurrentItems {
      EnqueueSound(o, s, id, maxRetries, timeout, now, book);
      SameAccounts(EnqueueOperation(Numbered(o), item), r, s, book[id := maxRetries]);
    } else {
      KeyUnused(o.active.entries, o.nextId);
      SchedulePlaces(Numbered(o), s, item, conn, now);
      ScheduleKeeps(Numbered(o), s, item, conn, now);
      SentShape(o, r, s, item, conn, now);
      SentTracked(o, r, item, maxRetries, conn, now, book);
      forall other ensures Account(r, other, all) {
        assert Account(o, other, book);
        SentCounts(o, item, r, conn, now, other);
        AcceptAccount(o, r, id, other, maxRetries, book);
      }
    }
  }

  lemma SameAccounts(o: Ops, r: Ops, s: Settings, book: map<nat, int>)
    requires Sound(o, s, book) && r == o.(total := r.total)
    ensures Sound(r, s, book)
  {
    forall id ensures Account(r, id, book) {
      assert Account(o, id, book);
    }
  }

  lemma ApartNew(entries: seq<Entry<nat, Item>>, item: Item, waiting: seq<Item>, id: nat)
    requires Apart(entries, waiting) && KeysBelow(entries, id) && IdsBelow(waiting, id) && item.correlationId == id
    ensures Apart(entries, [item] + waiting)
  {
  }

  lemma SentShape(o: Ops, r: Ops, s: Settings, item: Item, conn: nat, now: int)
    requires Shape(o, s) && item.correlationId == o.nextId && o.active.length < s.maxConcurrentItems
    requires Placed(Numbered(o), r, [item], [], conn, now) && r.nextId == o.nextId + 1
    ensures Shape(r, s)
  {
    hide Keyed, Apart;
    var line := [item] + o.waiting;
    ApartNew(o.active.entries, item, o.waiting, o.nextId);
    BelowMore(o.active.entries, o.nextId, o.nextId + 1);
    LineShape(o.active.entries, line, 1, o.nextId + 1, conn, now);
    assert line[..1] == [item] && line[1..] == o.waiting && r.waiting == o.waiting;
  }

  lemma SentTracked(o: Ops, r: Ops, item: Item, maxRetries: int, conn: nat, now: int, book: map<nat, int>)
    requires AllTracked(o, book) && item.operation.id !in book && !item.operation.completed
    requires item.maxRetries == maxRetries && item.retryCount == 0
    requires Placed(Numbered(o), r, [item], [], conn, now) && r.retryPending == o.retryPending
    ensures AllTracked(r, book[item.operation.id := maxRetries])
  {
    hide Items, Activated;
    var book' := book[item.operation.id := maxRetries];
    AcceptTracked(Items(o.active.entries), book, 0, item.operation.id, maxRetries);
    AcceptTracked(o.waiting, book, 0, item.operation.id, maxRetries);
    AcceptTracked(o.retryPending, book, 1, item.operation.id, maxRetries);
    LineTracked(o.active.entries, [item], 1, conn, now, book');
    assert [item][..1] == [item];
  }

  lemma SentCounts(o: Ops, item: Item, r: Ops, conn: nat, now: int, other: nat)
    requires item.retryCount == 0
    requires Placed(Numbered(o), r, [item], [], conn, now) && r.retryPending == o.retryPending
    ensures Held(r, other) == Held(o, other) + (if other == item.operation.id then 1 else 0)
    ensures Calls(r, other) == Calls(o, other)
    ensures Sends(r, other) == Sends(o, other) + (if other == item.operation.id then 1 else 0)
    ensures Owed(r, other) == Owed(o, other) + (if other == item.operation.id then 1 else 0)
  {
    hide Count, Items, Activated, Packages;
    CountEntries(o.active.entries, [item], conn, now, One(other));
    CountEntries(o.active.entries, [item], conn, now, Tries(other, 1));
    SendCounts(o.wire, [item], conn, other);
    CountOne(item, One(other));
    CountOne(item, Tries(other, 1));
    assert r.waiting == o.waiting;
  }

  /** An operation given to a handler that is not active, or closed, is called back at once. */
  lemma RefuseSound(o: Ops, s: Settings, id: nat, maxRetries: int, reason: string, book: map<nat, int>)
    requires Sound(o, s, book) && id !in book
    ensures Sound(o.(callbacks := o.callbacks + [Callback(id, Failed(reason))]), s, book[id := maxRetries])
  {
    hide Account, Held, Owed, Sends;
    var all := book[id := maxRetries];
    var r := o.(callbacks := o.callbacks + [Callback(id, Failed(reason))]);
    AcceptTracked(Items(o.active.entries), book, 0, id, maxRetries);
    AcceptTracked(o.waiting, book, 0, id, maxRetries);
    AcceptTracked(o.retryPending, book, 1, id, maxRetries);
    forall other ensures Account(r, other, all) {
      assert Account(o, other, book);
      var f := (c: Callback) => if c.op == other then 1 else 0;
      CountAppend(o.callbacks, [Callback(id, Failed(reason))], f);
      CountOne(Callback(id, Failed(reason)), f);
      RefusedCounts(o, r, other);
      AcceptAccount(o, r, id, other, maxRetries, book);
    }
  }

  lemma RefusedCounts(o: Ops, r: Ops, id: nat)
    requires r == o.(callbacks := r.callbacks)
    ensures Held(r, id) == Held(o, id) && Owed(r, id) == Owed(o, id) && Sends(r, id) == Sends(o, id)
  {
  }

  lemma NewSound(s: Settings)
    ensures Sound(NewOps(), s, map[])
  {
  }

  ghost function IfChosen(v: Verdict, s: Settings, conn: nat, now: int, f: Item -> nat): Item -> nat {
    (x: Item) => if Check(x, s, conn, now) == v then f(x) else 0
  }

  ghost function IfReached(f: Item -> nat): Item -> nat { (x: Item) => if LimitReached(x) then f(x) else 0 }

  lemma {:induction false} CountSelect(items: seq<Item>, v: Verdict, s: Settings, conn: nat, now: int, f: Item -> nat)
    ensures Count(Select(items, v, s, conn, now), f)
            == Count(items, IfChosen(v, s, conn, now, f))
  {
    hide Check;
    if items != [] {
      var front, last := items[..|items| - 1], items[|items| - 1];
      CountSelect(front, v, s, conn, now, f);
      CountSnoc(Select(front, v, s, conn, now), last, f);
    }
  }

  lemma {:induction false} CountReached(items: seq<Item>, f: Item -> nat)
    ensures Count(Limited(items, true), f) == Count(items, IfReached(f))
  {
    hide LimitReached;
    var g := IfReached(f);
    if items != [] {
      CountReached(items[1..], f);
      CountAppend([items[0]], items[1..], g);
      CountOne(items[0], g);
      CountAppend([items[0]], Limited(items[1..], true), f);
      CountOne(items[0], f);
      assert [items[0]] + items[1..] == items;
    }
  }

  /** Where an operation occurs once, a count of it is its own weight. */
  lemma {:induction false} CountSingle(items: seq<Item>, i: nat, id: nat, g: Item -> nat)
    requires i < |items| && items[i].operation.id == id && Count(items, One(id)) == 1
    requires forall x: Item :: x.operation.id != id ==> g(x) == 0
    ensures Count(items, g) == g(items[i])
  {
    var n := |items| - 1;
    if i == n {
      NoWeight(items[..n], id, g);
    } else {
      CountAt(items[..n], i, One(id));
      CountSingle(items[..n], i, id, g);
    }
  }

  lemma {:induction false} NoWeight(items: seq<Item>, id: nat, g: Item -> nat)
    requires Count(items, One(id)) == 0 && forall x: Item :: x.operation.id != id ==> g(x) == 0
    ensures Count(items, g) == 0
  {
    if items != [] {
      NoWeight(items[..|items| - 1], id, g);
    }
  }

  /**
   * The fate of an active operation in a check: it is called back, failed, exactly when it has gone unanswered on the
   * current connection and the settings want that, or when it has to be sent again and has had all its retries.
   */
  lemma CheckFate(o: Ops, s: Settings, conn: nat, now: int, i: nat, book: map<nat, int>)
    requires Sound(o, s, book) && i < |o.active.entries|
    ensures var item := o.active.entries[i].value;
            var silent := item.connectionId == Some(conn) && item.timeout > 0
                && now - item.lastUpdated > s.operationTimeout;
            var lost := item.connectionId != Some(conn);
            Calls(CheckTimeoutsAndRetry(o, s, conn, now), item.operation.id) == 1
            <==> (silent && s.failOnNoServerResponse)
                 || ((lost || silent) && item.maxRetries >= 0 && item.retryCount >= item.maxRetries)
  {
    hide CheckTimeoutsAndRetry, Select, Limited, Failures, Items, Count, OperationBooks.Shape, AllTracked, Line, Kept,
      Pool, Activated, Packages, Room, Owed, Sends;
    var items, item := Items(o.active.entries), o.active.entries[i].value;
    var id := item.operation.id;
    assert items[i] == item by { ItemAt(o.active.entries, i); }
    assert Account(o, id, book);
    CountAt(items, i, One(id));
    CheckExact(o, s, conn, now);
    var expired, resend := Select(items, Expire, s, conn, now), Select(items, Resend, s, conn, now);
    CallCounts(o.callbacks, expired, "no response", id);
    CallCounts(o.callbacks + Failures(expired, "no response"), Limited(resend, true), "Retry limit reached", id);
    CountSelect(items, Expire, s, conn, now, One(id));
    CountReached(resend, One(id));
    CountSelect(items, Resend, s, conn, now, IfReached(One(id)));
    CountSingle(items, i, id, IfChosen(Expire, s, conn, now, One(id)));
    CountSingle(items, i, id, IfChosen(Resend, s, conn, now, IfReached(One(id))));
  }

  lemma ItemAt(entries: seq<Entry<nat, Item>>, i: nat)
    requires i < |entries|
    ensures Items(entries)[i] == entries[i].value
  {
  }
}

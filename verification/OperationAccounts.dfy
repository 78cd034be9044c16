/** Each function of the operations manager keeps every operation's account. */
module OperationAccounts {
  import opened Counting
  import opened Hashes
  import opened OperationBooks
  import opened OperationChecks
  import opened Operations
  import opened OperationScheduling
  import opened TableCounting
  import opened Wrappers

  lemma CountEntries(entries: seq<Entry<nat, Item>>, items: seq<Item>, conn: nat, now: int, f: Item -> nat)
    requires forall i :: 0 <= i < |items| ==> f(Stamped(items[i], conn, now)) == f(items[i])
    ensures Count(Items(entries + Activated(items, conn, now)), f) == Count(Items(entries), f) + Count(items, f)
  {
    hide Count, Items, Activated;
    var stamped := Items(Activated(items, conn, now));
    StampedItems(items, conn, now);
    ItemsAppend(entries, Activated(items, conn, now));
    CountAppend(Items(entries), stamped, f);
    CountMapped(stamped, items, f, f);
  }

  lemma StampedItems(items: seq<Item>, conn: nat, now: int)
    ensures var stamped := Items(Activated(items, conn, now));
            |stamped| == |items| && forall i :: 0 <= i < |items| ==> stamped[i] == Stamped(items[i], conn, now)
  {
  }

  /** Sending the head of a line: what is held is the table and the line, and each send is owed. */
  lemma LineCounts(entries: seq<Entry<nat, Item>>, line: seq<Item>, n: nat, conn: nat, now: int, id: nat)
    requires n <= |line|
    ensures var all := Items(entries + Activated(line[..n], conn, now));
            && Count(all, One(id)) + Count(line[n..], One(id)) == Count(Items(entries), One(id)) + Count(line, One(id))
            && Count(all, Tries(id, 1)) + Count(line[n..], Tries(id, 0))
               == Count(Items(entries), Tries(id, 1)) + Count(line, Tries(id, 0)) + Count(line[..n], One(id))
            && Count(line[..n], One(id)) <= Count(all, One(id))
  {
    hide Count, Items, Activated;
    CountEntries(entries, line[..n], conn, now, One(id));
    CountEntries(entries, line[..n], conn, now, Tries(id, 1));
    CountSplit(line, n, One(id));
    CountSplit(line, n, Tries(id, 0));
    CountSum(line[..n], Tries(id, 1), Tries(id, 0), One(id));
  }

  lemma SendCounts(wire: seq<Sent>, items: seq<Item>, conn: nat, id: nat)
    ensures var w := (p: Sent) => if p.op == id then 1 else 0;
            Count(wire + Packages(items, conn), w) == Count(wire, w) + Count(items, One(id))
  {
    var w := (p: Sent) => if p.op == id then 1 else 0;
    CountAppend(wire, Packages(items, conn), w);
    CountMapped(Packages(items, conn), items, w, One(id));
  }

  lemma CallCounts(callbacks: seq<Callback>, items: seq<Item>, reason: string, id: nat)
    ensures var c := (c: Callback) => if c.op == id then 1 else 0;
            Count(callbacks + Failures(items, reason), c) == Count(callbacks, c) + Count(items, One(id))
  {
    var c := (c: Callback) => if c.op == id then 1 else 0;
    CountAppend(callbacks, Failures(items, reason), c);
    CountMapped(Failures(items, reason), items, c, One(id));
  }

  lemma {:induction false} NoTries(items: seq<Item>, id: nat, plus: nat)
    requires Count(items, One(id)) == 0
    ensures Count(items, Tries(id, plus)) == 0
  {
    if items != [] {
      NoTries(items[..|items| - 1], id, plus);
    }
  }

  lemma PoolCounts(items: seq<Item>, from: nat, waiting: seq<Item>, room: nat, id: nat)
    ensures var line := Line(Renumbered(Sorted(items), from), waiting, room);
            && Count(line, One(id)) == Count(items, One(id)) + Count(waiting, One(id))
            && Count(line, Tries(id, 0)) == Count(items, Tries(id, 1)) + Count(waiting, Tries(id, 0))
  {
    hide Sorted;
    var pool := Renumbered(Sorted(items), from);
    SortedExact(items, One(id));
    SortedExact(items, Tries(id, 1));
    CountMapped(pool, Sorted(items), One(id), One(id));
    CountMapped(pool, Sorted(items), Tries(id, 0), Tries(id, 1));
    LineCount(pool, waiting, room, One(id));
    LineCount(pool, waiting, room, Tries(id, 0));
  }

  lemma LineCount(pool: seq<Item>, waiting: seq<Item>, room: nat, f: Item -> nat)
    ensures Count(Line(pool, waiting, room), f) == Count(pool, f) + Count(waiting, f)
  {
    var k := Min(room, |pool|);
    CountAppend(pool[..k] + waiting, pool[k..], f);
    CountAppend(pool[..k], waiting, f);
    CountSplit(pool, k, f);
  }

  lemma SweepCounts(entries: seq<Entry<nat, Item>>, retryPending: seq<Item>, s: Settings, conn: nat, now: int,
      f: Item -> nat)
    ensures var resend := Select(Items(entries), Resend, s, conn, now);
            Count(Items(KeptEntries(entries, s, conn, now)), f) + Count(retryPending + Limited(resend, false), f)
            + Count(Select(Items(entries), Expire, s, conn, now), f) + Count(Limited(resend, true), f)
            == Count(Items(entries), f) + Count(retryPending, f)
  {
    hide Items, Select, KeptEntries, Limited, Count;
    CountVerdicts(Items(entries), s, conn, now, f);
    KeptAreSelected(entries, s, conn, now);
    var resend := Select(Items(entries), Resend, s, conn, now);
    CountLimited(resend, f);
    CountAppend(retryPending, Limited(resend, false), f);
  }

  lemma CheckBalanced(o: Ops, s: Settings, conn: nat, now: int, id: nat)
    requires Shape(o, s)
    ensures Balanced(o, CheckTimeoutsAndRetry(o, s, conn, now), id)
  {
    hide CheckTimeoutsAndRetry, Items, KeptEntries, Select, Sorted, Limited, Failures, Packages, Activated, Line, Count,
         Renumbered, Shape, Room;
    var r := CheckTimeoutsAndRetry(o, s, conn, now);
    var entries := o.active.entries;
    var kept := KeptEntries(entries, s, conn, now);
    var resend, expired := Select(Items(entries), Resend, s, conn, now), Select(Items(entries), Expire, s, conn, now);
    var items, room := o.retryPending + Limited(resend, false), Room(Kept(o, s, conn, now), s);
    var line := Line(Pool(o, s, conn, now), o.waiting, room);
    var n := Min(room, |line|);
    CheckExact(o, s, conn, now);
    SweepCounts(entries, o.retryPending, s, conn, now, One(id));
    SweepCounts(entries, o.retryPending, s, conn, now, Tries(id, 1));
    PoolCounts(items, o.nextId, o.waiting, room, id);
    LineCounts(kept, line, n, conn, now, id);
    SendCounts(o.wire, line[..n], conn, id);
    CallCounts(o.callbacks, expired, "no response", id);
    CallCounts(o.callbacks + Failures(expired, "no response"), Limited(resend, true), "Retry limit reached", id);
    NoneHeld(One(id));
    NoneHeld(Tries(id, 1));
    if Count(expired, One(id)) == 0 && Count(Limited(resend, true), One(id)) == 0 {
      NoTries(expired, id, 1);
      NoTries(Limited(resend, true), id, 1);
    }
  }

  lemma NoneHeld(f: Item -> nat)
    ensures Count([], f) == 0
  {
  }

  ghost function Stray(book: map<nat, int>, plus: nat): Item -> nat {
    (x: Item) => if OnBook(x, book, plus) then 0 else 1
  }

  lemma {:induction false} TrackedCount(items: seq<Item>, book: map<nat, int>, plus: nat)
    ensures Tracked(items, book, plus) <==> Count(items, Stray(book, plus)) == 0
  {
    hide OnBook;
    if items != [] {
      var front, last := items[..|items| - 1], items[|items| - 1];
      TrackedCount(front, book, plus);
      assert Tracked(items, book, plus) <==> Tracked(front, book, plus) && OnBook(last, book, plus) by {
        assert forall i :: 0 <= i < |front| ==> items[i] == front[i];
      }
    }
  }

  lemma {:induction false} UnderLimit(items: seq<Item>)
    ensures forall i :: 0 <= i < |Limited(items, false)| ==> !LimitReached(Limited(items, false)[i])
  {
    if items != [] {
      UnderLimit(items[1..]);
    }
  }

  lemma LineTracked(entries: seq<Entry<nat, Item>>, line: seq<Item>, n: nat, conn: nat, now: int, book: map<nat, int>)
    requires Tracked(Items(entries), book, 0) && Tracked(line, book, 0) && n <= |line|
    ensures Tracked(Items(entries + Activated(line[..n], conn, now)), book, 0) && Tracked(line[n..], book, 0)
  {
    hide Tracked, Count, Activated, Items;
    TrackedCount(Items(entries), book, 0);
    TrackedCount(line, book, 0);
    CountSplit(line, n, Stray(book, 0));
    CountEntries(entries, line[..n], conn, now, Stray(book, 0));
    TrackedCount(Items(entries + Activated(line[..n], conn, now)), book, 0);
    TrackedCount(line[n..], book, 0);
  }

  /** Sent again, an item has one more retry behind it, and still no more than it may have. */
  lemma PoolTracked(items: seq<Item>, from: nat, waiting: seq<Item>, room: nat, book: map<nat, int>)
    requires Tracked(items, book, 1) && Tracked(waiting, book, 0)
    ensures Tracked(Line(Renumbered(Sorted(items), from), waiting, room), book, 0)
  {
    hide Sorted, Tracked, Count, Line;
    var pool := Renumbered(Sorted(items), from);
    TrackedCount(items, book, 1);
    SortedExact(items, Stray(book, 1));
    CountMapped(pool, Sorted(items), Stray(book, 0), Stray(book, 1));
    TrackedCount(waiting, book, 0);
    LineCount(pool, waiting, room, Stray(book, 0));
    TrackedCount(Line(pool, waiting, room), book, 0);
  }

  lemma SweepTracked(
    entries: seq<Entry<nat, Item>>, retryPending: seq<Item>, s: Settings, conn: nat, now: int, book: map<nat, int>)
    requires Tracked(Items(entries), book, 0) && Tracked(retryPending, book, 1)
    ensures Tracked(Items(KeptEntries(entries, s, conn, now)), book, 0)
    ensures Tracked(retryPending + Limited(Select(Items(entries), Resend, s, conn, now), false), book, 1)
  {
    hide Count, Select, Limited, KeptEntries, Items;
    var under := Limited(Select(Items(entries), Resend, s, conn, now), false);
    var all := retryPending + under;
    assert Tracked(retryPending, book, 0);
    TrackedCount(Items(entries), book, 0);
    TrackedCount(retryPending, book, 0);
    SweepCounts(entries, retryPending, s, conn, now, Stray(book, 0));
    TrackedCount(Items(KeptEntries(entries, s, conn, now)), book, 0);
    TrackedCount(all, book, 0);
    UnderLimit(Select(Items(entries), Resend, s, conn, now));
    assert forall i :: 0 <= i < |all| ==>
             all[i] == if i < |retryPending| then retryPending[i] else under[i - |retryPending|];
  }

  lemma NoneTracked(book: map<nat, int>, plus: nat)
    ensures Tracked([], book, plus)
  {
  }

  lemma CheckTracked(o: Ops, s: Settings, conn: nat, now: int, book: map<nat, int>)
    requires Shape(o, s) && AllTracked(o, book)
    ensures AllTracked(CheckTimeoutsAndRetry(o, s, conn, now), book)
  {
    hide CheckTimeoutsAndRetry, Items, KeptEntries, Select, Sorted, Limited, Failures, Packages, Activated, Line,
      Tracked, Renumbered, Shape, Room;
    var room := Room(Kept(o, s, conn, now), s);
    var line := Line(Pool(o, s, conn, now), o.waiting, room);
    CheckExact(o, s, conn, now);
    SweepTracked(o.active.entries, o.retryPending, s, conn, now, book);
    PoolTracked(o.retryPending + Limited(Select(Items(o.active.entries), Resend, s, conn, now), false), o.nextId,
                o.waiting, room, book);
    LineTracked(KeptEntries(o.active.entries, s, conn, now), line, Min(room, |line|), conn, now, book);
    NoneTracked(book, 1);
  }

  lemma CheckSound(o: Ops, s: Settings, conn: nat, now: int, book: map<nat, int>)
    requires Sound(o, s, book)
    ensures Sound(CheckTimeoutsAndRetry(o, s, conn, now), s, book)
  {
    hide CheckTimeoutsAndRetry, Shape, AllTracked, Account, Balanced;
    var r := CheckTimeoutsAndRetry(o, s, conn, now);
    CheckShape(o, s, conn, now);
    CheckTracked(o, s, conn, now, book);
    forall id ensures Account(r, id, book) {
      assert Account(o, id, book);
      CheckBalanced(o, s, conn, now, id);
      AccountStep(o, r, id, book);
    }
  }

  /** The drain after a reply: the same, with no room made and nothing to retry. */
  lemma DrainSound(o: Ops, s: Settings, conn: nat, now: int, book: map<nat, int>)
    requires Sound(o, s, book)
    ensures Sound(ScheduleWaitingOperations(o, s, conn, now), s, book)
    ensures var r := ScheduleWaitingOperations(o, s, conn, now);
            r.waiting == [] || |r.active.entries| >= s.maxConcurrentItems
  {
    hide ScheduleWaitingOperations, Tracked, Account, Keyed, KeysBelow, IdsBelow, Apart, Items, Activated, Packages,
         Held, Owed, Sends, Calls;
    var r, k := ScheduleWaitingOperations(o, s, conn, now), Min(Room(o.active, s), |o.waiting|);
    DrainPlaces(o, s, conn, now);
    LineShape(o.active.entries, o.waiting, k, o.nextId, conn, now);
    LineTracked(o.active.entries, o.waiting, k, conn, now, book);
    assert o.waiting[k..] + [] == o.waiting[k..];
    forall id ensures Account(r, id, book) {
      assert Account(o, id, book);
      DrainBalanced(o, r, k, conn, now, id);
      AccountStep(o, r, id, book);
    }
  }

  lemma DrainBalanced(o: Ops, r: Ops, k: nat, conn: nat, now: int, id: nat)
    requires k <= |o.waiting| && Placed(o.(waiting := o.waiting[k..]), r, o.waiting[..k], [], conn, now)
    requires r.retryPending == o.retryPending
    ensures Balanced(o, r, id)
  {
    hide Items, Activated, Packages, Count;
    LineCounts(o.active.entries, o.waiting, k, conn, now, id);
    SendCounts(o.wire, o.waiting[..k], conn, id);
    assert o.waiting[k..] + [] == o.waiting[k..];
  }

  lemma DeletedKeeps(entries: seq<Entry<nat, Item>>, key: nat, id: nat, waiting: seq<Item>)
    requires Keyed(entries) && KeysBelow(entries, id) && Apart(entries, waiting)
    ensures var r := Deleted(entries, key);
            Keyed(r) && KeysBelow(r, id) && Apart(r, waiting)
                && |r| == |entries| - if HasKey(entries, key) then 1 else 0
  {
    DeletedUnique(entries, key);
    DeletedAmong(entries, key, id);
    forall j | 0 <= j < |waiting|
      ensures forall i :: 0 <= i < |Deleted(entries, key)| ==> Deleted(entries, key)[i].key != waiting[j].correlationId
    {
      DeletedFresh(entries, key, waiting[j].correlationId);
    }
  }

  ghost predicate Labelled(entries: seq<Entry<nat, Item>>, id: nat) {
    forall i :: 0 <= i < |entries| ==> entries[i].key == entries[i].value.correlationId && entries[i].key < id
  }

  lemma {:induction false} DeletedAmong(entries: seq<Entry<nat, Item>>, key: nat, id: nat)
    requires Labelled(entries, id)
    ensures Labelled(Deleted(entries, key), id)
  {
    if entries != [] {
      var front, last := entries[..|entries| - 1], entries[|entries| - 1];
      assert Labelled(front, id);
      DeletedAmong(front, key, id);
      var d := Deleted(front, key);
      assert Labelled(d + [last], id);
    }
  }
}

/** What every function of the operations manager keeps: tables, limits, and an account of each operation. */
module OperationBooks {
  import opened Counting
  import opened Hashes
  import opened OperationChecks
  import opened Operations
  import opened OperationScheduling
  import opened Wrappers

  /** The active table is consistent, within its limit, and no correlation id is used twice. */
  ghost predicate Shape(o: Ops, s: Settings) {
    && Keyed(o.active.entries) && o.active.length == |o.active.entries|
    && (o.active.entries == [] || |o.active.entries| <= s.maxConcurrentItems)
    && KeysBelow(o.active.entries, o.nextId) && IdsBelow(o.waiting, o.nextId)
    && Apart(o.active.entries, o.waiting)
  }

  ghost predicate IdsBelow(items: seq<Item>, id: nat) {
    forall i :: 0 <= i < |items| ==> items[i].correlationId < id
  }

  lemma {:induction false} KeptFresh(entries: seq<Entry<nat, Item>>, s: Settings, conn: nat, now: int, key: nat)
    requires !HasKey(entries, key)
    ensures !HasKey(KeptEntries(entries, s, conn, now), key)
  {
    if entries != [] {
      KeptFresh(entries[..|entries| - 1], s, conn, now, key);
    }
  }

  lemma {:induction false} KeptShape(entries: seq<Entry<nat, Item>>, s: Settings, conn: nat, now: int, id: nat)
    requires Keyed(entries) && KeysBelow(entries, id)
    ensures var kept := KeptEntries(entries, s, conn, now);
            && Keyed(kept) && KeysBelow(kept, id) && |kept| <= |entries|
            && forall i :: 0 <= i < |kept| ==> kept[i].value.connectionId == Some(conn)
  {
    if entries != [] {
      var front, last := entries[..|entries| - 1], entries[|entries| - 1];
      KeptShape(front, s, conn, now, id);
      assert !HasKey(front, last.key);
      KeptFresh(front, s, conn, now, last.key);
    }
  }

  lemma KeptApart(entries: seq<Entry<nat, Item>>, waiting: seq<Item>, s: Settings, conn: nat, now: int)
    requires Apart(entries, waiting)
    ensures Apart(KeptEntries(entries, s, conn, now), waiting)
  {
    hide KeptEntries;
    forall j | 0 <= j < |waiting| ensures !HasKey(KeptEntries(entries, s, conn, now), waiting[j].correlationId) {
      KeptFresh(entries, s, conn, now, waiting[j].correlationId);
    }
  }

  /** Moving the head of a line of items into the table keeps table and line in order. */
  lemma LineShape(entries: seq<Entry<nat, Item>>, line: seq<Item>, n: nat, id: nat, conn: nat, now: int)
    requires Keyed(entries) && KeysBelow(entries, id) && IdsBelow(line, id) && Apart(entries, line) && n <= |line|
    ensures var all := entries + Activated(line[..n], conn, now);
            Keyed(all) && KeysBelow(all, id) && IdsBelow(line[n..], id) && Apart(all, line[n..])
  {
  }

  /** The operations a check sends again, in the order it sends them, with their new correlation ids. */
  ghost function Pool(o: Ops, s: Settings, conn: nat, now: int): seq<Item> {
    Renumbered(Sorted(o.retryPending + Limited(Select(Items(o.active.entries), Resend, s, conn, now), false)), o.nextId)
  }

  ghost function Kept(o: Ops, s: Settings, conn: nat, now: int): Table<nat, Item> {
    var kept := KeptEntries(o.active.entries, s, conn, now);
    Table(kept, |kept|)
  }

  /** As many of the pool as there is room for, then the waiting operations, then the rest of the pool. */
  ghost function Line(pool: seq<Item>, waiting: seq<Item>, room: nat): seq<Item> {
    var k := Min(room, |pool|);
    pool[..k] + waiting + pool[k..]
  }

  ghost predicate DistinctIds(items: seq<Item>) {
    forall i, j :: 0 <= i < j < |items| ==> items[i].correlationId != items[j].correlationId
  }

  lemma DistinctMiddle(xs: seq<Item>, ys: seq<Item>, zs: seq<Item>)
    requires DistinctIds(xs + zs) && DistinctIds(ys)
    requires forall i, j :: 0 <= i < |xs + zs| && 0 <= j < |ys| ==> (xs + zs)[i].correlationId != ys[j].correlationId
    ensures DistinctIds(xs + ys + zs)
  {
    var all := xs + ys + zs;
    forall i, j | 0 <= i < j < |all| ensures all[i].correlationId != all[j].correlationId {
      Middle(xs, ys, zs, i);
      Middle(xs, ys, zs, j);
    }
  }

  lemma Middle(xs: seq<Item>, ys: seq<Item>, zs: seq<Item>, i: nat)
    requires i < |xs| + |ys| + |zs|
    ensures (xs + ys + zs)[i] == if |xs| <= i < |xs| + |ys| then ys[i - |xs|]
                                 else (xs + zs)[if i < |xs| then i else i - |ys|]
  {
  }

  lemma LineApart(kept: seq<Entry<nat, Item>>, waiting: seq<Item>, items: seq<Item>, id: nat, room: nat)
    requires KeysBelow(kept, id) && IdsBelow(waiting, id) && Apart(kept, waiting)
    ensures var line := Line(Renumbered(items, id), waiting, room);
            Apart(kept, line) && IdsBelow(line, id + |items|)
  {
    var k := Min(room, |items|);
    var pool := Renumbered(items, id);
    var line := Line(pool, waiting, room);
    assert pool[..k] + pool[k..] == pool;
    assert DistinctIds(pool) && DistinctIds(waiting);
    DistinctMiddle(pool[..k], waiting, pool[k..]);
    assert forall i, j :: 0 <= i < j < |line| ==> line[i].correlationId != line[j].correlationId;
    forall j | 0 <= j < |line|
      ensures line[j].correlationId < id + |items|
      ensures forall i :: 0 <= i < |kept| ==> kept[i].key != line[j].correlationId
    {
      Middle(pool[..k], waiting, pool[k..], j);
    }
  }

  lemma SweptLength(o: Ops, s: Settings, conn: nat, now: int)
    requires Keyed(o.active.entries) && o.active.length == |o.active.entries|
    ensures Swept(o, s, conn, now).active == Kept(o, s, conn, now)
  {
    hide Swept, Select, KeptEntries;
    SweptExact(o, s, conn, now);
    CountVerdicts(Items(o.active.entries), s, conn, now, (x: Item) => 0);
    KeptAreSelected(o.active.entries, s, conn, now);
    assert |Items(KeptEntries(o.active.entries, s, conn, now))| == |KeptEntries(o.active.entries, s, conn, now)|;
  }

  /** A check, in one line: of the line of operations, as many as there is room for are sent and the rest wait. */
  lemma CheckExact(o: Ops, s: Settings, conn: nat, now: int)
    requires Shape(o, s)
    ensures var r := CheckTimeoutsAndRetry(o, s, conn, now);
            var kept, pool := Kept(o, s, conn, now), Pool(o, s, conn, now);
            var line := Line(pool, o.waiting, Room(kept, s));
            var n := Min(Room(kept, s), |line|);
            var items := Items(o.active.entries);
            && r.active == Table(kept.entries + Activated(line[..n], conn, now), |kept.entries| + n)
            && r.waiting == line[n..] && r.retryPending == [] && r.wire == o.wire + Packages(line[..n], conn)
            && r.callbacks == o.callbacks + Failures(Select(items, Expire, s, conn, now), "no response")
                              + Failures(Limited(Select(items, Resend, s, conn, now), true), "Retry limit reached")
            && r.nextId == o.nextId + |pool| && r.nextSeqNo == o.nextSeqNo
  {
    hide Swept, ReissueAll, ScheduleWaitingOperations, Select, KeptEntries, Sorted, Limited, Failures, Keyed, Apart;
    assert Keyed(o.active.entries) && o.active.length == |o.active.entries| && KeysBelow(o.active.entries, o.nextId)
           && IdsBelow(o.waiting, o.nextId) && Apart(o.active.entries, o.waiting);
    var swept := Swept(o, s, conn, now);
    SweptExact(o, s, conn, now);
    SweptLength(o, s, conn, now);
    KeptShape(o.active.entries, s, conn, now, o.nextId);
    KeptApart(o.active.entries, o.waiting, s, conn, now);
    ReissueLine(swept, s, conn, now);
  }

  lemma ReissuedPlaces(o: Ops, s: Settings, conn: nat, now: int)
    requires KeysBelow(o.active.entries, o.nextId)
    ensures var r, pool := Reissued(o, s, conn, now), Renumbered(Sorted(o.retryPending), o.nextId);
            var k := Min(Room(o.active, s), |pool|);
            && Placed(o, r, pool[..k], pool[k..], conn, now)
            && r.nextId == o.nextId + |pool| && r.retryPending == []
  {
    hide Sorted, KeysBelow, Room, Activated, Packages;
    var items := Sorted(o.retryPending);
    SortedExact(o.retryPending, (x: Item) => 0);
    var o1 := o.(retryPending := items);
    ReissuePlaces(o1, s, items, conn, now);
    if o.retryPending == [] {
      assert items == [];
      assert o1 == o && ReissueAll(o, s, items, conn, now) == o;
    }
  }

  lemma ReissuedApart(o: Ops, s: Settings, m: Ops, conn: nat, now: int, items: seq<Item>, k: nat)
    requires Keyed(o.active.entries) && KeysBelow(o.active.entries, o.nextId) && IdsBelow(o.waiting, o.nextId)
    requires Apart(o.active.entries, o.waiting)
    requires k == Min(Room(o.active, s), |items|)
    requires Placed(o, m, Renumbered(items, o.nextId)[..k], Renumbered(items, o.nextId)[k..], conn, now)
    ensures Apart(m.active.entries, m.waiting)
  {
    hide Keyed, Apart, KeysBelow, IdsBelow, Room;
    var pool := Renumbered(items, o.nextId);
    var line := Line(pool, o.waiting, Room(o.active, s));
    LineApart(o.active.entries, o.waiting, items, o.nextId, Room(o.active, s));
    BelowMore(o.active.entries, o.nextId, o.nextId + |items|);
    LineShape(o.active.entries, line, k, o.nextId + |items|, conn, now);
    assert line[..k] == pool[..k] && line[k..] == o.waiting + pool[k..];
  }

  lemma PlacedLater(o: Ops, m: Ops, sent: seq<Item>, queued: seq<Item>, conn: nat, now: int)
    requires Placed(o, m, sent, queued, conn, now)
    ensures m.waiting == o.waiting + queued && m.active.length == o.active.length + |sent|
    ensures forall j :: 0 <= j <= |m.waiting| ==>
              Placed(o.(waiting := []), m.(waiting := m.waiting[j..]), sent, m.waiting[j..], conn, now)
  {
  }

  lemma LineCombined(
    o: Ops, s: Settings, m: Ops, r: Ops, pool: seq<Item>, conn: nat, now: int)
    requires var k := Min(Room(o.active, s), |pool|); Placed(o, m, pool[..k], pool[k..], conn, now)
    requires var j := Min(Room(m.active, s), |m.waiting|);
             Placed(m.(waiting := m.waiting[j..]), r, m.waiting[..j], [], conn, now)
    ensures var line := Line(pool, o.waiting, Room(o.active, s));
            var n := Min(Room(o.active, s), |line|);
            Placed(o.(waiting := []), r, line[..n], line[n..], conn, now)
  {
    hide Placed;
    var k, j := Min(Room(o.active, s), |pool|), Min(Room(m.active, s), |m.waiting|);
    var queued := o.waiting + pool[k..];
    PlacedLater(o, m, pool[..k], pool[k..], conn, now);
    var line := Line(pool, o.waiting, Room(o.active, s));
    var n := Min(Room(o.active, s), |line|);
    assert line == pool[..k] + queued;
    assert line[..n] == pool[..k] + queued[..j] && line[n..] == queued[j..];
    PlacedChain(o.(waiting := []), m.(waiting := queued[j..]), r, pool[..k], queued[j..], queued[..j], [], conn, now);
    assert queued[j..] + [] == queued[j..];
  }

  lemma ReissueLine(o: Ops, s: Settings, conn: nat, now: int)
    requires Keyed(o.active.entries) && KeysBelow(o.active.entries, o.nextId) && IdsBelow(o.waiting, o.nextId)
    requires Apart(o.active.entries, o.waiting)
    ensures var r := ScheduleWaitingOperations(Reissued(o, s, conn, now), s, conn, now);
            var pool := Renumbered(Sorted(o.retryPending), o.nextId);
            var line := Line(pool, o.waiting, Room(o.active, s));
            var n := Min(Room(o.active, s), |line|);
            && Placed(o.(waiting := []), r, line[..n], line[n..], conn, now)
            && r.retryPending == [] && r.nextId == o.nextId + |pool|
  {
    hide Reissued, ScheduleWaitingOperations, Sorted, Renumbered, Keyed, Apart, KeysBelow, IdsBelow, Room, Placed, Min;
    var pool, m := Renumbered(Sorted(o.retryPending), o.nextId), Reissued(o, s, conn, now);
    ReissuedPlaces(o, s, conn, now);
    ReissuedApart(o, s, m, conn, now, Sorted(o.retryPending), Min(Room(o.active, s), |pool|));
    DrainPlaces(m, s, conn, now);
    LineCombined(o, s, m, ScheduleWaitingOperations(m, s, conn, now), pool, conn, now);
  }

  lemma BelowMore(entries: seq<Entry<nat, Item>>, id: nat, more: nat)
    requires KeysBelow(entries, id) && id <= more
    ensures KeysBelow(entries, more)
  {
  }

  lemma CheckShape(o: Ops, s: Settings, conn: nat, now: int)
    requires Shape(o, s)
    ensures Shape(CheckTimeoutsAndRetry(o, s, conn, now), s)
  {
    hide CheckTimeoutsAndRetry, KeptEntries, Select, Sorted, Limited, Failures, Renumbered, Keyed, KeysBelow, IdsBelow,
         Apart, Packages;
    var entries := KeptEntries(o.active.entries, s, conn, now);
    var pool, line, room := Pool(o, s, conn, now),
        Line(Pool(o, s, conn, now), o.waiting, Room(Kept(o, s, conn, now), s)),
                            Room(Kept(o, s, conn, now), s);
    var items := Sorted(o.retryPending + Limited(Select(Items(o.active.entries), Resend, s, conn, now), false));
    var id := o.nextId + |items|;
    CheckExact(o, s, conn, now);
    KeptShape(o.active.entries, s, conn, now, o.nextId);
    KeptApart(o.active.entries, o.waiting, s, conn, now);
    LineApart(entries, o.waiting, items, o.nextId, room);
    BelowMore(entries, o.nextId, id);
    LineShape(entries, line, Min(room, |line|), id, conn, now);
  }

  /**
   * After a check nothing is left to retry, every active operation is bound to the current connection, and either
   * nothing waits or no more may be active. What was sent again went out, as far as there was room, before anything
   * that was waiting, oldest first; what went out is stamped with the time of the check.
   */
  lemma CheckSettles(o: Ops, s: Settings, conn: nat, now: int)
    requires Shape(o, s)
    ensures var r := CheckTimeoutsAndRetry(o, s, conn, now);
            var pool, room := Pool(o, s, conn, now), Room(Kept(o, s, conn, now), s);
            && r.retryPending == []
            && (forall i :: 0 <= i < |r.active.entries| ==> r.active.entries[i].value.connectionId == Some(conn))
            && Kept(o, s, conn, now).entries <= r.active.entries
            && (forall i :: |Kept(o, s, conn, now).entries| <= i < |r.active.entries| ==>
                  r.active.entries[i].value.lastUpdated == now)
            && (r.waiting == [] || |r.active.entries| >= s.maxConcurrentItems)
            && (forall i, j :: 0 <= i < j < |pool| ==> pool[i].seqNo <= pool[j].seqNo)
            && o.wire + Packages(pool[..Min(room, |pool|)], conn) <= r.wire
            && (|pool| <= room || exists first :: r.waiting == first + pool[room..])
  {
    hide CheckTimeoutsAndRetry, KeptEntries, Select, Sorted, Limited, Failures, Keyed, KeysBelow, IdsBelow, Apart;
    var entries := KeptEntries(o.active.entries, s, conn, now);
    var pool, room := Pool(o, s, conn, now), Room(Kept(o, s, conn, now), s);
    var line := Line(pool, o.waiting, room);
    var n, k := Min(room, |line|), Min(room, |pool|);
    CheckExact(o, s, conn, now);
    KeptShape(o.active.entries, s, conn, now, o.nextId);
    SortedExact(o.retryPending + Limited(Select(Items(o.active.entries), Resend, s, conn, now), false), (x: Item) => 0);
    LineParts(pool, o.waiting, room);
    assert Packages(line[..n], conn)[..k] == Packages(pool[..k], conn);
  }

  lemma LineParts(pool: seq<Item>, waiting: seq<Item>, room: nat)
    ensures var line := Line(pool, waiting, room);
            var n, k := Min(room, |line|), Min(room, |pool|);
            && k <= n && line[..n][..k] == pool[..k]
            && (|pool| > room ==> line[n..] == waiting + pool[room..])
  {
    var line := Line(pool, waiting, room);
    var k := Min(room, |pool|);
    assert line == pool[..k] + (waiting + pool[k..]);
  }

  ghost function One(id: nat): Item -> nat { (x: Item) => if x.operation.id == id then 1 else 0 }

  /** Sends an operation has behind it: its retry count, plus one once it has been sent for the present try. */
  ghost function Tries(id: nat, plus: nat): Item -> nat {
    (x: Item) => if x.operation.id == id then x.retryCount + plus else 0
  }

  ghost function Held(o: Ops, id: nat): nat {
    Count(Items(o.active.entries), One(id)) + Count(o.waiting, One(id)) + Count(o.retryPending, One(id))
  }

  ghost function Owed(o: Ops, id: nat): nat {
    Count(Items(o.active.entries), Tries(id, 1)) + Count(o.waiting, Tries(id, 0)) + Count(o.retryPending, Tries(id, 1))
  }

  ghost function Calls(o: Ops, id: nat): nat { Count(o.callbacks, (c: Callback) => if c.op == id then 1 else 0) }

  ghost function Sends(o: Ops, id: nat): nat { Count(o.wire, (p: Sent) => if p.op == id then 1 else 0) }

  /** Pending operations: not completed, accepted with the retry limit they carry, and within it. */
  ghost predicate Tracked(items: seq<Item>, book: map<nat, int>, plus: nat) {
    forall i :: 0 <= i < |items| ==> OnBook(items[i], book, plus)
  }

  ghost predicate OnBook(item: Item, book: map<nat, int>, plus: nat) {
    && !item.operation.completed && item.operation.id in book && book[item.operation.id] == item.maxRetries
    && (item.maxRetries >= 0 ==> item.retryCount + plus <= item.maxRetries)
  }

  /**
   * The account of one operation. Accepted, it is in exactly one place or has been called back once; while pending it
   * has been sent as often as its place and retry count say; and it is never sent more than its limit allows.
   */
  ghost predicate Account(o: Ops, id: nat, book: map<nat, int>) {
    && Held(o, id) + Calls(o, id) == (if id in book then 1 else 0)
    && (Calls(o, id) == 0 ==> Sends(o, id) == Owed(o, id))
    && (id in book && book[id] >= 0 ==> Sends(o, id) <= book[id] + 1)
  }

  ghost predicate AllTracked(o: Ops, book: map<nat, int>) {
    Tracked(Items(o.active.entries), book, 0) && Tracked(o.waiting, book, 0) && Tracked(o.retryPending, book, 1)
  }

  ghost predicate Sound(o: Ops, s: Settings, book: map<nat, int>) {
    Shape(o, s) && AllTracked(o, book) && forall id :: Account(o, id, book)
  }

  /** What one function may do to the account of one operation. */
  ghost predicate Balanced(o: Ops, r: Ops, id: nat) {
    && Held(r, id) + Calls(r, id) == Held(o, id) + Calls(o, id) && Calls(o, id) <= Calls(r, id)
    && (Calls(r, id) == Calls(o, id) ==> Owed(r, id) + Sends(o, id) == Owed(o, id) + Sends(r, id))
    && (Held(r, id) == 0 ==> Sends(r, id) == Sends(o, id))
  }

  lemma {:induction false} TriesBound(items: seq<Item>, id: nat, plus: nat, bound: nat)
    requires Count(items, One(id)) <= 1
    requires forall i :: 0 <= i < |items| && items[i].operation.id == id ==> items[i].retryCount + plus <= bound
    ensures Count(items, Tries(id, plus)) <= bound
    ensures Count(items, One(id)) == 0 ==> Count(items, Tries(id, plus)) == 0
  {
    if items != [] {
      TriesBound(items[..|items| - 1], id, plus, bound);
    }
  }

  lemma OwedBound(o: Ops, id: nat, book: map<nat, int>)
    requires AllTracked(o, book) && Held(o, id) <= 1 && id in book && book[id] >= 0
    ensures Owed(o, id) <= book[id] + 1
  {
    hide Count;
    TriesBound(Items(o.active.entries), id, 1, book[id] + 1);
    TriesBound(o.waiting, id, 0, book[id] + 1);
    TriesBound(o.retryPending, id, 1, book[id] + 1);
  }

  lemma AccountStep(o: Ops, r: Ops, id: nat, book: map<nat, int>)
    requires Account(o, id, book) && Balanced(o, r, id) && AllTracked(r, book)
    ensures Account(r, id, book)
  {
    hide Held, Owed, Calls, Sends, AllTracked;
    if Calls(r, id) == 0 && id in book && book[id] >= 0 {
      OwedBound(r, id, book);
    }
  }
}

/**
 The shared counter that lets wallet scans skip the database: written by the loop that receives
 block events, with its load and its store as separate steps, and read by every worker.
 */
module WalletGate {
  import opened Common
  import opened WalletIndexer

  /** Initial value of the counter; no row identifier reaches it. */
  const UNSET: nat := 0xFFFF_FFFF_FFFF_FFFF

  /** The event loop: waiting, holding an event, or holding the value it loaded as well. */
  datatype Task = Waiting | Holding(id: nat) | Comparing(id: nat, seen: nat)

  /** `announced` is everything block events carried so far, `received` what was handled since the last start. */
  datatype Gate = Gate(table: seq<Tx>, announced: set<nat>, received: seq<nat>, counter: nat, task: Task)

  /**
   A block is saved and announced, the process starts afresh, or the event loop takes a step.
   Announcements arrive in any order and any number of times, including never.
   */
  datatype Event =
    | SaveBlock(rows: seq<Tx>)
    | Start
    | Receive(id: nat)
    | Load
    | Store

  /** The identifier a block event carries: that of the last regular transaction saved with the block. */
  function Announced(rows: seq<Tx>): (r: Option<nat>)
    ensures r.None? <==> forall t :: t in rows ==> !t.regular
    ensures r.Some? ==> exists t :: t in rows && t.regular && t.id == r.value
  {
    if rows == [] then None
    else
      var t := rows[|rows| - 1];
      assert rows == rows[..|rows| - 1] + [t];
      if t.regular then Some(t.id) else Announced(rows[..|rows| - 1])
  }

  /** Saving the transactions of a block one by one, remembering the last regular one. */
  method SaveTransactions(table: seq<Tx>, rows: seq<Tx>) returns (table': seq<Tx>, highest: Option<nat>)
    ensures table' == table + rows
    ensures highest == Announced(rows)
  {
    table', highest := table, None;
    for i := 0 to |rows|
      invariant table' == table + rows[..i]
      invariant highest == Announced(rows[..i])
    {
      assert rows[..i + 1][..i] == rows[..i];
      table' := table' + [rows[i]];
      if rows[i].regular {
        highest := Some(rows[i].id);
      }
    }
    assert rows[..|rows|] == rows;
  }

  lemma SortedSplits(a: seq<Tx>, b: seq<Tx>)
    requires Sorted(a + b)
    ensures Sorted(b)
    ensures forall t, u :: t in a && u in b ==> t.id < u.id
  {
    var c := a + b;
    assert forall i :: 0 <= i < |b| ==> b[i] == c[|a| + i];
    forall t, u | t in a && u in b ensures t.id < u.id {
      var i :| 0 <= i < |a| && a[i] == t;
      var j :| 0 <= j < |b| && b[j] == u;
      assert c[i] == t && c[|a| + j] == u;
    }
  }

  /** The announced identifier is the highest of the block, and above everything saved before it. */
  lemma AnnouncedIsHighest(table: seq<Tx>, rows: seq<Tx>)
    requires Sorted(table + rows) && Announced(rows).Some?
    ensures forall t :: t in rows && t.regular ==> t.id <= Announced(rows).value
    ensures forall t :: t in table ==> t.id < Announced(rows).value
  {
    SortedSplits(table, rows);
    LastRegularIsHighest(rows);
  }

  lemma {:induction false} LastRegularIsHighest(rows: seq<Tx>)
    requires Sorted(rows) && Announced(rows).Some?
    ensures forall t :: t in rows && t.regular ==> t.id <= Announced(rows).value
  {
    var front, t := rows[..|rows| - 1], rows[|rows| - 1];
    assert rows == front + [t];
    if t.regular {
      SortedSplits(front, [t]);
    } else {
      LastRegularIsHighest(front);
    }
  }

  ghost predicate Can(g: Gate, event: Event) {
    match event
    case SaveBlock(rows) => Sorted(g.table + rows) && forall t :: t in rows ==> t.id < UNSET
    case Start => true
    case Receive(id) => id in g.announced && g.task.Waiting?
    case Load => g.task.Holding?
    case Store => g.task.Comparing?
  }

  ghost function After(g: Gate, event: Event): Gate
    requires Can(g, event)
  {
    match event
    case SaveBlock(rows) =>
      g.(table := g.table + rows,
         announced := if Announced(rows).Some? then g.announced + {Announced(rows).value} else g.announced)
    case Start => g.(received := [], counter := UNSET, task := Waiting)
    case Receive(id) => g.(task := Holding(id))
    case Load => g.(task := Comparing(g.task.id, g.counter))
    case Store =>
      g.(counter := if g.task.seen == UNSET || g.task.seen < g.task.id then g.task.id else g.counter,
         received := g.received + [g.task.id],
         task := Waiting)
  }

  const INITIAL := Gate([], {}, [], UNSET, Waiting)

  ghost predicate EventAt(events: seq<Event>, gates: seq<Gate>, i: nat)
    requires i < |events| && |gates| == |events| + 1
  {
    Can(gates[i], events[i]) && gates[i + 1] == After(gates[i], events[i])
  }

  /** From an empty database: any events in any order. */
  ghost predicate IsHistory(events: seq<Event>, gates: seq<Gate>) {
    && |gates| == |events| + 1 && gates[0] == INITIAL
    && forall i :: 0 <= i < |events| ==> EventAt(events, gates, i)
  }

  ghost predicate IsRegular(table: seq<Tx>, id: nat) {
    exists t :: t in table && t.regular && t.id == id
  }

  ghost predicate AllRegular(table: seq<Tx>, ids: set<nat>) {
    forall id :: id in ids ==> IsRegular(table, id) && id < UNSET
  }

  /** `top` is the newest announcement, and no regular transaction is above it. */
  ghost predicate IsNewest(table: seq<Tx>, announced: set<nat>, top: nat) {
    && (if announced == {} then top == 0 else top in announced)
    && forall t :: t in table && t.regular ==> t.id <= top
  }

  /** The counter is the highest identifier received since the start. */
  ghost predicate IsHighestOf(received: seq<nat>, counter: nat) {
    if received == [] then counter == UNSET
    else counter in received && forall id :: id in received ==> id <= counter
  }

  ghost predicate GateInv(g: Gate) {
    && Sorted(g.table)
    && AllRegular(g.table, g.announced)
    && (exists top :: IsNewest(g.table, g.announced, top))
    && (forall id :: id in g.received ==> id in g.announced)
    && IsHighestOf(g.received, g.counter)
    && (!g.task.Waiting? ==> g.task.id in g.announced)
    && (g.task.Comparing? ==> g.task.seen == g.counter)
  }

  lemma StaysRegular(table: seq<Tx>, rows: seq<Tx>, ids: set<nat>)
    requires AllRegular(table, ids)
    ensures AllRegular(table + rows, ids)
  {
    forall id | id in ids ensures IsRegular(table + rows, id) {
      var t :| t in table && t.regular && t.id == id;
      assert t in table + rows;
    }
  }

  lemma AnnouncementIsRegular(table: seq<Tx>, rows: seq<Tx>)
    requires Announced(rows).Some?
    ensures IsRegular(table + rows, Announced(rows).value)
  {
    var t :| t in rows && t.regular && t.id == Announced(rows).value;
    assert t in table + rows;
  }

  lemma AnnouncementIsNewest(table: seq<Tx>, announced: set<nat>, rows: seq<Tx>)
    requires Sorted(table + rows) && Announced(rows).Some?
    ensures var id := Announced(rows).value; IsNewest(table + rows, announced + {id}, id)
  {
    AnnouncedIsHighest(table, rows);
  }

  lemma SaveBlockKeeps(g: Gate, rows: seq<Tx>)
    requires GateInv(g) && Can(g, SaveBlock(rows))
    ensures GateInv(After(g, SaveBlock(rows)))
  {
    StaysRegular(g.table, rows, g.announced);
    if Announced(rows).Some? {
      AnnouncementIsRegular(g.table, rows);
      AnnouncementIsNewest(g.table, g.announced, rows);
    } else {
      var top: nat :| IsNewest(g.table, g.announced, top);
      assert IsNewest(g.table + rows, g.announced, top);
    }
  }

  /** The guard of the store is what makes the counter the highest, whatever order events arrive in. */
  lemma StoreKeepsHighest(received: seq<nat>, counter: nat, id: nat)
    requires IsHighestOf(received, counter) && id < UNSET && forall x :: x in received ==> x < UNSET
    ensures IsHighestOf(received + [id], if counter == UNSET || counter < id then id else counter)
    ensures received != [] ==> counter <= if counter == UNSET || counter < id then id else counter
  {
    var received' := received + [id];
    assert received'[|received|] == id;
    assert forall x :: x in received' <==> x in received || x == id;
  }

  lemma EventKeeps(g: Gate, event: Event)
    requires GateInv(g) && Can(g, event)
    ensures GateInv(After(g, event))
    ensures !event.Start? ==> g.received <= After(g, event).received
    ensures !event.Start? && g.received != [] ==> g.counter <= After(g, event).counter
  {
    match event
    case SaveBlock(rows) => SaveBlockKeeps(g, rows);
    case Start =>
    case Receive(_) =>
    case Load =>
    case Store => StoreKeepsHighest(g.received, g.counter, g.task.id);
  }

  lemma {:induction false} HistoryKeeps(events: seq<Event>, gates: seq<Gate>, i: nat)
    requires IsHistory(events, gates) && i < |gates|
    ensures GateInv(gates[i])
  {
    if i == 0 {
      assert IsNewest([], {}, 0);
    } else {
      HistoryKeeps(events, gates, i - 1);
      assert EventAt(events, gates, i - 1);
      EventKeeps(gates[i - 1], events[i - 1]);
    }
  }

  /** Once it has been set, the counter never decreases until the process starts afresh. */
  lemma {:induction false} CounterNeverFalls(events: seq<Event>, gates: seq<Gate>, i: nat, j: nat)
    requires IsHistory(events, gates) && i <= j < |gates| && gates[i].received != []
    requires forall k :: i <= k < j ==> !events[k].Start?
    ensures gates[j].received != [] && gates[i].counter <= gates[j].counter
  {
    if i < j {
      CounterNeverFalls(events, gates, i, j - 1);
      HistoryKeeps(events, gates, j - 1);
      assert EventAt(events, gates, j - 1);
      EventKeeps(gates[j - 1], events[j - 1]);
    }
  }

  /** A worker at `last` goes ahead exactly when no event has arrived yet or one announces something newer. */
  lemma OpensIff(events: seq<Event>, gates: seq<Gate>, i: nat, last: nat)
    requires IsHistory(events, gates) && i < |gates| && last < UNSET
    ensures last < gates[i].counter <==> gates[i].received == [] || exists id :: id in gates[i].received && last < id
  {
    HistoryKeeps(events, gates, i);
  }

  /** A worker that has nothing to scan backward decides rightly if it goes ahead exactly when the scan finds something. */
  ghost predicate DecidesRightly(g: Gate, w: Wallet) {
    w.last < g.counter <==> !CaughtUp(g.table, w)
  }

  ghost predicate RightForAll(g: Gate) {
    forall w :: !Backward(w) ==> DecidesRightly(g, w)
  }

  /** No worker skips although there is something to scan. */
  ghost predicate HidesNothing(g: Gate) {
    forall w :: !Backward(w) && w.last < UNSET && g.counter <= w.last ==> CaughtUp(g.table, w)
  }

  /** No announcement, whether lost, late or in the hands of the event loop, is above the counter. */
  ghost predicate NothingOutstanding(g: Gate) {
    forall id :: id in g.announced ==> id <= g.counter
  }

  lemma OutstandingHidesWork(g: Gate, id: nat) returns (w: Wallet)
    requires GateInv(g) && id in g.announced && g.counter < id
    ensures w == NewWallet(g.counter) && !Backward(w) && g.counter < UNSET && !CaughtUp(g.table, w)
  {
    w := NewWallet(g.counter);
    var t :| t in g.table && t.regular && t.id == id;
  }

  lemma NothingOutstandingIsRight(g: Gate, w: Wallet)
    requires GateInv(g) && g.received != [] && NothingOutstanding(g) && !Backward(w)
    ensures DecidesRightly(g, w)
  {
    assert IsRegular(g.table, g.counter);
    var top: nat :| IsNewest(g.table, g.announced, top);
    assert top <= g.counter;
  }

  /** Once an event has arrived, all workers decide rightly if and only if no announcement above the counter is outstanding. */
  lemma RightIff(events: seq<Event>, gates: seq<Gate>, i: nat)
    requires IsHistory(events, gates) && i < |gates| && gates[i].received != []
    ensures RightForAll(gates[i]) <==> NothingOutstanding(gates[i])
  {
    var g := gates[i];
    HistoryKeeps(events, gates, i);
    if NothingOutstanding(g) {
      forall w: Wallet | !Backward(w) ensures DecidesRightly(g, w) {
        NothingOutstandingIsRight(g, w);
      }
    } else {
      var id :| id in g.announced && g.counter < id;
      var w := OutstandingHidesWork(g, id);
      assert !DecidesRightly(g, w);
    }
  }

  /** At every point of every history, no work is hidden if and only if no event arrived yet or none above the counter is outstanding. */
  lemma HidesNothingIff(events: seq<Event>, gates: seq<Gate>, i: nat)
    requires IsHistory(events, gates) && i < |gates|
    ensures HidesNothing(gates[i]) <==> gates[i].received == [] || NothingOutstanding(gates[i])
  {
    var g := gates[i];
    HistoryKeeps(events, gates, i);
    if g.received != [] {
      if NothingOutstanding(g) {
        forall w: Wallet | !Backward(w) && g.counter <= w.last ensures CaughtUp(g.table, w) {
          NothingOutstandingIsRight(g, w);
          assert DecidesRightly(g, w);
        }
      } else {
        var id :| id in g.announced && g.counter < id;
        var w := OutstandingHidesWork(g, id);
      }
    }
  }

  lemma Extend(events: seq<Event>, gates: seq<Gate>, event: Event)
    requires IsHistory(events, gates) && Can(gates[|gates| - 1], event)
    ensures IsHistory(events + [event], gates + [After(gates[|gates| - 1], event)])
  {
    var events', gates' := events + [event], gates + [After(gates[|gates| - 1], event)];
    forall i | 0 <= i < |events'| ensures EventAt(events', gates', i) {
      if i < |events| {
        assert EventAt(events, gates, i);
      }
    }
  }

  /** The first block of one regular transaction is announced and received. */
  lemma OneBlock(a: Tx) returns (events: seq<Event>, gates: seq<Gate>)
    requires a.regular && 0 < a.id < UNSET
    ensures IsHistory(events, gates) && gates[|gates| - 1] == Gate([a], {a.id}, [a.id], a.id, Waiting)
  {
    events, gates := [], [INITIAL];
    assert [] + [a] == [a] && {} + {a.id} == {a.id} && Announced([a]) == Some(a.id);
    Extend(events, gates, SaveBlock([a]));
    events, gates := events + [SaveBlock([a])], gates + [Gate([a], {a.id}, [], UNSET, Waiting)];
    Extend(events, gates, Receive(a.id));
    events, gates := events + [Receive(a.id)], gates + [Gate([a], {a.id}, [], UNSET, Holding(a.id))];
    Extend(events, gates, Load);
    events, gates := events + [Load], gates + [Gate([a], {a.id}, [], UNSET, Comparing(a.id, UNSET))];
    Extend(events, gates, Store);
    events, gates := events + [Store], gates + [Gate([a], {a.id}, [a.id], a.id, Waiting)];
  }

  /** An event that does not arrive makes a worker skip although there is something to scan. */
  lemma MissingEventHidesWork() returns (events: seq<Event>, gates: seq<Gate>, w: Wallet)
    ensures IsHistory(events, gates)
    ensures var g := gates[|gates| - 1];
            g.received != [] && !(w.last < g.counter) && !Backward(w) && !CaughtUp(g.table, w)
  {
    var a, b := Tx(1, true, Some(true)), Tx(2, true, Some(true));
    events, gates := OneBlock(a);
    assert [a] + [b] == [a, b] && Announced([b]) == Some(2);
    Extend(events, gates, SaveBlock([b]));
    assert After(gates[|gates| - 1], SaveBlock([b])) == Gate([a, b], {1, 2}, [1], 1, Waiting);
    events, gates := events + [SaveBlock([b])], gates + [Gate([a, b], {1, 2}, [1], 1, Waiting)];
    w := NewWallet(1);
    assert b in [a, b];
  }
}

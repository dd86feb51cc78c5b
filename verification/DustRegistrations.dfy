/**
 The registration table that block events are folded into: an upsert for registrations and updates
 for deregistrations and mapping changes, which do nothing while there is no row.
 */
module DustRegistrations {
  import opened Common

  datatype Key = Key(stakeKey: nat, dustAddress: nat)
  datatype Pointer = Pointer(txHash: nat, outputIndex: nat)

  datatype Kind = Registration | Deregistration | MappingAdded(pointer: Pointer) | MappingRemoved

  /** An event, stamped with the block it is in and that block's time. */
  datatype Event = Event(key: Key, kind: Kind, blockId: nat, time: nat)

  datatype Row = Row(valid: bool, registeredAt: nat, removedAt: Option<nat>, utxo: Option<Pointer>, blockId: nat)

  type Table = map<Key, Row>

  function Apply(table: Table, e: Event): Table {
    match e.kind
    case Registration =>
      table[e.key := Row(true, e.time, None, if e.key in table then table[e.key].utxo else None, e.blockId)]
    case Deregistration =>
      if e.key in table then table[e.key := table[e.key].(valid := false, removedAt := Some(e.time), blockId := e.blockId)]
      else table
    case MappingAdded(pointer) =>
      if e.key in table then table[e.key := table[e.key].(utxo := Some(pointer))] else table
    case MappingRemoved =>
      if e.key in table then table[e.key := table[e.key].(utxo := None)] else table
  }

  function Fold(table: Table, events: seq<Event>): Table {
    if events == [] then table else Apply(Fold(table, events[..|events| - 1]), events[|events| - 1])
  }

  /** What a block announces, before it is stamped. */
  datatype Announcement = Announcement(key: Key, kind: Kind)

  function Stamped(events: seq<Announcement>, blockId: nat, time: nat): seq<Event> {
    seq(|events|, i requires 0 <= i < |events| => Event(events[i].key, events[i].kind, blockId, time))
  }

  class RegistrationTable {
    var rows: Table

    constructor ()
      ensures rows == map[]
    {
      rows := map[];
    }

    method SaveEvents(events: seq<Announcement>, blockId: nat, time: nat)
      modifies this
      ensures rows == Fold(old(rows), Stamped(events, blockId, time))
    {
      ghost var stamped := Stamped(events, blockId, time);
      for i := 0 to |events|
        invariant rows == Fold(old(rows), stamped[..i])
      {
        assert stamped[..i + 1][..i] == stamped[..i];
        var key := events[i].key;
        match events[i].kind {
        case Registration =>
          var utxo := if key in rows then rows[key].utxo else None;
          rows := rows[key := Row(true, time, None, utxo, blockId)];
        case Deregistration =>
          if key in rows {
            rows := rows[key := rows[key].(valid := false, removedAt := Some(time), blockId := blockId)];
          }
        case MappingAdded(pointer) =>
          if key in rows {
            rows := rows[key := rows[key].(utxo := Some(pointer))];
          }
        case MappingRemoved =>
          if key in rows {
            rows := rows[key := rows[key].(utxo := None)];
          }
        }
      }
      assert stamped[..|events|] == stamped;
    }
  }

  // ---------------------------------------------------------------------------------------------
  // What the rows mean, in terms of the events alone

  predicate IsRegistration(e: Event, key: Key) { e.key == key && e.kind.Registration? }

  predicate IsStatus(e: Event, key: Key) { e.key == key && (e.kind.Registration? || e.kind.Deregistration?) }

  predicate IsMapping(e: Event, key: Key) { e.key == key && (e.kind.MappingAdded? || e.kind.MappingRemoved?) }

  ghost predicate Registered(events: seq<Event>, key: Key) {
    exists i :: 0 <= i < |events| && IsRegistration(events[i], key)
  }

  /** The last registration or deregistration of the key is at `i`. */
  ghost predicate LastStatusAt(events: seq<Event>, key: Key, i: int) {
    && 0 <= i < |events| && IsStatus(events[i], key)
    && forall j :: i < j < |events| ==> !IsStatus(events[j], key)
  }

  ghost predicate LastRegistrationAt(events: seq<Event>, key: Key, i: int) {
    && 0 <= i < |events| && IsRegistration(events[i], key)
    && forall j :: i < j < |events| ==> !IsRegistration(events[j], key)
  }

  /** The mapping event at `i` comes after the row came into being, and is the last one. */
  ghost predicate LastMappingAt(events: seq<Event>, key: Key, i: int) {
    && 0 <= i < |events| && IsMapping(events[i], key) && Registered(events[..i], key)
    && forall j :: i < j < |events| ==> !IsMapping(events[j], key)
  }

  ghost predicate NoMapping(events: seq<Event>, key: Key) {
    forall i :: 0 <= i < |events| && IsMapping(events[i], key) ==> !Registered(events[..i], key)
  }

  ghost predicate StatusIs(events: seq<Event>, key: Key, row: Row, i: int) {
    && LastStatusAt(events, key, i)
    && row.valid == events[i].kind.Registration?
    && row.removedAt == (if row.valid then None else Some(events[i].time))
    && row.blockId == events[i].blockId
  }

  ghost predicate RegisteredAtIs(events: seq<Event>, key: Key, row: Row, i: int) {
    LastRegistrationAt(events, key, i) && row.registeredAt == events[i].time
  }

  ghost predicate PointerIs(events: seq<Event>, key: Key, row: Row, i: int) {
    && LastMappingAt(events, key, i)
    && row.utxo == if events[i].kind.MappingAdded? then Some(events[i].kind.pointer) else None
  }

  /** The row says of its key exactly what the events say. */
  ghost predicate Describes(events: seq<Event>, key: Key, row: Row) {
    && (exists i :: StatusIs(events, key, row, i))
    && (exists i :: RegisteredAtIs(events, key, row, i))
    && ((NoMapping(events, key) && row.utxo.None?) || exists i :: PointerIs(events, key, row, i))
  }

  lemma RegisteredSnoc(events: seq<Event>, e: Event, key: Key)
    ensures Registered(events + [e], key) <==> Registered(events, key) || IsRegistration(e, key)
  {
    var all := events + [e];
    if Registered(events, key) {
      var i :| 0 <= i < |events| && IsRegistration(events[i], key);
      assert IsRegistration(all[i], key);
    }
    if IsRegistration(e, key) {
      assert IsRegistration(all[|events|], key);
    }
  }

  lemma StatusSnoc(events: seq<Event>, e: Event, key: Key, row: Row, row': Row, i: int)
    requires StatusIs(events, key, row, i) && !IsStatus(e, key)
    requires row'.valid == row.valid && row'.removedAt == row.removedAt && row'.blockId == row.blockId
    ensures StatusIs(events + [e], key, row', i)
  {
  }

  lemma RegisteredAtSnoc(events: seq<Event>, e: Event, key: Key, row: Row, row': Row, i: int)
    requires RegisteredAtIs(events, key, row, i) && !IsRegistration(e, key) && row'.registeredAt == row.registeredAt
    ensures RegisteredAtIs(events + [e], key, row', i)
  {
  }

  lemma PointerSnoc(events: seq<Event>, e: Event, key: Key, row: Row, row': Row)
    requires Describes(events, key, row) && !IsMapping(e, key) && row'.utxo == row.utxo
    ensures (NoMapping(events + [e], key) && row'.utxo.None?) || exists i :: PointerIs(events + [e], key, row', i)
  {
    var all := events + [e];
    assert forall i :: 0 <= i <= |events| ==> all[..i] == events[..i];
    if i :| PointerIs(events, key, row, i) {
      assert PointerIs(all, key, row', i);
    }
  }

  lemma DescribesAfterOther(events: seq<Event>, e: Event, key: Key, row: Row, row': Row)
    requires Describes(events, key, row) && !IsStatus(e, key) && !IsMapping(e, key) && row' == row
    ensures Describes(events + [e], key, row')
  {
    var i :| StatusIs(events, key, row, i);
    StatusSnoc(events, e, key, row, row', i);
    var j :| RegisteredAtIs(events, key, row, j);
    RegisteredAtSnoc(events, e, key, row, row', j);
    PointerSnoc(events, e, key, row, row');
  }

  lemma DescribesAfterFirst(events: seq<Event>, e: Event, key: Key)
    requires IsRegistration(e, key) && !Registered(events, key)
    ensures Describes(events + [e], key, Row(true, e.time, None, None, e.blockId))
  {
    var all, row := events + [e], Row(true, e.time, None, None, e.blockId);
    assert StatusIs(all, key, row, |events|) && RegisteredAtIs(all, key, row, |events|);
    forall i | 0 <= i < |all| && IsMapping(all[i], key) ensures !Registered(all[..i], key) {
      assert all[..i] == events[..i];
    }
  }

  lemma DescribesAfterAgain(events: seq<Event>, e: Event, key: Key, row: Row)
    requires IsRegistration(e, key) && Describes(events, key, row)
    ensures Describes(events + [e], key, Row(true, e.time, None, row.utxo, e.blockId))
  {
    var all, row' := events + [e], Row(true, e.time, None, row.utxo, e.blockId);
    assert StatusIs(all, key, row', |events|) && RegisteredAtIs(all, key, row', |events|);
    PointerSnoc(events, e, key, row, row');
  }

  lemma DescribesAfterRemoval(events: seq<Event>, e: Event, key: Key, row: Row)
    requires e.key == key && e.kind.Deregistration? && Describes(events, key, row)
    ensures Describes(events + [e], key, row.(valid := false, removedAt := Some(e.time), blockId := e.blockId))
  {
    var all, row' := events + [e], row.(valid := false, removedAt := Some(e.time), blockId := e.blockId);
    assert StatusIs(all, key, row', |events|);
    var j :| RegisteredAtIs(events, key, row, j);
    RegisteredAtSnoc(events, e, key, row, row', j);
    PointerSnoc(events, e, key, row, row');
  }

  lemma DescribesAfterMapping(events: seq<Event>, e: Event, key: Key, row: Row)
    requires IsMapping(e, key) && Registered(events, key) && Describes(events, key, row)
    ensures Describes(events + [e], key, row.(utxo := if e.kind.MappingAdded? then Some(e.kind.pointer) else None))
  {
    var all, row' := events + [e], row.(utxo := if e.kind.MappingAdded? then Some(e.kind.pointer) else None);
    var i :| StatusIs(events, key, row, i);
    StatusSnoc(events, e, key, row, row', i);
    var j :| RegisteredAtIs(events, key, row, j);
    RegisteredAtSnoc(events, e, key, row, row', j);
    assert all[..|events|] == events;
    assert PointerIs(all, key, row', |events|);
  }

  lemma FoldSnoc(table: Table, events: seq<Event>, e: Event)
    ensures Fold(table, events + [e]) == Apply(Fold(table, events), e)
  {
    assert (events + [e])[..|events|] == events;
  }

  /**
   After any sequence of events a key has a row exactly if it was ever registered; the row is valid,
   and not marked as removed, exactly if the last registration or deregistration was a registration;
   and its pointer is that of the last mapping event since the row exists.
   */
  lemma {:induction false} TableMeansEvents(events: seq<Event>, key: Key)
    ensures key in Fold(map[], events) <==> Registered(events, key)
    ensures key in Fold(map[], events) ==> Describes(events, key, Fold(map[], events)[key])
  {
    if events != [] {
      var front, e := events[..|events| - 1], events[|events| - 1];
      assert events == front + [e];
      TableMeansEvents(front, key);
      RegisteredSnoc(front, e, key);
      FoldSnoc(map[], front, e);
      var table := Fold(map[], front);
      if e.key == key && (e.kind.Registration? || key in table) {
        match e.kind
        case Registration =>
          if key in table { DescribesAfterAgain(front, e, key, table[key]); } else { DescribesAfterFirst(front, e, key); }
        case Deregistration => DescribesAfterRemoval(front, e, key, table[key]);
        case MappingAdded(_) => DescribesAfterMapping(front, e, key, table[key]);
        case MappingRemoved => DescribesAfterMapping(front, e, key, table[key]);
      } else if key in table {
        DescribesAfterOther(front, e, key, table[key], table[key]);
      }
    }
  }

  /** A row is valid exactly while it is not marked as removed. */
  lemma ValidIffNotRemoved(events: seq<Event>, key: Key)
    requires key in Fold(map[], events)
    ensures Fold(map[], events)[key].valid <==> Fold(map[], events)[key].removedAt.None?
    ensures Fold(map[], events)[key].valid <==>
            exists i :: LastStatusAt(events, key, i) && events[i].kind.Registration?
  {
    TableMeansEvents(events, key);
    var row := Fold(map[], events)[key];
    var i :| StatusIs(events, key, row, i);
    forall j | LastStatusAt(events, key, j) ensures j == i {
    }
  }

  /** Events on different keys commute. */
  lemma EventsCommute(table: Table, a: Event, b: Event)
    requires a.key != b.key
    ensures Apply(Apply(table, a), b) == Apply(Apply(table, b), a)
  {
  }

  /** The events of one key only. */
  function Of(events: seq<Event>, key: Key): seq<Event> {
    if events == [] then []
    else
      var e := events[|events| - 1];
      Of(events[..|events| - 1], key) + if e.key == key then [e] else []
  }

  /** A key's row depends on its own events only, so any interleaving of other keys' events is immaterial. */
  lemma {:induction false} RowDependsOnOwnEvents(table: Table, events: seq<Event>, key: Key)
    ensures key in Fold(table, events) <==> key in Fold(table, Of(events, key))
    ensures key in Fold(table, events) ==> Fold(table, events)[key] == Fold(table, Of(events, key))[key]
  {
    if events != [] {
      var front, e := events[..|events| - 1], events[|events| - 1];
      RowDependsOnOwnEvents(table, front, key);
      if e.key == key {
        FoldSnoc(table, Of(front, key), e);
      } else {
        assert Of(front, key) + [] == Of(front, key);
      }
    }
  }

  lemma {:induction false} FoldConcat(table: Table, a: seq<Event>, b: seq<Event>)
    ensures Fold(table, a + b) == Fold(Fold(table, a), b)
  {
    if b == [] {
      assert a + b == a;
    } else {
      FoldConcat(table, a, b[..|b| - 1]);
      assert (a + b)[..|a + b| - 1] == a + b[..|b| - 1];
    }
  }

  /** The events of a block with its identifier and time. */
  datatype BlockEvents = BlockEvents(events: seq<Announcement>, blockId: nat, time: nat)

  function StampedBlock(block: BlockEvents): seq<Event> {
    Stamped(block.events, block.blockId, block.time)
  }

  /** The table after saving the blocks one after the other. */
  function AfterBlocks(blocks: seq<BlockEvents>): Table {
    if blocks == [] then map[] else Fold(AfterBlocks(blocks[..|blocks| - 1]), StampedBlock(blocks[|blocks| - 1]))
  }

  function AllEvents(blocks: seq<BlockEvents>): seq<Event> {
    if blocks == [] then [] else AllEvents(blocks[..|blocks| - 1]) + StampedBlock(blocks[|blocks| - 1])
  }

  lemma {:induction false} BlocksAreFolded(blocks: seq<BlockEvents>)
    ensures AfterBlocks(blocks) == Fold(map[], AllEvents(blocks))
  {
    if blocks != [] {
      BlocksAreFolded(blocks[..|blocks| - 1]);
      FoldConcat(map[], AllEvents(blocks[..|blocks| - 1]), StampedBlock(blocks[|blocks| - 1]));
    }
  }

  /** Over any run of blocks, the table says of every key what all their events together say. */
  lemma StoredTableMeansEvents(blocks: seq<BlockEvents>, key: Key)
    ensures key in AfterBlocks(blocks) <==> Registered(AllEvents(blocks), key)
    ensures key in AfterBlocks(blocks) ==> Describes(AllEvents(blocks), key, AfterBlocks(blocks)[key])
  {
    BlocksAreFolded(blocks);
    TableMeansEvents(AllEvents(blocks), key);
  }
}

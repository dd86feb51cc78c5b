/**
 Safety of the chain-indexer protocol: every step keeps the invariant, so it holds throughout every
 run with any placement of crashes and any retention per restart.
 */
module ChainIndexerSafety {
  import opened Common
  import opened LedgerArena
  import opened LedgerStates
  import opened ChainIndexer

  /******* Sequences of roots *******/

  lemma RootsConcat(chain: Chain, a: seq<Entry>, b: seq<Entry>)
    ensures Roots(chain, a + b) == Roots(chain, a) + Roots(chain, b)
  {
  }

  lemma RootsUncons(chain: Chain, window: seq<Entry>)
    requires window != []
    ensures multiset(Roots(chain, window)) == multiset{RootOf(chain, window[0])} + multiset(Roots(chain, window[1..]))
  {
    assert Roots(chain, window) == [RootOf(chain, window[0])] + Roots(chain, window[1..]);
  }

  lemma RootsSnoc(chain: Chain, window: seq<Entry>, entry: Entry)
    ensures multiset(Roots(chain, window + [entry])) == multiset(Roots(chain, window)) + multiset{RootOf(chain, entry)}
  {
    assert Roots(chain, window + [entry]) == Roots(chain, window) + [RootOf(chain, entry)];
  }

  lemma ClaimIsRooted(chain: Chain, claims: seq<Entry>, pending: multiset<Hash>, roots: multiset<Hash>, entry: Entry)
    requires entry in claims && Paid(chain, claims, pending, roots)
    ensures RootOf(chain, entry) in roots
  {
    var i :| 0 <= i < |claims| && claims[i] == entry;
    assert Roots(chain, claims)[i] in multiset(Roots(chain, claims));
  }

  lemma PersistPays(chain: Chain, window: seq<Entry>, entry: Entry, pending: multiset<Hash>, roots: multiset<Hash>)
    requires Paid(chain, window, pending, roots)
    ensures Paid(chain, window + [entry], multiset{}, roots - pending + multiset{RootOf(chain, entry)})
  {
    RootsSnoc(chain, window, entry);
  }

  /** The front entry always has a root count left to give back. */
  lemma UnpersistPays(chain: Chain, window: seq<Entry>, pending: multiset<Hash>, roots: multiset<Hash>)
    requires window != [] && Paid(chain, window, pending, roots)
    ensures pending[RootOf(chain, window[0])] < roots[RootOf(chain, window[0])]
    ensures Paid(chain, window[1..], pending + multiset{RootOf(chain, window[0])}, roots)
  {
    RootsUncons(chain, window);
    var hash := RootOf(chain, window[0]);
    assert (multiset(Roots(chain, window)) + pending)[hash] <= roots[hash];
  }

  lemma FlushPays(chain: Chain, claims: seq<Entry>, pending: multiset<Hash>, roots: multiset<Hash>)
    requires Paid(chain, claims, pending, roots)
    ensures pending <= roots && Paid(chain, claims, multiset{}, roots - pending)
  {
  }

  lemma SeedPays(chain: Chain, entries: seq<Entry>, roots: multiset<Hash>)
    requires forall h :: h in roots ==> multiset(Roots(chain, entries))[h] <= roots[h]
    ensures Paid(chain, StillRooted(chain, entries, roots), multiset{}, roots)
  {
    forall h ensures multiset(Roots(chain, StillRooted(chain, entries, roots)))[h] <= roots[h] {
      StillRootedCounts(chain, entries, roots, h);
    }
  }

  /** Filtering keeps all occurrences of a rooted hash and none of an unrooted one. */
  lemma {:induction false} StillRootedCounts(chain: Chain, entries: seq<Entry>, roots: multiset<Hash>, h: Hash)
    ensures multiset(Roots(chain, StillRooted(chain, entries, roots)))[h]
         == if h in roots then multiset(Roots(chain, entries))[h] else 0
  {
    if entries != [] {
      var n := |entries| - 1;
      var init := StillRooted(chain, entries[..n], roots);
      assert entries == entries[..n] + [entries[n]];
      StillRootedCounts(chain, entries[..n], roots, h);
      RootsSnoc(chain, entries[..n], entries[n]);
      if RootOf(chain, entries[n]) in roots {
        assert StillRooted(chain, entries, roots) == init + [entries[n]];
        RootsSnoc(chain, init, entries[n]);
      } else {
        assert StillRooted(chain, entries, roots) == init;
      }
    }
  }

  /******* Chains and replays *******/

  lemma BlocksSnoc(rows: seq<Row>, row: Row)
    ensures Blocks(rows + [row]) == Blocks(rows) + [row.block]
  {
  }

  lemma LinkedSnoc(chain: Chain, rows: seq<Row>, row: Row)
    requires WellFormed(chain) && IsChain(chain, rows)
    requires Honest(chain, row.block) && row.block.parentHash == TipHash(rows)
    ensures IsChain(chain, rows + [row])
  {
    var longer := rows + [row];
    assert rows != [] ==> longer[|rows| - 1] == rows[|rows| - 1];
    BlocksSnoc(rows, row);
  }

  /** Reloading from the newest row puts the process exactly where an uninterrupted run would be. */
  lemma ReloadIsInStep(chain: Chain, rows: seq<Row>)
    requires WellFormed(chain) && Transparent(chain, rows)
    ensures
      var ledgerState :=
        if rows == [] then chain.initial
        else chain.load(rows[|rows| - 1].key, rows[|rows| - 1].block.version);
      InStep(chain, rows, ledgerState, TipTimestamp(rows))
  {
    if rows != [] {
      var blocks, n := Blocks(rows), |rows| - 1;
      var before := Replay(chain, blocks[..n]).value;
      var base := BumpBase(before.parentTimestamp, blocks[n]);
      var next := chain.apply(before.ledgerState, blocks[n], base).value;
      assert rows[n].key == chain.key(next);
    }
  }

  lemma ReplaySnoc(chain: Chain, rows: seq<Row>, block: Block, carry: Carry)
    requires Replay(chain, Blocks(rows)) == Some(carry)
    requires IndexOne(chain, carry, block).Some?
    ensures
      var row := IndexOne(chain, carry, block).value.rows[|carry.rows|];
      row.block == block && Replay(chain, Blocks(rows + [row])) == IndexOne(chain, carry, block)
  {
    var row := IndexOne(chain, carry, block).value.rows[|carry.rows|];
    BlocksSnoc(rows, row);
    assert Blocks(rows + [row])[..|rows|] == Blocks(rows);
  }

  /******* One lemma per step *******/

  lemma RepairKeepsInv(chain: Chain, s: Machine, retention: nat, roots: multiset<Hash>)
    requires Inv(chain, s) && Enabled(chain, s, Repair(retention, roots))
    ensures Inv(chain, Next(chain, s, Repair(retention, roots)))
  {
    var d := s.disk;
    var wanted := multiset(Roots(chain, Entries(Newest(d.rows, retention))));
    RepairCoversWindow(chain.refs, d.nodes, d.roots, wanted, roots);
    RepairKeepsIntact(chain.refs, d.nodes, d.roots, wanted, roots);
  }

  lemma SeedEndsAtTip(chain: Chain, d: Disk, retention: nat)
    requires InvDisk(chain, d) && d.rows != [] && retention > 0
    ensures EndsAtTip(StillRooted(chain, Entries(Newest(d.rows, retention)), d.roots), d.rows)
  {
    var entries := Entries(Newest(d.rows, retention));
    assert entries[|entries| - 1] == EntryOf(d.rows[|d.rows| - 1]);
  }

  /** A restart finds the newest block's root and can load it: the process comes up. */
  lemma SeedComesUp(chain: Chain, d: Disk, retention: nat)
    requires InvDisk(chain, d) && d.rows != [] && retention > 0
    ensures
      var window := StillRooted(chain, Entries(Newest(d.rows, retention)), d.roots);
      var tip := d.rows[|d.rows| - 1];
      Seeded(chain, d, retention)
      == Up(retention, window, chain.load(tip.key, tip.block.version),
            TipTimestamp(d.rows), TipHash(d.rows), [], multiset{}, Idle)
  {
    SeedEndsAtTip(chain, d, retention);
    assert Complete(chain.refs, d.nodes, RootOf(chain, EntryOf(d.rows[|d.rows| - 1])));
  }

  lemma FreshProcessInv(chain: Chain, d: Disk, retention: nat, window: seq<Entry>, ledgerState: LedgerState)
    requires retention > 0 && |window| <= retention && EndsAtTip(window, d.rows)
    requires InStep(chain, d.rows, ledgerState, TipTimestamp(d.rows))
    requires Paid(chain, window, multiset{}, d.roots)
    ensures
      InvUp(chain, d, Up(retention, window, ledgerState, TipTimestamp(d.rows), TipHash(d.rows), [], multiset{}, Idle))
  {
  }

  lemma SeededFromRows(chain: Chain, d: Disk, retention: nat)
    requires WellFormed(chain) && InvDisk(chain, d) && retention > 0 && d.rows != []
    requires Paid(chain, StillRooted(chain, Entries(Newest(d.rows, retention)), d.roots), multiset{}, d.roots)
    ensures Seeded(chain, d, retention).Up? && InvUp(chain, d, Seeded(chain, d, retention))
  {
    var tip := d.rows[|d.rows| - 1];
    ReloadIsInStep(chain, d.rows);
    SeedComesUp(chain, d, retention);
    SeedEndsAtTip(chain, d, retention);
    FreshProcessInv(chain, d, retention, StillRooted(chain, Entries(Newest(d.rows, retention)), d.roots),
      chain.load(tip.key, tip.block.version));
  }

  lemma SeededFromNothing(chain: Chain, d: Disk, retention: nat)
    requires WellFormed(chain) && Transparent(chain, d.rows) && retention > 0 && d.rows == []
    ensures Seeded(chain, d, retention).Up? && InvUp(chain, d, Seeded(chain, d, retention))
  {
    ReloadIsInStep(chain, d.rows);
    FreshProcessInv(chain, d, retention, [], chain.initial);
  }

  lemma SeedKeepsInv(chain: Chain, s: Machine)
    requires WellFormed(chain) && Inv(chain, s) && Enabled(chain, s, Seed)
    ensures Inv(chain, Next(chain, s, Seed))
  {
    var d, retention := s.disk, s.process.retention;
    SeedPays(chain, Entries(Newest(d.rows, retention)), d.roots);
    if d.rows != [] {
      SeededFromRows(chain, d, retention);
    } else {
      SeededFromNothing(chain, d, retention);
    }
  }

  lemma BufferSnoc(chain: Chain, tip: nat, buffer: seq<Block>, block: Block)
    requires Continues(chain, tip, buffer) && Honest(chain, block)
    requires block.parentHash == if buffer == [] then tip else buffer[|buffer| - 1].hash
    ensures Continues(chain, tip, buffer + [block])
  {
  }

  lemma BufferUncons(chain: Chain, tip: nat, buffer: seq<Block>)
    requires Continues(chain, tip, buffer) && buffer != []
    ensures Continues(chain, buffer[0].hash, buffer[1..])
  {
  }

  lemma ReceiveKeepsInv(chain: Chain, s: Machine, block: Block)
    requires Inv(chain, s) && Enabled(chain, s, Receive(block))
    ensures Inv(chain, Next(chain, s, Receive(block)))
  {
    var d, p := s.disk, s.process;
    if block.parentHash == p.highest {
      var p' := p.(highest := block.hash, buffer := p.buffer + [block]);
      BufferSnoc(chain, BufferTip(d.rows, p.phase), p.buffer, block);
      assert InvUp(chain, d, p');
    }
  }

  lemma ApplyKeepsUp(chain: Chain, d: Disk, p: Process, next: LedgerState)
    requires WellFormed(chain) && p.Up? && p.phase.Idle? && p.buffer != [] && InvUp(chain, d, p)
    requires chain.apply(p.ledgerState, p.buffer[0], BumpBase(p.parentTimestamp, p.buffer[0])) == Some(next)
    ensures
      var block := p.buffer[0];
      InvUp(chain, d, p.(ledgerState := next, parentTimestamp := block.timestamp, buffer := p.buffer[1..],
                         phase := Applied(block, BumpBase(p.parentTimestamp, block))))
  {
    var block := p.buffer[0];
    BufferUncons(chain, TipHash(d.rows), p.buffer);
    assert OneAhead(chain, d.rows, next, block.timestamp, block, BumpBase(p.parentTimestamp, block));
  }

  lemma ApplyKeepsInv(chain: Chain, s: Machine)
    requires WellFormed(chain) && Inv(chain, s) && Enabled(chain, s, Apply)
    ensures Inv(chain, Next(chain, s, Apply))
  {
    ApplyKeepsUp(chain, s.disk, s.process, Next(chain, s, Apply).process.ledgerState);
  }

  lemma PersistKeepsDisk(
    chain: Chain, d: Disk, window: seq<Entry>, pending: multiset<Hash>, nodes: set<Hash>, root: Hash)
    requires InvDisk(chain, d) && EndsAtTip(window, d.rows) && Paid(chain, window, pending, d.roots)
    requires d.nodes <= nodes && Complete(chain.refs, nodes, root)
    ensures InvDisk(chain, Disk(d.rows, d.roots - pending + multiset{root}, nodes))
  {
    PersistKeepsIntact(chain.refs, d.nodes, nodes, d.roots - pending, root);
    FlushPays(chain, window, pending, d.roots);
    if d.rows != [] {
      ClaimIsRooted(chain, window, multiset{}, d.roots - pending, EntryOf(d.rows[|d.rows| - 1]));
    }
  }

  lemma PersistKeepsUp(chain: Chain, d: Disk, p: Process, d': Disk)
    requires p.Up? && p.phase.Applied? && InvUp(chain, d, p)
    requires d'.rows == d.rows && d'.roots == d.roots - p.pending + multiset{RootOf(chain, StateEntry(chain, p.ledgerState))}
    ensures p.pending <= d.roots
    ensures InvUp(chain, d', p.(pending := multiset{}, phase := Persisted(p.phase.block, p.phase.base)))
  {
    FlushPays(chain, p.window, p.pending, d.roots);
    PersistPays(chain, p.window, StateEntry(chain, p.ledgerState), p.pending, d.roots);
  }

  /** The order of counting the new root and flushing does not matter while every unpersist is paid for. */
  lemma CountThenFlush(roots: multiset<Hash>, pending: multiset<Hash>, root: Hash)
    requires pending <= roots
    ensures pending <= roots + multiset{root} && roots + multiset{root} - pending == roots - pending + multiset{root}
  {
  }

  lemma PersistKeepsInv(chain: Chain, s: Machine, nodes: set<Hash>)
    requires Inv(chain, s) && Enabled(chain, s, Persist(nodes))
    ensures Inv(chain, Next(chain, s, Persist(nodes)))
  {
    var d, p := s.disk, s.process;
    var root := RootOf(chain, CurrentEntry(chain, p));
    FlushPays(chain, p.window, p.pending, d.roots);
    CountThenFlush(d.roots, p.pending, root);
    PersistKeepsDisk(chain, d, p.window, p.pending, nodes, root);
    PersistKeepsUp(chain, d, p, Disk(d.rows, d.roots - p.pending + multiset{root}, nodes));
  }

  /** Storing the row of a state that is one block ahead brings disk and memory in step. */
  lemma SaveIsInStep(chain: Chain, rows: seq<Row>, ledgerState: LedgerState, parentTimestamp: nat, block: Block, base: nat)
    requires OneAhead(chain, rows, ledgerState, parentTimestamp, block, base)
    ensures
      var row := Row(block, chain.key(ledgerState), base, ChangeAt(chain, rows, block));
      InStep(chain, rows + [row], ledgerState, parentTimestamp)
  {
    ReplaySnoc(chain, rows, block, Replay(chain, Blocks(rows)).value);
  }

  lemma SaveKeepsDisk(chain: Chain, d: Disk, row: Row, ledgerState: LedgerState, parentTimestamp: nat)
    requires WellFormed(chain) && InvDisk(chain, d)
    requires Honest(chain, row.block) && row.block.parentHash == TipHash(d.rows)
    requires InStep(chain, d.rows + [row], ledgerState, parentTimestamp)
    requires RootOf(chain, EntryOf(row)) in d.roots
    ensures InvDisk(chain, Disk(d.rows + [row], d.roots, d.nodes))
  {
    LinkedSnoc(chain, d.rows, row);
  }

  lemma SaveKeepsUp(chain: Chain, d: Disk, p: Process, row: Row)
    requires p.Up? && p.phase.Persisted? && InvUp(chain, d, p)
    requires row.block == p.phase.block && EntryOf(row) == StateEntry(chain, p.ledgerState)
    requires InStep(chain, d.rows + [row], p.ledgerState, p.parentTimestamp)
    ensures InvUp(chain, Disk(d.rows + [row], d.roots, d.nodes), p.(phase := Saved))
  {
    SavedWindow(d.rows, row, p.retention, p.window, p.phase);
    assert InvProgress(chain, d.rows + [row], Saved, p.ledgerState, p.parentTimestamp);
    assert BufferTip(d.rows + [row], Saved) == BufferTip(d.rows, p.phase);
  }

  lemma SavedWindow(rows: seq<Row>, row: Row, retention: nat, window: seq<Entry>, phase: Phase)
    requires phase.Persisted? && InvWindow(rows, retention, window, phase, EntryOf(row))
    ensures InvWindow(rows + [row], retention, window, Saved, EntryOf(row))
  {
    assert (rows + [row])[..|rows|] == rows;
  }

  lemma SaveKeepsInv(chain: Chain, s: Machine)
    requires WellFormed(chain) && Inv(chain, s) && Enabled(chain, s, Save)
    ensures Inv(chain, Next(chain, s, Save))
  {
    var d, p := s.disk, s.process;
    var row := Next(chain, s, Save).disk.rows[|d.rows|];
    SaveIsInStep(chain, d.rows, p.ledgerState, p.parentTimestamp, p.phase.block, p.phase.base);
    ClaimIsRooted(chain, Claims(chain, p), p.pending, d.roots, EntryOf(row));
    SaveKeepsDisk(chain, d, row, p.ledgerState, p.parentTimestamp);
    SaveKeepsUp(chain, d, p, row);
  }

  lemma PushedWindow(rows: seq<Row>, retention: nat, window: seq<Entry>, current: Entry)
    requires InvWindow(rows, retention, window, Saved, current)
    ensures InvWindow(rows, retention, window + [current], Trimming, current)
  {
    assert (window + [current])[|window|] == current;
  }

  lemma PushKeepsUp(chain: Chain, d: Disk, p: Process)
    requires p.Up? && p.phase.Saved? && InvUp(chain, d, p)
    ensures InvUp(chain, d, p.(window := p.window + [StateEntry(chain, p.ledgerState)], phase := Trimming))
  {
    PushedWindow(d.rows, p.retention, p.window, StateEntry(chain, p.ledgerState));
    assert InvProgress(chain, d.rows, Trimming, p.ledgerState, p.parentTimestamp);
    assert BufferTip(d.rows, Trimming) == BufferTip(d.rows, p.phase);
  }

  lemma PushKeepsInv(chain: Chain, s: Machine)
    requires Inv(chain, s) && Enabled(chain, s, Push)
    ensures Inv(chain, Next(chain, s, Push))
  {
    PushKeepsUp(chain, s.disk, s.process);
  }

  lemma TrimmedEndsAtTip(window: seq<Entry>, rows: seq<Row>)
    requires EndsAtTip(window, rows) && |window| > 1
    ensures EndsAtTip(window[1..], rows)
  {
  }

  lemma UnpersistKeepsUp(chain: Chain, d: Disk, p: Process)
    requires p.Up? && p.phase.Trimming? && |p.window| > p.retention && InvUp(chain, d, p)
    ensures p.pending[RootOf(chain, p.window[0])] < d.roots[RootOf(chain, p.window[0])]
    ensures InvUp(chain, d, p.(window := p.window[1..], pending := p.pending + multiset{RootOf(chain, p.window[0])}))
  {
    TrimmedEndsAtTip(p.window, d.rows);
    UnpersistPays(chain, p.window, p.pending, d.roots);
  }

  /** What could drive a root count negative at the next flush: the front entry is always paid for. */
  lemma UnpersistKeepsInv(chain: Chain, s: Machine)
    requires Inv(chain, s) && Enabled(chain, s, Unpersist)
    ensures Inv(chain, Next(chain, s, Unpersist))
  {
    UnpersistKeepsUp(chain, s.disk, s.process);
  }

  lemma FlushKeepsDisk(chain: Chain, d: Disk, claims: seq<Entry>, pending: multiset<Hash>)
    requires InvDisk(chain, d) && Paid(chain, claims, pending, d.roots)
    requires d.rows != [] ==> EntryOf(d.rows[|d.rows| - 1]) in claims
    ensures InvDisk(chain, d.(roots := d.roots - pending))
  {
    FlushPays(chain, claims, pending, d.roots);
    if d.rows != [] {
      ClaimIsRooted(chain, claims, multiset{}, d.roots - pending, EntryOf(d.rows[|d.rows| - 1]));
    }
  }

  lemma TipIsClaimed(rows: seq<Row>, retention: nat, window: seq<Entry>, phase: Phase, current: Entry)
    requires rows != [] && InvWindow(rows, retention, window, phase, current)
    ensures EntryOf(rows[|rows| - 1]) in Claimed(window, phase, current)
  {
  }

  lemma FlushKeepsUp(chain: Chain, d: Disk, p: Process)
    requires InvDisk(chain, d) && p.Up? && InvUp(chain, d, p)
    ensures p.pending <= d.roots && InvDisk(chain, d.(roots := d.roots - p.pending))
    ensures InvUp(chain, d.(roots := d.roots - p.pending), p.(pending := multiset{}))
  {
    var claims := Claimed(p.window, p.phase, StateEntry(chain, p.ledgerState));
    if d.rows != [] {
      TipIsClaimed(d.rows, p.retention, p.window, p.phase, StateEntry(chain, p.ledgerState));
    }
    FlushKeepsDisk(chain, d, claims, p.pending);
    FlushPays(chain, claims, p.pending, d.roots);
  }

  /** Flushing changes no claim, and every claim keeps a root count of its own. */
  lemma FlushKeepsInv(chain: Chain, s: Machine)
    requires Inv(chain, s) && Enabled(chain, s, Flush)
    ensures Inv(chain, Next(chain, s, Flush))
  {
    FlushKeepsUp(chain, s.disk, s.process);
  }

  lemma GcKeepsInv(chain: Chain, s: Machine, nodes: set<Hash>)
    requires Inv(chain, s) && Enabled(chain, s, Gc(nodes))
    ensures Inv(chain, Next(chain, s, Gc(nodes)))
  {
    GcKeepsIntact(chain.refs, s.disk.nodes, nodes, s.disk.roots);
  }

  lemma StepKeepsInv(chain: Chain, s: Machine, step: Step)
    requires WellFormed(chain) && Inv(chain, s) && Enabled(chain, s, step)
    ensures Inv(chain, Next(chain, s, step))
  {
    match step
    case Repair(retention, roots) => RepairKeepsInv(chain, s, retention, roots);
    case Seed => SeedKeepsInv(chain, s);
    case Receive(block) => ReceiveKeepsInv(chain, s, block);
    case Apply => ApplyKeepsInv(chain, s);
    case Persist(nodes) => PersistKeepsInv(chain, s, nodes);
    case Save => SaveKeepsInv(chain, s);
    case Push => PushKeepsInv(chain, s);
    case Unpersist => UnpersistKeepsInv(chain, s);
    case EndTrim =>
    case Flush => FlushKeepsInv(chain, s);
    case Gc(nodes) => GcKeepsInv(chain, s, nodes);
    case Crash =>
  }

  lemma {:induction false} RunKeepsInv(chain: Chain, steps: seq<Step>, states: seq<Machine>, i: nat)
    requires WellFormed(chain) && IsRun(chain, steps, states) && i < |states|
    ensures Inv(chain, states[i])
  {
    if i > 0 {
      assert StepAt(chain, steps, states, i - 1);
      RunKeepsInv(chain, steps, states, i - 1);
      StepKeepsInv(chain, states[i - 1], steps[i - 1]);
    }
  }
}

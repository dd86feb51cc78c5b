/**
 The block loop as the program executes it: two databases updated in place, process state in local
 variables, the retention window trimmed in a loop. Every method returns, as ghost output, the
 protocol steps it performed, so all that is proved of protocol runs holds of the program.
 */
module ChainIndexerRun {
  import opened Common
  import BlockSource
  import opened LedgerArena
  import opened LedgerStates
  import opened ChainIndexer
  import opened ChainIndexerSafety

  /** One step, if it is enabled. */
  ghost function StepOf(chain: Chain): (Machine, Step) -> Option<Machine> {
    (s: Machine, step: Step) => if Enabled(chain, s, step) then Some(Next(chain, s, step)) else None
  }

  ghost predicate LeadsBy(f: (Machine, Step) -> Option<Machine>, start: Machine, steps: seq<Step>, end: Machine)
    decreases |steps|
  {
    if steps == [] then start == end
    else f(start, steps[0]).Some? && LeadsBy(f, f(start, steps[0]).value, steps[1..], end)
  }

  /** The steps, taken from `start`, lead to `end`. */
  ghost predicate Leads(chain: Chain, start: Machine, steps: seq<Step>, end: Machine) {
    LeadsBy(StepOf(chain), start, steps, end)
  }

  lemma {:induction false} LeadsByConcat(
    f: (Machine, Step) -> Option<Machine>,
    start: Machine, first: seq<Step>, mid: Machine, second: seq<Step>, end: Machine)
    requires LeadsBy(f, start, first, mid) && LeadsBy(f, mid, second, end)
    ensures LeadsBy(f, start, first + second, end)
    decreases |first|
  {
    if first == [] {
      assert first + second == second;
    } else {
      LeadsByConcat(f, f(start, first[0]).value, first[1..], mid, second, end);
      assert (first + second)[1..] == first[1..] + second;
    }
  }

  lemma LeadsOne(chain: Chain, mid: Machine, step: Step)
    requires Enabled(chain, mid, step)
    ensures Leads(chain, mid, [step], Next(chain, mid, step))
  {
    assert [step][1..] == [];
  }

  lemma LeadsConcat(chain: Chain, start: Machine, first: seq<Step>, mid: Machine, second: seq<Step>, end: Machine)
    requires Leads(chain, start, first, mid) && Leads(chain, mid, second, end)
    ensures Leads(chain, start, first + second, end)
  {
    LeadsByConcat(StepOf(chain), start, first, mid, second, end);
  }

  lemma LeadsSnoc(chain: Chain, start: Machine, steps: seq<Step>, mid: Machine, step: Step)
    requires Leads(chain, start, steps, mid) && Enabled(chain, mid, step)
    ensures Leads(chain, start, steps + [step], Next(chain, mid, step))
  {
    LeadsOne(chain, mid, step);
    LeadsConcat(chain, start, steps, mid, [step], Next(chain, mid, step));
  }

  lemma {:induction false} LeadsKeepsInv(chain: Chain, start: Machine, steps: seq<Step>, end: Machine)
    requires WellFormed(chain) && Inv(chain, start) && Leads(chain, start, steps, end)
    ensures Inv(chain, end)
    decreases |steps|
  {
    if steps != [] {
      StepKeepsInv(chain, start, steps[0]);
      LeadsKeepsInv(chain, Next(chain, start, steps[0]), steps[1..], end);
    }
  }

  lemma RunSnoc(chain: Chain, steps: seq<Step>, states: seq<Machine>, step: Step)
    requires IsRun(chain, steps, states) && Enabled(chain, states[|steps|], step)
    ensures IsRun(chain, steps + [step], states + [Next(chain, states[|steps|], step)])
  {
    var steps', states' := steps + [step], states + [Next(chain, states[|steps|], step)];
    forall i | 0 <= i < |steps'| ensures StepAt(chain, steps', states', i) {
      assert i < |steps| ==> StepAt(chain, steps, states, i);
    }
  }

  /** What `Leads` describes is a run in the sense of the protocol. */
  lemma {:induction false} LeadsExtendsRun(
    chain: Chain, steps: seq<Step>, states: seq<Machine>, more: seq<Step>, end: Machine)
    returns (longer: seq<Machine>)
    requires IsRun(chain, steps, states) && Leads(chain, states[|steps|], more, end)
    ensures IsRun(chain, steps + more, longer) && longer[|steps + more|] == end
    decreases |more|
  {
    if more == [] {
      assert steps + more == steps;
      longer := states;
    } else {
      var next := Next(chain, states[|steps|], more[0]);
      RunSnoc(chain, steps, states, more[0]);
      assert (states + [next])[|steps + [more[0]]|] == next;
      assert steps + more == (steps + [more[0]]) + more[1..];
      longer := LeadsExtendsRun(chain, steps + [more[0]], states + [next], more[1..], end);
    }
  }

  lemma PaidFacts(chain: Chain, s: Machine)
    requires Inv(chain, s) && s.process.Up?
    ensures s.process.pending <= s.disk.roots
  {
    FlushPays(chain, Claims(chain, s.process), s.process.pending, s.disk.roots);
  }

  /******* What the program's stretches of straight-line code amount to *******/

  /** The state after the first buffered block was applied, persisted, saved and pushed. */
  function Pushed(chain: Chain, d: Disk, p: Process, dag: set<Hash>, next: LedgerState): Machine
    requires p.Up? && p.buffer != []
  {
    var block := p.buffer[0];
    var base := BumpBase(p.parentTimestamp, block);
    var entry := StateEntry(chain, next);
    Machine(
      Disk(
        d.rows + [Row(block, entry.key, base, ChangeAt(chain, d.rows, block))],
        d.roots + multiset{RootOf(chain, entry)} - p.pending,
        d.nodes + dag),
      Up(p.retention, p.window + [entry], next, block.timestamp, p.highest, p.buffer[1..], multiset{}, Trimming))
  }

  function AppliedTo(p: Process, next: LedgerState): Process
    requires p.Up? && p.buffer != []
  {
    var block := p.buffer[0];
    Up(p.retention, p.window, next, block.timestamp, p.highest, p.buffer[1..], p.pending,
       Applied(block, BumpBase(p.parentTimestamp, block)))
  }

  lemma ApplyLeads(chain: Chain, d: Disk, p: Process, next: LedgerState)
    requires p.Up? && p.phase.Idle? && p.buffer != []
    requires chain.apply(p.ledgerState, p.buffer[0], BumpBase(p.parentTimestamp, p.buffer[0])) == Some(next)
    ensures Leads(chain, Machine(d, p), [Apply], Machine(d, AppliedTo(p, next)))
  {
    LeadsOne(chain, Machine(d, p), Apply);
  }

  lemma SaveLeads(chain: Chain, d: Disk, p: Process)
    requires p.Up? && p.phase.Persisted?
    ensures
      var entry, block := CurrentEntry(chain, p), p.phase.block;
      var row := Row(block, entry.key, p.phase.base, ChangeAt(chain, d.rows, block));
      Leads(chain, Machine(d, p), [Save, Push],
        Machine(d.(rows := d.rows + [row]), p.(window := p.window + [entry], phase := Trimming)))
  {
    var s0 := Machine(d, p);
    LeadsSnoc(chain, s0, [], s0, Save);
    LeadsSnoc(chain, s0, [Save], Next(chain, s0, Save), Push);
    assert [Save] + [Push] == [Save, Push];
  }

  lemma StoreLeads(chain: Chain, d: Disk, p: Process, nodes: set<Hash>)
    requires p.Up? && p.phase.Applied? && d.nodes <= nodes
    requires p.pending <= d.roots + multiset{RootOf(chain, CurrentEntry(chain, p))}
    requires Complete(chain.refs, nodes, RootOf(chain, CurrentEntry(chain, p)))
    ensures
      var entry, block := CurrentEntry(chain, p), p.phase.block;
      var row := Row(block, entry.key, p.phase.base, ChangeAt(chain, d.rows, block));
      Leads(chain, Machine(d, p), [Persist(nodes), Save, Push],
        Machine(
          Disk(d.rows + [row], d.roots + multiset{RootOf(chain, entry)} - p.pending, nodes),
          p.(window := p.window + [entry], pending := multiset{}, phase := Trimming)))
  {
    var s0 := Machine(d, p);
    var s1 := Machine(
      Disk(d.rows, d.roots + multiset{RootOf(chain, CurrentEntry(chain, p))} - p.pending, nodes),
      p.(pending := multiset{}, phase := Persisted(p.phase.block, p.phase.base)));
    assert Next(chain, s0, Persist(nodes)) == s1;
    SaveLeads(chain, s1.disk, s1.process);
    assert [Persist(nodes), Save, Push][1..] == [Save, Push];
  }

  lemma AcceptLeads(chain: Chain, d: Disk, p: Process, dag: set<Hash>, next: LedgerState)
    requires p.Up? && p.phase.Idle? && p.buffer != []
    requires chain.apply(p.ledgerState, p.buffer[0], BumpBase(p.parentTimestamp, p.buffer[0])) == Some(next)
    requires p.pending <= d.roots + multiset{RootOf(chain, StateEntry(chain, next))}
    requires Complete(chain.refs, dag, RootOf(chain, StateEntry(chain, next)))
    ensures
      Leads(chain, Machine(d, p), [Apply, Persist(d.nodes + dag), Save, Push], Pushed(chain, d, p, dag, next))
  {
    var mid := AppliedTo(p, next);
    ApplyLeads(chain, d, p, next);
    StoreLeads(chain, d, mid, d.nodes + dag);
    LeadsConcat(chain, Machine(d, p), [Apply], Machine(d, mid),
      [Persist(d.nodes + dag), Save, Push], Pushed(chain, d, p, dag, next));
    assert [Apply] + [Persist(d.nodes + dag), Save, Push] == [Apply, Persist(d.nodes + dag), Save, Push];
  }

  /******* The block stream in front of the loop *******/

  function ReceiveSteps(blocks: seq<Block>): seq<Step> {
    seq(|blocks|, i requires 0 <= i < |blocks| => Receive(blocks[i]))
  }

  /** The process with more blocks buffered. */
  function Buffered(p: Process, blocks: seq<Block>): Process
    requires p.Up?
  {
    if blocks == [] then p
    else p.(highest := blocks[|blocks| - 1].hash, buffer := p.buffer + blocks)
  }

  lemma {:induction false} StreamLeads(chain: Chain, d: Disk, p: Process, blocks: seq<Block>)
    requires p.Up? && LinkedAfter(p.highest, blocks) && forall i :: 0 <= i < |blocks| ==> Honest(chain, blocks[i])
    ensures Leads(chain, Machine(d, p), ReceiveSteps(blocks), Machine(d, Buffered(p, blocks)))
  {
    if blocks != [] {
      var n := |blocks| - 1;
      var front, last := blocks[..n], blocks[n];
      StreamLeads(chain, d, p, front);
      var mid := Buffered(p, front);
      assert n > 0 ==> front[n - 1].hash == last.parentHash;
      assert mid.buffer + [last] == p.buffer + blocks;
      LeadsSnoc(chain, Machine(d, p), ReceiveSteps(front), Machine(d, mid), Receive(last));
      assert ReceiveSteps(front) + [Receive(last)] == ReceiveSteps(blocks);
    }
  }

  /**
   Whatever streams the node serves, what the parent-hash filter passes on is received by the
   protocol block by block, none refused.
   */
  lemma FilteredBlocksAreReceived(
    chain: Chain, d: Disk, p: Process, highest: Option<BlockSource.BlockRef>, out: seq<BlockSource.Item>)
    requires p.Up? && p.highest == BlockSource.HashAfter(highest)
    requires LinkedAfter(BlockSource.HashAfter(highest), BlockSource.Blocks(out))
    requires forall i :: 0 <= i < |BlockSource.Blocks(out)| ==> Honest(chain, BlockSource.Blocks(out)[i])
    ensures Leads(chain, Machine(d, p), ReceiveSteps(BlockSource.Blocks(out)), Machine(d, Buffered(p, BlockSource.Blocks(out))))
    ensures |Buffered(p, BlockSource.Blocks(out)).buffer| == |p.buffer| + |BlockSource.Blocks(out)|
  {
    StreamLeads(chain, d, p, BlockSource.Blocks(out));
  }

  /** The main DB: one committed row per block. */
  class MainDb {
    var rows: seq<Row>

    constructor ()
      ensures rows == []
    {
      rows := [];
    }

    method SaveBlock(row: Row)
      modifies this
      ensures rows == old(rows) + [row]
    {
      rows := rows + [row];
    }

    /** Reads the newest keys newest first and reverses them, as the query does. */
    method GetNewestLedgerStateKeys(limit: nat) returns (keys: seq<Entry>)
      ensures keys == Entries(Newest(rows, limit))
    {
      var descending: seq<Entry> := [];
      var i := |rows|;
      while i > 0 && |descending| < limit
        invariant 0 <= i <= |rows| && |descending| == |rows| - i <= limit
        invariant forall k :: 0 <= k < |descending| ==> descending[k] == EntryOf(rows[|rows| - 1 - k])
      {
        i := i - 1;
        descending := descending + [EntryOf(rows[i])];
      }
      var n := |descending|;
      keys := seq(n, k requires 0 <= k < n => descending[n - 1 - k]);
    }
  }

  /** What a gc pass leaves, given the stored nodes and root counts. */
  type Collector = (set<Hash>, multiset<Hash>) -> set<Hash>

  ghost predicate Collects(refs: Refs, collect: Collector) {
    forall nodes, roots :: CullsOnlyGarbage(refs, nodes, collect(nodes, roots), roots)
  }

  /** The ledger DB: root counts on disk, unpersists cached until the next flush. */
  class LedgerDb {
    var roots: multiset<Hash>
    var pending: multiset<Hash>
    var nodes: set<Hash>

    constructor ()
      ensures roots == multiset{} && pending == multiset{} && nodes == {}
    {
      roots, pending, nodes := multiset{}, multiset{}, {};
    }

    /**
     Stores the state's DAG, counts its root and flushes everything in one transaction; fails if the
     cached unpersists, less the new count, would make a count negative.
     */
    method Persist(hash: Hash, dag: set<Hash>) returns (ok: bool)
      modifies this
      ensures ok <==> old(pending) <= old(roots) + multiset{hash}
      ensures ok ==> roots == old(roots) + multiset{hash} - old(pending) && pending == multiset{} && nodes == old(nodes) + dag
      ensures !ok ==> roots == old(roots) && pending == old(pending) && nodes == old(nodes)
    {
      var counted := roots + multiset{hash};
      if !(pending <= counted) {
        return false;
      }
      ok := true;
      roots := counted - pending;
      pending := multiset{};
      nodes := nodes + dag;
    }

    /** Cached until the next flush, whether or not there is a count to give back. */
    method Unpersist(hash: Hash)
      modifies this`pending
      ensures pending == old(pending) + multiset{hash}
    {
      pending := pending + multiset{hash};
    }

    /** One time-bounded pass of the collector. */
    method Gc(refs: Refs, collect: Collector)
      requires Collects(refs, collect)
      modifies this`nodes
      ensures CullsOnlyGarbage(refs, old(nodes), nodes, roots)
    {
      nodes := collect(nodes, roots);
    }

    method RepairRootCounts(refs: Refs, window: seq<Hash>)
      requires pending == multiset{}
      modifies this`roots
      ensures Repaired(refs, nodes, old(roots), multiset(window), roots)
    {
      var wanted := WindowRootCounts(window);
      var repaired, _ := RaiseRootCounts(refs, nodes, roots, wanted);
      roots := repaired;
    }
  }

  function View(main: MainDb, ledgerDb: LedgerDb, process: Process): Machine
    reads main, ledgerDb
  {
    Machine(Disk(main.rows, ledgerDb.roots, ledgerDb.nodes), process)
  }

  /** Drops the keys whose roots have already been unpersisted. */
  method SeedWindow(chain: Chain, keys: seq<Entry>, roots: multiset<Hash>) returns (window: seq<Entry>)
    ensures window == StillRooted(chain, keys, roots)
  {
    window := [];
    for i := 0 to |keys|
      invariant window == StillRooted(chain, keys[..i], roots)
    {
      assert keys[..i + 1][..i] == keys[..i];
      if RootOf(chain, keys[i]) in roots {
        window := window + [keys[i]];
      }
    }
    assert keys[..|keys|] == keys;
  }

  /** The process a restart brings up from the given rows and repaired counts. */
  function Restarted(chain: Chain, rows: seq<Row>, roots: multiset<Hash>, retention: nat): Process {
    var window := StillRooted(chain, Entries(Newest(rows, retention)), roots);
    var ledgerState :=
      if window == [] then chain.initial else chain.load(window[|window| - 1].key, window[|window| - 1].version);
    Up(retention, window, ledgerState, TipTimestamp(rows), TipHash(rows), [], multiset{}, Idle)
  }

  /** Repairing and seeding after any crash brings the process up at the newest stored block. */
  lemma RestartLeads(chain: Chain, d: Disk, retention: nat, roots: multiset<Hash>)
    requires WellFormed(chain) && Inv(chain, Machine(d, Down))
    requires Enabled(chain, Machine(d, Down), Repair(retention, roots))
    ensures
      Leads(chain, Machine(d, Down), [Repair(retention, roots), Seed],
            Machine(d.(roots := roots), Restarted(chain, d.rows, roots, retention)))
  {
    var s0, repair := Machine(d, Down), Repair(retention, roots);
    var s1 := Next(chain, s0, repair);
    RepairKeepsInv(chain, s0, retention, roots);
    if d.rows != [] {
      SeedComesUp(chain, s1.disk, retention);
      SeedEndsAtTip(chain, s1.disk, retention);
    }
    LeadsSnoc(chain, s0, [], s0, repair);
    LeadsSnoc(chain, s0, [repair], s1, Seed);
    assert [repair] + [Seed] == [repair, Seed];
  }

  method RepairAndSeed(chain: Chain, main: MainDb, ledgerDb: LedgerDb, retention: nat) returns (p: Process)
    requires ledgerDb.pending == multiset{}
    modifies ledgerDb`roots
    ensures
      Repaired(chain.refs, ledgerDb.nodes, old(ledgerDb.roots),
               multiset(Roots(chain, Entries(Newest(main.rows, retention)))), ledgerDb.roots)
    ensures p == Restarted(chain, main.rows, ledgerDb.roots, retention)
  {
    var keys := main.GetNewestLedgerStateKeys(retention);
    ledgerDb.RepairRootCounts(chain.refs, Roots(chain, keys));
    var window := SeedWindow(chain, keys, ledgerDb.roots);
    var ledgerState :=
      if window == [] then chain.initial else chain.load(window[|window| - 1].key, window[|window| - 1].version);
    p := Up(retention, window, ledgerState, TipTimestamp(main.rows), TipHash(main.rows), [], multiset{}, Idle);
  }

  /** Starting up after any crash: the process comes up, ready for the next block. */
  method Restart(chain: Chain, main: MainDb, ledgerDb: LedgerDb, retention: nat)
    returns (p: Process, ghost steps: seq<Step>)
    requires WellFormed(chain) && retention > 0
    requires Inv(chain, View(main, ledgerDb, Down)) && ledgerDb.pending == multiset{}
    modifies ledgerDb`roots
    ensures Leads(chain, old(View(main, ledgerDb, Down)), steps, View(main, ledgerDb, p))
    ensures p.Up? && p.phase.Idle? && p.retention == retention && p.buffer == [] && p.pending == multiset{}
  {
    ghost var d := View(main, ledgerDb, Down).disk;
    p := RepairAndSeed(chain, main, ledgerDb, retention);
    steps := [Repair(retention, ledgerDb.roots), Seed];
    RestartLeads(chain, d, retention, ledgerDb.roots);
  }

  /** Giving back the front entry's root count is one protocol step. */
  lemma TrimLeads(chain: Chain, start: Machine, steps: seq<Step>, d: Disk, p: Process)
    requires Inv(chain, Machine(d, p)) && Leads(chain, start, steps, Machine(d, p))
    requires p.Up? && p.phase.Trimming? && |p.window| > p.retention
    ensures
      var hash := RootOf(chain, p.window[0]);
      var trimmed := Machine(d, p.(window := p.window[1..], pending := p.pending + multiset{hash}));
      && Inv(chain, trimmed) && Leads(chain, start, steps + [Unpersist], trimmed)
  {
    UnpersistKeepsUp(chain, d, p);
    UnpersistIsOneStep(chain, start, steps, d, p);
  }

  lemma UnpersistIsOneStep(chain: Chain, start: Machine, steps: seq<Step>, d: Disk, p: Process)
    requires Leads(chain, start, steps, Machine(d, p))
    requires p.Up? && p.phase.Trimming? && |p.window| > p.retention
    ensures
      var hash := RootOf(chain, p.window[0]);
      Leads(chain, start, steps + [Unpersist],
            Machine(d, p.(window := p.window[1..], pending := p.pending + multiset{hash})))
  {
    LeadsSnoc(chain, start, steps, Machine(d, p), Unpersist);
  }

  /** Unpersists the oldest window entries beyond the retention; no count can go negative. */
  method TrimWindow(chain: Chain, main: MainDb, ledgerDb: LedgerDb, p: Process)
    returns (p': Process, ghost steps: seq<Step>)
    requires Inv(chain, View(main, ledgerDb, p))
    requires p.Up? && p.phase.Trimming? && p.pending == ledgerDb.pending
    modifies ledgerDb`pending
    ensures Leads(chain, old(View(main, ledgerDb, p)), steps, View(main, ledgerDb, p'))
    ensures p'.Up? && p' == p.(window := p'.window, pending := ledgerDb.pending, phase := Idle)
    ensures |p'.window| <= p.retention
  {
    var window := p.window;
    ghost var d := View(main, ledgerDb, p).disk;
    ghost var current := p;
    steps := [];
    while |window| > p.retention
      invariant current == p.(window := window, pending := ledgerDb.pending)
      invariant Leads(chain, Machine(d, p), steps, Machine(d, current))
      invariant Inv(chain, Machine(d, current))
    {
      TrimLeads(chain, Machine(d, p), steps, d, current);
      ledgerDb.Unpersist(RootOf(chain, window[0]));
      window := window[1..];
      current := p.(window := window, pending := ledgerDb.pending);
      steps := steps + [Unpersist];
    }
    EndTrimLeads(chain, Machine(d, p), steps, d, current);
    steps := steps + [EndTrim];
    p' := p.(window := window, pending := ledgerDb.pending, phase := Idle);
  }

  lemma EndTrimLeads(chain: Chain, start: Machine, steps: seq<Step>, d: Disk, p: Process)
    requires Leads(chain, start, steps, Machine(d, p)) && p.Up? && p.phase.Trimming? && |p.window| <= p.retention
    ensures Leads(chain, start, steps + [EndTrim], Machine(d, p.(phase := Idle)))
  {
    LeadsSnoc(chain, start, steps, Machine(d, p), EndTrim);
  }

  /** Persisting, saving and pushing an accepted block, in this order. */
  method StoreBlock(chain: Chain, main: MainDb, ledgerDb: LedgerDb, p: Process, dag: set<Hash>, next: LedgerState)
    returns (p': Process)
    requires p.Up? && p.buffer != [] && p.pending == ledgerDb.pending
    modifies main, ledgerDb
    ensures old(ledgerDb.pending <= ledgerDb.roots + multiset{RootOf(chain, StateEntry(chain, next))}) ==>
              View(main, ledgerDb, p') == Pushed(chain, old(View(main, ledgerDb, p).disk), p, dag, next)
              && ledgerDb.pending == multiset{}
    ensures !old(ledgerDb.pending <= ledgerDb.roots + multiset{RootOf(chain, StateEntry(chain, next))}) ==>
              View(main, ledgerDb, p') == old(View(main, ledgerDb, Panicked))
  {
    var block := p.buffer[0];
    var base := BumpBase(p.parentTimestamp, block);
    var entry := StateEntry(chain, next);
    var ok := ledgerDb.Persist(RootOf(chain, entry), dag);
    if !ok {
      return Panicked;
    }
    main.SaveBlock(Row(block, entry.key, base, ChangeAt(chain, main.rows, block)));
    p' := Up(p.retention, p.window + [entry], next, block.timestamp, p.highest, p.buffer[1..], multiset{}, Trimming);
  }

  /** The block stream hands over one block: it is buffered if it continues the chain, and skipped otherwise. */
  method ReceiveBlock(chain: Chain, main: MainDb, ledgerDb: LedgerDb, p: Process, block: Block)
    returns (p': Process, ghost steps: seq<Step>)
    requires p.Up? && Honest(chain, block)
    ensures Leads(chain, View(main, ledgerDb, p), steps, View(main, ledgerDb, p'))
    ensures p' == if block.parentHash == p.highest then Buffered(p, [block]) else p
  {
    p' := p;
    if block.parentHash == p.highest {
      p' := p.(highest := block.hash, buffer := p.buffer + [block]);
    }
    LeadsOne(chain, View(main, ledgerDb, p), Receive(block));
    steps := [Receive(block)];
  }

  lemma AcceptedKeepsInv(chain: Chain, d: Disk, p: Process, dag: set<Hash>, next: LedgerState)
    requires WellFormed(chain) && Inv(chain, Machine(d, p)) && p.Up? && p.phase.Idle? && p.buffer != []
    requires chain.apply(p.ledgerState, p.buffer[0], BumpBase(p.parentTimestamp, p.buffer[0])) == Some(next)
    requires Complete(chain.refs, dag, RootOf(chain, StateEntry(chain, next)))
    ensures p.pending <= d.roots + multiset{RootOf(chain, StateEntry(chain, next))} && Inv(chain, Pushed(chain, d, p, dag, next))
    ensures Leads(chain, Machine(d, p), [Apply, Persist(d.nodes + dag), Save, Push], Pushed(chain, d, p, dag, next))
  {
    PaidFacts(chain, Machine(d, p));
    AcceptLeads(chain, d, p, dag, next);
    LeadsKeepsInv(chain, Machine(d, p), [Apply, Persist(d.nodes + dag), Save, Push], Pushed(chain, d, p, dag, next));
  }

  /** Storing the first buffered block, whose state is `next`, and trimming the window. */
  method IndexAccepted(chain: Chain, main: MainDb, ledgerDb: LedgerDb, p: Process, dag: set<Hash>, next: LedgerState)
    returns (p': Process, ghost steps: seq<Step>)
    requires WellFormed(chain) && Inv(chain, View(main, ledgerDb, p))
    requires p.Up? && p.phase.Idle? && p.buffer != [] && p.pending == ledgerDb.pending
    requires chain.apply(p.ledgerState, p.buffer[0], BumpBase(p.parentTimestamp, p.buffer[0])) == Some(next)
    requires Complete(chain.refs, dag, RootOf(chain, StateEntry(chain, next)))
    modifies main, ledgerDb
    ensures Leads(chain, old(View(main, ledgerDb, p)), steps, View(main, ledgerDb, p'))
    ensures p'.Up? && p'.phase.Idle? && p'.buffer == p.buffer[1..] && p'.pending == ledgerDb.pending
    ensures p'.ledgerState == next && |p'.window| <= p'.retention
    ensures
      var base := BumpBase(p.parentTimestamp, p.buffer[0]);
      main.rows == old(main.rows) + [Row(p.buffer[0], chain.key(next), base, ChangeAt(chain, old(main.rows), p.buffer[0]))]
  {
    ghost var start := View(main, ledgerDb, p);
    ghost var accept := [Apply, Persist(start.disk.nodes + dag), Save, Push];
    ghost var pushed := Pushed(chain, start.disk, p, dag, next);
    AcceptedKeepsInv(chain, start.disk, p, dag, next);
    var trimming := StoreBlock(chain, main, ledgerDb, p, dag, next);
    ghost var trim;
    p', trim := TrimWindow(chain, main, ledgerDb, trimming);
    LeadsConcat(chain, start, accept, pushed, trim, View(main, ledgerDb, p'));
    steps := accept + trim;
  }

  /**
   One turn of the block loop on the first buffered block. A block the ledger refuses ends the
   process; any other is stored, the window is trimmed, and a gc pass runs if it is enabled.
   */
  method IndexBlock(
    chain: Chain, main: MainDb, ledgerDb: LedgerDb, p: Process, dag: set<Hash>, gc: bool, collect: Collector)
    returns (p': Process, ghost steps: seq<Step>)
    requires WellFormed(chain) && Inv(chain, View(main, ledgerDb, p)) && Collects(chain.refs, collect)
    requires p.Up? && p.phase.Idle? && p.buffer != [] && p.pending == ledgerDb.pending
    requires
      var applied := chain.apply(p.ledgerState, p.buffer[0], BumpBase(p.parentTimestamp, p.buffer[0]));
      applied.Some? ==> Complete(chain.refs, dag, RootOf(chain, StateEntry(chain, applied.value)))
    modifies main, ledgerDb
    ensures Leads(chain, old(View(main, ledgerDb, p)), steps, View(main, ledgerDb, p'))
    ensures
      var base := BumpBase(p.parentTimestamp, p.buffer[0]);
      var applied := chain.apply(p.ledgerState, p.buffer[0], base);
      if applied.None? then p' == Down && main.rows == old(main.rows)
      else
        && p'.Up? && p'.phase.Idle? && p'.buffer == p.buffer[1..] && p'.pending == ledgerDb.pending
        && p'.ledgerState == applied.value && |p'.window| <= p'.retention
        && main.rows == old(main.rows) +
             [Row(p.buffer[0], chain.key(applied.value), base, ChangeAt(chain, old(main.rows), p.buffer[0]))]
  {
    var applied := chain.apply(p.ledgerState, p.buffer[0], BumpBase(p.parentTimestamp, p.buffer[0]));
    if applied.None? {
      LeadsOne(chain, View(main, ledgerDb, p), Crash);
      ledgerDb.pending := multiset{};
      return Down, [Crash];
    }
    ghost var start := View(main, ledgerDb, p);
    p', steps := IndexAccepted(chain, main, ledgerDb, p, dag, applied.value);
    if gc {
      ghost var mid := View(main, ledgerDb, p');
      ledgerDb.Gc(chain.refs, collect);
      GcLeads(chain, start, steps, mid, ledgerDb.nodes);
      steps := steps + [Gc(ledgerDb.nodes)];
    }
  }

  lemma GcLeads(chain: Chain, start: Machine, steps: seq<Step>, mid: Machine, nodes: set<Hash>)
    requires Leads(chain, start, steps, mid) && mid.process.Up?
    requires CullsOnlyGarbage(chain.refs, mid.disk.nodes, nodes, mid.disk.roots)
    ensures Leads(chain, start, steps + [Gc(nodes)], mid.(disk := mid.disk.(nodes := nodes)))
  {
    LeadsSnoc(chain, start, steps, mid, Gc(nodes));
  }
}

/**
 Why a restart repairs root counts before it seeds the window: without the repair, a run in which
 two blocks share a root and the retention is raised ends in a negative root count.
 */
module ChainIndexerUnrepaired {
  import opened Common
  import opened LedgerArena
  import opened LedgerStates
  import opened SystemParameters
  import opened ChainIndexer
  import opened ChainIndexerRetention
  import opened ChainIndexerRun

  /******* Indexing one buffered block *******/

  function AcceptSteps(d: Disk, dag: set<Hash>): seq<Step> {
    [Apply, Persist(d.nodes + dag), Save, Push]
  }

  /** While the window is not full, a block only adds to it. */
  lemma IndexIntoWindow(chain: Chain, d: Disk, p: Process, dag: set<Hash>, next: LedgerState)
    requires p.Up? && p.phase.Idle? && p.buffer != [] && |p.window| < p.retention
    requires p.pending <= d.roots + multiset{RootOf(chain, StateEntry(chain, next))}
    requires chain.apply(p.ledgerState, p.buffer[0], BumpBase(p.parentTimestamp, p.buffer[0])) == Some(next)
    requires Complete(chain.refs, dag, RootOf(chain, StateEntry(chain, next)))
    ensures
      var s := Pushed(chain, d, p, dag, next);
      Leads(chain, Machine(d, p), AcceptSteps(d, dag) + [EndTrim], s.(process := s.process.(phase := Idle)))
  {
    var s := Pushed(chain, d, p, dag, next);
    AcceptLeads(chain, d, p, dag, next);
    EndTrimLeads(chain, Machine(d, p), AcceptSteps(d, dag), s.disk, s.process);
  }

  /** The process once a block has pushed the oldest entry out of a full window. */
  function Shifted(chain: Chain, s: Machine): Machine
    requires s.process.Up? && s.process.window != []
  {
    var p := s.process;
    s.(process := p.(window := p.window[1..], pending := p.pending + multiset{RootOf(chain, p.window[0])}, phase := Idle))
  }

  /** Once the window is full, a block pushes out its oldest entry. */
  lemma IndexThroughWindow(chain: Chain, d: Disk, p: Process, dag: set<Hash>, next: LedgerState)
    requires p.Up? && p.phase.Idle? && p.buffer != [] && |p.window| == p.retention
    requires p.pending <= d.roots + multiset{RootOf(chain, StateEntry(chain, next))}
    requires chain.apply(p.ledgerState, p.buffer[0], BumpBase(p.parentTimestamp, p.buffer[0])) == Some(next)
    requires Complete(chain.refs, dag, RootOf(chain, StateEntry(chain, next)))
    ensures
      Leads(chain, Machine(d, p), AcceptSteps(d, dag) + [Unpersist] + [EndTrim],
            Shifted(chain, Pushed(chain, d, p, dag, next)))
  {
    var s := Pushed(chain, d, p, dag, next);
    var q := s.process.(window := s.process.window[1..], pending := multiset{RootOf(chain, s.process.window[0])});
    AcceptLeads(chain, d, p, dag, next);
    assert s.process.pending + multiset{RootOf(chain, s.process.window[0])} == q.pending;
    UnpersistIsOneStep(chain, Machine(d, p), AcceptSteps(d, dag), s.disk, s.process);
    EndTrimLeads(chain, Machine(d, p), AcceptSteps(d, dag) + [Unpersist], s.disk, q);
  }

  /******* Two entries, one root count *******/

  /** A window of two entries that share a root of which only one count is left. */
  ghost predicate UnderCounted(chain: Chain, d: Disk, p: Process, h: Hash) {
    && p.Up? && p.phase.Idle? && p.retention == 2 && p.pending == multiset{} && |p.window| == 2
    && RootOf(chain, p.window[0]) == h && RootOf(chain, p.window[1]) == h
    && d.roots[h] == 1
  }

  /** Flushing more than there is aborts the process. */
  lemma FlushPanics(chain: Chain, start: Machine, steps: seq<Step>, s: Machine, h: Hash)
    requires Leads(chain, start, steps, s) && s.process.Up? && s.process.pending[h] > s.disk.roots[h]
    ensures Leads(chain, start, steps + [Flush], s.(process := Panicked))
  {
    assert !(s.process.pending <= s.disk.roots);
    LeadsSnoc(chain, start, steps, s, Flush);
  }

  /** The next two blocks with other roots push both entries out, and the flush after them fails. */
  lemma UnderCountedPanics(
    chain: Chain, d: Disk, p: Process, h: Hash,
    dagA: set<Hash>, a: LedgerState, dagB: set<Hash>, b: LedgerState)
    returns (steps: seq<Step>, end: Machine)
    requires UnderCounted(chain, d, p, h) && |p.buffer| >= 2
    requires chain.apply(p.ledgerState, p.buffer[0], BumpBase(p.parentTimestamp, p.buffer[0])) == Some(a)
    requires chain.apply(a, p.buffer[1], BumpBase(p.buffer[0].timestamp, p.buffer[1])) == Some(b)
    requires RootOf(chain, StateEntry(chain, a)) != h && Complete(chain.refs, dagA, RootOf(chain, StateEntry(chain, a)))
    requires RootOf(chain, StateEntry(chain, b)) != h && Complete(chain.refs, dagB, RootOf(chain, StateEntry(chain, b)))
    ensures Leads(chain, Machine(d, p), steps, end) && end.process.Panicked?
  {
    var s1 := Shifted(chain, Pushed(chain, d, p, dagA, a));
    IndexThroughWindow(chain, d, p, dagA, a);
    assert s1.process.pending == multiset{h};
    var s2 := Shifted(chain, Pushed(chain, s1.disk, s1.process, dagB, b));
    IndexThroughWindow(chain, s1.disk, s1.process, dagB, b);
    var first, second := AcceptSteps(d, dagA) + [Unpersist] + [EndTrim], AcceptSteps(s1.disk, dagB) + [Unpersist] + [EndTrim];
    LeadsConcat(chain, Machine(d, p), first, s1, second, s2);
    assert s2.process.pending[h] == 1 && s2.disk.roots[h] == 0;
    FlushPanics(chain, Machine(d, p), first + second, s2, h);
    steps, end := first + second + [Flush], s2.(process := Panicked);
  }

  /******* A run that gets there *******/

  /** The first two blocks leave the ledger as it is, every later one changes it. */
  function Quiet(): Chain {
    Chain(
      LedgerState(V8, 0, 0),
      (state: LedgerState, block: Block, base: nat) =>
        Some(LedgerState(block.version, if block.height < 2 then 0 else block.height, 0)),
      (state: LedgerState) => state.content,
      (key: Key, version: LedgerVersion) => LedgerState(version, key, 0),
      (hash: Hash) => [],
      (key: Key, version: LedgerVersion) => key,
      (hash: nat) => Parameters(None, None),
      (hash: nat) => hash - 1)
  }

  function NthBlock(i: nat): Block {
    Block(i + 1, i, i, V8, i + 1, [], None, 0)
  }

  lemma QuietIsWellFormed()
    ensures WellFormed(Quiet())
    ensures forall i: nat :: Honest(Quiet(), NthBlock(i))
  {
  }

  /** Without references a node is its whole graph. */
  lemma SingleNodeIsComplete(h: Hash)
    ensures Complete(Quiet().refs, {h}, h)
  {
    forall x | Reaches(Quiet().refs, h, x) ensures x in {h} {
      var path :| IsPath(Quiet().refs, h, path) && path[|path| - 1] == x;
      ClosedSetContainsPath(Quiet().refs, {h}, h, path);
    }
  }

  /** The two blocks are indexed under retention 1 and everything is flushed. */
  lemma TwoBlocksLead() returns (steps: seq<Step>, end: Machine)
    ensures Leads(Quiet(), Initial(), steps, end)
    ensures RetentionIs(steps, 1) && forall i :: 0 <= i < |steps| ==> !steps[i].Crash?
    ensures end.process.Up? && end.process.phase.Idle? && end.process.pending == multiset{}
    ensures |end.disk.rows| == 2 && Blocks(end.disk.rows) == [NthBlock(0), NthBlock(1)]
    ensures end.disk.rows[0].key == 0 && end.disk.rows[1].key == 0
    ensures end.disk.roots == multiset{0} && 0 in end.disk.nodes
  {
    var chain := Quiet();
    var d0 := Initial().disk;
    StartLeads();
    var p0 := Up(1, [], chain.initial, 0, 0, [], multiset{}, Idle);
    var blocks := [NthBlock(0), NthBlock(1)];
    StreamLeads(chain, d0, p0, blocks);
    LeadsConcat(chain, Initial(), [Repair(1, multiset{}), Seed], Machine(d0, p0), ReceiveSteps(blocks), Machine(d0, Buffered(p0, blocks)));
    steps := [Repair(1, multiset{}), Seed] + ReceiveSteps(blocks);
    var more;
    more, end := TwoBufferedBlocksLead(d0, Buffered(p0, blocks));
    LeadsConcat(chain, Initial(), steps, Machine(d0, Buffered(p0, blocks)), more, end);
    steps := steps + more;
  }

  lemma StartLeads()
    ensures Leads(Quiet(), Initial(), [Repair(1, multiset{}), Seed],
                  Machine(Initial().disk, Up(1, [], Quiet().initial, 0, 0, [], multiset{}, Idle)))
  {
    var chain, s0 := Quiet(), Initial();
    var s1 := Machine(s0.disk, Restarting(1));
    assert Roots(chain, Entries(Newest([], 1))) == [];
    LeadsOne(chain, s0, Repair(1, multiset{}));
    LeadsSnoc(chain, s0, [Repair(1, multiset{})], s1, Seed);
    assert [Repair(1, multiset{})] + [Seed] == [Repair(1, multiset{}), Seed];
  }

  ghost predicate Undisturbed(steps: seq<Step>) {
    forall i :: 0 <= i < |steps| ==> !steps[i].Crash? && !steps[i].Repair?
  }

  lemma FirstBlockLeads(d: Disk, p: Process) returns (steps: seq<Step>, end: Machine)
    requires d == Disk([], multiset{}, {})
    requires p == Up(1, [], Quiet().initial, 0, 2, [NthBlock(0), NthBlock(1)], multiset{}, Idle)
    ensures Leads(Quiet(), Machine(d, p), steps, end) && Undisturbed(steps)
    ensures end.process == Up(1, [Entry(0, V8)], LedgerState(V8, 0, 0), 1, 2, [NthBlock(1)], multiset{}, Idle)
    ensures |end.disk.rows| == 1 && end.disk.rows[0].block == NthBlock(0) && end.disk.rows[0].key == 0
    ensures end.disk.roots == multiset{0} && end.disk.nodes == {0}
  {
    var chain, next := Quiet(), LedgerState(V8, 0, 0);
    SingleNodeIsComplete(0);
    IndexIntoWindow(chain, d, p, {0}, next);
    var s := Pushed(chain, d, p, {0}, next);
    steps, end := AcceptSteps(d, {0}) + [EndTrim], s.(process := s.process.(phase := Idle));
    assert multiset{} + multiset{0} - multiset{} == multiset{0};
  }

  lemma SecondBlockLeads(d: Disk, p: Process) returns (steps: seq<Step>, end: Machine)
    requires d.roots == multiset{0} && d.nodes == {0}
    requires p == Up(1, [Entry(0, V8)], LedgerState(V8, 0, 0), 1, 2, [NthBlock(1)], multiset{}, Idle)
    ensures Leads(Quiet(), Machine(d, p), steps, end) && Undisturbed(steps)
    ensures end.process.Up? && end.process.phase.Idle? && end.process.pending == multiset{}
    ensures |end.disk.rows| == |d.rows| + 1 && end.disk.rows[..|d.rows|] == d.rows
    ensures end.disk.rows[|d.rows|].block == NthBlock(1) && end.disk.rows[|d.rows|].key == 0
    ensures end.disk.roots == multiset{0} && end.disk.nodes == {0}
  {
    var chain, next := Quiet(), LedgerState(V8, 0, 0);
    SingleNodeIsComplete(0);
    IndexThroughWindow(chain, d, p, {0}, next);
    var s := Shifted(chain, Pushed(chain, d, p, {0}, next));
    SecondBlockShifts(d, p, s);
    steps := AcceptSteps(d, {0}) + [Unpersist] + [EndTrim];
    FlushLeads(chain, Machine(d, p), steps, s);
    steps := steps + [Flush];
    end := Machine(s.disk.(roots := multiset{0}), s.process.(pending := multiset{}));
  }

  lemma SecondBlockShifts(d: Disk, p: Process, s: Machine)
    requires d.roots == multiset{0} && d.nodes == {0}
    requires p == Up(1, [Entry(0, V8)], LedgerState(V8, 0, 0), 1, 2, [NthBlock(1)], multiset{}, Idle)
    requires s == Shifted(Quiet(), Pushed(Quiet(), d, p, {0}, LedgerState(V8, 0, 0)))
    ensures s.process.Up? && s.process.phase.Idle? && s.process.pending == multiset{0}
    ensures s.disk.roots == multiset{0, 0} && s.disk.roots - s.process.pending == multiset{0} && s.disk.nodes == {0}
    ensures |s.disk.rows| == |d.rows| + 1 && s.disk.rows[..|d.rows|] == d.rows
    ensures s.disk.rows[|d.rows|].block == NthBlock(1) && s.disk.rows[|d.rows|].key == 0
  {
    assert multiset{0} + multiset{0} - multiset{} == multiset{0, 0};
    assert multiset{0, 0} - multiset{0} == multiset{0};
  }

  lemma FlushLeads(chain: Chain, start: Machine, steps: seq<Step>, s: Machine)
    requires Leads(chain, start, steps, s) && s.process.Up? && s.process.pending <= s.disk.roots
    ensures Leads(chain, start, steps + [Flush],
                  Machine(s.disk.(roots := s.disk.roots - s.process.pending), s.process.(pending := multiset{})))
  {
    LeadsSnoc(chain, start, steps, s, Flush);
  }

  lemma TwoBufferedBlocksLead(d: Disk, p: Process) returns (steps: seq<Step>, end: Machine)
    requires d == Disk([], multiset{}, {})
    requires p == Up(1, [], Quiet().initial, 0, 2, [NthBlock(0), NthBlock(1)], multiset{}, Idle)
    ensures Leads(Quiet(), Machine(d, p), steps, end) && Undisturbed(steps)
    ensures end.process.Up? && end.process.phase.Idle? && end.process.pending == multiset{}
    ensures |end.disk.rows| == 2 && Blocks(end.disk.rows) == [NthBlock(0), NthBlock(1)]
    ensures end.disk.rows[0].key == 0 && end.disk.rows[1].key == 0
    ensures end.disk.roots == multiset{0} && 0 in end.disk.nodes
  {
    var first, s := FirstBlockLeads(d, p);
    var second;
    second, end := SecondBlockLeads(s.disk, s.process);
    LeadsConcat(Quiet(), Machine(d, p), first, s, second, end);
    steps := first + second;
    assert end.disk.rows[0] == s.disk.rows[0];
  }

  lemma {:induction false} NoCrashes(steps: seq<Step>)
    requires forall i :: 0 <= i < |steps| ==> !steps[i].Crash?
    ensures Crashes(steps) == 0
  {
    if steps != [] {
      NoCrashes(steps[..|steps| - 1]);
    }
  }

  /** Seeding two rows under retention 2 without a repair. */
  lemma SeededUnderCounted(d: Disk)
    requires |d.rows| == 2 && Blocks(d.rows) == [NthBlock(0), NthBlock(1)]
    requires d.rows[0].key == 0 && d.rows[1].key == 0 && d.roots == multiset{0} && 0 in d.nodes
    ensures Seeded(Quiet(), d, 2).Up? && UnderCounted(Quiet(), d, Seeded(Quiet(), d, 2), 0)
    ensures Seeded(Quiet(), d, 2).ledgerState == LedgerState(V8, 0, 0) && Seeded(Quiet(), d, 2).highest == 2
    ensures Seeded(Quiet(), d, 2).buffer == []
  {
    var chain, entry := Quiet(), Entry(0, V8);
    var entries := Entries(Newest(d.rows, 2));
    assert d.rows[0].block == NthBlock(0) && d.rows[1].block == NthBlock(1);
    assert entries == [entry, entry];
    assert entries[..1] == [entry] && [entry][..0] == [];
    assert StillRooted(chain, [entry], d.roots) == [entry];
    assert StillRooted(chain, entries, d.roots) == [entry, entry];
    SingleNodeIsComplete(0);
    assert forall x :: Reaches(chain.refs, 0, x) ==> x in {0};
  }

  lemma UnderCountedQuietPanics(d: Disk, p: Process) returns (steps: seq<Step>, end: Machine)
    requires UnderCounted(Quiet(), d, p, 0) && p.highest == 2 && p.buffer == [] && p.ledgerState == LedgerState(V8, 0, 0)
    ensures Leads(Quiet(), Machine(d, p), steps, end) && end.process.Panicked?
  {
    var chain, blocks := Quiet(), [NthBlock(2), NthBlock(3)];
    QuietIsWellFormed();
    StreamLeads(chain, d, p, blocks);
    SingleNodeIsComplete(2);
    SingleNodeIsComplete(3);
    assert p.buffer + blocks == blocks;
    var more;
    more, end := UnderCountedPanics(chain, d, Buffered(p, blocks), 0, {2}, LedgerState(V8, 2, 0), {3}, LedgerState(V8, 3, 0));
    LeadsConcat(chain, Machine(d, p), ReceiveSteps(blocks), Machine(d, Buffered(p, blocks)), more, end);
    steps := ReceiveSteps(blocks) + more;
  }

  /**
   Repairing at startup is necessary: a run without a crash, under retention 1, after which seeding
   under retention 2 without a repair leads to an aborted process.
   */
  lemma UnrepairedRestartPanics() returns (steps: seq<Step>, states: seq<Machine>, more: seq<Step>, end: Machine)
    ensures WellFormed(Quiet()) && IsRun(Quiet(), steps, states)
    ensures RetentionIs(steps, 1) && Crashes(steps) == 0
    ensures
      var d, p := states[|steps|].disk, states[|steps|].process;
      && p.Up? && p.phase.Idle? && p.pending == multiset{} && |d.rows| == 2
      && RootOf(Quiet(), EntryOf(d.rows[0])) == RootOf(Quiet(), EntryOf(d.rows[1]))
    ensures
      var d := states[|steps|].disk;
      Leads(Quiet(), Machine(d, Seeded(Quiet(), d, 2)), more, end) && end.process.Panicked?
  {
    var chain := Quiet();
    QuietIsWellFormed();
    var last;
    steps, last := TwoBlocksLead();
    NoCrashes(steps);
    assert IsRun(chain, [], [Initial()]);
    states := LeadsExtendsRun(chain, [], [Initial()], steps, last);
    assert [] + steps == steps;
    SeededUnderCounted(last.disk);
    more, end := UnderCountedQuietPanics(last.disk, Seeded(chain, last.disk, 2));
  }
}

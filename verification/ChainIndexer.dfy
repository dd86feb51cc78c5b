/**
 The chain-indexer's block loop as a protocol over two databases. One step per durable or
 in-memory action, so a crash can fall between any two of them: receive a block, apply it, persist
 the ledger state (the ledger DB commits first), save the block row (the main DB commits second),
 push the key onto the retention window, unpersist what falls out of it, flush, gc. A restart
 repairs root counts, rebuilds the window from stored rows and reloads the ledger state.
 */
module ChainIndexer {
  import opened Common
  import opened LedgerArena
  import opened LedgerStates
  import opened SystemParameters

  /** Everything the indexer does not control: the ledger, the arena and the block tree. */
  datatype Chain = Chain(
    initial: LedgerState,
    apply: (LedgerState, Block, nat) -> Option<LedgerState>,
    key: LedgerState -> Key,
    load: (Key, LedgerVersion) -> LedgerState,
    refs: Refs,
    rootHash: (Key, LedgerVersion) -> Hash,
    parameters: nat -> Parameters,
    heightOf: nat -> int)

  /**
   A state that a block led to is at the block's ledger version and survives a trip through the
   ledger DB; hash 0 is the parent of genesis.
   */
  ghost predicate WellFormed(chain: Chain) {
    && chain.heightOf(0) == -1
    && forall state, block, base :: chain.apply(state, block, base).Some? ==>
        var next := chain.apply(state, block, base).value;
        next.version == block.version && chain.load(chain.key(next), block.version) == next
  }

  /** The chain of a given ledger library. */
  function ChainOf(
    ledger: Ledger, refs: Refs, rootHash: (Key, LedgerVersion) -> Hash,
    parameters: nat -> Parameters, heightOf: nat -> int): Chain
  {
    Chain(
      New(ledger, OLDEST),
      (state: LedgerState, block: Block, base: nat) => BlockApplied(ledger, state, block, base),
      (state: LedgerState) => KeyOf(ledger, state),
      (key: Key, version: LedgerVersion) => Load(ledger, key, version),
      refs, rootHash, parameters, heightOf)
  }

  lemma LedgersAreWellFormed(
    ledger: Ledger, refs: Refs, rootHash: (Key, LedgerVersion) -> Hash,
    parameters: nat -> Parameters, heightOf: nat -> int)
    requires ContentAddressed(ledger) && heightOf(0) == -1
    ensures WellFormed(ChainOf(ledger, refs, rootHash, parameters, heightOf))
  {
    var chain := ChainOf(ledger, refs, rootHash, parameters, heightOf);
    forall state, block, base: nat | chain.apply(state, block, base).Some?
      ensures
        var next := chain.apply(state, block, base).value;
        next.version == block.version && chain.load(chain.key(next), block.version) == next
    {
      LoadUndoesPersist(ledger, state, block, base);
    }
  }

  /** A header commits to its height, which is one more than its parent's. */
  ghost predicate Honest(chain: Chain, block: Block) {
    && block.height == chain.heightOf(block.hash)
    && chain.heightOf(block.hash) == chain.heightOf(block.parentHash) + 1
  }

  datatype Entry = Entry(key: Key, version: LedgerVersion)

  /**
   A stored block. `parentTimestamp` is not a column; it records the base the block's transactions
   were validated against so that it can be compared with an uninterrupted run.
   */
  datatype Row = Row(block: Block, key: Key, parentTimestamp: nat, change: Option<Parameters>)

  /** What survives a crash. Rows are kept in insertion order, which `IsChain` shows is height order. */
  datatype Disk = Disk(rows: seq<Row>, roots: multiset<Hash>, nodes: set<Hash>)

  datatype Phase =
    | Idle
    | Applied(block: Block, base: nat)
    | Persisted(block: Block, base: nat)
    | Saved
    | Trimming

  /** `pending` holds unpersists that are still in the ledger DB's write cache. */
  datatype Process =
    | Down
    | Restarting(retention: nat)
    | Bailed
    | Panicked
    | Up(
        retention: nat,
        window: seq<Entry>,
        ledgerState: LedgerState,
        parentTimestamp: nat,
        highest: nat,
        buffer: seq<Block>,
        pending: multiset<Hash>,
        phase: Phase)

  datatype Machine = Machine(disk: Disk, process: Process)

  datatype Step =
    | Repair(retention: nat, roots: multiset<Hash>)
    | Seed
    | Receive(block: Block)
    | Apply
    | Persist(nodes: set<Hash>)
    | Save
    | Push
    | Unpersist
    | EndTrim
    | Flush
    | Gc(nodes: set<Hash>)
    | Crash

  /******* Queries *******/

  function EntryOf(row: Row): Entry {
    Entry(row.key, row.block.version)
  }

  function Entries(rows: seq<Row>): (entries: seq<Entry>)
    ensures |entries| == |rows|
    ensures forall i :: 0 <= i < |rows| ==> entries[i] == EntryOf(rows[i])
  {
    seq(|rows|, i requires 0 <= i < |rows| => EntryOf(rows[i]))
  }

  function Blocks(rows: seq<Row>): (blocks: seq<Block>)
    ensures |blocks| == |rows|
    ensures forall i :: 0 <= i < |rows| ==> blocks[i] == rows[i].block
  {
    seq(|rows|, i requires 0 <= i < |rows| => rows[i].block)
  }

  function RootOf(chain: Chain, entry: Entry): Hash {
    chain.rootHash(entry.key, entry.version)
  }

  function Roots(chain: Chain, entries: seq<Entry>): (roots: seq<Hash>)
    ensures |roots| == |entries|
    ensures forall i :: 0 <= i < |entries| ==> roots[i] == RootOf(chain, entries[i])
  {
    seq(|entries|, i requires 0 <= i < |entries| => RootOf(chain, entries[i]))
  }

  /** The newest `limit` rows, oldest first. */
  function Newest(rows: seq<Row>, limit: nat): (newest: seq<Row>)
    ensures |newest| == Min(limit, |rows|)
    ensures forall i :: 0 <= i < |newest| ==> newest[i] == rows[|rows| - |newest| + i]
  {
    var n := Min(limit, |rows|);
    seq(n, i requires 0 <= i < n => rows[|rows| - n + i])
  }

  /** The entries whose root still has a root count. */
  function StillRooted(chain: Chain, entries: seq<Entry>, roots: multiset<Hash>): (kept: seq<Entry>)
    ensures |kept| <= |entries|
  {
    if entries == [] then []
    else
      var last := entries[|entries| - 1];
      StillRooted(chain, entries[..|entries| - 1], roots) + if RootOf(chain, last) in roots then [last] else []
  }

  function DChanges(rows: seq<Row>): seq<Option<DParameter>> {
    seq(|rows|, i requires 0 <= i < |rows| => if rows[i].change.Some? then rows[i].change.value.d else None)
  }

  function TermsChanges(rows: seq<Row>): seq<Option<TermsAndConditions>> {
    seq(|rows|, i requires 0 <= i < |rows| => if rows[i].change.Some? then rows[i].change.value.terms else None)
  }

  function ChangeAt(chain: Chain, rows: seq<Row>, block: Block): Option<Parameters> {
    DetermineChange(
      chain.parameters(block.hash), Latest(LogOf(DChanges(rows))), Latest(LogOf(TermsChanges(rows))))
  }

  function TipHash(rows: seq<Row>): nat {
    if rows == [] then 0 else rows[|rows| - 1].block.hash
  }

  function TipTimestamp(rows: seq<Row>): nat {
    if rows == [] then 0 else rows[|rows| - 1].block.timestamp
  }

  /** An unset parent timestamp is replaced by the block's own. */
  function BumpBase(parentTimestamp: nat, block: Block): nat {
    if parentTimestamp == 0 then block.timestamp else parentTimestamp
  }

  /******* The uninterrupted run *******/

  datatype Carry = Carry(ledgerState: LedgerState, parentTimestamp: nat, rows: seq<Row>)

  function IndexOne(chain: Chain, carry: Carry, block: Block): Option<Carry> {
    var base := BumpBase(carry.parentTimestamp, block);
    match chain.apply(carry.ledgerState, block, base)
    case None => None
    case Some(next) =>
      var row := Row(block, chain.key(next), base, ChangeAt(chain, carry.rows, block));
      Some(Carry(next, block.timestamp, carry.rows + [row]))
  }

  /** Index the blocks one after the other without ever touching a database. */
  function Replay(chain: Chain, blocks: seq<Block>): Option<Carry> {
    if blocks == [] then Some(Carry(chain.initial, 0, []))
    else
      match Replay(chain, blocks[..|blocks| - 1])
      case None => None
      case Some(carry) => IndexOne(chain, carry, blocks[|blocks| - 1])
  }

  /******* Steps *******/

  ghost function Initial(): Machine {
    Machine(Disk([], multiset{}, {}), Down)
  }

  ghost predicate Enabled(chain: Chain, s: Machine, step: Step) {
    var d, p := s.disk, s.process;
    match step
    case Repair(retention, roots) =>
      && p.Down? && retention > 0
      && Repaired(chain.refs, d.nodes, d.roots, multiset(Roots(chain, Entries(Newest(d.rows, retention)))), roots)
    case Seed => p.Restarting?
    case Receive(block) => p.Up? && Honest(chain, block)
    case Apply =>
      && p.Up? && p.phase.Idle? && p.buffer != []
      && chain.apply(p.ledgerState, p.buffer[0], BumpBase(p.parentTimestamp, p.buffer[0])).Some?
    case Persist(nodes) =>
      && p.Up? && p.phase.Applied? && d.nodes <= nodes
      && Complete(chain.refs, nodes, RootOf(chain, CurrentEntry(chain, p)))
    case Save => p.Up? && p.phase.Persisted?
    case Push => p.Up? && p.phase.Saved?
    case Unpersist => p.Up? && p.phase.Trimming? && |p.window| > p.retention
    case EndTrim => p.Up? && p.phase.Trimming? && |p.window| <= p.retention
    case Flush => p.Up?
    case Gc(nodes) => p.Up? && CullsOnlyGarbage(chain.refs, d.nodes, nodes, d.roots)
    case Crash => p.Up? || p.Restarting?
  }

  function StateEntry(chain: Chain, ledgerState: LedgerState): Entry {
    Entry(chain.key(ledgerState), ledgerState.version)
  }

  function CurrentEntry(chain: Chain, p: Process): Entry
    requires p.Up?
  {
    StateEntry(chain, p.ledgerState)
  }

  /** Seeds the window, reloads the ledger state from its back, or gives up. */
  ghost function Seeded(chain: Chain, d: Disk, retention: nat): Process {
    var window := StillRooted(chain, Entries(Newest(d.rows, retention)), d.roots);
    if window == [] then
      if d.rows != [] then Bailed
      else Up(retention, [], chain.initial, 0, 0, [], multiset{}, Idle)
    else
      var back := window[|window| - 1];
      if !Complete(chain.refs, d.nodes, RootOf(chain, back)) then Bailed
      else
        Up(retention, window, chain.load(back.key, back.version),
           TipTimestamp(d.rows), TipHash(d.rows), [], multiset{}, Idle)
  }

  /** Applying the cached unpersists; a count below zero aborts the process. */
  ghost function Flushed(s: Machine): Machine
    requires s.process.Up?
  {
    var d, p := s.disk, s.process;
    if p.pending <= d.roots
    then Machine(d.(roots := d.roots - p.pending), p.(pending := multiset{}))
    else s.(process := Panicked)
  }

  ghost function Next(chain: Chain, s: Machine, step: Step): Machine
    requires Enabled(chain, s, step)
  {
    var d, p := s.disk, s.process;
    match step
    case Repair(retention, roots) => Machine(d.(roots := roots), Restarting(retention))
    case Seed => s.(process := Seeded(chain, d, p.retention))
    case Receive(block) =>
      if block.parentHash != p.highest then s
      else s.(process := p.(highest := block.hash, buffer := p.buffer + [block]))
    case Apply =>
      var block := p.buffer[0];
      var base := BumpBase(p.parentTimestamp, block);
      var next := chain.apply(p.ledgerState, block, base).value;
      s.(process := p.(
        ledgerState := next, parentTimestamp := block.timestamp, buffer := p.buffer[1..], phase := Applied(block, base)))
    case Persist(nodes) =>
      var counted := d.roots + multiset{RootOf(chain, CurrentEntry(chain, p))};
      if p.pending <= counted then
        Machine(
          d.(roots := counted - p.pending, nodes := nodes),
          p.(pending := multiset{}, phase := Persisted(p.phase.block, p.phase.base)))
      else s.(process := Panicked)
    case Save =>
      var block := p.phase.block;
      var row := Row(block, chain.key(p.ledgerState), p.phase.base, ChangeAt(chain, d.rows, block));
      Machine(d.(rows := d.rows + [row]), p.(phase := Saved))
    case Push => s.(process := p.(window := p.window + [CurrentEntry(chain, p)], phase := Trimming))
    case Unpersist =>
      var hash := RootOf(chain, p.window[0]);
      s.(process := p.(window := p.window[1..], pending := p.pending + multiset{hash}))
    case EndTrim => s.(process := p.(phase := Idle))
    case Flush => Flushed(s)
    case Gc(nodes) => s.(disk := d.(nodes := nodes))
    case Crash => s.(process := Down)
  }

  ghost predicate StepAt(chain: Chain, steps: seq<Step>, states: seq<Machine>, i: nat)
    requires i < |steps| < |states|
  {
    Enabled(chain, states[i], steps[i]) && states[i + 1] == Next(chain, states[i], steps[i])
  }

  /** A run from empty databases: any steps in any order, including any number of crashes. */
  ghost predicate IsRun(chain: Chain, steps: seq<Step>, states: seq<Machine>) {
    && |states| == |steps| + 1
    && states[0] == Initial()
    && forall i :: 0 <= i < |steps| ==> StepAt(chain, steps, states, i)
  }

  /******* The invariant *******/

  /** Stored blocks form one parent-linked chain from genesis. */
  ghost predicate IsChain(chain: Chain, rows: seq<Row>) {
    && (forall i :: 0 <= i < |rows| ==> Honest(chain, rows[i].block) && rows[i].block.height == i)
    && LinkedAfter(0, Blocks(rows))
  }

  /** Blocks waiting in memory continue the chain from `tip`. */
  ghost predicate Continues(chain: Chain, tip: nat, blocks: seq<Block>) {
    && (forall i :: 0 <= i < |blocks| ==> Honest(chain, blocks[i]))
    && LinkedAfter(tip, blocks)
  }

  /** The stored rows are those of an uninterrupted run over the same blocks. */
  ghost predicate Transparent(chain: Chain, rows: seq<Row>) {
    var replayed := Replay(chain, Blocks(rows));
    replayed.Some? && replayed.value.rows == rows
  }

  /** The in-memory state is where an uninterrupted run would be after the stored blocks. */
  ghost predicate InStep(chain: Chain, rows: seq<Row>, ledgerState: LedgerState, parentTimestamp: nat) {
    Replay(chain, Blocks(rows)) == Some(Carry(ledgerState, parentTimestamp, rows))
  }

  /** The in-memory state is one block ahead of the stored blocks. */
  ghost predicate OneAhead(
    chain: Chain, rows: seq<Row>, ledgerState: LedgerState, parentTimestamp: nat, block: Block, base: nat)
  {
    && Honest(chain, block) && block.parentHash == TipHash(rows)
    && var replayed := Replay(chain, Blocks(rows));
    && replayed.Some? && replayed.value.rows == rows
    && IndexOne(chain, replayed.value, block) == Some(Carry(ledgerState, parentTimestamp,
         rows + [Row(block, chain.key(ledgerState), base, ChangeAt(chain, rows, block))]))
    && ledgerState.version == block.version
  }

  /** Every window entry, and every cached unpersist, is paid for by a root count of its own. */
  ghost predicate Paid(chain: Chain, entries: seq<Entry>, pending: multiset<Hash>, roots: multiset<Hash>) {
    multiset(Roots(chain, entries)) + pending <= roots
  }

  /** The window ends with the newest stored block. */
  ghost predicate EndsAtTip(window: seq<Entry>, rows: seq<Row>) {
    && |window| <= |rows|
    && (rows != [] ==> window != [] && window[|window| - 1] == EntryOf(rows[|rows| - 1]))
  }

  /** The entries the root counts must pay for: the window and a state that is about to join it. */
  function Claimed(window: seq<Entry>, phase: Phase, current: Entry): seq<Entry> {
    if phase.Persisted? || phase.Saved? then window + [current] else window
  }

  function Claims(chain: Chain, p: Process): seq<Entry>
    requires p.Up?
  {
    Claimed(p.window, p.phase, CurrentEntry(chain, p))
  }

  /** How far the in-memory state is relative to the stored rows. */
  ghost predicate InvProgress(
    chain: Chain, rows: seq<Row>, phase: Phase, ledgerState: LedgerState, parentTimestamp: nat)
  {
    if phase.Applied? || phase.Persisted?
    then OneAhead(chain, rows, ledgerState, parentTimestamp, phase.block, phase.base)
    else InStep(chain, rows, ledgerState, parentTimestamp)
  }

  ghost predicate InvWindow(rows: seq<Row>, retention: nat, window: seq<Entry>, phase: Phase, current: Entry) {
    && |window| <= retention + (if phase.Trimming? then 1 else 0)
    && if phase.Saved? then
         && rows != [] && current == EntryOf(rows[|rows| - 1])
         && EndsAtTip(window, rows[..|rows| - 1])
       else EndsAtTip(window, rows)
  }

  /** The block the buffered ones continue from. */
  function BufferTip(rows: seq<Row>, phase: Phase): nat {
    if phase.Applied? || phase.Persisted? then phase.block.hash else TipHash(rows)
  }

  ghost predicate InvBuffer(chain: Chain, tip: nat, buffer: seq<Block>, highest: nat) {
    && Continues(chain, tip, buffer)
    && highest == if buffer == [] then tip else buffer[|buffer| - 1].hash
  }

  ghost predicate InvUp(chain: Chain, d: Disk, p: Process)
    requires p.Up?
  {
    && p.retention > 0
    && InvProgress(chain, d.rows, p.phase, p.ledgerState, p.parentTimestamp)
    && InvWindow(d.rows, p.retention, p.window, p.phase, StateEntry(chain, p.ledgerState))
    && Paid(chain, Claimed(p.window, p.phase, StateEntry(chain, p.ledgerState)), p.pending, d.roots)
    && InvBuffer(chain, BufferTip(d.rows, p.phase), p.buffer, p.highest)
  }

  ghost predicate InvDisk(chain: Chain, d: Disk) {
    && IsChain(chain, d.rows)
    && Transparent(chain, d.rows)
    && Intact(chain.refs, d.nodes, d.roots)
    && (d.rows != [] ==> RootOf(chain, EntryOf(d.rows[|d.rows| - 1])) in d.roots)
  }

  ghost predicate Inv(chain: Chain, s: Machine) {
    && InvDisk(chain, s.disk)
    && match s.process
       case Down => true
       case Restarting(retention) =>
         && retention > 0
         && forall h :: h in s.disk.roots ==>
             multiset(Roots(chain, Entries(Newest(s.disk.rows, retention))))[h] <= s.disk.roots[h]
       case Up(_, _, _, _, _, _, _, _) => InvUp(chain, s.disk, s.process)
       case _ => false
  }
}

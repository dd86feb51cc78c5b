/**
 Ledger states and how one block changes them. The ledger implementation itself is a record of
 deterministic functions; everything the indexer adds around it is spelled out here: version
 translation, the genesis special case, the first regular transaction's bumped validity time, the
 per-block fullness counter and its reset, and the root checks against the node.
 */
module LedgerStates {
  import opened Common

  type Key = nat

  datatype LedgerVersion = V8 | V9

  const OLDEST := V8

  /** `fullness` is accumulated in memory while a block is applied and is not part of the stored state. */
  datatype LedgerState = LedgerState(version: LedgerVersion, content: nat, fullness: nat)

  datatype Transaction = Regular(raw: nat) | System(raw: nat)

  datatype Block = Block(
    hash: nat,
    height: nat,
    parentHash: nat,
    version: LedgerVersion,
    timestamp: nat,
    transactions: seq<Transaction>,
    ledgerStateRoot: Option<Key>,
    zswapRoot: nat)

  /** Each block's parent is the block before it. */
  ghost predicate Linked(blocks: seq<Block>) {
    forall i, j :: 0 <= i && j == i + 1 && j < |blocks| ==> blocks[j].parentHash == blocks[i].hash
  }

  /** The blocks continue the chain from `hash`. */
  ghost predicate LinkedAfter(hash: nat, blocks: seq<Block>) {
    Linked(blocks) && (blocks != [] ==> blocks[0].parentHash == hash)
  }

  datatype BlockContext = BlockContext(parentHash: nat, timestamp: nat, parentTimestamp: nat)

  /** The ledger library; `None` stands for any error it reports. */
  datatype Ledger = Ledger(
    blank: LedgerVersion -> nat,
    genesis: LedgerVersion -> Option<nat>,
    translateToV9: nat -> Option<nat>,
    applyRegular: (LedgerVersion, nat, nat, BlockContext, nat) -> Option<(nat, nat)>,
    applySystem: (LedgerVersion, nat, nat, nat) -> Option<(nat, nat)>,
    finalize: (LedgerVersion, nat, nat, nat) -> Option<nat>,
    key: (LedgerVersion, nat) -> Key,
    load: (Key, LedgerVersion) -> nat,
    zswapRoot: (LedgerVersion, nat) -> nat)

  /** A stored state's key determines its content. */
  ghost predicate ContentAddressed(ledger: Ledger) {
    forall version, content :: ledger.load(ledger.key(version, content), version) == content
  }

  /** Two slots of six seconds, in milliseconds. */
  const MEMPOOL_TBLOCK_BUMP_MILLIS: nat := 2 * 6_000

  function New(ledger: Ledger, version: LedgerVersion): LedgerState {
    LedgerState(version, ledger.blank(version), 0)
  }

  function KeyOf(ledger: Ledger, state: LedgerState): Key {
    ledger.key(state.version, state.content)
  }

  /** Loading always starts from an empty fullness counter. */
  function Load(ledger: Ledger, key: Key, version: LedgerVersion): LedgerState {
    LedgerState(version, ledger.load(key, version), 0)
  }

  function Translate(ledger: Ledger, state: LedgerState, version: LedgerVersion): (r: Option<LedgerState>)
    ensures r.Some? ==> r.value.version == version
  {
    match (state.version, version)
    case (V8, V8) => Some(state)
    case (V9, V9) => Some(state)
    case (V9, V8) => None
    case (V8, V9) =>
      match ledger.translateToV9(state.content)
      case None => None
      case Some(content) => Some(LedgerState(V9, content, state.fullness))
  }

  predicate IsFirstRegular(transactions: seq<Transaction>, i: nat)
    requires i < |transactions|
  {
    transactions[i].Regular? && forall j :: 0 <= j < i ==> transactions[j].System?
  }

  /**
   The time a transaction's validity window is checked against: only the first regular transaction
   of a non-genesis block is checked two slots ahead of the parent block.
   */
  function WellFormedTime(block: Block, parentTimestamp: nat, i: nat): nat
    requires i < |block.transactions|
  {
    if block.height > 0 && IsFirstRegular(block.transactions, i)
    then parentTimestamp + MEMPOOL_TBLOCK_BUMP_MILLIS
    else block.timestamp
  }

  function ApplyRegular(
    ledger: Ledger, state: LedgerState, block: Block, parentTimestamp: nat, raw: nat, wellFormedTime: nat)
    : (r: Option<LedgerState>)
    ensures r.Some? ==> r.value.version == state.version
  {
    var context := BlockContext(block.parentHash, block.timestamp, parentTimestamp);
    match ledger.applyRegular(state.version, state.content, raw, context, wellFormedTime)
    case None => None
    case Some((content, cost)) => Some(LedgerState(state.version, content, state.fullness + cost))
  }

  function ApplySystem(ledger: Ledger, state: LedgerState, block: Block, raw: nat): (r: Option<LedgerState>)
    ensures r.Some? ==> r.value.version == state.version
  {
    match ledger.applySystem(state.version, state.content, raw, block.timestamp)
    case None => None
    case Some((content, cost)) => Some(LedgerState(state.version, content, state.fullness + cost))
  }

  /** The state after the block's first `n` transactions. */
  function AfterTransactions(ledger: Ledger, state: LedgerState, block: Block, parentTimestamp: nat, n: nat)
    : (r: Option<LedgerState>)
    requires n <= |block.transactions|
    ensures r.Some? ==> r.value.version == state.version
  {
    if n == 0 then Some(state)
    else
      match AfterTransactions(ledger, state, block, parentTimestamp, n - 1)
      case None => None
      case Some(s) =>
        match block.transactions[n - 1]
        case Regular(raw) =>
          ApplyRegular(ledger, s, block, parentTimestamp, raw, WellFormedTime(block, parentTimestamp, n - 1))
        case System(raw) => ApplySystem(ledger, s, block, raw)
  }

  /** The state after all transactions and the end-of-block update, which resets the fullness counter. */
  function TransactionsApplied(ledger: Ledger, state: LedgerState, block: Block, parentTimestamp: nat)
    : (r: Option<LedgerState>)
    ensures r.Some? ==> r.value.version == state.version && r.value.fullness == 0
  {
    match AfterTransactions(ledger, state, block, parentTimestamp, |block.transactions|)
    case None => None
    case Some(s) =>
      match ledger.finalize(s.version, s.content, s.fullness, block.timestamp)
      case None => None
      case Some(content) => Some(LedgerState(s.version, content, 0))
  }

  lemma {:induction false} FailureIsFinal(
    ledger: Ledger, state: LedgerState, block: Block, parentTimestamp: nat, n: nat, m: nat)
    requires n <= m <= |block.transactions|
    requires AfterTransactions(ledger, state, block, parentTimestamp, n).None?
    ensures AfterTransactions(ledger, state, block, parentTimestamp, m).None?
  {
    if n < m {
      FailureIsFinal(ledger, state, block, parentTimestamp, n, m - 1);
    }
  }

  /** The loop over a block's transactions, threading the state and the first-regular flag. */
  method ApplyTransactions(ledger: Ledger, state: LedgerState, block: Block, parentTimestamp: nat)
    returns (result: Option<LedgerState>)
    ensures result == TransactionsApplied(ledger, state, block, parentTimestamp)
  {
    var current := state;
    var firstRegularTransaction := true;
    for i := 0 to |block.transactions|
      invariant AfterTransactions(ledger, state, block, parentTimestamp, i) == Some(current)
      invariant firstRegularTransaction <==> forall j :: 0 <= j < i ==> block.transactions[j].System?
    {
      var applied;
      match block.transactions[i] {
        case Regular(raw) =>
          var wellFormedTime :=
            if firstRegularTransaction && block.height > 0
            then parentTimestamp + MEMPOOL_TBLOCK_BUMP_MILLIS
            else block.timestamp;
          firstRegularTransaction := false;
          applied := ApplyRegular(ledger, current, block, parentTimestamp, raw, wellFormedTime);
        case System(raw) =>
          applied := ApplySystem(ledger, current, block, raw);
      }
      assert AfterTransactions(ledger, state, block, parentTimestamp, i + 1) == applied;
      if applied.None? {
        FailureIsFinal(ledger, state, block, parentTimestamp, i + 1, |block.transactions|);
        return None;
      }
      current := applied.value;
    }
    match ledger.finalize(current.version, current.content, current.fullness, block.timestamp) {
      case None => return None;
      case Some(content) => return Some(LedgerState(current.version, content, 0));
    }
  }

  /** The genesis block either already contains its transactions in the genesis state or does not. */
  function GenesisApplied(ledger: Ledger, block: Block, root: Key, parentTimestamp: nat): (r: Option<LedgerState>)
    ensures r.Some? ==> r.value.version == block.version && r.value.fullness == 0
  {
    match ledger.genesis(block.version)
    case None => None
    case Some(content) =>
      var genesis := LedgerState(block.version, content, 0);
      if root == KeyOf(ledger, genesis) then
        if TransactionsApplied(ledger, New(ledger, block.version), block, parentTimestamp).None?
        then None else Some(genesis)
      else
        TransactionsApplied(ledger, genesis, block, parentTimestamp)
  }

  /** The state a block leads to, or `None` when the block is refused. */
  function BlockApplied(ledger: Ledger, state: LedgerState, block: Block, parentTimestamp: nat)
    : (r: Option<LedgerState>)
    ensures r.Some? ==> r.value.version == block.version && r.value.fullness == 0
  {
    var applied :=
      if block.height == 0 && block.ledgerStateRoot.Some? then
        GenesisApplied(ledger, block, block.ledgerStateRoot.value, parentTimestamp)
      else if block.height == 0 then
        TransactionsApplied(ledger, New(ledger, block.version), block, parentTimestamp)
      else
        match Translate(ledger, state, block.version)
        case None => None
        case Some(translated) => TransactionsApplied(ledger, translated, block, parentTimestamp);
    match applied
    case None => None
    case Some(next) =>
      if block.ledgerStateRoot.Some? && block.ledgerStateRoot.value != KeyOf(ledger, next) then None
      else if block.zswapRoot != ledger.zswapRoot(next.version, next.content) then None
      else Some(next)
  }

  /** A state that a block led to survives a trip through the ledger DB unchanged. */
  lemma LoadUndoesPersist(ledger: Ledger, state: LedgerState, block: Block, parentTimestamp: nat)
    requires ContentAddressed(ledger)
    requires BlockApplied(ledger, state, block, parentTimestamp).Some?
    ensures
      var next := BlockApplied(ledger, state, block, parentTimestamp).value;
      Load(ledger, KeyOf(ledger, next), block.version) == next
  {
  }
}

/**
 Which transactions a wallet ends up with: the per-wallet scan, split into its reads, its query and
 its commit, interleaved in any order with newly indexed transactions and with clients reconnecting.
 */
module WalletIndexer {
  import opened Common

  /** A row of the transactions table, as one wallet sees it; relevance None means it cannot be decoded. */
  datatype Tx = Tx(id: nat, regular: bool, relevance: Option<bool>)

  /** A row of the wallets table with the rows of the relevant-transactions table that belong to it. */
  datatype Wallet = Wallet(wanted: nat, first: nat, last: nat, saved: seq<nat>)

  /** The transaction holding the wallet's lock: nothing, the wallet row read, or a batch fetched. */
  datatype Scan = Idle | Locked(view: Wallet) | Fetched(view: Wallet, batch: seq<Tx>)

  datatype State = State(table: seq<Tx>, wallet: Wallet, scan: Scan)

  datatype Step =
    | Insert(tx: Tx)
    | Connect(start: nat)
    | Begin
    | Query(limit: nat, batch: seq<Tx>)
    | Commit
    | Abort

  /** Row identifiers start at one and grow in insertion order. */
  ghost predicate Sorted(table: seq<Tx>) {
    && (forall i :: 0 <= i < |table| ==> table[i].id > 0)
    && (forall i, j :: 0 <= i < j < |table| ==> table[i].id < table[j].id)
  }

  function Tip(table: seq<Tx>): nat {
    if table == [] then 0 else table[|table| - 1].id
  }

  /** A regular transaction with this identifier is stored and concerns the wallet. */
  ghost predicate IsRelevant(table: seq<Tx>, id: nat) {
    exists t :: t in table && t.id == id && t.regular && t.relevance == Some(true)
  }

  /** The row a new wallet is created with. */
  function NewWallet(start: nat): Wallet {
    Wallet(start, start, start, [])
  }

  /** A later connect can only lower the wanted start index. */
  function Reconnected(wallet: Wallet, start: nat): Wallet {
    wallet.(wanted := if wallet.wanted <= start then wallet.wanted else start)
  }

  predicate Backward(view: Wallet) {
    view.first > view.wanted
  }

  ghost predicate InBatchRange(view: Wallet, t: Tx) {
    t.regular && if Backward(view) then view.wanted <= t.id < view.first else view.last + 1 <= t.id
  }

  /** `a` comes before `b` in the order the scan fetches. */
  predicate Before(view: Wallet, a: Tx, b: Tx) {
    if Backward(view) then a.id > b.id else a.id < b.id
  }

  /** What the two queries return: the first `limit` rows in range, downwards or upwards. */
  ghost predicate IsBatch(table: seq<Tx>, view: Wallet, limit: nat, batch: seq<Tx>) {
    && |batch| <= limit
    && (forall i, j :: 0 <= i < j < |batch| ==> Before(view, batch[i], batch[j]))
    && (forall t :: t in batch ==> t in table && InBatchRange(view, t))
    && (forall t :: t in table && InBatchRange(view, t) && t !in batch ==>
          |batch| == limit && forall u :: u in batch ==> Before(view, u, t))
  }

  function RelevantIds(batch: seq<Tx>): seq<nat> {
    if batch == [] then []
    else
      var t := batch[|batch| - 1];
      RelevantIds(batch[..|batch| - 1]) + if t.relevance == Some(true) then [t.id] else []
  }

  /** Relevance of every fetched transaction is decided before anything is saved. */
  predicate Decodable(batch: seq<Tx>) {
    forall t :: t in batch ==> t.relevance.Some?
  }

  /** The committed wallet row and relevant transactions. */
  function Saved(wallet: Wallet, view: Wallet, batch: seq<Tx>): Wallet {
    if Backward(view) then
      wallet.(first := if batch == [] then view.wanted else batch[|batch| - 1].id,
              saved := wallet.saved + RelevantIds(batch))
    else if batch == [] then wallet
    else wallet.(last := batch[|batch| - 1].id, saved := wallet.saved + RelevantIds(batch))
  }

  ghost predicate Enabled(s: State, step: Step) {
    match step
    case Insert(tx) => tx.id > Tip(s.table)
    case Connect(_) => true
    case Begin => s.scan.Idle?
    case Query(limit, batch) => s.scan.Locked? && limit > 0 && IsBatch(s.table, s.scan.view, limit, batch)
    case Commit => s.scan.Fetched? && Decodable(s.scan.batch)
    case Abort => !s.scan.Idle?
  }

  ghost function Next(s: State, step: Step): State
    requires Enabled(s, step)
  {
    match step
    case Insert(tx) => s.(table := s.table + [tx])
    case Connect(start) => s.(wallet := Reconnected(s.wallet, start))
    case Begin => s.(scan := Locked(s.wallet))
    case Query(_, batch) => s.(scan := Fetched(s.scan.view, batch))
    case Commit => s.(wallet := Saved(s.wallet, s.scan.view, s.scan.batch), scan := Idle)
    case Abort => s.(scan := Idle)
  }

  /** The moment a wallet first connects at `start`. */
  function Created(table: seq<Tx>, start: nat): State {
    State(table, NewWallet(start), Idle)
  }

  ghost predicate StepAt(steps: seq<Step>, states: seq<State>, i: nat)
    requires i < |steps| && |states| == |steps| + 1
  {
    Enabled(states[i], steps[i]) && states[i + 1] == Next(states[i], steps[i])
  }

  ghost predicate IsRun(s: State, steps: seq<Step>, states: seq<State>) {
    && |states| == |steps| + 1 && states[0] == s
    && forall i :: 0 <= i < |steps| ==> StepAt(steps, states, i)
  }

  // ---------------------------------------------------------------------------------------------
  // Invariants; `k` is the start index of the first connect.

  ghost predicate Distinct(ids: seq<nat>) {
    forall i, j :: 0 <= i < j < |ids| ==> ids[i] != ids[j]
  }

  ghost predicate Sound(k: nat, table: seq<Tx>, w: Wallet) {
    && Distinct(w.saved)
    && forall id :: id in w.saved ==> w.first <= id <= w.last && id != k && IsRelevant(table, id)
  }

  /** Everything the wallet claims to have scanned, save for its very first start index, is there. */
  ghost predicate Complete(k: nat, table: seq<Tx>, w: Wallet) {
    forall id: nat :: IsRelevant(table, id) && w.first <= id <= w.last && id != k ==> id in w.saved
  }

  ghost predicate Bounds(k: nat, w: Wallet) {
    w.wanted <= w.first <= k <= w.last
  }

  ghost predicate Coherent(w: Wallet, view: Wallet) {
    view.first == w.first && view.last == w.last && w.wanted <= view.wanted <= view.first
  }

  /** The end of the interval a batch adds. */
  function Edge(view: Wallet, batch: seq<Tx>): nat {
    if batch != [] then batch[|batch| - 1].id else if Backward(view) then view.wanted else view.last
  }

  /** `id` lies in the interval that committing the batch adds. */
  predicate Adds(view: Wallet, batch: seq<Tx>, id: nat) {
    if Backward(view) then Edge(view, batch) <= id < view.first else view.last < id <= Edge(view, batch)
  }

  ghost predicate BatchSound(table: seq<Tx>, view: Wallet, batch: seq<Tx>) {
    && (forall i, j :: 0 <= i < j < |batch| ==> Before(view, batch[i], batch[j]))
    && (forall t :: t in batch ==> t in table && InBatchRange(view, t))
  }

  ghost predicate BatchComplete(table: seq<Tx>, view: Wallet, batch: seq<Tx>) {
    forall t :: t in table && t.regular && Adds(view, batch, t.id) ==> t in batch
  }

  /** Holds in every run. */
  ghost predicate Inv(k: nat, s: State) {
    && Sorted(s.table)
    && Bounds(k, s.wallet)
    && Sound(k, s.table, s.wallet)
    && (!s.scan.Idle? ==> Coherent(s.wallet, s.scan.view))
    && (s.scan.Fetched? ==> BatchSound(s.table, s.scan.view, s.scan.batch))
  }

  /** Holds in every run whose wallet first connected at a start index not beyond the tip. */
  ghost predicate InvComplete(k: nat, s: State) {
    && s.wallet.last <= Tip(s.table)
    && Complete(k, s.table, s.wallet)
    && (s.scan.Fetched? ==> BatchComplete(s.table, s.scan.view, s.scan.batch))
  }

  // ---------------------------------------------------------------------------------------------

  lemma {:induction false} RelevantIdsAre(batch: seq<Tx>, id: nat)
    ensures id in RelevantIds(batch) <==> exists t :: t in batch && t.id == id && t.relevance == Some(true)
  {
    if batch != [] {
      var front, t := batch[..|batch| - 1], batch[|batch| - 1];
      RelevantIdsAre(front, id);
      assert forall u :: u in batch <==> u in front || u == t;
    }
  }

  lemma {:induction false} RelevantIdsDistinct(view: Wallet, batch: seq<Tx>)
    requires forall i, j :: 0 <= i < j < |batch| ==> Before(view, batch[i], batch[j])
    ensures Distinct(RelevantIds(batch))
  {
    if batch != [] {
      var front, t := batch[..|batch| - 1], batch[|batch| - 1];
      RelevantIdsDistinct(view, front);
      RelevantIdsAre(front, t.id);
      assert t.id !in RelevantIds(front);
    }
  }

  lemma TipIsHighest(table: seq<Tx>, t: Tx)
    requires Sorted(table) && t in table
    ensures t.id <= Tip(table)
  {
  }

  lemma InsertKeepsRelevance(table: seq<Tx>, tx: Tx, id: nat)
    ensures IsRelevant(table + [tx], id) <==>
            IsRelevant(table, id) || (tx.id == id && tx.regular && tx.relevance == Some(true))
  {
    assert forall t :: t in table + [tx] <==> t in table || t == tx;
  }

  lemma InsertKeepsInv(k: nat, s: State, tx: Tx)
    requires Inv(k, s) && Enabled(s, Insert(tx))
    ensures Inv(k, Next(s, Insert(tx)))
    ensures InvComplete(k, s) ==> InvComplete(k, Next(s, Insert(tx)))
  {
    var table := s.table + [tx];
    assert forall t :: t in table <==> t in s.table || t == tx;
    forall t | t in s.table ensures t.id <= Tip(s.table) { TipIsHighest(s.table, t); }
    forall id: nat
      ensures IsRelevant(table, id) <==> IsRelevant(s.table, id) || (tx.id == id && tx.regular && tx.relevance == Some(true))
    {
      InsertKeepsRelevance(s.table, tx, id);
    }
  }

  lemma ConnectKeepsInv(k: nat, s: State, start: nat)
    requires Inv(k, s)
    ensures Inv(k, Next(s, Connect(start)))
    ensures InvComplete(k, s) ==> InvComplete(k, Next(s, Connect(start)))
  {
  }

  lemma BatchIsComplete(table: seq<Tx>, view: Wallet, limit: nat, batch: seq<Tx>)
    requires Sorted(table) && limit > 0 && IsBatch(table, view, limit, batch)
    ensures BatchSound(table, view, batch) && BatchComplete(table, view, batch)
  {
    assert batch != [] ==> batch[|batch| - 1] in batch;
  }

  lemma QueryKeepsInv(k: nat, s: State, limit: nat, batch: seq<Tx>)
    requires Inv(k, s) && Enabled(s, Query(limit, batch))
    ensures Inv(k, Next(s, Query(limit, batch)))
    ensures InvComplete(k, s) ==> InvComplete(k, Next(s, Query(limit, batch)))
  {
    BatchIsComplete(s.table, s.scan.view, limit, batch);
  }

  lemma DistinctConcat(a: seq<nat>, b: seq<nat>)
    requires Distinct(a) && Distinct(b) && forall id :: id in b ==> id !in a
    ensures Distinct(a + b)
  {
    var c := a + b;
    forall i, j | 0 <= i < j < |c| ensures c[i] != c[j] {
      if j >= |a| {
        assert c[j] in b;
      }
    }
  }

  /** The edge of a batch is its extreme identifier. */
  lemma BatchWithinEdge(table: seq<Tx>, view: Wallet, batch: seq<Tx>)
    requires BatchSound(table, view, batch)
    ensures forall t :: t in batch ==> Adds(view, batch, t.id)
    ensures Backward(view) ==> view.wanted <= Edge(view, batch) <= view.first
    ensures !Backward(view) ==> view.last <= Edge(view, batch)
  {
    assert batch != [] ==> batch[|batch| - 1] in batch;
  }

  /** The identifiers a commit adds are new, so the insert never meets a row that is already there. */
  lemma CommitAddsNewIds(k: nat, s: State)
    requires Inv(k, s) && Enabled(s, Commit)
    ensures Distinct(s.wallet.saved + RelevantIds(s.scan.batch))
    ensures forall id :: id in RelevantIds(s.scan.batch) ==>
              id !in s.wallet.saved && id != k && Adds(s.scan.view, s.scan.batch, id) && IsRelevant(s.table, id)
  {
    var view, batch := s.scan.view, s.scan.batch;
    RelevantIdsDistinct(view, batch);
    BatchWithinEdge(s.table, view, batch);
    forall id | id in RelevantIds(batch)
      ensures id !in s.wallet.saved && id != k && Adds(view, batch, id) && IsRelevant(s.table, id)
    {
      RelevantIdsAre(batch, id);
    }
    DistinctConcat(s.wallet.saved, RelevantIds(batch));
  }

  lemma CommitKeepsInv(k: nat, s: State)
    requires Inv(k, s) && Enabled(s, Commit)
    ensures Inv(k, Next(s, Commit))
  {
    CommitAddsNewIds(k, s);
    BatchWithinEdge(s.table, s.scan.view, s.scan.batch);
  }

  lemma CommitKeepsComplete(k: nat, s: State)
    requires Inv(k, s) && InvComplete(k, s) && Enabled(s, Commit)
    ensures InvComplete(k, Next(s, Commit))
  {
    var view, batch, w := s.scan.view, s.scan.batch, Next(s, Commit).wallet;
    if batch != [] {
      TipIsHighest(s.table, batch[|batch| - 1]);
    }
    forall id: nat | IsRelevant(s.table, id) && w.first <= id <= w.last && id != k ensures id in w.saved {
      if Adds(view, batch, id) {
        RelevantIdsAre(batch, id);
      }
    }
  }

  lemma StepKeepsInv(k: nat, s: State, step: Step)
    requires Inv(k, s) && Enabled(s, step)
    ensures Inv(k, Next(s, step))
    ensures InvComplete(k, s) ==> InvComplete(k, Next(s, step))
  {
    match step
    case Insert(tx) => InsertKeepsInv(k, s, tx);
    case Connect(start) => ConnectKeepsInv(k, s, start);
    case Begin =>
    case Query(limit, batch) => QueryKeepsInv(k, s, limit, batch);
    case Commit =>
      CommitKeepsInv(k, s);
      if InvComplete(k, s) { CommitKeepsComplete(k, s); }
    case Abort =>
  }

  lemma {:induction false} RunKeepsInv(table: seq<Tx>, k: nat, steps: seq<Step>, states: seq<State>, i: nat)
    requires Sorted(table) && IsRun(Created(table, k), steps, states) && i < |states|
    ensures Inv(k, states[i])
    ensures k <= Tip(table) ==> InvComplete(k, states[i])
  {
    if i > 0 {
      RunKeepsInv(table, k, steps, states, i - 1);
      assert StepAt(steps, states, i - 1);
      StepKeepsInv(k, states[i - 1], steps[i - 1]);
    }
  }

  // ---------------------------------------------------------------------------------------------
  // Exactness

  /** Within the interval the wallet claims to have indexed, it holds exactly the relevant transactions. */
  ghost predicate Exact(s: State) {
    forall id: nat :: s.wallet.first <= id <= s.wallet.last ==> (id in s.wallet.saved <==> IsRelevant(s.table, id))
  }

  /** Nothing is left to scan. */
  ghost predicate CaughtUp(table: seq<Tx>, w: Wallet) {
    !Backward(w) && forall t :: t in table && t.regular ==> t.id <= w.last
  }

  /** Whatever happens, the start index of the first connect is never indexed, nor is anything saved twice. */
  lemma StartIsNeverIndexed(table: seq<Tx>, k: nat, steps: seq<Step>, states: seq<State>, i: nat)
    requires Sorted(table) && IsRun(Created(table, k), steps, states) && i < |states|
    ensures k !in states[i].wallet.saved
    ensures Distinct(states[i].wallet.saved)
    ensures forall id :: id in states[i].wallet.saved ==> IsRelevant(states[i].table, id) && id >= states[i].wallet.wanted
  {
    RunKeepsInv(table, k, steps, states, i);
  }

  lemma {:induction false} PastIsFixed(table: seq<Tx>, k: nat, steps: seq<Step>, states: seq<State>, i: nat, id: nat)
    requires Sorted(table) && IsRun(Created(table, k), steps, states) && i < |states| && id <= Tip(table)
    ensures Tip(table) <= Tip(states[i].table)
    ensures IsRelevant(states[i].table, id) <==> IsRelevant(table, id)
  {
    if i > 0 {
      PastIsFixed(table, k, steps, states, i - 1, id);
      assert StepAt(steps, states, i - 1);
      if steps[i - 1].Insert? {
        InsertKeepsRelevance(states[i - 1].table, steps[i - 1].tx, id);
      }
    }
  }

  /** A first connect at or below the tip loses at most the transaction at the start index itself. */
  lemma ExactButForStart(table: seq<Tx>, k: nat, steps: seq<Step>, states: seq<State>, i: nat)
    requires Sorted(table) && IsRun(Created(table, k), steps, states) && i < |states| && k <= Tip(table)
    ensures forall id: nat | states[i].wallet.first <= id <= states[i].wallet.last ::
              id in states[i].wallet.saved <==> IsRelevant(states[i].table, id) && id != k
  {
    RunKeepsInv(table, k, steps, states, i);
  }

  ghost predicate AlwaysExact(table: seq<Tx>, k: nat) {
    forall steps, states :: IsRun(Created(table, k), steps, states) ==> Exact(states[|states| - 1])
  }

  lemma ExactWhen(table: seq<Tx>, k: nat)
    requires Sorted(table) && k <= Tip(table) && !IsRelevant(table, k)
    ensures AlwaysExact(table, k)
  {
    forall steps, states | IsRun(Created(table, k), steps, states) ensures Exact(states[|states| - 1]) {
      ExactButForStart(table, k, steps, states, |states| - 1);
      PastIsFixed(table, k, steps, states, |states| - 1, k);
    }
  }

  /** The transaction at the start index is missed if it is there already ... */
  lemma InexactWhenRelevant(table: seq<Tx>, k: nat)
    requires IsRelevant(table, k)
    ensures !AlwaysExact(table, k)
  {
    var s := Created(table, k);
    assert IsRun(s, [], [s]);
    assert k !in s.wallet.saved;
  }

  /** ... and also if it arrives only later. */
  lemma InexactWhenAhead(table: seq<Tx>, k: nat)
    requires k > Tip(table)
    ensures !AlwaysExact(table, k)
  {
    var s := Created(table, k);
    var tx := Tx(k, true, Some(true));
    var t := Next(s, Insert(tx));
    var steps, states := [Insert(tx)], [s, t];
    assert StepAt(steps, states, 0);
    assert IsRun(s, steps, states);
    assert tx in t.table;
    assert IsRelevant(t.table, k) && k !in t.wallet.saved;
    assert !Exact(states[|states| - 1]);
  }

  /**
   The documented promise, a search from the start index inclusive, is kept in all runs exactly when
   the first connect names an index that is not beyond the tip and whose transaction is irrelevant.
   */
  lemma ExactnessIff(table: seq<Tx>, k: nat)
    requires Sorted(table)
    ensures AlwaysExact(table, k) <==> k <= Tip(table) && !IsRelevant(table, k)
  {
    if k > Tip(table) {
      InexactWhenAhead(table, k);
    } else if IsRelevant(table, k) {
      InexactWhenRelevant(table, k);
    } else {
      ExactWhen(table, k);
    }
  }

  /** Connecting without a start index is always exact, as row identifiers start at one. */
  lemma DefaultStartIsExact(table: seq<Tx>)
    requires Sorted(table)
    ensures AlwaysExact(table, 0)
  {
    ExactnessIff(table, 0);
  }

  /** Once caught up, an exact wallet holds every relevant transaction from its wanted start index on. */
  lemma CaughtUpIsAll(table: seq<Tx>, k: nat, steps: seq<Step>, states: seq<State>)
    requires Sorted(table) && IsRun(Created(table, k), steps, states)
    requires k <= Tip(table) && !IsRelevant(table, k)
    requires var s := states[|states| - 1]; CaughtUp(s.table, s.wallet)
    ensures var s := states[|states| - 1];
            forall id: nat :: id in s.wallet.saved <==> IsRelevant(s.table, id) && id >= s.wallet.wanted
  {
    ExactWhen(table, k);
    RunKeepsInv(table, k, steps, states, |states| - 1);
    assert Exact(states[|states| - 1]);
  }

  // ---------------------------------------------------------------------------------------------
  // Progress

  ghost function Unscanned(table: seq<Tx>, w: Wallet): set<Tx> {
    set t | t in table && t.regular && (w.wanted <= t.id < w.first || w.last < t.id)
  }

  /** An upper bound on the scans still needed while nothing else happens. */
  ghost function Pending(table: seq<Tx>, w: Wallet): nat {
    |Unscanned(table, w)| + if Backward(w) then 1 else 0
  }

  lemma StrictSubsetIsSmaller<T>(a: set<T>, b: set<T>)
    requires a < b
    ensures |a| < |b|
  {
    assert b - a != {};
    var x :| x in b - a;
    SubsetIsNoLarger(a, b - {x});
  }

  /** Every undisturbed scan gets closer to being caught up; a caught-up wallet is left alone. */
  lemma ScanMakesProgress(table: seq<Tx>, w: Wallet, limit: nat, batch: seq<Tx>)
    requires w.wanted <= w.first <= w.last && limit > 0 && IsBatch(table, w, limit, batch)
    ensures var w' := Saved(w, w, batch);
            && w'.wanted == w.wanted && w'.wanted <= w'.first <= w'.last
            && if CaughtUp(table, w) then w' == w else Pending(table, w') < Pending(table, w)
  {
    var w' := Saved(w, w, batch);
    assert batch != [] ==> batch[|batch| - 1] in batch;
    var before, after := Unscanned(table, w), Unscanned(table, w');
    assert after <= before;
    SubsetIsNoLarger(after, before);
    if batch != [] {
      var t := batch[|batch| - 1];
      assert t in before && t !in after;
      StrictSubsetIsSmaller(after, before);
    }
  }

  /** `out` results from scanning `w` once per batch, with nothing happening in between. */
  ghost predicate Scans(table: seq<Tx>, w: Wallet, limit: nat, batches: seq<seq<Tx>>, out: Wallet)
    decreases |batches|
  {
    if batches == [] then out == w
    else
      && IsBatch(table, w, limit, batches[0]) && Decodable(batches[0])
      && Scans(table, Saved(w, w, batches[0]), limit, batches[1..], out)
  }

  /** After as many undisturbed scans as are pending, for any batch size, the wallet is caught up. */
  lemma {:induction false} ScansCatchUp(table: seq<Tx>, w: Wallet, limit: nat, batches: seq<seq<Tx>>, out: Wallet)
    requires w.wanted <= w.first <= w.last && limit > 0
    requires Scans(table, w, limit, batches, out) && |batches| >= Pending(table, w)
    ensures CaughtUp(table, out)
    decreases |batches|
  {
    if batches == [] {
      assert Unscanned(table, w) == {};
      assert forall t :: t in table && t.regular && t.id > w.last ==> t in Unscanned(table, w);
    } else {
      ScanMakesProgress(table, w, limit, batches[0]);
      if CaughtUp(table, w) {
        StaysCaughtUp(table, w, limit, batches, out);
      } else {
        ScansCatchUp(table, Saved(w, w, batches[0]), limit, batches[1..], out);
      }
    }
  }

  lemma {:induction false} StaysCaughtUp(table: seq<Tx>, w: Wallet, limit: nat, batches: seq<seq<Tx>>, out: Wallet)
    requires w.wanted <= w.first <= w.last && limit > 0 && CaughtUp(table, w)
    requires Scans(table, w, limit, batches, out)
    ensures out == w
    decreases |batches|
  {
    if batches != [] {
      ScanMakesProgress(table, w, limit, batches[0]);
      StaysCaughtUp(table, w, limit, batches[1..], out);
    }
  }

  lemma RunSnoc(s: State, steps: seq<Step>, states: seq<State>, step: Step)
    requires IsRun(s, steps, states) && Enabled(states[|steps|], step)
    ensures IsRun(s, steps + [step], states + [Next(states[|steps|], step)])
  {
    var steps', states' := steps + [step], states + [Next(states[|steps|], step)];
    forall i | 0 <= i < |steps'| ensures StepAt(steps', states', i) {
      assert i < |steps| ==> StepAt(steps, states, i);
    }
  }

  lemma OneScanExtendsRun(s: State, steps: seq<Step>, states: seq<State>, limit: nat, batch: seq<Tx>)
    returns (steps': seq<Step>, states': seq<State>)
    requires IsRun(s, steps, states) && states[|steps|].scan.Idle? && limit > 0
    requires var t := states[|steps|]; IsBatch(t.table, t.wallet, limit, batch) && Decodable(batch)
    ensures IsRun(s, steps', states')
    ensures var t := states[|steps|]; states'[|steps'|] == t.(wallet := Saved(t.wallet, t.wallet, batch))
  {
    var t := states[|steps|];
    var t1 := t.(scan := Locked(t.wallet));
    var t2 := t.(scan := Fetched(t.wallet, batch));
    RunSnoc(s, steps, states, Begin);
    RunSnoc(s, steps + [Begin], states + [t1], Query(limit, batch));
    RunSnoc(s, steps + [Begin] + [Query(limit, batch)], states + [t1] + [t2], Commit);
    steps' := steps + [Begin] + [Query(limit, batch)] + [Commit];
    states' := states + [t1] + [t2] + [t.(wallet := Saved(t.wallet, t.wallet, batch))];
  }

  lemma {:induction false} ScansExtendRun(
    s: State, steps: seq<Step>, states: seq<State>, limit: nat, batches: seq<seq<Tx>>, out: Wallet)
    returns (steps': seq<Step>, states': seq<State>)
    requires IsRun(s, steps, states) && states[|steps|].scan.Idle? && limit > 0
    requires var t := states[|steps|]; Scans(t.table, t.wallet, limit, batches, out)
    ensures IsRun(s, steps', states') && states'[|steps'|] == states[|steps|].(wallet := out)
    decreases |batches|
  {
    if batches == [] {
      steps', states' := steps, states;
    } else {
      steps', states' := OneScanExtendsRun(s, steps, states, limit, batches[0]);
      steps', states' := ScansExtendRun(s, steps', states', limit, batches[1..], out);
    }
  }

  /**
   The scan as a whole: from any idle moment of any run, as many undisturbed scans as are pending, in
   batches of any size, leave exactly the rows one unbatched pass over all transactions would find.
   */
  lemma ScansFindAll(
    table: seq<Tx>, k: nat, steps: seq<Step>, states: seq<State>, limit: nat, batches: seq<seq<Tx>>, out: Wallet)
    requires Sorted(table) && IsRun(Created(table, k), steps, states) && k <= Tip(table) && !IsRelevant(table, k)
    requires var s := states[|steps|];
             s.scan.Idle? && limit > 0 && Scans(s.table, s.wallet, limit, batches, out)
             && |batches| >= Pending(s.table, s.wallet)
    ensures var s := states[|steps|];
            forall id: nat :: id in out.saved <==> IsRelevant(s.table, id) && id >= s.wallet.wanted
    ensures Distinct(out.saved) && out.wanted == states[|steps|].wallet.wanted
  {
    var s := states[|steps|];
    RunKeepsInv(table, k, steps, states, |steps|);
    ScansCatchUp(s.table, s.wallet, limit, batches, out);
    var steps', states' := ScansExtendRun(Created(table, k), steps, states, limit, batches, out);
    CaughtUpIsAll(table, k, steps', states');
    StartIsNeverIndexed(table, k, steps', states', |steps'|);
    ScansKeepWanted(s.table, s.wallet, limit, batches, out);
  }

  lemma {:induction false} ScansKeepWanted(table: seq<Tx>, w: Wallet, limit: nat, batches: seq<seq<Tx>>, out: Wallet)
    requires Scans(table, w, limit, batches, out)
    ensures out.wanted == w.wanted
    decreases |batches|
  {
    if batches != [] {
      ScansKeepWanted(table, Saved(w, w, batches[0]), limit, batches[1..], out);
    }
  }

  // ---------------------------------------------------------------------------------------------
  // Undecodable transactions

  /** Undisturbed scans in batches of the given size can bring the wallet up to date. */
  ghost predicate ScansCanCatchUp(table: seq<Tx>, w: Wallet, limit: nat) {
    exists batches, out :: Scans(table, w, limit, batches, out) && CaughtUp(table, out)
  }

  /** A scan fetches an unscanned transaction or leaves it unscanned. */
  lemma FetchedOrLeft(table: seq<Tx>, w: Wallet, limit: nat, batch: seq<Tx>, t: Tx)
    requires Sorted(table) && limit > 0 && IsBatch(table, w, limit, batch) && t in Unscanned(table, w)
    ensures t in batch || t in Unscanned(table, Saved(w, w, batch))
  {
    BatchIsComplete(table, w, limit, batch);
  }

  /** Undisturbed scans do not get past an undecodable transaction. */
  lemma {:induction false} CaughtUpWasDecodable(
    table: seq<Tx>, w: Wallet, limit: nat, batches: seq<seq<Tx>>, out: Wallet, t: Tx)
    requires Sorted(table) && limit > 0 && Scans(table, w, limit, batches, out) && CaughtUp(table, out)
    requires t in Unscanned(table, w)
    ensures t.relevance.Some?
    decreases |batches|
  {
    if batches != [] {
      FetchedOrLeft(table, w, limit, batches[0], t);
      if t !in batches[0] {
        CaughtUpWasDecodable(table, Saved(w, w, batches[0]), limit, batches[1..], out, t);
      }
    }
  }

  /** Both queries have an answer whatever the table holds. */
  lemma BatchExists(table: seq<Tx>, view: Wallet, limit: nat) returns (batch: seq<Tx>)
    requires Sorted(table)
    ensures IsBatch(table, view, limit, batch)
  {
    if Backward(view) {
      batch := DescendingExists(table, view, limit, |table|);
      assert table[..|table|] == table;
    } else {
      batch := AscendingExists(table, view, limit, 0);
      assert table[0..] == table;
    }
  }

  /** The row that comes first in fetching order heads the batch of the others. */
  lemma BatchCons(table: seq<Tx>, view: Wallet, limit: nat, t: Tx, rest: seq<Tx>, batch: seq<Tx>)
    requires forall u :: u in table <==> u == t || u in rest
    requires forall u :: u in rest ==> Before(view, t, u)
    requires limit > 0 && IsBatch(rest, view, limit - 1, batch) && InBatchRange(view, t)
    ensures IsBatch(table, view, limit, [t] + batch)
  {
    var longer := [t] + batch;
    assert forall u :: u in longer <==> u == t || u in batch;
    forall i, j | 0 <= i < j < |longer| ensures Before(view, longer[i], longer[j]) {
      assert longer[j] == batch[j - 1] && batch[j - 1] in batch;
      assert i > 0 ==> longer[i] == batch[i - 1];
    }
  }

  lemma BatchSkip(table: seq<Tx>, view: Wallet, limit: nat, t: Tx, rest: seq<Tx>, batch: seq<Tx>)
    requires forall u :: u in table <==> u == t || u in rest
    requires IsBatch(rest, view, limit, batch) && !InBatchRange(view, t)
    ensures IsBatch(table, view, limit, batch)
  {
  }

  lemma {:induction false} AscendingExists(table: seq<Tx>, view: Wallet, limit: nat, i: nat) returns (batch: seq<Tx>)
    requires Sorted(table) && !Backward(view) && i <= |table|
    ensures IsBatch(table[i..], view, limit, batch)
    decreases |table| - i
  {
    if i == |table| || limit == 0 {
      batch := [];
    } else {
      var t, rest := table[i], table[i + 1..];
      assert table[i..] == [t] + rest;
      if InBatchRange(view, t) {
        batch := AscendingExists(table, view, limit - 1, i + 1);
        BatchCons(table[i..], view, limit, t, rest, batch);
        batch := [t] + batch;
      } else {
        batch := AscendingExists(table, view, limit, i + 1);
        BatchSkip(table[i..], view, limit, t, rest, batch);
      }
    }
  }

  lemma {:induction false} DescendingExists(table: seq<Tx>, view: Wallet, limit: nat, i: nat) returns (batch: seq<Tx>)
    requires Sorted(table) && Backward(view) && i <= |table|
    ensures IsBatch(table[..i], view, limit, batch)
    decreases i
  {
    if i == 0 || limit == 0 {
      batch := [];
    } else {
      var t, rest := table[i - 1], table[..i - 1];
      assert table[..i] == rest + [t];
      if InBatchRange(view, t) {
        batch := DescendingExists(table, view, limit - 1, i - 1);
        BatchCons(table[..i], view, limit, t, rest, batch);
        batch := [t] + batch;
      } else {
        batch := DescendingExists(table, view, limit, i - 1);
        BatchSkip(table[..i], view, limit, t, rest, batch);
      }
    }
  }

  lemma {:induction false} DecodableCatchesUp(table: seq<Tx>, w: Wallet, limit: nat)
    returns (batches: seq<seq<Tx>>, out: Wallet)
    requires Sorted(table) && w.wanted <= w.first <= w.last && limit > 0
    requires forall t :: t in Unscanned(table, w) ==> t.relevance.Some?
    ensures Scans(table, w, limit, batches, out) && CaughtUp(table, out)
    decreases Pending(table, w)
  {
    if CaughtUp(table, w) {
      batches, out := [], w;
    } else {
      var batch := BatchExists(table, w, limit);
      ScanMakesProgress(table, w, limit, batch);
      BatchIsUnscanned(table, w, limit, batch);
      var rest;
      rest, out := DecodableCatchesUp(table, Saved(w, w, batch), limit);
      batches := [batch] + rest;
      assert batches[1..] == rest;
    }
  }

  lemma BatchIsUnscanned(table: seq<Tx>, w: Wallet, limit: nat, batch: seq<Tx>)
    requires w.wanted <= w.first <= w.last && IsBatch(table, w, limit, batch)
    ensures forall t :: t in batch ==> t in Unscanned(table, w)
    ensures Unscanned(table, Saved(w, w, batch)) <= Unscanned(table, w)
  {
    assert batch != [] ==> batch[|batch| - 1] in batch;
  }

  /** For every batch size, undisturbed scans can catch up if and only if every transaction still to be scanned can be decoded. */
  lemma ScansCanCatchUpIff(table: seq<Tx>, w: Wallet, limit: nat)
    requires Sorted(table) && w.wanted <= w.first <= w.last && limit > 0
    ensures ScansCanCatchUp(table, w, limit) <==> forall t :: t in Unscanned(table, w) ==> t.relevance.Some?
  {
    if ScansCanCatchUp(table, w, limit) {
      var batches, out :| Scans(table, w, limit, batches, out) && CaughtUp(table, out);
      forall t | t in Unscanned(table, w) ensures t.relevance.Some? {
        CaughtUpWasDecodable(table, w, limit, batches, out, t);
      }
    }
    if forall t :: t in Unscanned(table, w) ==> t.relevance.Some? {
      var batches, out := DecodableCatchesUp(table, w, limit);
    }
  }

  /** New transactions never fall into what the scan has still to cover backward, nor into a batch in hand. */
  ghost predicate InvBatch(s: State) {
    && s.wallet.first <= Tip(s.table) + 1
    && (s.scan.Fetched? ==> BatchComplete(s.table, s.scan.view, s.scan.batch))
  }

  lemma InsertKeepsBatch(k: nat, s: State, tx: Tx)
    requires Inv(k, s) && InvBatch(s) && Enabled(s, Insert(tx))
    ensures InvBatch(Next(s, Insert(tx)))
  {
    if s.scan.Fetched? {
      var batch := s.scan.batch;
      assert batch != [] ==> batch[|batch| - 1] in batch;
      forall t | t in s.table ensures t.id <= Tip(s.table) { TipIsHighest(s.table, t); }
      assert !Adds(s.scan.view, batch, tx.id);
    }
  }

  lemma StepKeepsBatch(k: nat, s: State, step: Step)
    requires Inv(k, s) && InvBatch(s) && Enabled(s, step)
    ensures InvBatch(Next(s, step))
  {
    match step
    case Insert(tx) => InsertKeepsBatch(k, s, tx);
    case Connect(_) =>
    case Begin =>
    case Query(limit, batch) => BatchIsComplete(s.table, s.scan.view, limit, batch);
    case Commit => BatchWithinEdge(s.table, s.scan.view, s.scan.batch);
    case Abort =>
  }

  /** An undecodable transaction that is yet to be scanned stays so, whatever happens. */
  lemma StepKeepsBlocked(k: nat, s: State, step: Step, t: Tx)
    requires Inv(k, s) && InvBatch(s) && Enabled(s, step)
    requires t.relevance.None? && t in Unscanned(s.table, s.wallet)
    ensures t in Unscanned(Next(s, step).table, Next(s, step).wallet)
  {
    if step.Commit? {
      assert t !in s.scan.batch;
      assert !Adds(s.scan.view, s.scan.batch, t.id);
    }
  }

  lemma {:induction false} StaysBlocked(k: nat, s: State, steps: seq<Step>, states: seq<State>, j: nat, t: Tx)
    requires Inv(k, s) && InvBatch(s) && IsRun(s, steps, states) && j < |states|
    requires t.relevance.None? && t in Unscanned(s.table, s.wallet)
    ensures Inv(k, states[j]) && InvBatch(states[j]) && t in Unscanned(states[j].table, states[j].wallet)
    ensures !CaughtUp(states[j].table, states[j].wallet)
  {
    if j > 0 {
      StaysBlocked(k, s, steps, states, j - 1, t);
      assert StepAt(steps, states, j - 1);
      StepKeepsInv(k, states[j - 1], steps[j - 1]);
      StepKeepsBatch(k, states[j - 1], steps[j - 1]);
      StepKeepsBlocked(k, states[j - 1], steps[j - 1], t);
    }
  }

  lemma {:induction false} RunKeepsBatch(table: seq<Tx>, k: nat, steps: seq<Step>, states: seq<State>, i: nat)
    requires Sorted(table) && IsRun(Created(table, k), steps, states) && i < |states| && k <= Tip(table) + 1
    ensures Inv(k, states[i]) && InvBatch(states[i])
  {
    if i > 0 {
      RunKeepsBatch(table, k, steps, states, i - 1);
      assert StepAt(steps, states, i - 1);
      StepKeepsInv(k, states[i - 1], steps[i - 1]);
      StepKeepsBatch(k, states[i - 1], steps[i - 1]);
    }
  }

  /** Some continuation, with whatever arrives and reconnects, brings the wallet up to date. */
  ghost predicate CanCatchUp(s: State) {
    exists steps: seq<Step>, states: seq<State> ::
      IsRun(s, steps, states) && CaughtUp(states[|steps|].table, states[|steps|].wallet)
  }

  lemma DecodableCanCatchUp(k: nat, s: State)
    requires Inv(k, s) && forall t :: t in Unscanned(s.table, s.wallet) ==> t.relevance.Some?
    ensures CanCatchUp(s)
  {
    var steps, states := [], [s];
    assert IsRun(s, steps, states);
    if !s.scan.Idle? {
      RunSnoc(s, steps, states, Abort);
      steps, states := [] + [Abort], [s] + [s.(scan := Idle)];
    }
    var batches, out := DecodableCatchesUp(s.table, s.wallet, 1);
    steps, states := ScansExtendRun(s, steps, states, 1, batches, out);
  }

  /**
   From any moment of any run whose first connect was at most one beyond the tip, the wallet can
   still catch up, whatever arrives and reconnects in between, if and only if every transaction that
   is yet to be scanned can be decoded.
   */
  lemma CanCatchUpIff(table: seq<Tx>, k: nat, steps: seq<Step>, states: seq<State>, i: nat)
    requires Sorted(table) && IsRun(Created(table, k), steps, states) && i < |states| && k <= Tip(table) + 1
    ensures CanCatchUp(states[i]) <==> forall t :: t in Unscanned(states[i].table, states[i].wallet) ==> t.relevance.Some?
  {
    var s := states[i];
    RunKeepsBatch(table, k, steps, states, i);
    if CanCatchUp(s) {
      var more: seq<Step>, later: seq<State> :| IsRun(s, more, later) && CaughtUp(later[|more|].table, later[|more|].wallet);
      forall t | t in Unscanned(s.table, s.wallet) ensures t.relevance.Some? {
        if t.relevance.None? {
          StaysBlocked(k, s, more, later, |more|, t);
        }
      }
    }
    if forall t :: t in Unscanned(s.table, s.wallet) ==> t.relevance.Some? {
      DecodableCanCatchUp(k, s);
    }
  }

  /** In all runs of a wallet first connected at `k`, an undecodable transaction yet to be scanned blocks catching up for good. */
  ghost predicate AlwaysBlocks(table: seq<Tx>, k: nat) {
    forall steps: seq<Step>, states: seq<State>, i: nat, t | IsRun(Created(table, k), steps, states) && i < |states| ::
      t in Unscanned(states[i].table, states[i].wallet) && t.relevance.None? ==> !CanCatchUp(states[i])
  }

  /** With a start index further ahead, a transaction can slip in behind a backward scan that found nothing. */
  lemma SlipsBehindScan(table: seq<Tx>, k: nat) returns (steps: seq<Step>, states: seq<State>, t: Tx)
    requires Sorted(table) && k > Tip(table) + 1
    ensures IsRun(Created(table, k), steps, states)
    ensures t in Unscanned(states[|steps|].table, states[|steps|].wallet) && t.relevance.None? && CanCatchUp(states[|steps|])
  {
    var s0 := Created(table, k);
    t := Tx(k - 1, true, None);
    var w := NewWallet(k).(wanted := k - 1);
    var s1, s2, s3, s4 := State(table, w, Idle), State(table, w, Locked(w)), State(table, w, Fetched(w, [])),
      State(table + [t], w, Fetched(w, []));
    forall u | u in table ensures u.id <= Tip(table) { TipIsHighest(table, u); }
    assert IsBatch(table, w, 1, []);
    RunSnoc(s0, [], [s0], Connect(k - 1));
    RunSnoc(s0, [] + [Connect(k - 1)], [s0] + [s1], Begin);
    RunSnoc(s0, [] + [Connect(k - 1)] + [Begin], [s0] + [s1] + [s2], Query(1, []));
    steps, states := [] + [Connect(k - 1)] + [Begin] + [Query(1, [])], [s0] + [s1] + [s2] + [s3];
    RunSnoc(s0, steps, states, Insert(t));
    steps, states := steps + [Insert(t)], states + [s4];
    assert t in table + [t];
    SlippedCatchesUp(table, k, t, s4);
  }

  lemma SlippedCatchesUp(table: seq<Tx>, k: nat, t: Tx, s: State)
    requires Sorted(table) && k > Tip(table) + 1 && t.id == k - 1
    requires var w := NewWallet(k).(wanted := k - 1); s == State(table + [t], w, Fetched(w, []))
    ensures CanCatchUp(s)
  {
    var s' := Next(s, Commit);
    forall u | u in s'.table ensures u.id <= s'.wallet.last {
      if u in table { TipIsHighest(table, u); }
    }
    assert IsRun(s, [], [s]);
    RunSnoc(s, [], [s], Commit);
    var steps, states := [] + [Commit], [s] + [s'];
    assert IsRun(s, steps, states) && CaughtUp(states[|steps|].table, states[|steps|].wallet);
  }

  /** Blocking for good is certain if and only if the first connect is at most one beyond the tip. */
  lemma AlwaysBlocksIff(table: seq<Tx>, k: nat)
    requires Sorted(table)
    ensures AlwaysBlocks(table, k) <==> k <= Tip(table) + 1
  {
    if k <= Tip(table) + 1 {
      forall steps: seq<Step>, states: seq<State>, i: nat, t | IsRun(Created(table, k), steps, states) && i < |states|
        ensures t in Unscanned(states[i].table, states[i].wallet) && t.relevance.None? ==> !CanCatchUp(states[i])
      {
        CanCatchUpIff(table, k, steps, states, i);
      }
    } else {
      var steps, states, t := SlipsBehindScan(table, k);
      assert |steps| < |states|;
    }
  }

  /** A wallet that one undecodable transaction keeps from ever catching up. */
  lemma UndecodableBlocks() returns (table: seq<Tx>, s: State)
    ensures Sorted(table) && s == Created(table, 0) && !CanCatchUp(s)
  {
    var t := Tx(1, true, None);
    table, s := [t], Created([t], 0);
    assert IsRun(s, [], [s]);
    CanCatchUpIff(table, 0, [], [s], 0);
    assert t in table && t in Unscanned(table, s.wallet);
  }

  // ---------------------------------------------------------------------------------------------
  // The scan as the program runs it

  method GetTransactions(table: seq<Tx>, from: nat, limit: nat) returns (batch: seq<Tx>)
    requires Sorted(table)
    ensures |batch| <= limit
    ensures forall i, j :: 0 <= i < j < |batch| ==> batch[i].id < batch[j].id
    ensures forall t :: t in batch ==> t in table && t.regular && from <= t.id
    ensures forall t :: t in table && t.regular && from <= t.id && t !in batch ==>
              |batch| == limit && forall u :: u in batch ==> u.id < t.id
  {
    batch := [];
    var i := 0;
    while i < |table| && |batch| < limit
      invariant i <= |table| && |batch| <= limit
      invariant forall a, b :: 0 <= a < b < |batch| ==> batch[a].id < batch[b].id
      invariant forall t :: t in batch ==> t in table[..i] && t.regular && from <= t.id
      invariant forall t :: t in table[..i] && t.regular && from <= t.id ==> t in batch
    {
      assert table[..i + 1] == table[..i] + [table[i]];
      if table[i].regular && from <= table[i].id {
        batch := batch + [table[i]];
      }
      i := i + 1;
    }
  }

  method GetTransactionsInRange(table: seq<Tx>, from: nat, to: nat, limit: nat) returns (batch: seq<Tx>)
    requires Sorted(table)
    ensures |batch| <= limit
    ensures forall i, j :: 0 <= i < j < |batch| ==> batch[i].id > batch[j].id
    ensures forall t :: t in batch ==> t in table && t.regular && from <= t.id < to
    ensures forall t :: t in table && t.regular && from <= t.id < to && t !in batch ==>
              |batch| == limit && forall u :: u in batch ==> u.id > t.id
  {
    batch := [];
    var i := |table|;
    while i > 0 && |batch| < limit
      invariant 0 <= i <= |table| && |batch| <= limit
      invariant forall a, b :: 0 <= a < b < |batch| ==> batch[a].id > batch[b].id
      invariant forall t :: t in batch ==> t in table[i..] && t.regular && from <= t.id < to
      invariant forall t :: t in table[i..] && t.regular && from <= t.id < to ==> t in batch
    {
      i := i - 1;
      assert table[i..] == [table[i]] + table[i + 1..];
      if table[i].regular && from <= table[i].id < to {
        batch := batch + [table[i]];
      }
    }
  }

  datatype Outcome = Undecodable | Skipped | Indexed(published: bool)

  /** The two tables of the database that concern one wallet. */
  class WalletStore {
    var table: seq<Tx>
    var wallet: Wallet

    constructor (table: seq<Tx>, start: nat)
      ensures this.table == table && wallet == NewWallet(start)
    {
      this.table, wallet := table, NewWallet(start);
    }

    /** Connecting a wallet that has a row already. */
    method ConnectWallet(start: nat)
      modifies `wallet
      ensures wallet == Reconnected(old(wallet), start)
    {
      if start < wallet.wanted {
        wallet := wallet.(wanted := start);
      }
    }

    method Save(batch: seq<Tx>, first: nat, last: nat)
      requires Decodable(batch)
      modifies `wallet
      ensures wallet == old(wallet).(first := first, last := last, saved := old(wallet).saved + RelevantIds(batch))
    {
      var saved := [];
      for i := 0 to |batch|
        invariant saved == RelevantIds(batch[..i])
      {
        assert batch[..i + 1][..i] == batch[..i];
        if batch[i].relevance.value {
          saved := saved + [batch[i].id];
        }
      }
      assert batch[..|batch|] == batch;
      wallet := wallet.(first := first, last := last, saved := wallet.saved + saved);
    }

    /** The backward half of a scan: always moves the first indexed identifier down, or fails. */
    method IndexBackward(limit: nat) returns (r: Outcome, ghost batch: seq<Tx>)
      requires Sorted(table) && Backward(wallet)
      modifies `wallet
      ensures IsBatch(table, old(wallet), limit, batch)
      ensures r.Undecodable? <==> !Decodable(batch)
      ensures r.Undecodable? ==> wallet == old(wallet)
      ensures !r.Undecodable? ==> wallet == Saved(old(wallet), old(wallet), batch) && r == Indexed(RelevantIds(batch) != [])
    {
      var transactions := GetTransactionsInRange(table, wallet.wanted, wallet.first, limit);
      batch := transactions;
      if exists t :: t in transactions && t.relevance.None? {
        return Undecodable, batch;
      }
      var before := |wallet.saved|;
      Save(transactions, if transactions == [] then wallet.wanted else transactions[|transactions| - 1].id, wallet.last);
      r := Indexed(|wallet.saved| > before);
    }

    /** The forward half: moves the last indexed identifier up, fails, or finds nothing. */
    method IndexForward(limit: nat) returns (r: Outcome, ghost batch: seq<Tx>)
      requires Sorted(table) && !Backward(wallet)
      modifies `wallet
      ensures IsBatch(table, old(wallet), limit, batch)
      ensures r.Skipped? <==> batch == []
      ensures r.Undecodable? <==> !Decodable(batch)
      ensures r.Undecodable? ==> wallet == old(wallet)
      ensures !r.Undecodable? ==> wallet == Saved(old(wallet), old(wallet), batch)
      ensures r.Indexed? ==> r == Indexed(RelevantIds(batch) != [])
    {
      var transactions := GetTransactions(table, wallet.last + 1, limit);
      batch := transactions;
      if transactions == [] {
        return Skipped, batch;
      }
      if exists t :: t in transactions && t.relevance.None? {
        return Undecodable, batch;
      }
      var before := |wallet.saved|;
      Save(transactions, wallet.first, transactions[|transactions| - 1].id);
      r := Indexed(|wallet.saved| > before);
    }

    /**
     One scan of the wallet under its lock. It either leaves no trace or is a begin, a query and a
     commit of the protocol above.
     */
    method IndexWallet(limit: nat, maxTransactionId: nat) returns (r: Outcome, ghost batch: seq<Tx>)
      requires Sorted(table) && limit > 0
      modifies `wallet
      ensures !Backward(old(wallet)) && old(wallet).last >= maxTransactionId ==> r.Skipped?
      ensures r.Skipped? ==> !Backward(old(wallet)) && (old(wallet).last >= maxTransactionId || batch == [])
      ensures Backward(old(wallet)) || old(wallet).last < maxTransactionId ==> IsBatch(table, old(wallet), limit, batch)
      ensures r.Undecodable? ==> !Decodable(batch)
      ensures r.Undecodable? || r.Skipped? ==> wallet == old(wallet)
      ensures r.Indexed? ==> IsScan(table, old(wallet), limit, batch, wallet)
      ensures r.Indexed? ==> (r.published <==> wallet.saved != old(wallet).saved)
    {
      if Backward(wallet) {
        r, batch := IndexBackward(limit);
      } else if wallet.last >= maxTransactionId {
        r, batch := Skipped, [];
      } else {
        r, batch := IndexForward(limit);
      }
    }
  }

  /** Begin, query and commit lead from `w` to `w'`. */
  ghost predicate IsScan(table: seq<Tx>, w: Wallet, limit: nat, batch: seq<Tx>, w': Wallet) {
    var s := State(table, w, Idle);
    && Enabled(s, Begin)
    && Enabled(Next(s, Begin), Query(limit, batch))
    && Enabled(Next(Next(s, Begin), Query(limit, batch)), Commit)
    && State(table, w', Idle) == Next(Next(Next(s, Begin), Query(limit, batch)), Commit)
  }
}

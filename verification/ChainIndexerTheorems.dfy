/** What holds at every point of every run of the chain-indexer. */
module ChainIndexerTheorems {
  import opened Common
  import opened LedgerArena
  import opened LedgerStates
  import opened SystemParameters
  import opened ChainIndexer
  import opened ChainIndexerSafety
  import opened ChainIndexerRetention

  /**
   Crashes are invisible: whatever the node sends and wherever the process dies, the stored blocks
   are one parent-linked chain and their rows, with ledger state keys, validity bases and parameter
   changes, are those of an uninterrupted run over the same blocks. An idle process holds exactly
   the state such a run would hold.
   */
  lemma CrashTransparency(chain: Chain, steps: seq<Step>, states: seq<Machine>, i: nat)
    requires WellFormed(chain) && IsRun(chain, steps, states) && i < |states|
    ensures
      var rows := states[i].disk.rows;
      && IsChain(chain, rows)
      && Replay(chain, Blocks(rows)).Some?
      && Replay(chain, Blocks(rows)).value.rows == rows
    ensures
      var p := states[i].process;
      p.Up? && p.phase.Idle? ==>
        Replay(chain, Blocks(states[i].disk.rows))
        == Some(Carry(p.ledgerState, p.parentTimestamp, states[i].disk.rows))
  {
    RunKeepsInv(chain, steps, states, i);
  }

  /** The same for any ledger library whose keys determine the stored content. */
  lemma CrashTransparencyOfLedger(
    ledger: Ledger, refs: Refs, rootHash: (Key, LedgerVersion) -> Hash,
    parameters: nat -> Parameters, heightOf: nat -> int,
    steps: seq<Step>, states: seq<Machine>, i: nat)
    requires ContentAddressed(ledger) && heightOf(0) == -1
    requires IsRun(ChainOf(ledger, refs, rootHash, parameters, heightOf), steps, states) && i < |states|
    ensures
      var chain, rows := ChainOf(ledger, refs, rootHash, parameters, heightOf), states[i].disk.rows;
      IsChain(chain, rows) && Transparent(chain, rows)
  {
    LedgersAreWellFormed(ledger, refs, rootHash, parameters, heightOf);
    CrashTransparency(ChainOf(ledger, refs, rootHash, parameters, heightOf), steps, states, i);
  }

  /**
   Root safety: no root count ever goes negative, the process never refuses to resume, every window
   entry has a root count of its own, and between blocks the window ends at the newest stored block.
   */
  lemma RootSafety(chain: Chain, steps: seq<Step>, states: seq<Machine>, i: nat)
    requires WellFormed(chain) && IsRun(chain, steps, states) && i < |states|
    ensures !states[i].process.Panicked? && !states[i].process.Bailed?
    ensures
      var d, p := states[i].disk, states[i].process;
      p.Up? ==> multiset(Roots(chain, p.window)) + p.pending <= d.roots
    ensures
      var d, p := states[i].disk, states[i].process;
      p.Up? && p.phase.Idle? && d.rows != [] ==>
        p.window != [] && p.window[|p.window| - 1] == EntryOf(d.rows[|d.rows| - 1])
  {
    RunKeepsInv(chain, steps, states, i);
    var p := states[i].process;
    if p.Up? && (p.phase.Persisted? || p.phase.Saved?) {
      RootsSnoc(chain, p.window, CurrentEntry(chain, p));
    }
  }

  /**
   Root conservation under a fixed retention: the window holds the newest keys, and the counts
   exceed the window by at most one per crash, so without crashes they match it exactly.
   */
  lemma RootConservation(chain: Chain, steps: seq<Step>, states: seq<Machine>, retention: nat, i: nat)
    requires WellFormed(chain) && IsRun(chain, steps, states) && i < |states|
    requires retention > 0 && RetentionIs(steps, retention)
    requires states[i].process.Up? && states[i].process.phase.Idle?
    ensures
      var d, p := states[i].disk, states[i].process;
      && p.window == Entries(Newest(d.rows, retention))
      && |d.roots - p.pending| <= |p.window| + Crashes(steps[..i])
      && (Crashes(steps[..i]) == 0 ==> d.roots - p.pending == multiset(Roots(chain, p.window)))
  {
    var d, p := states[i].disk, states[i].process;
    RunKeepsInv(chain, steps, states, i);
    RunKeeps(chain, steps, states, retention, i);
    RunSurplus(chain, steps, states, retention, i);
    FlushPays(chain, p.window, p.pending, d.roots);
    FlushedCard(d.roots, p.pending);
    if Crashes(steps[..i]) == 0 {
      EqualBySize(multiset(Roots(chain, p.window)), d.roots - p.pending);
    }
  }

  lemma EqualBySize(a: multiset<Hash>, b: multiset<Hash>)
    requires a <= b && |b| <= |a|
    ensures a == b
  {
    assert b == a + (b - a);
    assert |b| == |a| + |b - a|;
  }

  lemma NewestIsLoadable(chain: Chain, d: Disk, keep: nat, height: nat)
    requires Intact(chain.refs, d.nodes, d.roots)
    requires multiset(Roots(chain, Entries(Newest(d.rows, keep)))) <= d.roots
    requires height < |d.rows| <= height + keep
    ensures RootOf(chain, EntryOf(d.rows[height])) in d.roots
    ensures Complete(chain.refs, d.nodes, RootOf(chain, EntryOf(d.rows[height])))
  {
    var newest := Newest(d.rows, keep);
    assert d.rows[height] == newest[height - (|d.rows| - |newest|)];
    assert EntryOf(d.rows[height]) in Entries(newest);
    ClaimIsRooted(chain, Entries(newest), multiset{}, d.roots, EntryOf(d.rows[height]));
  }

  lemma RunKeepsNewestRooted(chain: Chain, steps: seq<Step>, states: seq<Machine>, keep: nat, i: nat)
    requires WellFormed(chain) && IsRun(chain, steps, states) && i < |states|
    requires keep > 0 && RetentionAtLeast(steps, keep)
    ensures Intact(chain.refs, states[i].disk.nodes, states[i].disk.roots)
    ensures multiset(Roots(chain, Entries(Newest(states[i].disk.rows, keep)))) <= states[i].disk.roots
  {
    RunKeepsInv(chain, steps, states, i);
    RunKeeps(chain, steps, states, keep, i);
    KeptIsRooted(chain, states[i], keep);
  }

  /**
   Fresh snapshots are loadable: if every restart used a retention above `maxSnapshotAge`, then at
   every point of the run, mid-step and after any gc pass, a stored block at most that far below
   the tip still has a root count and its whole DAG on disk.
   */
  lemma FreshSnapshotsAreLoadable(
    chain: Chain, steps: seq<Step>, states: seq<Machine>, maxSnapshotAge: nat, i: nat, height: nat)
    requires WellFormed(chain) && IsRun(chain, steps, states) && i < |states|
    requires RetentionAtLeast(steps, maxSnapshotAge + 1)
    requires height < |states[i].disk.rows| <= height + maxSnapshotAge + 1
    ensures
      var d := states[i].disk;
      && RootOf(chain, EntryOf(d.rows[height])) in d.roots
      && Complete(chain.refs, d.nodes, RootOf(chain, EntryOf(d.rows[height])))
  {
    RunKeepsNewestRooted(chain, steps, states, maxSnapshotAge + 1, i);
    NewestIsLoadable(chain, states[i].disk, maxSnapshotAge + 1, height);
  }

  /** The bound is tight: once flushed, an older block whose root no newer block shares is garbage. */
  lemma AgedSnapshotsAreGarbage(
    chain: Chain, steps: seq<Step>, states: seq<Machine>, retention: nat, i: nat, height: nat)
    requires WellFormed(chain) && IsRun(chain, steps, states) && i < |states|
    requires retention > 0 && RetentionIs(steps, retention) && Crashes(steps[..i]) == 0
    requires states[i].process.Up? && states[i].process.phase.Idle? && states[i].process.pending == multiset{}
    requires height + retention < |states[i].disk.rows|
    requires
      var rows := states[i].disk.rows;
      RootOf(chain, EntryOf(rows[height])) !in Roots(chain, Entries(Newest(rows, retention)))
    ensures RootOf(chain, EntryOf(states[i].disk.rows[height])) !in states[i].disk.roots
  {
    RootConservation(chain, steps, states, retention, i);
    var d, p := states[i].disk, states[i].process;
    assert d.roots - p.pending == d.roots;
  }

  /** How often the newest `n` rows name a root. */
  function NamedBy(chain: Chain, rows: seq<Row>, n: nat, h: Hash): nat {
    multiset(Roots(chain, Entries(Newest(rows, n))))[h]
  }

  /**
   Exactly when seeding would do without a repair: after a flushed run without crashes under
   retention `r`, the root counts pay for the window seeded under `r'` if and only if no root of the
   newest `r` rows is named more often by the newest `r'` rows.
   */
  lemma SeedsWithoutRepairIff(chain: Chain, steps: seq<Step>, states: seq<Machine>, i: nat, r: nat, r': nat)
    requires WellFormed(chain) && IsRun(chain, steps, states) && i < |states|
    requires r > 0 && RetentionIs(steps, r) && Crashes(steps[..i]) == 0
    requires states[i].process.Up? && states[i].process.phase.Idle? && states[i].process.pending == multiset{}
    ensures
      var d := states[i].disk;
      Paid(chain, StillRooted(chain, Entries(Newest(d.rows, r')), d.roots), multiset{}, d.roots) <==>
      forall h :: NamedBy(chain, d.rows, r, h) > 0 ==> NamedBy(chain, d.rows, r', h) <= NamedBy(chain, d.rows, r, h)
  {
    var d, p := states[i].disk, states[i].process;
    RootConservation(chain, steps, states, r, i);
    assert d.roots - p.pending == d.roots;
    assert forall h :: d.roots[h] == NamedBy(chain, d.rows, r, h);
    SeedIsPaidIff(chain, Entries(Newest(d.rows, r')), d.roots);
  }

  lemma SeedIsPaidIff(chain: Chain, entries: seq<Entry>, roots: multiset<Hash>)
    ensures
      Paid(chain, StillRooted(chain, entries, roots), multiset{}, roots) <==>
      forall h :: h in roots ==> multiset(Roots(chain, entries))[h] <= roots[h]
  {
    var kept := multiset(Roots(chain, StillRooted(chain, entries, roots)));
    forall h ensures kept[h] == if h in roots then multiset(Roots(chain, entries))[h] else 0 {
      StillRootedCounts(chain, entries, roots, h);
    }
    assert kept + multiset{} == kept;
  }

  /**
   In particular, two newest blocks sharing a root, kept under retention 1 and then seeded under
   retention 2 without a repair, give a window its root counts cannot pay for.
   */
  lemma SeedingWithoutRepairUnderCounts(chain: Chain, steps: seq<Step>, states: seq<Machine>, i: nat)
    requires WellFormed(chain) && IsRun(chain, steps, states) && i < |states|
    requires RetentionIs(steps, 1) && Crashes(steps[..i]) == 0
    requires states[i].process.Up? && states[i].process.phase.Idle? && states[i].process.pending == multiset{}
    requires
      var rows := states[i].disk.rows;
      |rows| >= 2 && RootOf(chain, EntryOf(rows[|rows| - 2])) == RootOf(chain, EntryOf(rows[|rows| - 1]))
    ensures
      var d := states[i].disk;
      !Paid(chain, StillRooted(chain, Entries(Newest(d.rows, 2)), d.roots), multiset{}, d.roots)
  {
    var rows := states[i].disk.rows;
    var h := RootOf(chain, EntryOf(rows[|rows| - 1]));
    SeedsWithoutRepairIff(chain, steps, states, i, 1, 2);
    assert Roots(chain, Entries(Newest(rows, 1))) == [h];
    assert Roots(chain, Entries(Newest(rows, 2))) == [h, h];
    assert multiset([h])[h] == 1 && multiset([h, h])[h] == 2;
    assert NamedBy(chain, rows, 1, h) == 1 && NamedBy(chain, rows, 2, h) == 2;
  }

  /******* The parameter log *******/

  function DReports(chain: Chain, rows: seq<Row>): seq<Option<DParameter>> {
    seq(|rows|, i requires 0 <= i < |rows| => chain.parameters(rows[i].block.hash).d)
  }

  function TermsReports(chain: Chain, rows: seq<Row>): seq<Option<TermsAndConditions>> {
    seq(|rows|, i requires 0 <= i < |rows| => chain.parameters(rows[i].block.hash).terms)
  }

  lemma {:induction false} StoredChange(chain: Chain, rows: seq<Row>, i: nat)
    requires Transparent(chain, rows) && i < |rows|
    ensures rows[i].change == ChangeAt(chain, rows[..i], rows[i].block)
    decreases |rows|
  {
    var n := |rows| - 1;
    assert Blocks(rows)[..n] == Blocks(rows[..n]);
    assert Replay(chain, Blocks(rows[..n])).value.rows == rows[..n];
    if i < n {
      StoredChange(chain, rows[..n], i);
      assert rows[..n][..i] == rows[..i];
    }
  }

  lemma ChangesAreLogged(chain: Chain, rows: seq<Row>)
    requires Transparent(chain, rows)
    ensures Logged(DReports(chain, rows), DChanges(rows))
    ensures Logged(TermsReports(chain, rows), TermsChanges(rows))
  {
    forall i | 0 <= i < |rows|
      ensures DChanges(rows)[i] == Changed(DReports(chain, rows)[i], Latest(LogOf(DChanges(rows)[..i])))
      ensures TermsChanges(rows)[i] == Changed(TermsReports(chain, rows)[i], Latest(LogOf(TermsChanges(rows)[..i])))
    {
      StoredChange(chain, rows, i);
      assert DChanges(rows)[..i] == DChanges(rows[..i]);
      assert TermsChanges(rows)[..i] == TermsChanges(rows[..i]);
    }
  }

  /**
   However often the indexer crashed, at every stored height the newest log entry at or below it is
   the last value the node reported up to it, for both parameter tables.
   */
  lemma StoredLogReconstructs(chain: Chain, steps: seq<Step>, states: seq<Machine>, i: nat, height: nat)
    requires WellFormed(chain) && IsRun(chain, steps, states) && i < |states|
    requires height < |states[i].disk.rows|
    ensures
      var rows := states[i].disk.rows;
      && NewestAt(LogOf(DChanges(rows)), height) == LastReported(DReports(chain, rows), height)
      && NewestAt(LogOf(TermsChanges(rows)), height) == LastReported(TermsReports(chain, rows), height)
  {
    var rows := states[i].disk.rows;
    CrashTransparency(chain, steps, states, i);
    ChangesAreLogged(chain, rows);
    LogReconstructsReports(DReports(chain, rows), DChanges(rows), height);
    LogReconstructsReports(TermsReports(chain, rows), TermsChanges(rows), height);
  }

  /** And neither table ever stores the same value twice in a row. */
  lemma StoredLogHasNoRepeats(chain: Chain, steps: seq<Step>, states: seq<Machine>, i: nat, k: nat)
    requires WellFormed(chain) && IsRun(chain, steps, states) && i < |states|
    ensures
      var log := LogOf(DChanges(states[i].disk.rows));
      k + 1 < |log| ==> log[k].value != log[k + 1].value
    ensures
      var log := LogOf(TermsChanges(states[i].disk.rows));
      k + 1 < |log| ==> log[k].value != log[k + 1].value
  {
    var rows := states[i].disk.rows;
    CrashTransparency(chain, steps, states, i);
    ChangesAreLogged(chain, rows);
    if k + 1 < |LogOf(DChanges(rows))| {
      LogHasNoRepeats(DReports(chain, rows), DChanges(rows), k);
    }
    if k + 1 < |LogOf(TermsChanges(rows))| {
      LogHasNoRepeats(TermsReports(chain, rows), TermsChanges(rows), k);
    }
  }
}

/**
 What the retention window guarantees over whole runs: fresh snapshots stay loadable, root counts
 are conserved, and a crash can strand at most one of them.
 */
module ChainIndexerRetention {
  import opened Common
  import opened LedgerArena
  import opened ChainIndexer
  import opened ChainIndexerSafety

  /******* Suffixes *******/

  ghost predicate HasSuffix(window: seq<Entry>, suffix: seq<Entry>) {
    && |suffix| <= |window|
    && forall i, j :: 0 <= i < |suffix| && j == |window| - |suffix| + i ==> window[j] == suffix[i]
  }

  lemma SuffixCounts(chain: Chain, window: seq<Entry>, suffix: seq<Entry>)
    requires HasSuffix(window, suffix)
    ensures multiset(Roots(chain, suffix)) <= multiset(Roots(chain, window))
  {
    var k := |window| - |suffix|;
    assert window == window[..k] + suffix;
    RootsConcat(chain, window[..k], suffix);
  }

  lemma NewestSnoc(rows: seq<Row>, row: Row, keep: nat)
    requires keep > 0
    ensures HasSuffix(Entries(Newest(rows, keep)) + [EntryOf(row)], Entries(Newest(rows + [row], keep)))
  {
  }

  lemma SuffixSnoc(window: seq<Entry>, suffix: seq<Entry>, entry: Entry)
    requires HasSuffix(window, suffix)
    ensures HasSuffix(window + [entry], suffix + [entry])
  {
  }

  lemma SuffixTrans(a: seq<Entry>, b: seq<Entry>, c: seq<Entry>)
    requires HasSuffix(a, b) && HasSuffix(b, c)
    ensures HasSuffix(a, c)
  {
    forall i, j | 0 <= i < |c| && j == |a| - |c| + i ensures a[j] == c[i] {
      assert b[|b| - |c| + i] == c[i];
    }
  }

  lemma SuffixOfTail(window: seq<Entry>, suffix: seq<Entry>)
    requires HasSuffix(window, suffix) && |suffix| < |window|
    ensures HasSuffix(window[1..], suffix)
  {
  }

  /** Filtering cannot touch a suffix whose roots are all still rooted. */
  lemma {:induction false} StillRootedKeepsSuffix(
    chain: Chain, entries: seq<Entry>, roots: multiset<Hash>, suffix: seq<Entry>)
    requires HasSuffix(entries, suffix)
    requires forall e :: e in suffix ==> RootOf(chain, e) in roots
    ensures HasSuffix(StillRooted(chain, entries, roots), suffix)
    decreases |suffix|
  {
    if suffix != [] {
      var n, k := |entries| - 1, |suffix| - 1;
      assert suffix[k] == entries[n];
      StillRootedKeepsSuffix(chain, entries[..n], roots, suffix[..k]);
      SuffixSnoc(StillRooted(chain, entries[..n], roots), suffix[..k], suffix[k]);
      assert suffix == suffix[..k] + [suffix[k]];
    }
  }

  /******* The newest blocks stay rooted *******/

  /** The window, with the state of a block that is saved but not pushed yet. */
  function Held(window: seq<Entry>, phase: Phase, current: Entry): seq<Entry> {
    if phase.Saved? then window + [current] else window
  }

  function HeldBy(chain: Chain, p: Process): seq<Entry>
    requires p.Up?
  {
    Held(p.window, p.phase, StateEntry(chain, p.ledgerState))
  }

  /** In memory, the newest `keep` stored blocks are at the end of what the root counts pay for. */
  ghost predicate KeepsUp(chain: Chain, rows: seq<Row>, p: Process, keep: nat)
    requires p.Up?
  {
    keep <= p.retention && HasSuffix(HeldBy(chain, p), Entries(Newest(rows, keep)))
  }

  ghost predicate Keeps(chain: Chain, s: Machine, keep: nat) {
    match s.process
    case Up(_, _, _, _, _, _, _, _) => KeepsUp(chain, s.disk.rows, s.process, keep)
    case Restarting(retention) =>
      keep <= retention && multiset(Roots(chain, Entries(Newest(s.disk.rows, keep)))) <= s.disk.roots
    case _ => multiset(Roots(chain, Entries(Newest(s.disk.rows, keep)))) <= s.disk.roots
  }

  ghost predicate RetentionAtLeast(steps: seq<Step>, keep: nat) {
    forall i :: 0 <= i < |steps| && steps[i].Repair? ==> keep <= steps[i].retention
  }

  lemma SuffixOfClaimsIsRooted(
    chain: Chain, window: seq<Entry>, phase: Phase, current: Entry, pending: multiset<Hash>, roots: multiset<Hash>,
    suffix: seq<Entry>)
    requires Paid(chain, Claimed(window, phase, current), pending, roots)
    requires HasSuffix(Held(window, phase, current), suffix)
    ensures multiset(Roots(chain, suffix)) <= roots
  {
    SuffixCounts(chain, Held(window, phase, current), suffix);
    if phase.Persisted? {
      RootsSnoc(chain, window, current);
    }
  }

  /** The root counts pay for the newest `keep` blocks at every point, including mid-step. */
  lemma KeptIsRooted(chain: Chain, s: Machine, keep: nat)
    requires Inv(chain, s) && Keeps(chain, s, keep)
    ensures multiset(Roots(chain, Entries(Newest(s.disk.rows, keep)))) <= s.disk.roots
  {
    if s.process.Up? {
      var p := s.process;
      SuffixOfClaimsIsRooted(chain, p.window, p.phase, StateEntry(chain, p.ledgerState), p.pending, s.disk.roots,
        Entries(Newest(s.disk.rows, keep)));
    }
  }

  lemma WindowKeeps(chain: Chain, d: Disk, retention: nat, keep: nat)
    requires keep <= retention && Paid(chain, Entries(Newest(d.rows, keep)), multiset{}, d.roots)
    ensures HasSuffix(StillRooted(chain, Entries(Newest(d.rows, retention)), d.roots), Entries(Newest(d.rows, keep)))
  {
    var entries, newest := Entries(Newest(d.rows, retention)), Entries(Newest(d.rows, keep));
    assert HasSuffix(entries, newest);
    forall e | e in newest ensures RootOf(chain, e) in d.roots {
      ClaimIsRooted(chain, newest, multiset{}, d.roots, e);
    }
    StillRootedKeepsSuffix(chain, entries, d.roots, newest);
  }

  lemma SeededKeeps(chain: Chain, d: Disk, retention: nat, keep: nat)
    requires InvDisk(chain, d) && 0 < retention && keep <= retention
    requires Paid(chain, Entries(Newest(d.rows, keep)), multiset{}, d.roots)
    ensures Seeded(chain, d, retention).Up? && KeepsUp(chain, d.rows, Seeded(chain, d, retention), keep)
  {
    WindowKeeps(chain, d, retention, keep);
    if d.rows != [] {
      SeedComesUp(chain, d, retention);
    }
  }

  lemma SeedKeeps(chain: Chain, s: Machine, keep: nat)
    requires Inv(chain, s) && Keeps(chain, s, keep) && Enabled(chain, s, Seed)
    ensures Keeps(chain, Next(chain, s, Seed), keep)
  {
    SeededKeeps(chain, s.disk, s.process.retention, keep);
  }

  lemma SaveKeeps(chain: Chain, rows: seq<Row>, row: Row, p: Process, keep: nat)
    requires keep > 0 && p.Up? && p.phase.Persisted? && KeepsUp(chain, rows, p, keep)
    requires EntryOf(row) == CurrentEntry(chain, p)
    ensures KeepsUp(chain, rows + [row], p.(phase := Saved), keep)
  {
    var entry := CurrentEntry(chain, p);
    NewestSnoc(rows, row, keep);
    SuffixSnoc(p.window, Entries(Newest(rows, keep)), entry);
    SuffixTrans(p.window + [entry], Entries(Newest(rows, keep)) + [entry], Entries(Newest(rows + [row], keep)));
  }

  predicate LeavesRowsAlone(step: Step) {
    !step.Repair? && !step.Seed? && !step.Save? && !step.Crash?
  }

  lemma MemoryStepStaysUp(chain: Chain, s: Machine, step: Step)
    requires WellFormed(chain) && Inv(chain, s) && LeavesRowsAlone(step) && Enabled(chain, s, step)
    ensures s.process.Up? && Next(chain, s, step).process.Up?
  {
    StepKeepsInv(chain, s, step);
  }

  ghost predicate HoldsTheSame(chain: Chain, s: Machine, s': Machine)
    requires s.process.Up? && s'.process.Up?
  {
    && s'.disk.rows == s.disk.rows && s'.process.retention == s.process.retention
    && HeldBy(chain, s'.process) == HeldBy(chain, s.process)
  }

  lemma PushHoldsTheSame(chain: Chain, s: Machine)
    requires Enabled(chain, s, Push)
    ensures HoldsTheSame(chain, s, Next(chain, s, Push))
  {
  }

  /** Apart from unpersisting, no step that leaves the rows alone changes what is held. */
  lemma HeldIsUnchanged(chain: Chain, s: Machine, step: Step)
    requires s.process.Up? && LeavesRowsAlone(step) && !step.Unpersist?
    requires Enabled(chain, s, step) && Next(chain, s, step).process.Up?
    ensures HoldsTheSame(chain, s, Next(chain, s, step))
  {
    if step.Push? {
      PushHoldsTheSame(chain, s);
    }
  }

  lemma MemoryStepKeeps(chain: Chain, s: Machine, step: Step, keep: nat)
    requires s.process.Up? && KeepsUp(chain, s.disk.rows, s.process, keep)
    requires LeavesRowsAlone(step) && Enabled(chain, s, step) && Next(chain, s, step).process.Up?
    ensures Keeps(chain, Next(chain, s, step), keep)
  {
    if step.Unpersist? {
      SuffixOfTail(s.process.window, Entries(Newest(s.disk.rows, keep)));
    } else {
      HeldIsUnchanged(chain, s, step);
    }
  }

  lemma CrashKeeps(chain: Chain, s: Machine, keep: nat)
    requires Inv(chain, s) && Keeps(chain, s, keep) && Enabled(chain, s, Crash)
    ensures Keeps(chain, Next(chain, s, Crash), keep)
  {
    KeptIsRooted(chain, s, keep);
  }

  lemma RepairKeeps(chain: Chain, s: Machine, retention: nat, roots: multiset<Hash>, keep: nat)
    requires Keeps(chain, s, keep) && Enabled(chain, s, Repair(retention, roots)) && keep <= retention
    ensures Keeps(chain, Next(chain, s, Repair(retention, roots)), keep)
  {
    RepairCoversWindow(chain.refs, s.disk.nodes, s.disk.roots,
      multiset(Roots(chain, Entries(Newest(s.disk.rows, retention)))), roots);
  }

  lemma SaveStepKeeps(chain: Chain, s: Machine, keep: nat)
    requires keep > 0 && Inv(chain, s) && Keeps(chain, s, keep) && Enabled(chain, s, Save)
    ensures Keeps(chain, Next(chain, s, Save), keep)
  {
    SaveKeeps(chain, s.disk.rows, Next(chain, s, Save).disk.rows[|s.disk.rows|], s.process, keep);
  }

  lemma StepKeeps(chain: Chain, s: Machine, step: Step, keep: nat)
    requires WellFormed(chain) && keep > 0
    requires Inv(chain, s) && Keeps(chain, s, keep) && Enabled(chain, s, step)
    requires step.Repair? ==> keep <= step.retention
    ensures Keeps(chain, Next(chain, s, step), keep)
  {
    match step
    case Repair(retention, roots) => RepairKeeps(chain, s, retention, roots, keep);
    case Seed => SeedKeeps(chain, s, keep);
    case Save => SaveStepKeeps(chain, s, keep);
    case Crash => CrashKeeps(chain, s, keep);
    case _ =>
      MemoryStepStaysUp(chain, s, step);
      MemoryStepKeeps(chain, s, step, keep);
  }

  lemma {:induction false} RunKeeps(chain: Chain, steps: seq<Step>, states: seq<Machine>, keep: nat, i: nat)
    requires WellFormed(chain) && IsRun(chain, steps, states) && i < |states|
    requires keep > 0 && RetentionAtLeast(steps, keep)
    ensures Keeps(chain, states[i], keep)
  {
    if i > 0 {
      assert StepAt(chain, steps, states, i - 1);
      RunKeepsInv(chain, steps, states, i - 1);
      RunKeeps(chain, steps, states, keep, i - 1);
      StepKeeps(chain, states[i - 1], steps[i - 1], keep);
    }
  }

  /******* Conservation *******/

  function Crashes(steps: seq<Step>): nat {
    if steps == [] then 0
    else Crashes(steps[..|steps| - 1]) + if steps[|steps| - 1].Crash? then 1 else 0
  }

  lemma CrashesSnoc(steps: seq<Step>, i: nat)
    requires 0 < i <= |steps|
    ensures Crashes(steps[..i]) == Crashes(steps[..i - 1]) + if steps[i - 1].Crash? then 1 else 0
  {
    assert steps[..i][..i - 1] == steps[..i - 1];
  }

  /** Root counts exceed what they pay for by at most one per crash so far. */
  ghost predicate SurplusUp(chain: Chain, d: Disk, p: Process, retention: nat, crashes: nat)
    requires p.Up?
  {
    && p.retention == retention
    && |d.roots| <= |Claims(chain, p)| + |p.pending| + crashes
    && |p.pending| <= (if p.phase.Persisted? || p.phase.Saved? || |p.window| > retention then 0 else 1)
  }

  ghost predicate Surplus(chain: Chain, s: Machine, retention: nat, crashes: nat) {
    match s.process
    case Up(_, _, _, _, _, _, _, _) => SurplusUp(chain, s.disk, s.process, retention, crashes)
    case Restarting(r) => r == retention && |s.disk.roots| <= Min(retention, |s.disk.rows|) + crashes
    case _ => |s.disk.roots| <= Min(retention, |s.disk.rows|) + crashes
  }

  ghost predicate RetentionIs(steps: seq<Step>, retention: nat) {
    forall i :: 0 <= i < |steps| && steps[i].Repair? ==> steps[i].retention == retention
  }

  lemma FlushedCard(roots: multiset<Hash>, pending: multiset<Hash>)
    requires pending <= roots
    ensures |roots - pending| == |roots| - |pending|
  {
  }

  lemma RepairSurplus(chain: Chain, s: Machine, retention: nat, roots: multiset<Hash>, crashes: nat)
    requires Keeps(chain, s, retention) && Surplus(chain, s, retention, crashes)
    requires Enabled(chain, s, Repair(retention, roots))
    ensures Surplus(chain, Next(chain, s, Repair(retention, roots)), retention, crashes)
  {
    var d := s.disk;
    RepairCoversWindow(chain.refs, d.nodes, d.roots, multiset(Roots(chain, Entries(Newest(d.rows, retention)))), roots);
  }

  lemma SeededSurplus(chain: Chain, d: Disk, retention: nat, crashes: nat)
    requires InvDisk(chain, d) && 0 < retention && |d.roots| <= Min(retention, |d.rows|) + crashes
    requires Paid(chain, Entries(Newest(d.rows, retention)), multiset{}, d.roots)
    ensures Seeded(chain, d, retention).Up? && SurplusUp(chain, d, Seeded(chain, d, retention), retention, crashes)
  {
    SeededKeeps(chain, d, retention, retention);
    if d.rows != [] {
      SeedComesUp(chain, d, retention);
    }
  }

  lemma SeedSurplus(chain: Chain, s: Machine, retention: nat, crashes: nat)
    requires Inv(chain, s) && Keeps(chain, s, retention) && Surplus(chain, s, retention, crashes)
    requires Enabled(chain, s, Seed)
    ensures Surplus(chain, Next(chain, s, Seed), retention, crashes)
  {
    SeededSurplus(chain, s.disk, retention, crashes);
  }

  lemma PendingIsRooted(chain: Chain, s: Machine)
    requires Inv(chain, s) && s.process.Up?
    ensures s.process.pending <= s.disk.roots
    ensures |s.process.window| <= s.process.retention + if s.process.phase.Trimming? then 1 else 0
  {
    FlushPays(chain, Claims(chain, s.process), s.process.pending, s.disk.roots);
  }

  lemma MemoryStepSurplus(chain: Chain, s: Machine, step: Step, retention: nat, crashes: nat)
    requires s.process.Up? && SurplusUp(chain, s.disk, s.process, retention, crashes)
    requires s.process.pending <= s.disk.roots
    requires |s.process.window| <= retention + if s.process.phase.Trimming? then 1 else 0
    requires LeavesRowsAlone(step) && Enabled(chain, s, step) && Next(chain, s, step).process.Up?
    ensures SurplusUp(chain, Next(chain, s, step).disk, Next(chain, s, step).process, retention, crashes)
  {
    FlushedCard(s.disk.roots, s.process.pending);
  }

  lemma SaveSurplus(chain: Chain, s: Machine, retention: nat, crashes: nat)
    requires Surplus(chain, s, retention, crashes) && Enabled(chain, s, Save)
    ensures Surplus(chain, Next(chain, s, Save), retention, crashes)
  {
  }

  lemma CrashSurplus(chain: Chain, d: Disk, p: Process, retention: nat, crashes: nat)
    requires p.Up? && InvWindow(d.rows, p.retention, p.window, p.phase, StateEntry(chain, p.ledgerState)) && SurplusUp(chain, d, p, retention, crashes)
    ensures |d.roots| <= Min(retention, |d.rows|) + crashes + 1
  {
  }

  lemma CrashStepSurplus(chain: Chain, s: Machine, retention: nat, crashes: nat)
    requires Inv(chain, s) && Surplus(chain, s, retention, crashes) && Enabled(chain, s, Crash)
    ensures Surplus(chain, Next(chain, s, Crash), retention, crashes + 1)
  {
    if s.process.Up? {
      CrashSurplus(chain, s.disk, s.process, retention, crashes);
    }
  }

  lemma UpStepSurplus(chain: Chain, s: Machine, step: Step, retention: nat, crashes: nat)
    requires WellFormed(chain) && Inv(chain, s) && Surplus(chain, s, retention, crashes)
    requires LeavesRowsAlone(step) && Enabled(chain, s, step)
    ensures Surplus(chain, Next(chain, s, step), retention, crashes)
  {
    MemoryStepStaysUp(chain, s, step);
    PendingIsRooted(chain, s);
    MemoryStepSurplus(chain, s, step, retention, crashes);
  }

  lemma StepSurplus(chain: Chain, s: Machine, step: Step, retention: nat, crashes: nat)
    requires WellFormed(chain) && retention > 0
    requires Inv(chain, s) && Keeps(chain, s, retention) && Surplus(chain, s, retention, crashes)
    requires Enabled(chain, s, step) && (step.Repair? ==> step.retention == retention)
    ensures Surplus(chain, Next(chain, s, step), retention, crashes + if step.Crash? then 1 else 0)
  {
    match step
    case Repair(_, roots) => RepairSurplus(chain, s, retention, roots, crashes);
    case Seed => SeedSurplus(chain, s, retention, crashes);
    case Crash => CrashStepSurplus(chain, s, retention, crashes);
    case Save => SaveSurplus(chain, s, retention, crashes);
    case _ => UpStepSurplus(chain, s, step, retention, crashes);
  }

  lemma {:induction false} RunSurplus(chain: Chain, steps: seq<Step>, states: seq<Machine>, retention: nat, i: nat)
    requires WellFormed(chain) && IsRun(chain, steps, states) && i < |states|
    requires retention > 0 && RetentionIs(steps, retention)
    ensures Surplus(chain, states[i], retention, Crashes(steps[..i]))
  {
    if i > 0 {
      assert StepAt(chain, steps, states, i - 1);
      RunKeepsInv(chain, steps, states, i - 1);
      RunKeeps(chain, steps, states, retention, i - 1);
      RunSurplus(chain, steps, states, retention, i - 1);
      StepSurplus(chain, states[i - 1], steps[i - 1], retention, Crashes(steps[..i - 1]));
      CrashesSnoc(steps, i);
    }
  }
}

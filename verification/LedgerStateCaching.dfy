/**
 The ledger state cache of the API: one cached ledger state behind a read-write lock, used by three
 kinds of requests with double-checked locking and a downgrade, while the chain keeps growing. Every
 lock operation, the storage read and the installation are steps of their own.
 */
module LedgerStateCaching {
  import opened Common

  type Leaf = nat
  type Request = nat

  datatype Tree = Zswap | Commitments | Generations

  /** The three Merkle trees of a stored ledger state. */
  datatype Ledger = Ledger(zswap: seq<Leaf>, commitments: seq<Leaf>, generations: seq<Leaf>)

  datatype Query = Query(tree: Tree, start: nat, end: nat)

  function Leaves(l: Ledger, tree: Tree): seq<Leaf> {
    match tree
    case Zswap => l.zswap
    case Commitments => l.commitments
    case Generations => l.generations
  }

  function FirstFree(l: Ledger, tree: Tree): nat {
    |Leaves(l, tree)|
  }

  /**
   `Update` stands for any function of the leaves in range; the others are the ways to fail. `Culled`
   is a cached state, loaded lazily, that is read after its nodes were collected.
   */
  datatype Answer = Update(start: nat, leaves: seq<Leaf>) | InvalidRange | NotFound | LoadFailed | Culled

  function CollapsedUpdate(l: Ledger, q: Query): Answer {
    if q.start <= q.end < FirstFree(l, q.tree) then Update(q.start, Leaves(l, q.tree)[q.start..q.end + 1])
    else InvalidRange
  }

  /** Zswap and commitment leaves are never rewritten; generation leaves may be, but are not removed. */
  ghost predicate Extends(a: Ledger, b: Ledger) {
    a.zswap <= b.zswap && a.commitments <= b.commitments && |a.generations| <= |b.generations|
  }

  /** `since` is the number of ledger states that were stored when the request began. */
  datatype Stage =
    | Begun(q: Query, since: nat)
    | Reading(q: Query, since: nat)
    | Waiting(q: Query, since: nat)
    | Writing(q: Query, since: nat)
    | Fetched(q: Query, since: nat, tip: nat)
    | Ready(q: Query, since: nat)
    | Done(q: Query, since: nat, answer: Answer)

  datatype State = State(
    chain: seq<Ledger>,
    cache: Option<nat>,
    readers: set<Request>,
    writer: Option<Request>,
    stage: map<Request, Stage>)

  datatype Step =
    | Grow(ledger: Ledger)
    | Begin(r: Request, q: Query)
    | LockRead(r: Request)
    | Hit(r: Request)
    | Miss(r: Request)
    | LockWrite(r: Request)
    | UpdatedMeanwhile(r: Request)
    | Fetch(r: Request)
    | FetchNothing(r: Request)
    | Install(r: Request)
    | FailLoad(r: Request)
    | Serve(r: Request)
    | FailServe(r: Request)

  function CachedFirstFree(s: State, tree: Tree): nat {
    if s.cache.Some? && s.cache.value < |s.chain| then FirstFree(s.chain[s.cache.value], tree) else 0
  }

  predicate Stale(s: State, q: Query) {
    q.end >= CachedFirstFree(s, q.tree)
  }

  ghost predicate Enabled(s: State, step: Step) {
    match step
    case Grow(l) => s.chain != [] ==> Extends(s.chain[|s.chain| - 1], l)
    case Begin(r, _) => r !in s.stage
    case LockRead(r) => r in s.stage && s.stage[r].Begun? && s.writer.None?
    case Hit(r) => r in s.stage && s.stage[r].Reading? && !Stale(s, s.stage[r].q)
    case Miss(r) => r in s.stage && s.stage[r].Reading? && Stale(s, s.stage[r].q)
    case LockWrite(r) => r in s.stage && s.stage[r].Waiting? && s.writer.None? && s.readers == {}
    case UpdatedMeanwhile(r) => r in s.stage && s.stage[r].Writing? && !Stale(s, s.stage[r].q)
    case Fetch(r) => r in s.stage && s.stage[r].Writing? && Stale(s, s.stage[r].q) && s.chain != []
    case FetchNothing(r) => r in s.stage && s.stage[r].Writing? && Stale(s, s.stage[r].q) && s.chain == []
    case Install(r) => r in s.stage && s.stage[r].Fetched?
    case FailLoad(r) => r in s.stage && s.stage[r].Fetched?
    case Serve(r) => r in s.stage && s.stage[r].Ready?
    case FailServe(r) => r in s.stage && s.stage[r].Ready?
  }

  /** What a request computes while it holds the read lock; `None` would be the unreachable panic. */
  function Served(s: State, q: Query): Option<Answer> {
    if s.cache.Some? && s.cache.value < |s.chain| then Some(CollapsedUpdate(s.chain[s.cache.value], q)) else None
  }

  ghost function Next(s: State, step: Step): State
    requires Enabled(s, step)
  {
    match step
    case Grow(l) => s.(chain := s.chain + [l])
    case Begin(r, q) => s.(stage := s.stage[r := Begun(q, |s.chain|)])
    case LockRead(r) =>
      s.(stage := s.stage[r := Reading(s.stage[r].q, s.stage[r].since)], readers := s.readers + {r})
    case Hit(r) => s.(stage := s.stage[r := Ready(s.stage[r].q, s.stage[r].since)])
    case Miss(r) =>
      s.(stage := s.stage[r := Waiting(s.stage[r].q, s.stage[r].since)], readers := s.readers - {r})
    case LockWrite(r) =>
      s.(stage := s.stage[r := Writing(s.stage[r].q, s.stage[r].since)], writer := Some(r))
    case UpdatedMeanwhile(r) =>
      s.(stage := s.stage[r := Ready(s.stage[r].q, s.stage[r].since)], writer := None, readers := s.readers + {r})
    case Fetch(r) =>
      s.(stage := s.stage[r := Fetched(s.stage[r].q, s.stage[r].since, |s.chain| - 1)])
    case FetchNothing(r) =>
      s.(stage := s.stage[r := Done(s.stage[r].q, s.stage[r].since, NotFound)], writer := None)
    case Install(r) =>
      s.(stage := s.stage[r := Ready(s.stage[r].q, s.stage[r].since)],
         cache := Some(s.stage[r].tip), writer := None, readers := s.readers + {r})
    case FailLoad(r) =>
      s.(stage := s.stage[r := Done(s.stage[r].q, s.stage[r].since, LoadFailed)], writer := None)
    case Serve(r) =>
      var answer := Served(s, s.stage[r].q);
      s.(stage := s.stage[r := Done(s.stage[r].q, s.stage[r].since, if answer.Some? then answer.value else NotFound)],
         readers := s.readers - {r})
    case FailServe(r) =>
      s.(stage := s.stage[r := Done(s.stage[r].q, s.stage[r].since, Culled)], readers := s.readers - {r})
  }

  function Initial(chain: seq<Ledger>): State {
    State(chain, None, {}, None, map[])
  }

  ghost predicate StepAt(steps: seq<Step>, states: seq<State>, i: nat)
    requires i < |steps| && |states| == |steps| + 1
  {
    Enabled(states[i], steps[i]) && states[i + 1] == Next(states[i], steps[i])
  }

  ghost predicate IsRun(chain: seq<Ledger>, steps: seq<Step>, states: seq<State>) {
    && |states| == |steps| + 1 && states[0] == Initial(chain) && Growing(chain)
    && forall i :: 0 <= i < |steps| ==> StepAt(steps, states, i)
  }

  // ---------------------------------------------------------------------------------------------
  // Invariants

  ghost predicate Growing(chain: seq<Ledger>) {
    forall i, j :: 0 <= i <= j < |chain| ==> Extends(chain[i], chain[j])
  }

  predicate HoldsRead(stage: Stage) { stage.Reading? || stage.Ready? }

  predicate HoldsWrite(stage: Stage) { stage.Writing? || stage.Fetched? }

  ghost predicate Locked(s: State) {
    && (s.writer.Some? ==> s.readers == {})
    && (forall r :: r in s.readers <==> r in s.stage && HoldsRead(s.stage[r]))
    && (forall r :: r in s.stage && HoldsWrite(s.stage[r]) ==> s.writer == Some(r))
  }

  /** The cached index never lies beyond what a request relies on. */
  ghost predicate StageInv(s: State, stage: Stage) {
    && stage.since <= |s.chain|
    && (stage.Fetched? ==>
          stage.tip < |s.chain| && stage.since <= stage.tip + 1 && (s.cache.Some? ==> s.cache.value <= stage.tip))
    && (stage.Ready? ==>
          s.cache.Some? && (!Stale(s, stage.q) || stage.since <= s.cache.value + 1))
    && (stage.Done? ==> Justified(s.chain, stage.q, stage.since, stage.answer))
  }

  /** The answer was computed from some stored ledger state, recent enough to know the range if it could. */
  ghost predicate Justified(chain: seq<Ledger>, q: Query, since: nat, answer: Answer) {
    answer == LoadFailed || answer == Culled || (answer == NotFound && since == 0) ||
    exists i :: 0 <= i < |chain| && answer == CollapsedUpdate(chain[i], q) &&
                (q.end < FirstFree(chain[i], q.tree) || since <= i + 1)
  }

  ghost predicate Inv(s: State) {
    && Growing(s.chain)
    && Locked(s)
    && (s.cache.Some? ==> s.cache.value < |s.chain|)
    && forall r :: r in s.stage ==> StageInv(s, s.stage[r])
  }

  lemma GrowKeeps(s: State, l: Ledger)
    requires Inv(s) && Enabled(s, Grow(l))
    ensures Inv(Next(s, Grow(l)))
  {
    var s' := Next(s, Grow(l));
    forall i, j | 0 <= i <= j < |s'.chain| ensures Extends(s'.chain[i], s'.chain[j]) {
      if j == |s.chain| && i < j {
        assert Extends(s.chain[i], s.chain[|s.chain| - 1]);
      }
    }
    forall r | r in s.stage ensures StageInv(s', s.stage[r]) {
      assert StageInv(s, s.stage[r]);
      assert s.cache.Some? ==> s'.chain[s.cache.value] == s.chain[s.cache.value];
      if s.stage[r].Done? {
        JustifiedLater(s.chain, l, s.stage[r]);
      }
    }
  }

  lemma JustifiedLater(chain: seq<Ledger>, l: Ledger, stage: Stage)
    requires stage.Done? && Justified(chain, stage.q, stage.since, stage.answer)
    ensures Justified(chain + [l], stage.q, stage.since, stage.answer)
  {
    if stage.answer != LoadFailed && stage.answer != Culled && stage.answer != NotFound {
      var i :| 0 <= i < |chain| && stage.answer == CollapsedUpdate(chain[i], stage.q) &&
               (stage.q.end < FirstFree(chain[i], stage.q.tree) || stage.since <= i + 1);
      assert (chain + [l])[i] == chain[i];
    }
  }

  /** A step of request `r` that leaves chain and cache alone only has to justify its own new stage. */
  lemma OthersKeep(s: State, s': State, r: Request)
    requires Inv(s) && s'.chain == s.chain && s'.cache == s.cache
    requires r in s'.stage && s'.stage == s.stage[r := s'.stage[r]] && StageInv(s', s'.stage[r])
    requires Locked(s')
    ensures Inv(s')
  {
    forall u | u in s'.stage ensures StageInv(s', s'.stage[u]) {
      if u != r {
        assert StageInv(s, s.stage[u]);
      }
    }
  }

  lemma InstallKeeps(s: State, r: Request)
    requires Inv(s) && Enabled(s, Install(r))
    ensures Inv(Next(s, Install(r)))
    ensures s.cache.Some? ==> s.cache.value <= Next(s, Install(r)).cache.value
  {
    var s' := Next(s, Install(r));
    assert StageInv(s, s.stage[r]);
    forall u | u in s'.stage ensures StageInv(s', s'.stage[u]) {
      if u != r {
        assert StageInv(s, s.stage[u]);
        assert !HoldsRead(s.stage[u]) && !HoldsWrite(s.stage[u]);
      }
    }
  }

  lemma ServeKeeps(s: State, r: Request)
    requires Inv(s) && Enabled(s, Serve(r))
    ensures Inv(Next(s, Serve(r)))
    ensures Served(s, s.stage[r].q).Some?
  {
    assert StageInv(s, s.stage[r]);
    var s' := Next(s, Serve(r));
    assert s'.stage[r].answer == CollapsedUpdate(s.chain[s.cache.value], s.stage[r].q);
    OthersKeep(s, s', r);
  }

  lemma RequestKeeps(s: State, step: Step)
    requires Inv(s) && Enabled(s, step) && !step.Grow? && !step.Install? && !step.Serve? && !step.Begin?
    ensures Inv(Next(s, step))
  {
    assert StageInv(s, s.stage[step.r]);
    var s' := Next(s, step);
    assert Locked(s');
    OthersKeep(s, s', step.r);
  }

  lemma StepKeeps(s: State, step: Step)
    requires Inv(s) && Enabled(s, step)
    ensures Inv(Next(s, step))
    ensures s.cache.Some? ==> Next(s, step).cache.Some? && s.cache.value <= Next(s, step).cache.value
  {
    match step
    case Grow(l) => GrowKeeps(s, l);
    case Begin(r, q) => OthersKeep(s, Next(s, step), r);
    case Install(r) => InstallKeeps(s, r);
    case Serve(r) => ServeKeeps(s, r);
    case _ => RequestKeeps(s, step);
  }

  lemma {:induction false} RunKeeps(chain: seq<Ledger>, steps: seq<Step>, states: seq<State>, i: nat)
    requires IsRun(chain, steps, states) && i < |states|
    ensures Inv(states[i])
  {
    if i > 0 {
      RunKeeps(chain, steps, states, i - 1);
      assert StepAt(steps, states, i - 1);
      StepKeeps(states[i - 1], steps[i - 1]);
    }
  }

  // ---------------------------------------------------------------------------------------------
  // Results

  /** The state a request is about to use exists: the expectation after loading never fails. */
  lemma NeverPanics(chain: seq<Ledger>, steps: seq<Step>, states: seq<State>, i: nat, r: Request)
    requires IsRun(chain, steps, states) && i < |states| && r in states[i].stage && states[i].stage[r].Ready?
    ensures Served(states[i], states[i].stage[r].q).Some?
  {
    RunKeeps(chain, steps, states, i);
    ServeKeeps(states[i], r);
  }

  /** The cached ledger state never moves to an earlier block, whichever requests replace it. */
  lemma {:induction false} CacheNeverGoesBack(chain: seq<Ledger>, steps: seq<Step>, states: seq<State>, i: nat, j: nat)
    requires IsRun(chain, steps, states) && i <= j < |states| && states[i].cache.Some?
    ensures states[j].cache.Some? && states[i].cache.value <= states[j].cache.value
  {
    if i < j {
      CacheNeverGoesBack(chain, steps, states, i, j - 1);
      RunKeeps(chain, steps, states, j - 1);
      assert StepAt(steps, states, j - 1);
      StepKeeps(states[j - 1], steps[j - 1]);
    }
  }

  /** For a tree that is only appended to, a range known to `a` reads the same in every later state. */
  lemma RangesAreStable(a: Ledger, b: Ledger, q: Query)
    requires Extends(a, b) && !q.tree.Generations? && q.end < FirstFree(a, q.tree)
    ensures CollapsedUpdate(a, q) == CollapsedUpdate(b, q)
  {
    var l, m := Leaves(a, q.tree), Leaves(b, q.tree);
    if q.start <= q.end {
      assert l[q.start..q.end + 1] == m[q.start..q.end + 1];
    }
  }

  function Tip(s: State): Ledger
    requires s.chain != []
  {
    s.chain[|s.chain| - 1]
  }

  /** Every update served for an append-only tree is the one the tip would give, at any later time. */
  lemma ServedAgreesWithTip(chain: seq<Ledger>, steps: seq<Step>, states: seq<State>, i: nat, r: Request)
    requires IsRun(chain, steps, states) && i < |states| && r in states[i].stage
    requires var d := states[i].stage[r]; d.Done? && d.answer.Update? && !d.q.tree.Generations?
    ensures states[i].chain != [] && states[i].stage[r].answer == CollapsedUpdate(Tip(states[i]), states[i].stage[r].q)
  {
    RunKeeps(chain, steps, states, i);
    var s := states[i];
    var d := s.stage[r];
    assert StageInv(s, d);
    var k :| 0 <= k < |s.chain| && d.answer == CollapsedUpdate(s.chain[k], d.q);
    RangesAreStable(s.chain[k], Tip(s), d.q);
  }

  /**
   A range that was stored when the request began is answered without fail: for an append-only tree
   with exactly what the tip would give, for any tree with an update if the range is not reversed.
   */
  lemma KnownRangesAreServed(chain: seq<Ledger>, steps: seq<Step>, states: seq<State>, i: nat, r: Request)
    requires IsRun(chain, steps, states) && i < |states| && r in states[i].stage && states[i].stage[r].Done?
    requires 0 < states[i].stage[r].since <= |states[i].chain|
    requires var d := states[i].stage[r]; d.q.end < FirstFree(states[i].chain[d.since - 1], d.q.tree)
    ensures var d := states[i].stage[r];
            d.answer.LoadFailed? || d.answer.Culled? || (d.answer.Update? <==> d.q.start <= d.q.end)
    ensures var d := states[i].stage[r];
            d.answer.LoadFailed? || d.answer.Culled? || d.q.tree.Generations? || d.answer == CollapsedUpdate(Tip(states[i]), d.q)
  {
    RunKeeps(chain, steps, states, i);
    var s := states[i];
    var d := s.stage[r];
    assert StageInv(s, d);
    if !d.answer.LoadFailed? && !d.answer.Culled? {
      var k :| 0 <= k < |s.chain| && d.answer == CollapsedUpdate(s.chain[k], d.q) &&
               (d.q.end < FirstFree(s.chain[k], d.q.tree) || d.since <= k + 1);
      if d.since <= k + 1 {
        assert Extends(s.chain[d.since - 1], s.chain[k]);
      }
      assert d.q.end < FirstFree(s.chain[k], d.q.tree);
      if !d.q.tree.Generations? {
        RangesAreStable(s.chain[k], Tip(s), d.q);
      }
    }
  }

  /** For the generations tree the answer comes from some stored state, which need not be the tip. */
  lemma GenerationsComeFromThePast(chain: seq<Ledger>, steps: seq<Step>, states: seq<State>, i: nat, r: Request)
    requires IsRun(chain, steps, states) && i < |states| && r in states[i].stage
    requires states[i].stage[r].Done? && states[i].stage[r].answer.Update?
    ensures exists k :: 0 <= k < |states[i].chain| &&
              states[i].stage[r].answer == CollapsedUpdate(states[i].chain[k], states[i].stage[r].q)
  {
    RunKeeps(chain, steps, states, i);
    assert StageInv(states[i], states[i].stage[r]);
  }

  lemma RunSnoc(chain: seq<Ledger>, steps: seq<Step>, states: seq<State>, step: Step)
    requires IsRun(chain, steps, states) && Enabled(states[|steps|], step)
    ensures IsRun(chain, steps + [step], states + [Next(states[|steps|], step)])
  {
    var steps', states' := steps + [step], states + [Next(states[|steps|], step)];
    forall i | 0 <= i < |steps'| ensures StepAt(steps', states', i) {
      assert i < |steps| ==> StepAt(steps, states, i);
    }
  }

  /** The steps, taken from `s`, lead to `s'`. */
  ghost predicate Leads(s: State, steps: seq<Step>, s': State)
    decreases |steps|
  {
    if steps == [] then s == s'
    else Enabled(s, steps[0]) && Leads(Next(s, steps[0]), steps[1..], s')
  }

  lemma {:induction false} LeadsSnoc(s: State, steps: seq<Step>, mid: State, step: Step)
    requires Leads(s, steps, mid) && Enabled(mid, step)
    ensures Leads(s, steps + [step], Next(mid, step))
    decreases |steps|
  {
    if steps != [] {
      LeadsSnoc(Next(s, steps[0]), steps[1..], mid, step);
      assert (steps + [step])[1..] == steps[1..] + [step];
    }
  }

  lemma {:induction false} LeadsExtendsRun(
    chain: seq<Ledger>, steps: seq<Step>, states: seq<State>, more: seq<Step>, end: State)
    returns (longer: seq<State>)
    requires IsRun(chain, steps, states) && Leads(states[|steps|], more, end)
    ensures IsRun(chain, steps + more, longer) && longer[|steps + more|] == end
    decreases |more|
  {
    if more == [] {
      assert steps + more == steps;
      longer := states;
    } else {
      var next := Next(states[|steps|], more[0]);
      RunSnoc(chain, steps, states, more[0]);
      assert steps + more == (steps + [more[0]]) + more[1..];
      longer := LeadsExtendsRun(chain, steps + [more[0]], states + [next], more[1..], end);
    }
  }

  /** No request holds the lock, and `r` has not been used. */
  predicate Free(s: State, r: Request) {
    s.readers == {} && s.writer.None? && r !in s.stage && (s.cache.Some? ==> s.cache.value < |s.chain|)
  }

  lemma ReadLeads(s: State, r: Request, q: Query)
    requires Free(s, r)
    ensures Leads(s, [Begin(r, q), LockRead(r)], s.(readers := {r}, stage := s.stage[r := Reading(q, |s.chain|)]))
  {
    var s1 := s.(stage := s.stage[r := Begun(q, |s.chain|)]);
    assert s1.stage[r := Reading(q, |s.chain|)] == s.stage[r := Reading(q, |s.chain|)];
    LeadsSnoc(s, [], s, Begin(r, q));
    LeadsSnoc(s, [Begin(r, q)], s1, LockRead(r));
    assert [] + [Begin(r, q)] == [Begin(r, q)] && [Begin(r, q)] + [LockRead(r)] == [Begin(r, q), LockRead(r)];
  }

  function ReadyFor(s: State, r: Request, q: Query): State {
    s.(readers := {r}, stage := s.stage[r := Ready(q, |s.chain|)])
  }

  lemma HitLeads(s: State, r: Request, q: Query)
    requires Free(s, r) && !Stale(s, q)
    ensures Leads(s, [Begin(r, q), LockRead(r), Hit(r)], ReadyFor(s, r, q))
  {
    var s2 := s.(readers := {r}, stage := s.stage[r := Reading(q, |s.chain|)]);
    ReadLeads(s, r, q);
    LeadsSnoc(s, [Begin(r, q), LockRead(r)], s2, Hit(r));
    assert s2.stage[r := Ready(q, |s.chain|)] == s.stage[r := Ready(q, |s.chain|)];
    assert [Begin(r, q), LockRead(r)] + [Hit(r)] == [Begin(r, q), LockRead(r), Hit(r)];
  }

  lemma WriteLeads(s: State, r: Request, q: Query)
    requires Free(s, r) && Stale(s, q)
    ensures Leads(s, [Begin(r, q), LockRead(r), Miss(r), LockWrite(r)],
                  s.(writer := Some(r), stage := s.stage[r := Writing(q, |s.chain|)]))
  {
    var s2 := s.(readers := {r}, stage := s.stage[r := Reading(q, |s.chain|)]);
    var s3 := s.(stage := s.stage[r := Waiting(q, |s.chain|)]);
    ReadLeads(s, r, q);
    LeadsSnoc(s, [Begin(r, q), LockRead(r)], s2, Miss(r));
    assert s2.stage[r := Waiting(q, |s.chain|)] == s3.stage && s2.readers - {r} == {};
    assert [Begin(r, q), LockRead(r)] + [Miss(r)] == [Begin(r, q), LockRead(r), Miss(r)];
    LeadsSnoc(s, [Begin(r, q), LockRead(r), Miss(r)], s3, LockWrite(r));
    assert s3.stage[r := Writing(q, |s.chain|)] == s.stage[r := Writing(q, |s.chain|)];
    assert [Begin(r, q), LockRead(r), Miss(r)] + [LockWrite(r)] == [Begin(r, q), LockRead(r), Miss(r), LockWrite(r)];
  }

  function FetchSteps(r: Request, q: Query): seq<Step> {
    [Begin(r, q), LockRead(r), Miss(r), LockWrite(r)] + [Fetch(r)]
  }

  lemma FetchLeads(s: State, r: Request, q: Query)
    requires Free(s, r) && Stale(s, q) && s.chain != []
    ensures Leads(s, FetchSteps(r, q),
                  s.(writer := Some(r), stage := s.stage[r := Fetched(q, |s.chain|, |s.chain| - 1)]))
  {
    var s4 := s.(writer := Some(r), stage := s.stage[r := Writing(q, |s.chain|)]);
    WriteLeads(s, r, q);
    LeadsSnoc(s, [Begin(r, q), LockRead(r), Miss(r), LockWrite(r)], s4, Fetch(r));
    assert s4.stage[r := Fetched(q, |s.chain|, |s.chain| - 1)] == s.stage[r := Fetched(q, |s.chain|, |s.chain| - 1)];
  }

  lemma LoadLeads(s: State, r: Request, q: Query)
    requires Free(s, r) && Stale(s, q) && s.chain != []
    ensures Leads(s, FetchSteps(r, q) + [Install(r)], ReadyFor(s.(cache := Some(|s.chain| - 1)), r, q))
  {
    var s5 := s.(writer := Some(r), stage := s.stage[r := Fetched(q, |s.chain|, |s.chain| - 1)]);
    InstalledIsReady(s, r, q, s5);
    FetchLeads(s, r, q);
    LeadsSnoc(s, FetchSteps(r, q), s5, Install(r));
  }

  lemma InstalledIsReady(s: State, r: Request, q: Query, s5: State)
    requires Free(s, r) && s.chain != []
    requires s5 == s.(writer := Some(r), stage := s.stage[r := Fetched(q, |s.chain|, |s.chain| - 1)])
    ensures Enabled(s5, Install(r)) && Next(s5, Install(r)) == ReadyFor(s.(cache := Some(|s.chain| - 1)), r, q)
  {
    assert s5.stage[r := Ready(q, |s.chain|)] == s.stage[r := Ready(q, |s.chain|)] && s5.readers + {r} == {r};
  }

  function Answered(s: State, r: Request, q: Query, answer: Answer): State {
    s.(stage := s.stage[r := Done(q, |s.chain|, answer)])
  }

  lemma FailLeads(s: State, r: Request, q: Query)
    requires Free(s, r) && Stale(s, q) && s.chain != []
    ensures Leads(s, FetchSteps(r, q) + [FailLoad(r)], Answered(s, r, q, LoadFailed))
  {
    var s5 := s.(writer := Some(r), stage := s.stage[r := Fetched(q, |s.chain|, |s.chain| - 1)]);
    FetchLeads(s, r, q);
    LeadsSnoc(s, FetchSteps(r, q), s5, FailLoad(r));
    assert s5.stage[r := Done(q, |s.chain|, LoadFailed)] == s.stage[r := Done(q, |s.chain|, LoadFailed)];
  }

  lemma NothingLeads(s: State, r: Request, q: Query)
    requires Free(s, r) && Stale(s, q) && s.chain == []
    ensures Leads(s, [Begin(r, q), LockRead(r), Miss(r), LockWrite(r)] + [FetchNothing(r)], Answered(s, r, q, NotFound))
  {
    var s4 := s.(writer := Some(r), stage := s.stage[r := Writing(q, |s.chain|)]);
    WriteLeads(s, r, q);
    LeadsSnoc(s, [Begin(r, q), LockRead(r), Miss(r), LockWrite(r)], s4, FetchNothing(r));
    assert s4.stage[r := Done(q, |s.chain|, NotFound)] == s.stage[r := Done(q, |s.chain|, NotFound)];
  }

  lemma ServeLeads(s: State, s0: State, steps: seq<Step>, r: Request, q: Query)
    requires Free(s0, r) && s0.cache.Some? && Leads(s, steps, ReadyFor(s0, r, q))
    ensures Leads(s, steps + [Serve(r)], Answered(s0, r, q, CollapsedUpdate(s0.chain[s0.cache.value], q)))
  {
    var ready, answer := ReadyFor(s0, r, q), CollapsedUpdate(s0.chain[s0.cache.value], q);
    LeadsSnoc(s, steps, ready, Serve(r));
    assert ready.stage[r := Done(q, |s0.chain|, answer)] == s0.stage[r := Done(q, |s0.chain|, answer)];
    assert ready.readers - {r} == {};
  }

  lemma CulledLeads(s: State, s0: State, steps: seq<Step>, r: Request, q: Query)
    requires Free(s0, r) && Leads(s, steps, ReadyFor(s0, r, q))
    ensures Leads(s, steps + [FailServe(r)], Answered(s0, r, q, Culled))
  {
    var ready := ReadyFor(s0, r, q);
    LeadsSnoc(s, steps, ready, FailServe(r));
    assert ready.stage[r := Done(q, |s0.chain|, Culled)] == s0.stage[r := Done(q, |s0.chain|, Culled)];
    assert ready.readers - {r} == {};
  }

  /** The first request finds nothing cached and loads the tip. */
  lemma FirstRequestLoads(l: Ledger, q: Query) returns (steps: seq<Step>, states: seq<State>)
    ensures IsRun([l], steps, states)
    ensures var s := states[|steps|];
            s.chain == [l] && s.cache == Some(0) && Free(s, 1)
  {
    var s := Initial([l]);
    var loaded := s.(cache := Some(0));
    LoadLeads(s, 0, q);
    ServeLeads(s, loaded, FetchSteps(0, q) + [Install(0)], 0, q);
    assert IsRun([l], [], [s]);
    steps := FetchSteps(0, q) + [Install(0)] + [Serve(0)];
    states := LeadsExtendsRun([l], [], [s], steps, Answered(loaded, 0, q, CollapsedUpdate(l, q)));
    assert [] + steps == steps;
  }

  /** A second request for a range the cached state knows is answered from it, though the chain has grown. */
  lemma SecondRequestHits(l: Ledger, tip: Ledger, q: Query) returns (steps: seq<Step>, states: seq<State>)
    requires q.end < FirstFree(l, q.tree) && Extends(l, tip)
    ensures IsRun([l], steps, states) && |steps| > 0 && steps[|steps| - 1] == Serve(1)
    ensures var s := states[|steps| - 1];
            s.chain == [l, tip] && 1 in s.stage && s.stage[1].Ready? && s.stage[1].q == q
            && Served(s, q) == Some(CollapsedUpdate(l, q))
  {
    steps, states := FirstRequestLoads(l, q);
    assert [l] + [tip] == [l, tip];
    var s := Next(states[|steps|], Grow(tip));
    RunSnoc([l], steps, states, Grow(tip));
    steps, states := steps + [Grow(tip)], states + [s];
    HitLeads(s, 1, q);
    states := LeadsExtendsRun([l], steps, states, [Begin(1, q), LockRead(1), Hit(1)], ReadyFor(s, 1, q));
    steps := steps + [Begin(1, q), LockRead(1), Hit(1)];
    RunSnoc([l], steps, states, Serve(1));
    steps, states := steps + [Serve(1)], states + [Next(ReadyFor(s, 1, q), Serve(1))];
  }

  /** What the serving step `i` answers, if it is an update for `tree`, is what the tip would give at that moment. */
  ghost predicate AnswersAsTip(tree: Tree, steps: seq<Step>, states: seq<State>, i: nat)
    requires i < |steps| < |states|
  {
    var s := states[i];
    steps[i].Serve? && steps[i].r in s.stage && s.stage[steps[i].r].Ready? && s.stage[steps[i].r].q.tree == tree ==>
      var q := s.stage[steps[i].r].q;
      var answer := Served(s, q);
      answer.Some? && answer.value.Update? ==> s.chain != [] && answer.value == CollapsedUpdate(Tip(s), q)
  }

  /** In every run, every update served for `tree` is the tip's. */
  ghost predicate AlwaysAsTip(tree: Tree) {
    forall chain, steps, states, i: nat | IsRun(chain, steps, states) && i < |steps| ::
      AnswersAsTip(tree, steps, states, i)
  }

  lemma ServesAsTip(s: State, q: Query)
    requires Inv(s) && !q.tree.Generations? && Served(s, q).Some? && Served(s, q).value.Update?
    ensures s.chain != [] && Served(s, q).value == CollapsedUpdate(Tip(s), q)
  {
    RangesAreStable(s.chain[s.cache.value], Tip(s), q);
  }

  lemma AppendOnlyAnswersAsTip(tree: Tree, chain: seq<Ledger>, steps: seq<Step>, states: seq<State>, i: nat)
    requires IsRun(chain, steps, states) && i < |steps| && !tree.Generations?
    ensures AnswersAsTip(tree, steps, states, i)
  {
    RunKeeps(chain, steps, states, i);
    var s := states[i];
    if steps[i].Serve? && steps[i].r in s.stage && s.stage[steps[i].r].Ready? {
      var q := s.stage[steps[i].r].q;
      if q.tree == tree && Served(s, q).Some? && Served(s, q).value.Update? {
        ServesAsTip(s, q);
      }
    }
  }

  /** A run in which a rewritten generation leaf is answered as it was before. */
  lemma GenerationsMayBeOutdated(q: Query) returns (chain: seq<Ledger>, steps: seq<Step>, states: seq<State>)
    requires q.tree.Generations? && q.start <= q.end
    ensures IsRun(chain, steps, states) && |steps| > 0 && !AnswersAsTip(q.tree, steps, states, |steps| - 1)
  {
    var a, b := seq(q.end + 1, _ => 0), seq(q.end + 1, _ => 1);
    var l, tip := Ledger([], [], a), Ledger([], [], b);
    assert a[q.start..q.end + 1][0] == 0 && b[q.start..q.end + 1][0] == 1;
    chain := [l];
    steps, states := SecondRequestHits(l, tip, q);
    assert Tip(states[|steps| - 1]) == tip;
  }

  /** In all runs every update served is the tip's if and only if the tree is one that is only appended to. */
  lemma AlwaysAsTipIff(tree: Tree)
    ensures AlwaysAsTip(tree) <==> !tree.Generations?
  {
    if tree.Generations? {
      var chain, steps, states := GenerationsMayBeOutdated(Query(tree, 0, 0));
      assert !AnswersAsTip(tree, steps, states, |steps| - 1);
    } else {
      forall chain, steps, states, i: nat | IsRun(chain, steps, states) && i < |steps|
        ensures AnswersAsTip(tree, steps, states, i)
      {
        AppendOnlyAnswersAsTip(tree, chain, steps, states, i);
      }
    }
  }

  // ---------------------------------------------------------------------------------------------
  // The cache as an object, for a caller that finds the lock free

  class LedgerStateCache {
    var cached: Option<Ledger>

    constructor ()
      ensures cached.None?
    {
      cached := None;
    }

    /** `s` is a state of the protocol in which this is cached. */
    ghost predicate Shows(s: State)
      reads this
    {
      && Growing(s.chain)
      && (s.cache.Some? ==> s.cache.value < |s.chain| && cached == Some(s.chain[s.cache.value]))
      && (s.cache.None? ==> cached.None?)
    }

    /**
     The double-checked body. It only loads when the cached state does not know the range yet, and
     yet answers as the tip would; what it does is what the protocol's steps do.
     */
    method MakeCollapsedUpdate(q: Query, chain: seq<Ledger>, loads: bool, readable: bool, ghost s: State, ghost r: Request)
      returns (answer: Answer, ghost steps: seq<Step>, ghost s': State)
      requires Shows(s) && s.chain == chain && Free(s, r)
      modifies this
      ensures Leads(s, steps, s') && Shows(s') && s' == Answered(s, r, q, answer).(cache := s'.cache)
      ensures chain != [] && !q.tree.Generations? && !answer.LoadFailed? && !answer.Culled? ==>
                answer == CollapsedUpdate(chain[|chain| - 1], q)
      ensures old(cached).Some? && q.end < FirstFree(old(cached).value, q.tree) ==>
                cached == old(cached) && answer == if readable then CollapsedUpdate(old(cached).value, q) else Culled
      ensures !(old(cached).Some? && q.end < FirstFree(old(cached).value, q.tree)) ==>
                if chain == [] then answer == NotFound && cached == old(cached)
                else if !loads then answer == LoadFailed && cached == old(cached)
                else
                  && cached == Some(chain[|chain| - 1])
                  && answer == if readable then CollapsedUpdate(chain[|chain| - 1], q) else Culled
    {
      var firstFree := if cached.Some? then FirstFree(cached.value, q.tree) else 0;
      if q.end >= firstFree {
        if chain == [] {
          NothingLeads(s, r, q);
          return NotFound, [Begin(r, q), LockRead(r), Miss(r), LockWrite(r)] + [FetchNothing(r)], Answered(s, r, q, NotFound);
        }
        if !loads {
          FailLeads(s, r, q);
          return LoadFailed, FetchSteps(r, q) + [FailLoad(r)], Answered(s, r, q, LoadFailed);
        }
        cached := Some(chain[|chain| - 1]);
        LoadLeads(s, r, q);
        steps, s' := FetchSteps(r, q) + [Install(r)], s.(cache := Some(|chain| - 1));
      } else {
        HitLeads(s, r, q);
        steps, s' := [Begin(r, q), LockRead(r), Hit(r)], s;
        if !q.tree.Generations? {
          RangesAreStable(cached.value, chain[|chain| - 1], q);
        }
      }
      if !readable {
        CulledLeads(s, s', steps, r, q);
        return Culled, steps + [FailServe(r)], Answered(s', r, q, Culled);
      }
      answer := CollapsedUpdate(cached.value, q);
      ServeLeads(s, s', steps, r, q);
      steps, s' := steps + [Serve(r)], Answered(s', r, q, answer);
    }
  }
}

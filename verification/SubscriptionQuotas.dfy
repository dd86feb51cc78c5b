/**
 Registering subscriptions: the per-connection counter and the per-session buckets, with every
 atomic operation of `try_acquire` and of dropping a guard as a step of its own, taken by any number
 of attempts on any number of connections in any order.
 */
module SubscriptionQuotas {
  import opened Common
  import opened TokenBuckets

  type Connection = nat
  type Session = nat
  type Attempt = nat

  /** Counted and not yet decided, refused by the session's bucket, or holding a guard. */
  datatype Stage = InFlight(session: Option<Session>) | Refused | Guarded

  datatype Config = Config(maxConcurrent: nat, rate: Rate)

  function ConfigOf(maxConcurrent: nat, perMinute: Limit): Config {
    Config(maxConcurrent, RateOf(perMinute))
  }

  /** `created` and `takes` record, per session, when its bucket was made and when it was asked. */
  datatype Quotas = Quotas(
    clock: real,
    counters: map<Connection, nat>,
    stage: map<Attempt, Stage>,
    owner: map<Attempt, Connection>,
    buckets: map<Session, Bucket>,
    created: map<Session, real>,
    takes: map<Session, seq<real>>)

  datatype Step =
    | Tick(elapsed: real)
    | Reserve(attempt: Attempt, connection: Connection, session: Option<Session>)
    | Overflow(connection: Connection)
    | Pass(attempt: Attempt)
    | Ask(attempt: Attempt)
    | Undo(attempt: Attempt)
    | Drop(attempt: Attempt)

  function Counter(q: Quotas, c: Connection): nat {
    if c in q.counters then q.counters[c] else 0
  }

  predicate Enabled(cfg: Config, q: Quotas, step: Step) {
    match step
    case Tick(elapsed) => elapsed >= 0.0
    case Reserve(a, c, _) => a !in q.owner && a !in q.stage && Counter(q, c) < cfg.maxConcurrent
    case Overflow(c) => Counter(q, c) >= cfg.maxConcurrent
    case Pass(a) => a in q.stage && q.stage[a] == InFlight(None)
    case Ask(a) => a in q.stage && q.stage[a].InFlight? && q.stage[a].session.Some?
    case Undo(a) => a in q.stage && q.stage[a].Refused? && a in q.owner
    case Drop(a) => a in q.stage && q.stage[a].Guarded? && a in q.owner
  }

  /** The session's bucket, made on first use. */
  function BucketOf(cfg: Config, q: Quotas, s: Session): Bucket {
    if s in q.buckets then q.buckets[s] else NewBucket(cfg.rate, q.clock)
  }

  function Asked(cfg: Config, q: Quotas, a: Attempt, s: Session): Quotas {
    var (bucket, allowed) := Take(cfg.rate, BucketOf(cfg, q, s), q.clock);
    q.(stage := q.stage[a := if allowed then Guarded else Refused],
       buckets := q.buckets[s := bucket],
       created := if s in q.buckets then q.created else q.created[s := q.clock],
       takes := q.takes[s := (if s in q.takes then q.takes[s] else []) + [q.clock]])
  }

  function Left(q: Quotas, a: Attempt): Quotas
    requires a in q.owner
  {
    var c := q.owner[a];
    q.(counters := q.counters[c := if Counter(q, c) > 0 then Counter(q, c) - 1 else 0],
       stage := q.stage - {a},
       owner := q.owner - {a})
  }

  function Next(cfg: Config, q: Quotas, step: Step): Quotas
    requires Enabled(cfg, q, step)
  {
    match step
    case Tick(elapsed) => q.(clock := q.clock + elapsed)
    case Reserve(a, c, session) =>
      q.(counters := q.counters[c := Counter(q, c) + 1],
         stage := q.stage[a := InFlight(session)],
         owner := q.owner[a := c])
    case Overflow(_) => q
    case Pass(a) => q.(stage := q.stage[a := Guarded])
    case Ask(a) => Asked(cfg, q, a, q.stage[a].session.value)
    case Undo(a) => Left(q, a)
    case Drop(a) => Left(q, a)
  }

  function Initial(clock: real): Quotas {
    Quotas(clock, map[], map[], map[], map[], map[], map[])
  }

  ghost predicate StepAt(cfg: Config, steps: seq<Step>, states: seq<Quotas>, i: nat)
    requires i < |steps| && |states| == |steps| + 1
  {
    Enabled(cfg, states[i], steps[i]) && states[i + 1] == Next(cfg, states[i], steps[i])
  }

  ghost predicate IsRun(cfg: Config, clock: real, steps: seq<Step>, states: seq<Quotas>) {
    && |states| == |steps| + 1 && states[0] == Initial(clock)
    && forall i :: 0 <= i < |steps| ==> StepAt(cfg, steps, states, i)
  }

  // ---------------------------------------------------------------------------------------------
  // The counter

  /** The attempts on a connection that are counted: in flight, refused but not undone, or guarded. */
  function Live(q: Quotas, c: Connection): set<Attempt> {
    Owned(q.owner, c)
  }

  function Owned(owner: map<Attempt, Connection>, c: Connection): set<Attempt> {
    set a | a in owner && owner[a] == c
  }

  lemma OwnedAfterReserve(owner: map<Attempt, Connection>, a: Attempt, c: Connection, d: Connection)
    requires a !in owner
    ensures |Owned(owner[a := c], d)| == |Owned(owner, d)| + if d == c then 1 else 0
  {
    if d == c {
      assert Owned(owner[a := c], d) == Owned(owner, d) + {a};
    } else {
      assert Owned(owner[a := c], d) == Owned(owner, d);
    }
  }

  ghost predicate CountersExact(cfg: Config, q: Quotas) {
    && q.owner.Keys == q.stage.Keys
    && forall c: Connection :: Counter(q, c) == |Live(q, c)| <= cfg.maxConcurrent
  }

  lemma ReserveKeeps(cfg: Config, q: Quotas, a: Attempt, c: Connection, session: Option<Session>)
    requires CountersExact(cfg, q) && Enabled(cfg, q, Reserve(a, c, session))
    ensures CountersExact(cfg, Next(cfg, q, Reserve(a, c, session)))
  {
    var q' := Next(cfg, q, Reserve(a, c, session));
    forall d: Connection ensures Counter(q', d) == |Live(q', d)| <= cfg.maxConcurrent {
      assert Counter(q, d) == |Live(q, d)| <= cfg.maxConcurrent;
      OwnedAfterReserve(q.owner, a, c, d);
    }
  }

  lemma LeaveKeeps(cfg: Config, q: Quotas, a: Attempt)
    requires CountersExact(cfg, q) && a in q.owner
    ensures CountersExact(cfg, Left(q, a))
    ensures Counter(q, q.owner[a]) > 0
    ensures Counter(Left(q, a), q.owner[a]) == Counter(q, q.owner[a]) - 1
  {
    var q' := Left(q, a);
    assert a in Live(q, q.owner[a]);
    forall d: Connection ensures Counter(q', d) == |Live(q', d)| <= cfg.maxConcurrent {
      assert Counter(q, d) == |Live(q, d)|;
      assert Live(q', d) == if d == q.owner[a] then Live(q, d) - {a} else Live(q, d);
    }
  }

  lemma SameOwners(cfg: Config, q: Quotas, q': Quotas)
    requires CountersExact(cfg, q) && q'.counters == q.counters && q'.owner == q.owner && q'.stage.Keys == q.stage.Keys
    ensures CountersExact(cfg, q')
  {
    forall c: Connection ensures Counter(q', c) == |Live(q', c)| <= cfg.maxConcurrent {
      assert Counter(q, c) == |Live(q, c)|;
      assert Live(q', c) == Live(q, c);
    }
  }

  lemma CounterStep(cfg: Config, q: Quotas, step: Step)
    requires CountersExact(cfg, q) && Enabled(cfg, q, step)
    ensures CountersExact(cfg, Next(cfg, q, step))
  {
    match step
    case Tick(_) => SameOwners(cfg, q, Next(cfg, q, step));
    case Reserve(a, c, session) => ReserveKeeps(cfg, q, a, c, session);
    case Overflow(_) =>
    case Pass(a) => SameOwners(cfg, q, Next(cfg, q, step));
    case Ask(a) => SameOwners(cfg, q, Next(cfg, q, step));
    case Undo(a) => LeaveKeeps(cfg, q, a);
    case Drop(a) => LeaveKeeps(cfg, q, a);
  }

  // ---------------------------------------------------------------------------------------------
  // The buckets

  /** The bucket is what its requests made of it, and no request lies in the future. */
  ghost predicate BucketExact(r: Rate, b: Bucket, created: real, times: seq<real>, now: real) {
    b == After(r, created, times) && InOrder(created, times + [now])
  }

  ghost predicate BucketsExact(cfg: Config, q: Quotas) {
    && q.buckets.Keys == q.created.Keys == q.takes.Keys
    && forall s :: s in q.buckets ==> BucketExact(cfg.rate, q.buckets[s], q.created[s], q.takes[s], q.clock)
  }

  lemma LaterInOrder(created: real, times: seq<real>, now: real, later: real)
    requires InOrder(created, times + [now]) && now <= later
    ensures InOrder(created, times + [later])
    ensures InOrder(created, times + [now] + [later])
  {
    var a, b, c := times + [now], times + [later], times + [now] + [later];
    assert a[|times|] == now;
    assert forall i :: 0 <= i < |times| ==> b[i] == a[i];
    assert forall i :: 0 <= i <= |times| ==> c[i] == a[i];
  }

  lemma AskedBucket(r: Rate, b: Bucket, created: real, times: seq<real>, now: real)
    requires BucketExact(r, b, created, times, now)
    ensures BucketExact(r, Take(r, b, now).0, created, times + [now], now)
    ensures Admitted(r, created, times + [now], |times|) == Take(r, b, now).1
  {
    assert (times + [now])[..|times|] == times;
    LaterInOrder(created, times, now, now);
  }

  function Requests(q: Quotas, s: Session): seq<real> {
    if s in q.takes then q.takes[s] else []
  }

  function CreatedAt(q: Quotas, s: Session): real {
    if s in q.created then q.created[s] else q.clock
  }

  /** Asking extends the session's requests by the present moment, and is decided by them alone. */
  lemma AskKeeps(cfg: Config, q: Quotas, a: Attempt)
    requires BucketsExact(cfg, q) && Enabled(cfg, q, Ask(a))
    ensures BucketsExact(cfg, Next(cfg, q, Ask(a)))
    ensures var s := q.stage[a].session.value;
            Next(cfg, q, Ask(a)).stage[a].Guarded? <==>
            Admitted(cfg.rate, CreatedAt(q, s), Requests(q, s) + [q.clock], |Requests(q, s)|)
  {
    var s := q.stage[a].session.value;
    assert BucketExact(cfg.rate, BucketOf(cfg, q, s), CreatedAt(q, s), Requests(q, s), q.clock);
    AskedBucket(cfg.rate, BucketOf(cfg, q, s), CreatedAt(q, s), Requests(q, s), q.clock);
    AskedKeeps(cfg, q, a, s);
  }

  lemma AskedKeeps(cfg: Config, q: Quotas, a: Attempt, s: Session)
    requires BucketsExact(cfg, q)
    requires BucketExact(cfg.rate, Take(cfg.rate, BucketOf(cfg, q, s), q.clock).0, CreatedAt(q, s),
                         Requests(q, s) + [q.clock], q.clock)
    ensures BucketsExact(cfg, Asked(cfg, q, a, s))
  {
    var q' := Asked(cfg, q, a, s);
    forall u | u in q'.buckets ensures BucketExact(cfg.rate, q'.buckets[u], q'.created[u], q'.takes[u], q'.clock) {
      if u != s {
        assert BucketExact(cfg.rate, q.buckets[u], q.created[u], q.takes[u], q.clock);
      }
    }
  }

  lemma TickKeeps(cfg: Config, q: Quotas, elapsed: real)
    requires BucketsExact(cfg, q) && elapsed >= 0.0
    ensures BucketsExact(cfg, Next(cfg, q, Tick(elapsed)))
  {
    forall s | s in q.buckets ensures InOrder(q.created[s], q.takes[s] + [q.clock + elapsed]) {
      assert BucketExact(cfg.rate, q.buckets[s], q.created[s], q.takes[s], q.clock);
      LaterInOrder(q.created[s], q.takes[s], q.clock, q.clock + elapsed);
    }
  }

  lemma BucketStep(cfg: Config, q: Quotas, step: Step)
    requires BucketsExact(cfg, q) && Enabled(cfg, q, step)
    ensures BucketsExact(cfg, Next(cfg, q, step))
  {
    match step
    case Tick(elapsed) => TickKeeps(cfg, q, elapsed);
    case Reserve(_, _, _) =>
    case Overflow(_) =>
    case Pass(_) =>
    case Ask(a) => AskKeeps(cfg, q, a);
    case Undo(_) =>
    case Drop(_) =>
  }

  // ---------------------------------------------------------------------------------------------
  // Whole runs

  lemma {:induction false} RunKeeps(cfg: Config, clock: real, steps: seq<Step>, states: seq<Quotas>, i: nat)
    requires IsRun(cfg, clock, steps, states) && i < |states|
    ensures CountersExact(cfg, states[i]) && BucketsExact(cfg, states[i])
  {
    if i == 0 {
      forall c: Connection ensures |Live(states[0], c)| == 0 {
        assert Live(states[0], c) == {};
      }
    } else {
      RunKeeps(cfg, clock, steps, states, i - 1);
      assert StepAt(cfg, steps, states, i - 1);
      CounterStep(cfg, states[i - 1], steps[i - 1]);
      BucketStep(cfg, states[i - 1], steps[i - 1]);
    }
  }

  /** On any connection there are never more guards than the limit, under every interleaving. */
  lemma GuardsWithinLimit(cfg: Config, clock: real, steps: seq<Step>, states: seq<Quotas>, i: nat, c: Connection, guards: set<Attempt>)
    requires IsRun(cfg, clock, steps, states) && i < |states|
    requires forall a :: a in guards ==>
               a in states[i].owner && states[i].owner[a] == c && a in states[i].stage && states[i].stage[a].Guarded?
    ensures |guards| <= Counter(states[i], c) <= cfg.maxConcurrent
  {
    RunKeeps(cfg, clock, steps, states, i);
    assert guards <= Live(states[i], c);
    SubsetIsNoLarger(guards, Live(states[i], c));
  }

  /** The decrements of a run never meet a counter at zero. */
  lemma NeverUnderflows(cfg: Config, clock: real, steps: seq<Step>, states: seq<Quotas>, i: nat, a: Attempt)
    requires IsRun(cfg, clock, steps, states) && i < |states| && a in states[i].owner
    ensures Counter(states[i], states[i].owner[a]) > 0
  {
    RunKeeps(cfg, clock, steps, states, i);
    LeaveKeeps(cfg, states[i], a);
  }

  /** When no attempt is undecided, an attempt is turned away exactly when all places hold guards. */
  lemma OverflowIffFull(cfg: Config, clock: real, steps: seq<Step>, states: seq<Quotas>, i: nat, c: Connection)
    requires IsRun(cfg, clock, steps, states) && i < |states|
    requires forall a :: a in Live(states[i], c) ==> a in states[i].stage && states[i].stage[a].Guarded?
    ensures Enabled(cfg, states[i], Overflow(c)) <==> |Live(states[i], c)| == cfg.maxConcurrent
  {
    RunKeeps(cfg, clock, steps, states, i);
    assert Counter(states[i], c) == |Live(states[i], c)|;
  }

  /** However connections and sessions interleave, each session stays within its rate in every interval. */
  lemma SessionsWithinRate(
    cfg: Config, n: Limit, clock: real, steps: seq<Step>, states: seq<Quotas>, i: nat, s: Session, from: real, to: real)
    requires cfg == ConfigOf(cfg.maxConcurrent, n)
    requires IsRun(cfg, clock, steps, states) && i < |states| && s in states[i].buckets && from <= to
    ensures s in states[i].created && s in states[i].takes
    ensures WithinRate(cfg.rate, states[i].created[s], states[i].takes[s], from, to)
  {
    RunKeeps(cfg, clock, steps, states, i);
    assert BucketExact(cfg.rate, states[i].buckets[s], states[i].created[s], states[i].takes[s], states[i].clock);
    PrefixInOrder(states[i].created[s], states[i].takes[s], states[i].clock);
    RateBound(n, states[i].created[s], states[i].takes[s], from, to);
  }

  // ---------------------------------------------------------------------------------------------
  // The program's own sequence of those steps

  /** The steps, taken from `q`, lead to `q'`. */
  ghost predicate Leads(cfg: Config, q: Quotas, steps: seq<Step>, q': Quotas)
    decreases |steps|
  {
    if steps == [] then q == q'
    else Enabled(cfg, q, steps[0]) && Leads(cfg, Next(cfg, q, steps[0]), steps[1..], q')
  }

  lemma {:induction false} LeadsSnoc(cfg: Config, q: Quotas, steps: seq<Step>, mid: Quotas, step: Step)
    requires Leads(cfg, q, steps, mid) && Enabled(cfg, mid, step)
    ensures Leads(cfg, q, steps + [step], Next(cfg, mid, step))
    decreases |steps|
  {
    if steps != [] {
      LeadsSnoc(cfg, Next(cfg, q, steps[0]), steps[1..], mid, step);
      assert (steps + [step])[1..] == steps[1..] + [step];
    }
  }

  lemma RunSnoc(cfg: Config, clock: real, steps: seq<Step>, states: seq<Quotas>, step: Step)
    requires IsRun(cfg, clock, steps, states) && Enabled(cfg, states[|steps|], step)
    ensures IsRun(cfg, clock, steps + [step], states + [Next(cfg, states[|steps|], step)])
  {
    var steps', states' := steps + [step], states + [Next(cfg, states[|steps|], step)];
    forall i | 0 <= i < |steps'| ensures StepAt(cfg, steps', states', i) {
      assert i < |steps| ==> StepAt(cfg, steps, states, i);
    }
  }

  /** What the object below performs extends runs, so all that is proved of runs holds of it. */
  lemma {:induction false} LeadsExtendsRun(
    cfg: Config, clock: real, steps: seq<Step>, states: seq<Quotas>, more: seq<Step>, end: Quotas)
    returns (longer: seq<Quotas>)
    requires IsRun(cfg, clock, steps, states) && Leads(cfg, states[|steps|], more, end)
    ensures IsRun(cfg, clock, steps + more, longer) && longer[|steps + more|] == end
    decreases |more|
  {
    if more == [] {
      assert steps + more == steps;
      longer := states;
    } else {
      var next := Next(cfg, states[|steps|], more[0]);
      RunSnoc(cfg, clock, steps, states, more[0]);
      assert steps + more == (steps + [more[0]]) + more[1..];
      longer := LeadsExtendsRun(cfg, clock, steps + [more[0]], states + [next], more[1..], end);
    }
  }

  function Reserved(q: Quotas, a: Attempt, c: Connection, session: Option<Session>): Quotas {
    q.(counters := q.counters[c := Counter(q, c) + 1],
       stage := q.stage[a := InFlight(session)],
       owner := q.owner[a := c])
  }

  predicate Unused(q: Quotas, a: Attempt) { a !in q.owner && a !in q.stage }

  lemma OverflowLeads(cfg: Config, q: Quotas, c: Connection)
    requires Counter(q, c) >= cfg.maxConcurrent
    ensures Leads(cfg, q, [Overflow(c)], q)
  {
    LeadsSnoc(cfg, q, [], q, Overflow(c));
    assert [] + [Overflow(c)] == [Overflow(c)];
  }

  lemma PassLeads(cfg: Config, q: Quotas, a: Attempt, c: Connection)
    requires Unused(q, a) && Counter(q, c) < cfg.maxConcurrent
    ensures Leads(cfg, q, [Reserve(a, c, None)] + [Pass(a)], Reserved(q, a, c, None).(stage := q.stage[a := Guarded]))
  {
    LeadsSnoc(cfg, q, [], q, Reserve(a, c, None));
    assert [] + [Reserve(a, c, None)] == [Reserve(a, c, None)];
    LeadsSnoc(cfg, q, [Reserve(a, c, None)], Reserved(q, a, c, None), Pass(a));
    assert q.stage[a := InFlight(None)][a := Guarded] == q.stage[a := Guarded];
  }

  lemma AskLeads(cfg: Config, q: Quotas, a: Attempt, c: Connection, s: Session)
    requires Unused(q, a) && Counter(q, c) < cfg.maxConcurrent
    ensures Leads(cfg, q, [Reserve(a, c, Some(s))] + [Ask(a)], Asked(cfg, Reserved(q, a, c, Some(s)), a, s))
  {
    LeadsSnoc(cfg, q, [], q, Reserve(a, c, Some(s)));
    assert [] + [Reserve(a, c, Some(s))] == [Reserve(a, c, Some(s))];
    LeadsSnoc(cfg, q, [Reserve(a, c, Some(s))], Reserved(q, a, c, Some(s)), Ask(a));
  }

  lemma UndoLeads(cfg: Config, q: Quotas, steps: seq<Step>, mid: Quotas, a: Attempt)
    requires Leads(cfg, q, steps, mid) && a in mid.stage && mid.stage[a].Refused? && a in mid.owner
    ensures Leads(cfg, q, steps + [Undo(a)], Left(mid, a))
  {
    LeadsSnoc(cfg, q, steps, mid, Undo(a));
  }

  /** Counting and asking, where the bucket grants. */
  lemma GrantLeads(cfg: Config, q: Quotas, a: Attempt, c: Connection, s: Session) returns (q': Quotas)
    requires Unused(q, a) && Counter(q, c) < cfg.maxConcurrent
    requires Take(cfg.rate, BucketOf(cfg, q, s), q.clock).1
    ensures Leads(cfg, q, [Reserve(a, c, Some(s))] + [Ask(a)], q')
    ensures q'.counters == q.counters[c := Counter(q, c) + 1]
    ensures q'.buckets == q.buckets[s := Take(cfg.rate, BucketOf(cfg, q, s), q.clock).0]
    ensures q'.stage == q.stage[a := Guarded] && q'.owner == q.owner[a := c]
  {
    AskLeads(cfg, q, a, c, s);
    q' := Asked(cfg, Reserved(q, a, c, Some(s)), a, s);
    assert q.stage[a := InFlight(Some(s))][a := Guarded] == q.stage[a := Guarded];
  }

  /** Counting, asking and undoing, where the bucket refuses. */
  lemma RefuseLeads(cfg: Config, q: Quotas, a: Attempt, c: Connection, s: Session) returns (q': Quotas)
    requires Unused(q, a) && Counter(q, c) < cfg.maxConcurrent
    requires !Take(cfg.rate, BucketOf(cfg, q, s), q.clock).1
    ensures Leads(cfg, q, [Reserve(a, c, Some(s))] + [Ask(a)] + [Undo(a)], q')
    ensures q'.counters == q.counters[c := Counter(q, c)]
    ensures q'.buckets == q.buckets[s := Take(cfg.rate, BucketOf(cfg, q, s), q.clock).0]
    ensures q'.stage == q.stage && q'.owner == q.owner
  {
    AskLeads(cfg, q, a, c, s);
    var mid := Asked(cfg, Reserved(q, a, c, Some(s)), a, s);
    UndoLeads(cfg, q, [Reserve(a, c, Some(s))] + [Ask(a)], mid, a);
    q' := Left(mid, a);
  }

  datatype Outcome = Granted | PerConnection(limit: nat) | PerSessionRate

  class Registry {
    const cfg: Config
    var counters: map<Connection, nat>
    var buckets: map<Session, Bucket>

    constructor (cfg: Config)
      ensures this.cfg == cfg && counters == map[] && buckets == map[]
    {
      this.cfg, counters, buckets := cfg, map[], map[];
    }

    function CounterOf(c: Connection): nat
      reads this
    {
      if c in counters then counters[c] else 0
    }

    /** `q` is a state of the protocol with these counters and buckets. */
    ghost predicate Shows(q: Quotas)
      reads this
    {
      q.counters == counters && q.buckets == buckets
    }

    /** The session's bucket, or the one it would be given now. */
    function BucketFor(s: Session, now: real): Bucket
      reads this
    {
      if s in buckets then buckets[s] else NewBucket(cfg.rate, now)
    }

    /** Taking a token from the session's bucket, which is made on first use. */
    method TryTake(s: Session, now: real) returns (allowed: bool)
      modifies `buckets
      ensures buckets == old(buckets)[s := Take(cfg.rate, old(BucketFor(s, now)), now).0]
      ensures allowed <==> Refill(cfg.rate, old(BucketFor(s, now)), now).tokens >= 1.0
      ensures !allowed ==> buckets[s] == Refill(cfg.rate, old(BucketFor(s, now)), now)
    {
      if s !in buckets {
        buckets := buckets[s := NewBucket(cfg.rate, now)];
      }
      var (bucket, taken) := Take(cfg.rate, buckets[s], now);
      buckets := buckets[s := bucket];
      allowed := taken;
    }

    /** The attempt once it is counted and has a session: the bucket decides. */
    method AskSession(c: Connection, s: Session, now: real, ghost q: Quotas, ghost a: Attempt)
      returns (granted: bool, ghost steps: seq<Step>, ghost q': Quotas)
      requires q.clock == now && Unused(q, a) && Counter(q, c) < cfg.maxConcurrent
      requires counters == q.counters[c := Counter(q, c) + 1] && buckets == q.buckets
      modifies this
      ensures Leads(cfg, q, steps, q') && Shows(q')
      ensures granted ==> q'.stage == q.stage[a := Guarded] && q'.owner == q.owner[a := c]
      ensures !granted ==> q'.stage == q.stage && q'.owner == q.owner
      ensures counters == q.counters[c := Counter(q, c) + if granted then 1 else 0]
      ensures granted <==> Refill(cfg.rate, old(BucketFor(s, now)), now).tokens >= 1.0
      ensures buckets == old(buckets)[s := Take(cfg.rate, old(BucketFor(s, now)), now).0]
      ensures !granted ==> buckets[s] == Refill(cfg.rate, old(BucketFor(s, now)), now)
    {
      granted := TryTake(s, now);
      if granted {
        q' := GrantLeads(cfg, q, a, c, s);
        steps := [Reserve(a, c, Some(s))] + [Ask(a)];
      } else {
        counters := counters[c := counters[c] - 1];
        q' := RefuseLeads(cfg, q, a, c, s);
        steps := [Reserve(a, c, Some(s))] + [Ask(a)] + [Undo(a)];
      }
    }

    /**
     A refusal, for either reason, gives back what it counted; only a grant keeps a place and a
     token. What it does are steps of the protocol.
     */
    method TryAcquire(c: Connection, session: Option<Session>, now: real, ghost q: Quotas, ghost a: Attempt)
      returns (r: Outcome, ghost steps: seq<Step>, ghost q': Quotas)
      requires Shows(q) && q.clock == now && Unused(q, a)
      modifies this
      ensures Leads(cfg, q, steps, q') && Shows(q')
      ensures r.Granted? ==> q'.stage == q.stage[a := Guarded] && q'.owner == q.owner[a := c]
      ensures !r.Granted? ==> q'.stage == q.stage && q'.owner == q.owner
      ensures r.PerConnection? <==> old(CounterOf(c)) >= cfg.maxConcurrent
      ensures forall d :: CounterOf(d) == old(CounterOf(d)) + if d == c && r.Granted? then 1 else 0
      ensures session.None? || r.PerConnection? ==> buckets == old(buckets) && !r.PerSessionRate?
      ensures session.Some? && !r.PerConnection? ==>
        var was := old(BucketFor(session.value, now));
        && buckets == old(buckets)[session.value := Take(cfg.rate, was, now).0]
        && (r.Granted? <==> Refill(cfg.rate, was, now).tokens >= 1.0)
        && (r.PerSessionRate? ==> buckets[session.value] == Refill(cfg.rate, was, now))
    {
      var current := CounterOf(c);
      if current >= cfg.maxConcurrent {
        OverflowLeads(cfg, q, c);
        return PerConnection(cfg.maxConcurrent), [Overflow(c)], q;
      }
      counters := counters[c := current + 1];
      if session.None? {
        PassLeads(cfg, q, a, c);
        steps, q' := [Reserve(a, c, None)] + [Pass(a)], Reserved(q, a, c, None).(stage := q.stage[a := Guarded]);
        return Granted, steps, q';
      }
      var granted;
      granted, steps, q' := AskSession(c, session.value, now, q, a);
      r := if granted then Granted else PerSessionRate;
    }

    /** Dropping a guard. */
    method Release(c: Connection, ghost q: Quotas, ghost a: Attempt) returns (ghost q': Quotas)
      requires Shows(q) && a in q.stage && q.stage[a].Guarded? && a in q.owner && q.owner[a] == c
      requires CounterOf(c) > 0
      modifies `counters
      ensures Leads(cfg, q, [Drop(a)], q') && Shows(q') && q'.owner == q.owner - {a}
      ensures forall d :: CounterOf(d) == old(CounterOf(d)) - if d == c then 1 else 0
    {
      counters := counters[c := CounterOf(c) - 1];
      q' := Left(q, a);
      LeadsSnoc(cfg, q, [], q, Drop(a));
      assert [] + [Drop(a)] == [Drop(a)];
    }
  }
}

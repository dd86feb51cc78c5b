/**
 Dust figures of an address: 128-bit saturating accumulation over its active generations, and the
 separate computation of the same figures for the newest generation alone.
 */
module DustCapacity {
  import opened Common

  const U128_MAX: nat := 0xFFFF_FFFF_FFFF_FFFF_FFFF_FFFF_FFFF_FFFF
  const U64_SIZE: nat := 0x1_0000_0000_0000_0000

  type U128 = n: nat | n <= U128_MAX

  function Clip(n: nat): U128 { if n <= U128_MAX then n else U128_MAX }

  function SaturatingAdd(a: U128, b: U128): U128 { Clip(a + b) }

  function SaturatingMul(a: U128, b: U128): U128 { Clip(a * b) }

  /** An active generation: its value in STAR and its creation time in seconds. */
  datatype Generation = Generation(value: U128, ctime: nat)

  datatype Params = Params(decayRate: U128, dustRatio: U128)

  datatype Figures = Figures(nightBalance: U128, generationRate: U128, maxCapacity: U128, currentCapacity: U128)

  /** Seconds to milliseconds in 64 bits. */
  function ToMs(secs: nat): nat { secs * 1000 % U64_SIZE }

  function ElapsedSeconds(now: nat, earlier: nat): nat {
    if now <= earlier then 0 else (now - earlier) / 1000
  }

  // ---------------------------------------------------------------------------------------------
  // What the figures mean, without any bound on numbers

  function Sum(gens: seq<Generation>, f: Generation -> nat): nat {
    if gens == [] then 0 else Sum(gens[..|gens| - 1], f) + f(gens[|gens| - 1])
  }

  function Value(): Generation -> nat { (g: Generation) => g.value }

  function RateOf(p: Params): Generation -> nat { (g: Generation) => g.value * p.decayRate }

  function CapOf(p: Params): Generation -> nat { (g: Generation) => g.value * p.dustRatio }

  /** Dust generated so far, up to the cap; nothing is known to have been generated without a block. */
  function GeneratedOf(p: Params, now: Option<nat>): Generation -> nat {
    (g: Generation) =>
      if now.None? then 0
      else Min(g.value * p.decayRate * ElapsedSeconds(now.value, ToMs(g.ctime)), g.value * p.dustRatio)
  }

  function TrueFigures(gens: seq<Generation>, p: Params, now: Option<nat>): Figures {
    Figures(
      Clip(Sum(gens, Value())),
      Clip(Sum(gens, RateOf(p))),
      Clip(Sum(gens, CapOf(p))),
      Clip(Sum(gens, GeneratedOf(p, now))))
  }

  // ---------------------------------------------------------------------------------------------
  // Saturation

  lemma ClipAdd(a: nat, b: nat)
    ensures SaturatingAdd(Clip(a), Clip(b)) == Clip(a + b)
  {
  }

  lemma ClipMul(a: nat, e: nat)
    ensures Clip(Clip(a) * e) == Clip(a * e)
  {
    if a > U128_MAX && e > 0 {
      AtLeast(a, e);
      AtLeast(U128_MAX, e);
    }
  }

  lemma AtLeast(a: nat, e: nat)
    requires e > 0
    ensures a * e >= a
  {
    assert a * e == a + a * (e - 1);
    assert a * (e - 1) >= 0;
  }

  lemma ClipMin(a: nat, b: nat)
    ensures Min(Clip(a), Clip(b)) == Clip(Min(a, b))
  {
  }

  /** The capped capacity of one generation, computed with saturation, is the true one clipped. */
  lemma CapacityOfOne(g: Generation, p: Params, e: nat)
    requires e <= U128_MAX
    ensures Min(SaturatingMul(SaturatingMul(g.value, p.decayRate), e), SaturatingMul(g.value, p.dustRatio)) ==
            Clip(Min(g.value * p.decayRate * e, g.value * p.dustRatio))
  {
    ClipMul(g.value * p.decayRate, e);
    ClipMin(g.value * p.decayRate * e, g.value * p.dustRatio);
  }

  /** Milliseconds since the epoch are stored in 64 bits. */
  ghost predicate IsTime(now: Option<nat>) { now.Some? ==> now.value < U64_SIZE }

  lemma ElapsedFits(now: nat, earlier: nat)
    requires now < U64_SIZE
    ensures ElapsedSeconds(now, earlier) <= U128_MAX
  {
  }

  lemma SumSnoc(gens: seq<Generation>, g: Generation, f: Generation -> nat)
    ensures Sum(gens + [g], f) == Sum(gens, f) + f(g)
  {
    assert (gens + [g])[..|gens|] == gens;
  }

  /** Adding a clipped term to a clipped sum gives the clipped longer sum. */
  lemma AddOne(gens: seq<Generation>, g: Generation, f: Generation -> nat, total: U128, term: U128)
    requires total == Clip(Sum(gens, f)) && term == Clip(f(g))
    ensures SaturatingAdd(total, term) == Clip(Sum(gens + [g], f))
  {
    SumSnoc(gens, g, f);
    ClipAdd(Sum(gens, f), f(g));
  }

  /** The capacity of one generation at a given time. */
  method CapacityOf(g: Generation, p: Params, time: nat, cap: U128) returns (r: U128)
    requires time < U64_SIZE && cap == SaturatingMul(g.value, p.dustRatio)
    ensures r == Clip(GeneratedOf(p, Some(time))(g))
  {
    var elapsed := ElapsedSeconds(time, ToMs(g.ctime));
    ElapsedFits(time, ToMs(g.ctime));
    CapacityOfOne(g, p, elapsed);
    r := Min(SaturatingMul(SaturatingMul(g.value, p.decayRate), elapsed), cap);
  }

  /** The aggregate over all active generations: every figure is the true sum, clipped once. */
  method Aggregate(gens: seq<Generation>, p: Params, now: Option<nat>) returns (r: Figures)
    requires IsTime(now)
    ensures r == TrueFigures(gens, p, now)
  {
    var nightBalance, generationRate, maxCapacity, currentCapacity: U128 := 0, 0, 0, 0;
    for i := 0 to |gens|
      invariant Figures(nightBalance, generationRate, maxCapacity, currentCapacity) == TrueFigures(gens[..i], p, now)
    {
      ghost var before := gens[..i];
      var g := gens[i];
      assert gens[..i + 1] == before + [g];
      var rate, cap := SaturatingMul(g.value, p.decayRate), SaturatingMul(g.value, p.dustRatio);
      AddOne(before, g, Value(), nightBalance, g.value);
      nightBalance := SaturatingAdd(nightBalance, g.value);
      AddOne(before, g, RateOf(p), generationRate, rate);
      generationRate := SaturatingAdd(generationRate, rate);
      AddOne(before, g, CapOf(p), maxCapacity, cap);
      maxCapacity := SaturatingAdd(maxCapacity, cap);
      if now.Some? {
        var capacity := CapacityOf(g, p, now.value, cap);
        AddOne(before, g, GeneratedOf(p, now), currentCapacity, capacity);
        currentCapacity := SaturatingAdd(currentCapacity, capacity);
      } else {
        AddOne(before, g, GeneratedOf(p, now), currentCapacity, 0);
      }
    }
    assert gens[..|gens|] == gens;
    r := Figures(nightBalance, generationRate, maxCapacity, currentCapacity);
  }

  // ---------------------------------------------------------------------------------------------
  // Capacity within bounds and over time

  lemma {:induction false} SumMonotone(gens: seq<Generation>, f: Generation -> nat, h: Generation -> nat)
    requires forall g :: g in gens ==> f(g) <= h(g)
    ensures Sum(gens, f) <= Sum(gens, h)
  {
    if gens != [] {
      SumMonotone(gens[..|gens| - 1], f, h);
    }
  }

  lemma ElapsedGrows(a: nat, b: nat, earlier: nat)
    requires a <= b
    ensures ElapsedSeconds(a, earlier) <= ElapsedSeconds(b, earlier)
  {
  }

  lemma TimesGrows(x: nat, e: nat, f: nat)
    requires e <= f
    ensures x * e <= x * f
  {
    assert x * f == x * e + x * (f - e);
  }

  /** Current capacity never exceeds the maximum. */
  lemma CurrentWithinMax(gens: seq<Generation>, p: Params, now: Option<nat>)
    ensures TrueFigures(gens, p, now).currentCapacity <= TrueFigures(gens, p, now).maxCapacity
  {
    SumMonotone(gens, GeneratedOf(p, now), CapOf(p));
  }

  /** As blocks advance, the current capacity never falls, and the other figures do not move. */
  lemma CurrentNeverFalls(gens: seq<Generation>, p: Params, now: nat, later: nat)
    requires now <= later
    ensures TrueFigures(gens, p, Some(now)).currentCapacity <= TrueFigures(gens, p, Some(later)).currentCapacity
    ensures TrueFigures(gens, p, None).currentCapacity == 0
    ensures TrueFigures(gens, p, Some(now)).(currentCapacity := 0) == TrueFigures(gens, p, Some(later)).(currentCapacity := 0)
  {
    forall g | g in gens ensures GeneratedOf(p, Some(now))(g) <= GeneratedOf(p, Some(later))(g) {
      var c := ToMs(g.ctime);
      ElapsedGrows(now, later, c);
      TimesGrows(g.value * p.decayRate, ElapsedSeconds(now, c), ElapsedSeconds(later, c));
    }
    SumMonotone(gens, GeneratedOf(p, Some(now)), GeneratedOf(p, Some(later)));
    SumMonotone(gens, GeneratedOf(p, None), (g: Generation) => 0);
    SumOfZero(gens);
  }

  lemma {:induction false} SumOfZero(gens: seq<Generation>)
    ensures Sum(gens, (g: Generation) => 0) == 0
  {
    if gens != [] {
      SumOfZero(gens[..|gens| - 1]);
    }
  }

  // ---------------------------------------------------------------------------------------------
  // The single-generation path

  /** `g` is one of the newest active generations. */
  ghost predicate IsNewest(gens: seq<Generation>, g: Generation) {
    g in gens && forall h :: h in gens ==> h.ctime <= g.ctime
  }

  method Newest(gens: seq<Generation>) returns (r: Option<Generation>)
    ensures r.None? <==> gens == []
    ensures r.Some? ==> IsNewest(gens, r.value)
  {
    r := None;
    for i := 0 to |gens|
      invariant r.None? <==> i == 0
      invariant r.Some? ==> IsNewest(gens[..i], r.value)
    {
      if r.None? || r.value.ctime < gens[i].ctime {
        r := Some(gens[i]);
      }
      assert gens[..i + 1] == gens[..i] + [gens[i]];
    }
    assert gens[..|gens|] == gens;
  }

  /**
   The status of one reward address, from the newest active generation of its registration. Without
   any block the creation time stands in for the present.
   */
  method SingleStatus(registered: bool, gens: seq<Generation>, p: Params, now: Option<nat>)
    returns (r: Figures, ghost used: seq<Generation>)
    requires IsTime(now)
    ensures r == TrueFigures(used, p, now)
    ensures used == [] <==> !registered || gens == []
    ensures used != [] ==> |used| == 1 && IsNewest(gens, used[0])
    ensures registered && |gens| <= 1 ==> r == TrueFigures(gens, p, now)
  {
    r, used := Figures(0, 0, 0, 0), [];
    if registered {
      var newest := Newest(gens);
      if newest.Some? {
        var g := newest.value;
        used := [g];
        var rate := SaturatingMul(g.value, p.decayRate);
        var time := if now.Some? then now.value else ToMs(g.ctime);
        var cap := SaturatingMul(g.value, p.dustRatio);
        var generated := CapacityOf(g, p, time, cap);
        SumOfOne(g, p, now);
        NothingElapsed(g, p);
        r := Figures(g.value, rate, cap, generated);
        assert |gens| == 1 ==> used == gens;
      }
    }
  }

  lemma SumSingle(g: Generation, f: Generation -> nat)
    ensures Sum([g], f) == f(g)
  {
    assert [] + [g] == [g];
    SumSnoc([], g, f);
  }

  lemma SumOfOne(g: Generation, p: Params, now: Option<nat>)
    ensures TrueFigures([g], p, now) ==
            Figures(Clip(Value()(g)), Clip(RateOf(p)(g)), Clip(CapOf(p)(g)), Clip(GeneratedOf(p, now)(g)))
  {
    SumSingle(g, Value());
    SumSingle(g, RateOf(p));
    SumSingle(g, CapOf(p));
    SumSingle(g, GeneratedOf(p, now));
  }

  /** Measured from its own creation, a generation has generated nothing yet. */
  lemma NothingElapsed(g: Generation, p: Params)
    ensures GeneratedOf(p, Some(ToMs(g.ctime)))(g) == 0
  {
    assert g.value * p.decayRate * 0 == 0;
  }
}

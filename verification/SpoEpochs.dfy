/**
 Epochs of the stake-pool indexer: how slots and expected blocks are spread over a committee, and
 which epoch is processed next.
 */
module SpoEpochs {
  import opened Common

  const SLOT_DURATION: nat := 6000
  const U32_SIZE: nat := 0x1_0000_0000

  /** The node's slot count; an epoch lasts that many slots. */
  datatype Client = Client(slotsPerEpoch: nat, epochDuration: nat)

  function ClientOf(slotsPerEpoch: nat): Client {
    Client(slotsPerEpoch, SLOT_DURATION * slotsPerEpoch)
  }

  datatype Epoch = Epoch(no: int, startsAt: int, endsAt: int)

  // ---------------------------------------------------------------------------------------------
  // Spreading slots and blocks

  function Sum(xs: seq<nat>): nat {
    if xs == [] then 0 else Sum(xs[..|xs| - 1]) + xs[|xs| - 1]
  }

  /** `share` for each of `n`, and one more for the first `extra`. */
  function Spread(n: nat, share: nat, extra: nat): seq<nat> {
    seq(n, i => share + if i < extra then 1 else 0)
  }

  lemma {:induction false} SumOfSpread(n: nat, share: nat, extra: nat)
    ensures Sum(Spread(n, share, extra)) == n * share + if extra <= n then extra else n
  {
    if n > 0 {
      SumOfSpread(n - 1, share, extra);
      assert Spread(n, share, extra)[..n - 1] == Spread(n - 1, share, extra);
      assert n * share == (n - 1) * share + share;
    }
  }

  /** Expected slots of the members of a committee of `n`, by position. */
  function ExpectedSlots(client: Client, n: nat): seq<nat> {
    if n == 0 then [] else Spread(n, client.slotsPerEpoch / n, client.slotsPerEpoch % n)
  }

  /** Every slot of the epoch is expected of exactly one member, and no two members differ by more than one. */
  lemma SlotsAddUp(client: Client, n: nat)
    requires n > 0
    ensures |ExpectedSlots(client, n)| == n && Sum(ExpectedSlots(client, n)) == client.slotsPerEpoch
    ensures forall i, j :: 0 <= i <= j < n ==>
              ExpectedSlots(client, n)[j] <= ExpectedSlots(client, n)[i] <= ExpectedSlots(client, n)[j] + 1
  {
    var share, extra := client.slotsPerEpoch / n, client.slotsPerEpoch % n;
    SumOfSpread(n, share, extra);
    SpreadIsFair(n, share, extra);
    DivisionAddsUp(client.slotsPerEpoch, n);
  }

  lemma SpreadIsFair(n: nat, share: nat, extra: nat)
    ensures forall i, j :: 0 <= i <= j < n ==>
              Spread(n, share, extra)[j] <= Spread(n, share, extra)[i] <= Spread(n, share, extra)[j] + 1
  {
  }

  lemma DivisionAddsUp(a: nat, n: nat)
    requires n > 0
    ensures n * (a / n) + a % n == a
  {
  }

  /** Slots of the epoch that the share of blocks is computed from. */
  function MaxSlots(client: Client, epoch: Epoch): nat {
    var slots := (epoch.endsAt - epoch.startsAt) % U32_SIZE / SLOT_DURATION;
    if client.slotsPerEpoch <= slots then client.slotsPerEpoch else slots
  }

  /** Expected blocks by position; the remainder is that of the epoch's duration, not of its slots. */
  function ExpectedBlocks(client: Client, epoch: Epoch, n: nat): seq<nat> {
    if n == 0 then [] else Spread(n, MaxSlots(client, epoch) / n, client.epochDuration % n)
  }

  lemma BlocksTotal(client: Client, epoch: Epoch, n: nat)
    requires n > 0
    ensures Sum(ExpectedBlocks(client, epoch, n)) == n * (MaxSlots(client, epoch) / n) + client.epochDuration % n
  {
    SumOfSpread(n, MaxSlots(client, epoch) / n, client.epochDuration % n);
  }

  /** The expected blocks of the whole committee add up to the slots exactly under this condition. */
  lemma BlocksAddUpIff(client: Client, epoch: Epoch, n: nat)
    requires n > 0
    ensures Sum(ExpectedBlocks(client, epoch, n)) == MaxSlots(client, epoch) <==>
            client.epochDuration % n == MaxSlots(client, epoch) % n
  {
    BlocksTotal(client, epoch, n);
    var slots := MaxSlots(client, epoch);
    assert slots == n * (slots / n) + slots % n;
  }

  /** Twenty slots and nine members: one block too many is expected. */
  lemma BlocksNeedNotAddUp() returns (client: Client, epoch: Epoch, n: nat)
    ensures client == ClientOf(20) && epoch.endsAt - epoch.startsAt == client.epochDuration
    ensures n > 0 && Sum(ExpectedBlocks(client, epoch, n)) != client.slotsPerEpoch
  {
    client, epoch, n := ClientOf(20), Epoch(0, 0, 120000), 9;
    BlocksAddUpIff(client, epoch, n);
  }

  datatype Validator = Validator(epochNo: nat, position: nat, sidechainPubkey: string)

  datatype Membership = Membership(
    epochNo: nat, position: nat, spoSk: string, sidechainPubkey: string, expectedSlots: nat)

  /** Keys are stored as hex without a leading 0x. */
  function RemoveHexPrefix(s: string): (r: string)
    ensures s == r || s == "0x" + r
  {
    if "0x" <= s then s[2..] else s
  }

  /** A member's row, its keys normalised. */
  function MembershipOf(v: Validator, slots: nat): Membership {
    var key := RemoveHexPrefix(v.sidechainPubkey);
    Membership(v.epochNo, v.position, key, key, slots)
  }

  function SlotsOf(rows: seq<Membership>): seq<nat> {
    seq(|rows|, i requires 0 <= i < |rows| => rows[i].expectedSlots)
  }

  /** One row per committee member, in order, and every slot of the epoch expected of one of them. */
  method CommitteeToMembership(client: Client, committee: seq<Validator>) returns (rows: seq<Membership>)
    ensures |rows| == |committee|
    ensures forall i :: 0 <= i < |rows| ==> rows[i] == MembershipOf(committee[i], ExpectedSlots(client, |committee|)[i])
    ensures committee != [] ==> Sum(SlotsOf(rows)) == client.slotsPerEpoch
  {
    rows := [];
    if committee == [] {
      return;
    }
    var n := |committee|;
    var share, leftover := client.slotsPerEpoch / n, client.slotsPerEpoch % n;
    rows := MembershipRows(committee, share, leftover);
    SlotsAddUp(client, n);
    assert SlotsOf(rows) == ExpectedSlots(client, n);
  }

  method MembershipRows(committee: seq<Validator>, share: nat, leftover: nat) returns (rows: seq<Membership>)
    ensures |rows| == |committee|
    ensures forall i :: 0 <= i < |rows| ==> rows[i] == MembershipOf(committee[i], Spread(|committee|, share, leftover)[i])
  {
    rows := [];
    for i := 0 to |committee|
      invariant |rows| == i
      invariant forall k :: 0 <= k < i ==> rows[k] == MembershipOf(committee[k], Spread(|committee|, share, leftover)[k])
    {
      rows := rows + [MembershipOf(committee[i], share + if leftover > i then 1 else 0)];
    }
  }

  // ---------------------------------------------------------------------------------------------
  // Which epoch comes next

  /** When epoch `no` of the node starts; the node's clock is consistent with a fixed duration. */
  function StartOf(client: Client, base: int, no: int): int {
    base + no * client.epochDuration
  }

  function CurrentEpoch(client: Client, base: int, no: int): Epoch {
    Epoch(no, StartOf(client, base, no), StartOf(client, base, no) + client.epochDuration)
  }

  /** The number the count starts from while nothing is stored. */
  function FirstEpochNum(client: Client, current: Epoch, firstBlockTime: int): int
    requires client.epochDuration > 0 && firstBlockTime <= current.endsAt
  {
    current.no - (current.endsAt - firstBlockTime) / client.epochDuration
  }

  /** It is the epoch of the first block, or the one before if that block is right at the start. */
  lemma FirstEpochNumIs(client: Client, base: int, current: int, k: int, firstBlockTime: int)
    requires client.epochDuration > 0 && k <= current
    requires StartOf(client, base, k) <= firstBlockTime < StartOf(client, base, k + 1)
    ensures firstBlockTime <= CurrentEpoch(client, base, current).endsAt
    ensures FirstEpochNum(client, CurrentEpoch(client, base, current), firstBlockTime) ==
            if firstBlockTime == StartOf(client, base, k) then k - 1 else k
  {
    var d, m := client.epochDuration, current - k;
    assert current * d == k * d + m * d;
    assert (k + 1) * d == k * d + d;
    assert m * d >= 0;
    var rest := StartOf(client, base, k + 1) - firstBlockTime;
    assert CurrentEpoch(client, base, current).endsAt - firstBlockTime == rest + m * d;
    DivideShifted(rest, m, d);
  }

  lemma DivideShifted(rest: int, m: int, d: int)
    requires 0 < rest <= d
    ensures (rest + m * d) / d == if rest == d then m + 1 else m
  {
    if rest == d {
      assert rest + m * d == (m + 1) * d;
      DivideExact(m + 1, d, 0);
    } else {
      DivideExact(m, d, rest);
    }
  }

  lemma DivideExact(q: int, d: int, r: int)
    requires 0 <= r < d
    ensures (q * d + r) / d == q
  {
    var x := q * d + r;
    var q', r' := x / d, x % d;
    assert x == d * q' + r';
    SmallMultiple(q' - q, d, r - r') by {
      assert (q' - q) * d == d * q' - q * d;
    }
  }

  lemma SmallMultiple(k: int, d: int, x: int)
    requires d > 0 && k * d == x && -d < x < d
    ensures k == 0
  {
    if k > 0 {
      MultipleIsAtLeast(k, d);
    } else if k < 0 {
      assert (-k) * d == -x;
      MultipleIsAtLeast(-k, d);
    }
  }

  lemma {:induction false} MultipleIsAtLeast(k: nat, d: nat)
    requires k > 0
    ensures k * d >= d
  {
    if k > 1 {
      MultipleIsAtLeast(k - 1, d);
    }
  }

  function EpochToProcess(client: Client, current: Epoch, latest: int): Option<Epoch> {
    var offset := (current.no - latest) * client.epochDuration;
    if offset == 0 then None
    else Some(Epoch(latest + 1, current.startsAt - offset, current.endsAt - offset))
  }

  /** The next number gets the interval of the number before it, wherever the node is. */
  lemma NextEpochIs(client: Client, base: int, current: int, latest: int)
    requires client.epochDuration > 0
    ensures EpochToProcess(client, CurrentEpoch(client, base, current), latest) ==
            if current == latest then None
            else Some(Epoch(latest + 1, StartOf(client, base, latest), StartOf(client, base, latest + 1)))
  {
    var d := client.epochDuration;
    assert current * d - (current - latest) * d == latest * d;
    assert (latest + 1) * d == latest * d + d;
    if current != latest {
      assert (current - latest) * d != 0;
    }
  }

  /** Numbers stored so far, given what the node reported as current at each attempt. */
  function Stored(client: Client, base: int, first: int, reports: seq<int>): seq<Epoch> {
    if reports == [] then []
    else
      var before := Stored(client, base, first, reports[..|reports| - 1]);
      var current := CurrentEpoch(client, base, reports[|reports| - 1]);
      var latest := if before == [] then first else before[|before| - 1].no;
      var next := EpochToProcess(client, current, latest);
      if next.None? then before else before + [next.value]
  }

  ghost predicate Consecutive(client: Client, base: int, first: int, epochs: seq<Epoch>) {
    forall i :: 0 <= i < |epochs| ==>
      epochs[i] == Epoch(first + 1 + i, StartOf(client, base, first + i), StartOf(client, base, first + i + 1))
  }

  /** Over every run the stored epochs have consecutive numbers and abutting intervals of full length. */
  lemma {:induction false} EpochsAreConsecutive(client: Client, base: int, first: int, reports: seq<int>)
    requires client.epochDuration > 0
    ensures Consecutive(client, base, first, Stored(client, base, first, reports))
  {
    if reports != [] {
      var front, last := reports[..|reports| - 1], reports[|reports| - 1];
      EpochsAreConsecutive(client, base, first, front);
      var before := Stored(client, base, first, front);
      NextEpochIs(client, base, last, if before == [] then first else before[|before| - 1].no);
    }
  }

  lemma IntervalsAbut(client: Client, base: int, first: int, reports: seq<int>, i: nat)
    requires client.epochDuration > 0 && i + 1 < |Stored(client, base, first, reports)|
    ensures var e := Stored(client, base, first, reports);
            e[i + 1].no == e[i].no + 1 && e[i + 1].startsAt == e[i].endsAt
            && e[i].endsAt - e[i].startsAt == client.epochDuration
  {
    EpochsAreConsecutive(client, base, first, reports);
    assert (first + i + 1) * client.epochDuration == (first + i) * client.epochDuration + client.epochDuration;
  }

  /** No stored epoch carries the interval the node gives that number: it is always the one before. */
  lemma IntervalIsThatOfThePredecessor(client: Client, base: int, first: int, reports: seq<int>, i: nat)
    requires client.epochDuration > 0 && i < |Stored(client, base, first, reports)|
    ensures var e := Stored(client, base, first, reports)[i];
            && e.(no := e.no - 1) == CurrentEpoch(client, base, e.no - 1)
            && e.startsAt < CurrentEpoch(client, base, e.no).startsAt
  {
    EpochsAreConsecutive(client, base, first, reports);
    assert (first + i + 1) * client.epochDuration == (first + i) * client.epochDuration + client.epochDuration;
  }

  /** If the node is never behind what is stored, processing stops once it has reached the current epoch. */
  lemma {:induction false} NeverAhead(client: Client, base: int, first: int, reports: seq<int>)
    requires client.epochDuration > 0
    requires forall i :: 0 <= i < |reports| ==> first <= reports[i]
    requires forall i, j :: 0 <= i <= j < |reports| ==> reports[i] <= reports[j]
    ensures var e := Stored(client, base, first, reports); e != [] ==> e[|e| - 1].no <= reports[|reports| - 1]
  {
    if reports != [] {
      var front, last := reports[..|reports| - 1], reports[|reports| - 1];
      NeverAhead(client, base, first, front);
      var before := Stored(client, base, first, front);
      assert front != [] ==> front[|front| - 1] <= last;
      NextEpochIs(client, base, last, if before == [] then first else before[|before| - 1].no);
    }
  }

  /** The number the next one is counted from. */
  function LatestNo(client: Client, base: int, first: int, reports: seq<int>): int {
    var e := Stored(client, base, first, reports);
    if e == [] then first else e[|e| - 1].no
  }

  /** One more report adds one number unless it is the latest one itself. */
  lemma LatestSnoc(client: Client, base: int, first: int, reports: seq<int>, current: int)
    requires client.epochDuration > 0
    ensures
      var latest := LatestNo(client, base, first, reports);
      LatestNo(client, base, first, reports + [current]) == if current == latest then latest else latest + 1
  {
    assert (reports + [current])[..|reports|] == reports;
    NextEpochIs(client, base, current, LatestNo(client, base, first, reports));
  }

  /** After one more report the newest number is at most that report if and only if it already was. */
  lemma NotAheadIff(client: Client, base: int, first: int, reports: seq<int>, current: int)
    requires client.epochDuration > 0
    ensures LatestNo(client, base, first, reports + [current]) <= current <==> LatestNo(client, base, first, reports) <= current
  {
    LatestSnoc(client, base, first, reports, current);
  }

  function Repeated(current: int, n: nat): seq<int> {
    seq(n, _ => current)
  }

  /** A node that lags behind makes every poll store one more epoch that has not begun. */
  lemma {:induction false} LaggingNodeRunsAhead(client: Client, base: int, first: int, reports: seq<int>, current: int, n: nat)
    requires client.epochDuration > 0 && current < LatestNo(client, base, first, reports)
    ensures LatestNo(client, base, first, reports + Repeated(current, n)) == LatestNo(client, base, first, reports) + n
  {
    if n == 0 {
      assert reports + Repeated(current, n) == reports;
    } else {
      LaggingNodeRunsAhead(client, base, first, reports, current, n - 1);
      LatestSnoc(client, base, first, reports + Repeated(current, n - 1), current);
      assert reports + Repeated(current, n) == reports + Repeated(current, n - 1) + [current];
    }
  }
}

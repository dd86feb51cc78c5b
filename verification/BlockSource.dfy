/**
 Where blocks come from: catching up by height far below the finalized tip, walking back by hash
 close to it, following the live subscription with re-subscriptions, and the parent-hash filter in
 front of the indexer.
 */
module BlockSource {
  import opened Common
  import opened LedgerStates

  type BlockHash = nat

  datatype BlockRef = BlockRef(hash: BlockHash, height: nat)

  /** The hash used when nothing is stored yet. */
  const DEFAULT_HASH: BlockHash := 0

  const FINALIZATION_SAFETY_MARGIN: nat := 400

  /** What the node answers; a missing answer is an error. Lookups by height may be arbitrary. */
  datatype Node = Node(byHash: map<BlockHash, Block>, byHeight: map<nat, Block>, genesisParent: BlockHash)

  /** Hashes commit to headers, so a parent is one lower than its child. */
  ghost predicate HashesCommit(node: Node) {
    forall h :: h in node.byHash ==>
      && node.byHash[h].hash == h
      && (node.byHash[h].parentHash in node.byHash ==>
          node.byHash[node.byHash[h].parentHash].height + 1 == node.byHash[h].height)
  }

  function HashAfter(after: Option<BlockRef>): BlockHash {
    if after.Some? then after.value.hash else DEFAULT_HASH
  }

  function StartHeight(after: Option<BlockRef>): nat {
    if after.Some? then after.value.height + 1 else 0
  }

  /** First height that is fetched by hash rather than by height. */
  function SafeHeight(start: nat, end: nat): nat {
    var safe := if end <= FINALIZATION_SAFETY_MARGIN then 0 else end - FINALIZATION_SAFETY_MARGIN;
    if safe < start then start else safe
  }

  /** `block` is what the node answers at `height`. */
  ghost predicate AnswersAt(node: Node, height: nat, block: Block) {
    height in node.byHeight && node.byHeight[height] == block
  }

  /** Fetches `[start, safe)` by height, checking each block against its predecessor. */
  method FetchByHeight(node: Node, after: Option<BlockRef>, safe: nat)
    returns (blocks: seq<Block>, lastHash: Option<BlockHash>, ok: bool)
    requires StartHeight(after) <= safe
    ensures Linked(blocks)
    ensures after.Some? ==> LinkedAfter(after.value.hash, blocks)
    ensures lastHash == if blocks != [] then Some(blocks[|blocks| - 1].hash)
                        else if after.Some? then Some(after.value.hash) else None
    ensures forall i :: 0 <= i < |blocks| ==> AnswersAt(node, StartHeight(after) + i, blocks[i])
    ensures ok ==> |blocks| == safe - StartHeight(after)
    ensures !ok ==>
      var height := StartHeight(after) + |blocks|;
      height < safe &&
      (height in node.byHeight ==> lastHash.Some? && node.byHeight[height].parentHash != lastHash.value)
  {
    var start := StartHeight(after);
    blocks, lastHash := [], if after.Some? then Some(after.value.hash) else None;
    for height := start to safe
      invariant |blocks| == height - start
      invariant Linked(blocks)
      invariant after.Some? ==> LinkedAfter(after.value.hash, blocks)
      invariant lastHash == if blocks != [] then Some(blocks[|blocks| - 1].hash)
                            else if after.Some? then Some(after.value.hash) else None
      invariant forall i :: 0 <= i < |blocks| ==> AnswersAt(node, start + i, blocks[i])
    {
      if height !in node.byHeight {
        return blocks, lastHash, false;
      }
      var block := node.byHeight[height];
      if lastHash.Some? && block.parentHash != lastHash.value {
        return blocks, lastHash, false;
      }
      blocks, lastHash := blocks + [block], Some(block.hash);
    }
    ok := true;
  }

  /**
   `path` leads up to `first` by parent hashes, through blocks the node knows by hash, and none but
   its lowest block hangs on `stopHash` or is a genesis block.
   */
  ghost predicate IsWalk(node: Node, first: Block, stopHash: BlockHash, path: seq<Block>) {
    && path != [] && path[|path| - 1] == first
    && Linked(path)
    && (forall i :: 0 <= i < |path| ==> path[i].hash in node.byHash && node.byHash[path[i].hash] == path[i])
    && (forall i :: 0 < i < |path| ==> path[i].parentHash != stopHash && path[i].parentHash != node.genesisParent)
  }

  /** Walks from `first` towards `stopHash` (or genesis) by hash; terminates because heights fall. */
  method WalkBack(node: Node, first: Block, stopHash: BlockHash)
    returns (blocks: seq<Block>, ok: bool, ghost path: seq<Block>)
    requires HashesCommit(node) && first.hash in node.byHash && node.byHash[first.hash] == first
    ensures IsWalk(node, first, stopHash, path)
    ensures ok ==> blocks + [first] == path
    ensures ok ==>
      var walk := blocks + [first];
      IsWalk(node, first, stopHash, walk) && walk[0].parentHash in {stopHash, node.genesisParent}
    ensures !ok ==> path[0].parentHash !in node.byHash && path[0].parentHash !in {stopHash, node.genesisParent}
  {
    blocks, path := [], [first];
    var hashes: seq<BlockHash> := [];
    var parentHash := first.parentHash;
    while parentHash != stopHash && parentHash != node.genesisParent
      invariant IsWalk(node, first, stopHash, path) && path[0].parentHash == parentHash
      invariant |hashes| == |path| - 1
      invariant forall i :: 0 <= i < |hashes| ==> hashes[i] == path[|hashes| - 1 - i].hash
      decreases path[0].height
    {
      if parentHash !in node.byHash {
        return [], false, path;
      }
      var parent := node.byHash[parentHash];
      assert node.byHash[path[0].hash].parentHash in node.byHash;
      hashes := hashes + [parent.hash];
      parentHash := parent.parentHash;
      path := [parent] + path;
    }
    var i := |hashes|;
    while i > 0
      invariant 0 <= i <= |hashes|
      invariant blocks == path[..|hashes| - i]
    {
      i := i - 1;
      blocks := blocks + [node.byHash[hashes[i]]];
    }
    ok := true;
  }

  /** Catch-up: by height up to the safe height, by hash from there to `first`, then `first` itself. */
  method CatchUp(node: Node, after: Option<BlockRef>, first: Block)
    returns (blocks: seq<Block>, ok: bool, ghost forward: seq<Block>, ghost path: seq<Block>)
    requires HashesCommit(node) && first.hash in node.byHash && node.byHash[first.hash] == first
    requires first.hash != HashAfter(after)
    ensures CaughtUp(node, after, first, forward, path, ok)
    ensures blocks == if ok then forward + path else forward
  {
    var safe := SafeHeight(StartHeight(after), first.height);
    var lastHash;
    blocks, lastHash, ok := FetchByHeight(node, after, safe);
    forward, path := blocks, [];
    if !ok {
      return;
    }
    var back;
    back, ok, path := WalkBack(node, first, if lastHash.Some? then lastHash.value else HashAfter(after));
    if ok {
      blocks := blocks + back + [first];
      assert blocks == forward + (back + [first]);
    }
  }

  /** The hash the backward walk looks for once `forward` has been fetched by height. */
  function StopHash(after: Option<BlockRef>, forward: seq<Block>): BlockHash {
    if forward != [] then forward[|forward| - 1].hash else HashAfter(after)
  }

  /** Everything catch-up promises whatever the node answers. */
  ghost predicate CaughtUp(
    node: Node, after: Option<BlockRef>, first: Block, forward: seq<Block>, path: seq<Block>, ok: bool)
  {
    var start := StartHeight(after);
    var safe := SafeHeight(start, first.height);
    var stop := StopHash(after, forward);
    && Linked(forward)
    && (after.Some? ==> LinkedAfter(after.value.hash, forward))
    && (forall i :: 0 <= i < |forward| ==> AnswersAt(node, start + i, forward[i]))
    && (|forward| == safe - start || (!ok && path == []))
    && (path == [] ==>
          !ok && start + |forward| < safe &&
          (start + |forward| in node.byHeight ==>
             (forward != [] || after.Some?) && node.byHeight[start + |forward|].parentHash != stop))
    && (path != [] ==>
          IsWalk(node, first, stop, path) &&
          (if ok then path[0].parentHash in {stop, node.genesisParent}
           else path[0].parentHash !in node.byHash && path[0].parentHash !in {stop, node.genesisParent}))
  }

  /** Whatever heights resolve to, a finished catch-up is linked exactly when its walk met the forward part. */
  lemma CatchUpLinks(node: Node, after: Option<BlockRef>, first: Block, forward: seq<Block>, path: seq<Block>)
    requires CaughtUp(node, after, first, forward, path, true)
    ensures after.Some? && path[0].parentHash == StopHash(after, forward) ==> LinkedAfter(after.value.hash, forward + path)
    ensures forward != [] ==> (Linked(forward + path) <==> path[0].parentHash == StopHash(after, forward))
  {
    var blocks := forward + path;
    assert blocks[|forward|] == path[0];
    if path[0].parentHash == StopHash(after, forward) {
      forall i, j | 0 <= i && j == i + 1 && j < |blocks| ensures blocks[j].parentHash == blocks[i].hash {
        if j > |forward| {
          assert path[j - |forward|].parentHash == path[i - |forward|].hash;
        }
      }
    } else if forward != [] {
      assert blocks[|forward| - 1] == forward[|forward| - 1];
    }
  }

  /**
   `chain` is the finalized chain from genesis to its last block, and the node serves it: every block
   by hash, and by height at least those further below the tip than the safety margin.
   */
  ghost predicate Canonical(node: Node, chain: seq<Block>) {
    && chain != [] && Linked(chain)
    && chain[0].parentHash == node.genesisParent
    && node.genesisParent !in node.byHash && DEFAULT_HASH !in node.byHash
    && (forall i :: 0 <= i < |chain| ==>
          chain[i].height == i && chain[i].hash in node.byHash && node.byHash[chain[i].hash] == chain[i])
    && (forall i :: 0 <= i < SafeHeight(0, |chain| - 1) ==> AnswersAt(node, i, chain[i]))
  }

  ghost predicate OnChain(chain: seq<Block>, after: Option<BlockRef>) {
    after.Some? ==> after.value.height + 1 < |chain| && after.value.hash == chain[after.value.height].hash
  }

  lemma {:induction false} WalkStaysOnChain(node: Node, chain: seq<Block>, stop: BlockHash, path: seq<Block>, k: nat)
    requires Canonical(node, chain) && IsWalk(node, chain[|chain| - 1], stop, path) && k < |path|
    ensures k < |chain| && path[|path| - 1 - k] == chain[|chain| - 1 - k]
  {
    if k > 0 {
      WalkStaysOnChain(node, chain, stop, path, k - 1);
      var below, above := |path| - 1 - k, |path| - k;
      assert path[above].parentHash == path[below].hash;
      assert |chain| - k > 0;
      assert chain[|chain| - k].parentHash == chain[|chain| - 1 - k].hash;
    }
  }

  /** The hash just below height `safe` of the chain. */
  ghost predicate StopsBelow(chain: seq<Block>, safe: nat, stop: BlockHash)
    requires safe <= |chain|
  {
    stop == if safe > 0 then chain[safe - 1].hash else DEFAULT_HASH
  }

  lemma WalkReachesNoLowerThan(node: Node, chain: seq<Block>, safe: nat, stop: BlockHash, path: seq<Block>)
    requires Canonical(node, chain) && safe < |chain| && StopsBelow(chain, safe, stop)
    requires IsWalk(node, chain[|chain| - 1], stop, path)
    ensures |path| <= |chain| - safe
  {
    WalkStaysOnChain(node, chain, stop, path, |path| - 1);
    if |path| > |chain| - safe {
      WalkStaysOnChain(node, chain, stop, path, |chain| - 1 - safe);
      assert false;
    }
  }

  lemma WalkReachesSafeHeight(node: Node, chain: seq<Block>, safe: nat, stop: BlockHash, path: seq<Block>, ok: bool)
    requires Canonical(node, chain) && safe < |chain| && StopsBelow(chain, safe, stop)
    requires IsWalk(node, chain[|chain| - 1], stop, path)
    requires if ok then path[0].parentHash in {stop, node.genesisParent} else path[0].parentHash !in node.byHash
                                                                              && path[0].parentHash != node.genesisParent
    ensures ok && path == chain[safe..]
  {
    var n := |chain|;
    WalkReachesNoLowerThan(node, chain, safe, stop, path);
    WalkStaysOnChain(node, chain, stop, path, |path| - 1);
    var low := n - |path|;
    assert low > 0 ==> chain[low].parentHash == chain[low - 1].hash && chain[low - 1].hash in node.byHash;
    assert low == safe;
    forall k | 0 <= k < |path| ensures path[k] == chain[safe..][k] {
      WalkStaysOnChain(node, chain, stop, path, |path| - 1 - k);
    }
  }

  lemma ForwardIsChain(node: Node, chain: seq<Block>, start: nat, forward: seq<Block>)
    requires Canonical(node, chain) && start + |forward| <= SafeHeight(start, |chain| - 1) && start < |chain|
    requires forall i :: 0 <= i < |forward| ==> AnswersAt(node, start + i, forward[i])
    ensures forward == chain[start..start + |forward|]
    ensures var height := start + |forward|;
            height < SafeHeight(start, |chain| - 1) ==> AnswersAt(node, height, chain[height])
  {
    forall i | 0 <= i < |forward| ensures forward[i] == chain[start + i] {
      assert AnswersAt(node, start + i, forward[i]);
      assert AnswersAt(node, start + i, chain[start + i]);
    }
  }

  lemma ForwardIsComplete(node: Node, chain: seq<Block>, after: Option<BlockRef>, forward: seq<Block>, path: seq<Block>, ok: bool)
    requires Canonical(node, chain) && OnChain(chain, after)
    requires CaughtUp(node, after, chain[|chain| - 1], forward, path, ok)
    ensures path != []
    ensures forward == chain[StartHeight(after)..SafeHeight(StartHeight(after), |chain| - 1)]
    ensures StopsBelow(chain, SafeHeight(StartHeight(after), |chain| - 1), StopHash(after, forward))
  {
    var start := StartHeight(after);
    ForwardIsChain(node, chain, start, forward);
    if path == [] {
      assert false;
    }
  }

  /** On the canonical chain, catch-up yields exactly the blocks after `after`, up to the tip, in order. */
  lemma CatchUpIsExact(node: Node, chain: seq<Block>, after: Option<BlockRef>, forward: seq<Block>, path: seq<Block>, ok: bool)
    requires Canonical(node, chain) && OnChain(chain, after)
    requires CaughtUp(node, after, chain[|chain| - 1], forward, path, ok)
    ensures ok && forward + path == chain[StartHeight(after)..]
  {
    var start := StartHeight(after);
    var safe := SafeHeight(start, |chain| - 1);
    ForwardIsComplete(node, chain, after, forward, path, ok);
    WalkReachesSafeHeight(node, chain, safe, StopHash(after, forward), path, ok);
    JoinAt(chain, start, safe);
  }

  lemma JoinAt(blocks: seq<Block>, i: nat, j: nat)
    requires i <= j <= |blocks|
    ensures blocks[i..j] + blocks[j..] == blocks[i..]
  {
  }

  /** What a finalized-block stream hands over: a block, or an error that is passed on. */
  datatype Item = Yielded(block: Block) | Failed

  function Blocks(items: seq<Item>): seq<Block> {
    if items == [] then []
    else
      var last := items[|items| - 1];
      Blocks(items[..|items| - 1]) + if last.Yielded? then [last.block] else []
  }

  /** The newest block after `blocks` have been accepted on top of `highest`. */
  function Newest(highest: Option<BlockRef>, blocks: seq<Block>): Option<BlockRef> {
    if blocks == [] then highest
    else Some(BlockRef(blocks[|blocks| - 1].hash, blocks[|blocks| - 1].height))
  }

  /** `out` is the longest part of `items` that continues from `highest`. */
  ghost predicate IsLinkedPart(highest: Option<BlockRef>, items: seq<Item>, out: seq<Item>) {
    && out <= items
    && LinkedAfter(HashAfter(highest), Blocks(out))
    && (|out| < |items| ==>
          items[|out|].Yielded? &&
          items[|out|].block.parentHash != HashAfter(Newest(highest, Blocks(out))))
  }

  /** One pass of the parent-hash filter over one finalized-block stream. */
  method TakeLinked(highest: Option<BlockRef>, items: seq<Item>) returns (out: seq<Item>, newest: Option<BlockRef>)
    ensures IsLinkedPart(highest, items, out)
    ensures newest == Newest(highest, Blocks(out))
  {
    out, newest := [], highest;
    for i := 0 to |items|
      invariant out == items[..i]
      invariant LinkedAfter(HashAfter(highest), Blocks(out))
      invariant newest == Newest(highest, Blocks(out))
    {
      assert items[..i + 1][..i] == items[..i];
      if items[i].Yielded? {
        var block := items[i].block;
        if block.parentHash != HashAfter(newest) {
          return;
        }
        newest := Some(BlockRef(block.hash, block.height));
      }
      out := out + [items[i]];
    }
  }

  lemma {:induction false} BlocksConcat(a: seq<Item>, b: seq<Item>)
    ensures Blocks(a + b) == Blocks(a) + Blocks(b)
  {
    if b == [] {
      assert a + b == a;
    } else {
      BlocksConcat(a, b[..|b| - 1]);
      assert (a + b)[..|a + b| - 1] == a + b[..|b| - 1];
    }
  }

  lemma LinkedConcat(hash: BlockHash, highest: Option<BlockRef>, a: seq<Block>, b: seq<Block>)
    requires hash == HashAfter(highest) && LinkedAfter(hash, a)
    requires LinkedAfter(HashAfter(Newest(highest, a)), b)
    ensures LinkedAfter(hash, a + b)
    ensures Newest(Newest(highest, a), b) == Newest(highest, a + b)
  {
    var c := a + b;
    forall i, j | 0 <= i && j == i + 1 && j < |c| ensures c[j].parentHash == c[i].hash {
      if i >= |a| {
        assert b[j - |a|].parentHash == b[i - |a|].hash;
      } else if j == |a| {
        assert c[j] == b[0];
      }
    }
  }

  /**
   The block stream in front of the indexer, over any sequence of finalized-block streams, each
   opened at the newest accepted block: whatever they contain, the blocks passed on form one chain.
   */
  method NodeBlocks(highest: Option<BlockRef>, streams: seq<seq<Item>>)
    returns (out: seq<Item>, ghost asked: seq<Option<BlockRef>>, ghost parts: seq<seq<Item>>)
    ensures LinkedAfter(HashAfter(highest), Blocks(out))
    ensures |asked| == |parts| == |streams|
    ensures out == Concat(parts)
    ensures forall k :: 0 <= k < |streams| ==>
              && asked[k] == Newest(highest, Blocks(Concat(parts[..k])))
              && IsLinkedPart(asked[k], streams[k], parts[k])
  {
    out, asked, parts := [], [], [];
    var newest := highest;
    for i := 0 to |streams|
      invariant |asked| == |parts| == i
      invariant out == Concat(parts)
      invariant LinkedAfter(HashAfter(highest), Blocks(out))
      invariant newest == Newest(highest, Blocks(out))
      invariant forall k :: 0 <= k < i ==>
                  && asked[k] == Newest(highest, Blocks(Concat(parts[..k])))
                  && IsLinkedPart(asked[k], streams[k], parts[k])
    {
      asked := asked + [newest];
      var part;
      part, newest := TakeLinked(newest, streams[i]);
      BlocksConcat(out, part);
      LinkedConcat(HashAfter(highest), highest, Blocks(out), Blocks(part));
      ghost var longer := parts + [part];
      assert longer[..i] == parts;
      assert forall k :: 0 <= k < i ==> longer[..k] == parts[..k];
      out, parts := out + part, longer;
    }
  }

  ghost function Concat(parts: seq<seq<Item>>): seq<Item> {
    if parts == [] then [] else Concat(parts[..|parts| - 1]) + parts[|parts| - 1]
  }

  /** Linked blocks whose hashes commit to heights have neither gaps nor duplicates. */
  lemma {:induction false} LinkedBlocksAreConsecutive(node: Node, blocks: seq<Block>, i: nat)
    requires HashesCommit(node) && Linked(blocks) && i < |blocks|
    requires forall b :: b in blocks ==> b.hash in node.byHash && node.byHash[b.hash] == b
    ensures blocks[i].height == blocks[0].height + i
  {
    if i > 0 {
      LinkedBlocksAreConsecutive(node, blocks, i - 1);
      assert blocks[i - 1] in blocks && blocks[i] in blocks;
      assert blocks[i].parentHash == blocks[i - 1].hash;
    }
  }

  function AsItems(blocks: seq<Block>): seq<Item> {
    seq(|blocks|, i requires 0 <= i < |blocks| => Yielded(blocks[i]))
  }

  lemma {:induction false} BlocksOfAsItems(blocks: seq<Block>)
    ensures Blocks(AsItems(blocks)) == blocks
  {
    if blocks != [] {
      var front := blocks[..|blocks| - 1];
      BlocksOfAsItems(front);
      assert AsItems(blocks)[..|blocks| - 1] == AsItems(front);
    }
  }

  /** A filter pass lets through everything that is already linked. */
  lemma LinkedStreamPasses(highest: Option<BlockRef>, blocks: seq<Block>, out: seq<Item>)
    requires LinkedAfter(HashAfter(highest), blocks)
    requires IsLinkedPart(highest, AsItems(blocks), out)
    ensures Blocks(out) == blocks
  {
    var k := |out|;
    assert out == AsItems(blocks[..k]);
    BlocksOfAsItems(blocks[..k]);
    assert forall i, j :: 0 <= i && j == i + 1 && j < |blocks| ==> blocks[j].parentHash == blocks[i].hash;
    assert blocks[..k] == blocks;
  }

  lemma RestIsLinked(chain: seq<Block>, start: nat)
    requires Linked(chain) && start < |chain|
    ensures LinkedAfter(if start > 0 then chain[start - 1].hash else chain[0].parentHash, chain[start..])
  {
    var rest := chain[start..];
    forall i, j | 0 <= i && j == i + 1 && j < |rest| ensures rest[j].parentHash == rest[i].hash {
      assert chain[start + j].parentHash == chain[start + i].hash;
    }
  }

  /**
   Starting from any stored block of the canonical chain (or from nothing), one pass delivers the
   rest of the chain exactly once and in order.
   */
  method Resume(node: Node, after: Option<BlockRef>, first: Block, ghost chain: seq<Block>)
    returns (out: seq<Item>, newest: Option<BlockRef>)
    requires HashesCommit(node) && Canonical(node, chain) && node.genesisParent == DEFAULT_HASH
    requires OnChain(chain, after) && first == chain[|chain| - 1]
    ensures Blocks(out) == chain[StartHeight(after)..]
    ensures newest == Some(BlockRef(first.hash, first.height))
  {
    if after.Some? {
      assert node.byHash[chain[after.value.height].hash] == chain[after.value.height];
    }
    var blocks, ok, forward, path := CatchUp(node, after, first);
    CatchUpIsExact(node, chain, after, forward, path, ok);
    var start := StartHeight(after);
    RestIsLinked(chain, start);
    out, newest := TakeLinked(after, AsItems(blocks));
    LinkedStreamPasses(after, blocks, out);
  }

  /** What the live subscription delivers; a received block's details may turn out not to be available. */
  datatype Event = Received(block: Block, available: bool) | Disconnected | TimedOut | Broken | Ended

  /** Option ordering of the source: nothing is below every height. */
  predicate Above(height: nat, last: Option<nat>) {
    last.None? || height > last.value
  }

  /** The received block at `i` is higher than `start` and than everything received before it. */
  ghost predicate NewHeight(start: Option<nat>, events: seq<Event>, i: nat)
    requires i < |events|
  {
    && events[i].Received?
    && Above(events[i].block.height, start)
    && (forall j :: 0 <= j < i && events[j].Received? ==> events[j].block.height < events[i].block.height)
  }

  /** `last` is the highest of `start` and the heights received in the first `n` events. */
  ghost predicate IsHighest(start: Option<nat>, events: seq<Event>, n: nat, last: Option<nat>)
    requires n <= |events|
  {
    && (start.Some? ==> !Above(start.value, last))
    && (forall i :: 0 <= i < n && events[i].Received? ==> !Above(events[i].block.height, last))
    && (last == start || exists i :: 0 <= i < n && events[i].Received? && last == Some(events[i].block.height))
  }

  lemma AboveHighestIsNew(start: Option<nat>, events: seq<Event>, n: nat, last: Option<nat>)
    requires n < |events| && events[n].Received? && IsHighest(start, events, n, last)
    ensures Above(events[n].block.height, last) <==> NewHeight(start, events, n)
    ensures IsHighest(start, events, n + 1, if Above(events[n].block.height, last) then Some(events[n].block.height) else last)
  {
  }

  lemma HighestKept(start: Option<nat>, events: seq<Event>, n: nat, last: Option<nat>)
    requires n < |events| && !events[n].Received? && IsHighest(start, events, n, last)
    ensures IsHighest(start, events, n + 1, last)
  {
  }

  /** `picked` lists, in order, exactly the places among the first `n` that deliver a new height. */
  ghost predicate PicksNewHeights(start: Option<nat>, events: seq<Event>, n: nat, picked: seq<nat>)
    requires n <= |events|
  {
    && (forall k, l :: 0 <= k < l < |picked| ==> picked[k] < picked[l])
    && (forall k :: 0 <= k < |picked| ==> picked[k] < n && NewHeight(start, events, picked[k]))
    && (forall i :: 0 <= i < n && NewHeight(start, events, i) ==> i in picked)
  }

  /** `out` holds the blocks at the places `picked`. */
  ghost predicate Delivers(start: Option<nat>, events: seq<Event>, n: nat, out: seq<Block>, picked: seq<nat>)
    requires n <= |events|
  {
    && PicksNewHeights(start, events, n, picked)
    && |out| == |picked|
    && (forall k :: 0 <= k < |out| ==> out[k] == events[picked[k]].block)
  }

  lemma DeliverNext(start: Option<nat>, events: seq<Event>, n: nat, out: seq<Block>, picked: seq<nat>)
    requires n < |events| && Delivers(start, events, n, out, picked)
    ensures if NewHeight(start, events, n) then Delivers(start, events, n + 1, out + [events[n].block], picked + [n])
            else Delivers(start, events, n + 1, out, picked)
  {
    if NewHeight(start, events, n) {
      var longer := picked + [n];
      assert longer[|picked|] == n;
      assert forall i :: i in picked ==> i in longer;
    }
  }

  /** Each delivered block is higher than the one before. */
  lemma DeliveredHeightsRise(start: Option<nat>, events: seq<Event>, n: nat, out: seq<Block>, picked: seq<nat>)
    requires n <= |events| && Delivers(start, events, n, out, picked)
    ensures forall k, l :: 0 <= k < l < |out| ==> out[k].height < out[l].height
  {
    forall k, l | 0 <= k < l < |out| ensures out[k].height < out[l].height {
      assert NewHeight(start, events, picked[l]) && NewHeight(start, events, picked[k]);
    }
  }

  /** The stream ends here: with an error, normally, or because a new block's details are missing. */
  ghost predicate Stops(start: Option<nat>, events: seq<Event>, i: nat)
    requires i < |events|
  {
    events[i].Broken? || events[i].Ended? || (NewHeight(start, events, i) && !events[i].available)
  }

  /**
   The live tail. The duplicate filter is re-created from the last yielded height on every
   re-subscription, and yet every new height is yielded exactly once, in rising order.
   */
  method Follow(start: Option<nat>, events: seq<Event>)
    returns (out: seq<Block>, ok: bool, n: nat, ghost picked: seq<nat>)
    ensures n <= |events|
    ensures forall i :: 0 <= i < n ==> !Stops(start, events, i)
    ensures n < |events| ==> Stops(start, events, n)
    ensures ok <==> n == |events| || events[n].Ended?
    ensures Delivers(start, events, n, out, picked)
  {
    out, ok, n, picked := [], true, 0, [];
    var lastHeight, lastYielded := start, start;
    while n < |events|
      invariant n <= |events| && ok
      invariant forall i :: 0 <= i < n ==> !Stops(start, events, i)
      invariant lastHeight == lastYielded && IsHighest(start, events, n, lastHeight)
      invariant Delivers(start, events, n, out, picked)
    {
      DeliverNext(start, events, n, out, picked);
      match events[n] {
      case Received(block, available) =>
        AboveHighestIsNew(start, events, n, lastHeight);
        if Above(block.height, lastHeight) {
          lastHeight := Some(block.height);
          if !available {
            ok := false;
            return;
          }
          lastYielded := Some(block.height);
          out, picked := out + [block], picked + [n];
        }
      case Disconnected =>
        HighestKept(start, events, n, lastHeight);
      case TimedOut =>
        HighestKept(start, events, n, lastHeight);
        lastHeight := lastYielded;
      case Broken =>
        ok := false;
        return;
      case Ended =>
        return;
      }
      n := n + 1;
    }
  }

  /** Waits for the first block above `start`. */
  method ReceiveFirst(start: Option<nat>, events: seq<Event>) returns (n: nat, ok: bool)
    ensures n <= |events|
    ensures forall i :: 0 <= i < n ==>
              !events[i].Broken? && !events[i].Ended? && (events[i].Received? ==> !Above(events[i].block.height, start))
    ensures n < |events| ==>
              events[n].Broken? || events[n].Ended? || (events[n].Received? && Above(events[n].block.height, start))
    ensures ok <==> n < |events| && events[n].Received?
  {
    for i := 0 to |events|
      invariant forall k :: 0 <= k < i ==>
                  !events[k].Broken? && !events[k].Ended? && (events[k].Received? ==> !Above(events[k].block.height, start))
    {
      match events[i] {
      case Received(block, _) =>
        if Above(block.height, start) {
          return i, true;
        }
      case Broken =>
        return i, false;
      case Ended =>
        return i, false;
      case _ =>
      }
    }
    return |events|, false;
  }

  function HeightOf(after: Option<BlockRef>): Option<nat> {
    if after.Some? then Some(after.value.height) else None
  }

  /** Everything received and stored is consistent with what the node knows by hash. */
  ghost predicate Consistent(node: Node, after: Option<BlockRef>, events: seq<Event>) {
    && HashesCommit(node) && DEFAULT_HASH !in node.byHash
    && (after.Some? && after.value.hash in node.byHash ==> node.byHash[after.value.hash].height == after.value.height)
    && forall i :: 0 <= i < |events| && events[i].Received? ==>
         events[i].block.hash in node.byHash && node.byHash[events[i].block.hash] == events[i].block
  }

  /** No event before `n` breaks or ends the stream or brings a block above the stored one. */
  ghost predicate Quiet(after: Option<BlockRef>, events: seq<Event>, n: nat)
    requires n <= |events|
  {
    forall i :: 0 <= i < n ==>
      !events[i].Broken? && !events[i].Ended? &&
      (events[i].Received? ==> !Above(events[i].block.height, HeightOf(after)))
  }

  /**
   How one stream goes: it stops at event `n` without any block above the stored one, or it catches up
   to the event numbered `first` and then, if that goes well, yields the new heights among the `n`
   events after it, which are at the places `picked`.
   */
  datatype Course =
    | Nothing(n: nat)
    | Caught(first: nat, forward: seq<Block>, path: seq<Block>, ok: bool, tail: seq<Block>, n: nat, picked: seq<nat>)

  ghost predicate YieldsNothing(after: Option<BlockRef>, events: seq<Event>, n: nat, out: seq<Item>) {
    && n <= |events| && Quiet(after, events, n)
    && (n < |events| ==> events[n].Broken? || events[n].Ended?)
    && out == if n < |events| && events[n].Broken? then [Failed] else []
  }

  /** The stream caught up with `caught` and follows the live tail from there. */
  ghost predicate YieldsTail(
    height: nat, caught: seq<Block>, rest: seq<Event>, tail: seq<Block>, n: nat, picked: seq<nat>, out: seq<Item>)
  {
    var start := Some(height);
    && n <= |rest| && Delivers(start, rest, n, tail, picked)
    && (forall i :: 0 <= i < n ==> !Stops(start, rest, i)) && (n < |rest| ==> Stops(start, rest, n))
    && out == AsItems(caught + tail) + if n == |rest| || rest[n].Ended? then [] else [Failed]
  }

  method FollowFrom(caught: seq<Block>, height: nat, rest: seq<Event>)
    returns (out: seq<Item>, ghost tail: seq<Block>, ghost n: nat, ghost picked: seq<nat>)
    ensures YieldsTail(height, caught, rest, tail, n, picked, out)
  {
    var blocks, fine, stopped, places := Follow(Some(height), rest);
    tail, n, picked := blocks, stopped, places;
    out := AsItems(caught + blocks) + if fine then [] else [Failed];
  }

  /** A failed catch-up has yielded the blocks fetched by height, and all but `first` if only its details are missing. */
  ghost predicate Yields(node: Node, after: Option<BlockRef>, events: seq<Event>, course: Course, out: seq<Item>) {
    match course
    case Nothing(n) => YieldsNothing(after, events, n, out)
    case Caught(first, forward, path, ok, tail, n, picked) =>
      && first < |events| && Quiet(after, events, first)
      && events[first].Received? && Above(events[first].block.height, HeightOf(after))
      && CaughtUp(node, after, events[first].block, forward, path, ok)
      && if !ok then out == AsItems(forward) + [Failed]
         else if !events[first].available then out == AsItems(forward + path[..|path| - 1]) + [Failed]
         else YieldsTail(events[first].block.height, forward + path, events[first + 1..], tail, n, picked, out)
  }

  /**
   One stream of finalized blocks: the first block received above the stored one, the catch-up to it,
   and the live tail after it. Errors end the stream as its last item.
   */
  method FinalizedBlocks(node: Node, after: Option<BlockRef>, events: seq<Event>)
    returns (out: seq<Item>, ghost course: Course)
    requires Consistent(node, after, events)
    ensures Yields(node, after, events, course, out)
  {
    var j, received := ReceiveFirst(HeightOf(after), events);
    if !received {
      out := if j < |events| && events[j].Broken? then [Failed] else [];
      return out, Nothing(j);
    }
    var first := events[j].block;
    var blocks, ok, forward, path := CatchUp(node, after, first);
    if !ok {
      return AsItems(blocks) + [Failed], Caught(j, forward, path, ok, [], 0, []);
    }
    if !events[j].available {
      assert blocks[..|blocks| - 1] == forward + path[..|path| - 1];
      return AsItems(blocks[..|blocks| - 1]) + [Failed], Caught(j, forward, path, ok, [], 0, []);
    }
    ghost var tail, n, picked;
    out, tail, n, picked := FollowFrom(blocks, first.height, events[j + 1..]);
    course := Caught(j, forward, path, ok, tail, n, picked);
  }
}

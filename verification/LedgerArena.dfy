/**
 The ledger DB as the chain-indexer sees it: a content-addressed arena of nodes plus a count of
 gc roots per arena hash. A node's children are fixed by its hash, so the arena is a function
 `refs` from hashes to child hashes together with the set of hashes that are on disk.
 */
module LedgerArena {

  type Hash = nat
  type Refs = Hash -> seq<Hash>

  ghost predicate IsPath(refs: Refs, from: Hash, path: seq<Hash>) {
    && |path| > 0
    && path[0] == from
    && forall i :: 0 < i < |path| ==> path[i] in refs(path[i - 1])
  }

  ghost predicate Reaches(refs: Refs, from: Hash, to: Hash) {
    exists path :: IsPath(refs, from, path) && path[|path| - 1] == to
  }

  /** Every node of the DAG rooted at `from` is on disk, so the state can be loaded. */
  ghost predicate Complete(refs: Refs, nodes: set<Hash>, from: Hash) {
    forall h :: Reaches(refs, from, h) ==> h in nodes
  }

  /** What gc promises: the DAG of every hash with a positive root count is on disk. */
  ghost predicate Intact(refs: Refs, nodes: set<Hash>, roots: multiset<Hash>) {
    forall h :: h in roots ==> Complete(refs, nodes, h)
  }

  lemma ReachesSelf(refs: Refs, from: Hash)
    ensures Reaches(refs, from, from)
  {
    assert IsPath(refs, from, [from]);
  }

  lemma ReachesChild(refs: Refs, from: Hash, node: Hash, child: Hash)
    requires Reaches(refs, from, node)
    requires child in refs(node)
    ensures Reaches(refs, from, child)
  {
    var path :| IsPath(refs, from, path) && path[|path| - 1] == node;
    assert IsPath(refs, from, path + [child]);
  }

  lemma {:induction false} ClosedSetContainsPath(refs: Refs, closed: set<Hash>, from: Hash, path: seq<Hash>)
    requires from in closed
    requires forall h, c :: h in closed && c in refs(h) ==> c in closed
    requires IsPath(refs, from, path)
    ensures path[|path| - 1] in closed
  {
    if |path| > 1 {
      var init := path[..|path| - 1];
      assert IsPath(refs, from, init);
      ClosedSetContainsPath(refs, closed, from, init);
    }
  }

  /**
   Decides whether a root that gc had given up on can be brought back: an explicit-stack walk of
   the DAG that stops at the first hash that is not on disk.
   */
  method DagIsComplete(refs: Refs, nodes: set<Hash>, root: Hash) returns (complete: bool)
    ensures complete <==> Complete(refs, nodes, root)
  {
    var visited: set<Hash> := {};
    var frontier := [root];
    ReachesSelf(refs, root);

    while frontier != []
      invariant visited <= nodes
      invariant root in visited || root in frontier
      invariant forall h, c :: h in visited && c in refs(h) ==> c in visited || c in frontier
      invariant forall h :: h in frontier ==> Reaches(refs, root, h)
      decreases nodes - visited, |frontier|
    {
      var hash := frontier[|frontier| - 1];
      ghost var before := frontier;
      frontier := frontier[..|frontier| - 1];
      assert forall h :: h in before ==> h in frontier || h == hash;

      if hash in visited {
        continue;
      }
      if hash !in nodes {
        return false;
      }
      visited := visited + {hash};
      forall c | c in refs(hash) ensures Reaches(refs, root, c) {
        ReachesChild(refs, root, hash, c);
      }
      frontier := frontier + refs(hash);
    }

    forall h | Reaches(refs, root, h) ensures h in nodes {
      var path :| IsPath(refs, root, path) && path[|path| - 1] == h;
      ClosedSetContainsPath(refs, visited, root, path);
    }
    return true;
  }

  /** The count a window root must end with, given how often the retention window names it. */
  ghost function RepairTarget(refs: Refs, nodes: set<Hash>, hash: Hash, have: nat, want: nat): nat {
    if want <= have then have
    else if have == 0 && !Complete(refs, nodes, hash) then 0
    else want
  }

  ghost predicate Repaired(
    refs: Refs, nodes: set<Hash>, before: multiset<Hash>, wanted: multiset<Hash>, after: multiset<Hash>)
  {
    forall h :: after[h] == RepairTarget(refs, nodes, h, before[h], wanted[h])
  }

  /** What a repair changed and what it deliberately left alone. */
  datatype RootCountRepair = RootCountRepair(raisedRoots: nat, raisedTotal: nat, culledRoots: nat, strays: nat)

  /** Tallies the retention window: a root named by `n` blocks must have count `n`. */
  method WindowRootCounts(window: seq<Hash>) returns (wanted: multiset<Hash>)
    ensures wanted == multiset(window)
  {
    wanted := multiset{};
    for i := 0 to |window|
      invariant wanted == multiset(window[..i])
    {
      assert window[..i + 1] == window[..i] + [window[i]];
      wanted := wanted[window[i] := wanted[window[i]] + 1];
    }
    assert window[..|window|] == window;
  }

  /** The repaired count of one window root. */
  method RepairRoot(refs: Refs, nodes: set<Hash>, hash: Hash, have: nat, want: nat) returns (count: nat)
    ensures count == RepairTarget(refs, nodes, hash, have, want)
  {
    if want <= have {
      return have;
    }
    if have == 0 {
      var complete := DagIsComplete(refs, nodes, hash);
      if !complete {
        return 0;
      }
    }
    return want;
  }

  /** Raises under-counted roots to what the window implies, never lowering any count. */
  method RaiseRootCounts(refs: Refs, nodes: set<Hash>, stored: multiset<Hash>, wanted: multiset<Hash>)
    returns (roots: multiset<Hash>, repair: RootCountRepair)
    ensures Repaired(refs, nodes, stored, wanted, roots)
    ensures repair.raisedTotal == |roots| - |stored|
    ensures repair.raisedRoots == |set h | h in wanted && roots[h] > stored[h]|
    ensures repair.culledRoots == |set h | h in wanted && roots[h] < wanted[h]|
    ensures repair.strays == |set h | h in stored && h !in wanted|
  {
    roots := stored;
    var todo := set h | h in wanted;
    var raised: set<Hash>, culled: set<Hash>, raisedTotal := {}, {}, 0;

    while todo != {}
      invariant forall h :: h in todo ==> h in wanted && roots[h] == stored[h]
      invariant forall h :: h !in todo ==> roots[h] == RepairTarget(refs, nodes, h, stored[h], wanted[h])
      invariant raisedTotal == |roots| - |stored|
      invariant forall h :: h in raised <==> h in wanted && h !in todo && roots[h] > stored[h]
      invariant forall h :: h in culled <==> h in wanted && h !in todo && roots[h] < wanted[h]
      decreases todo
    {
      var hash :| hash in todo;
      var have := stored[hash];
      var count := RepairRoot(refs, nodes, hash, have, wanted[hash]);
      todo := todo - {hash};
      roots := roots[hash := count];
      raisedTotal := raisedTotal + (count - have);
      raised := if count > have then raised + {hash} else raised;
      culled := if count < wanted[hash] then culled + {hash} else culled;
    }
    assert raised == set h | h in wanted && roots[h] > stored[h];
    assert culled == set h | h in wanted && roots[h] < wanted[h];
    repair := RootCountRepair(|raised|, raisedTotal, |culled|, |set h | h in stored && h !in wanted|);
  }

  /** After a repair, every window root that is still a root can pay for all its window entries. */
  lemma RepairCoversWindow(
    refs: Refs, nodes: set<Hash>, before: multiset<Hash>, wanted: multiset<Hash>, after: multiset<Hash>)
    requires Repaired(refs, nodes, before, wanted, after)
    ensures before <= after
    ensures forall h :: h in after ==> wanted[h] <= after[h]
    ensures wanted <= before ==> after == before
  {
    assert forall h :: after[h] == RepairTarget(refs, nodes, h, before[h], wanted[h]);
  }

  lemma RepairKeepsIntact(
    refs: Refs, nodes: set<Hash>, before: multiset<Hash>, wanted: multiset<Hash>, after: multiset<Hash>)
    requires Intact(refs, nodes, before)
    requires Repaired(refs, nodes, before, wanted, after)
    ensures Intact(refs, nodes, after)
  {
    forall h | h in after ensures Complete(refs, nodes, h) {
      assert after[h] == RepairTarget(refs, nodes, h, before[h], wanted[h]);
      assert before[h] > 0 || Complete(refs, nodes, h);
    }
  }

  /** Repairing an already repaired DB changes nothing. */
  lemma RepairIdempotent(
    refs: Refs, nodes: set<Hash>,
    before: multiset<Hash>, wanted: multiset<Hash>, once: multiset<Hash>, twice: multiset<Hash>)
    requires Repaired(refs, nodes, before, wanted, once)
    requires Repaired(refs, nodes, once, wanted, twice)
    ensures once == twice
  {
    forall h ensures once[h] == twice[h] {
      assert once[h] == RepairTarget(refs, nodes, h, before[h], wanted[h]);
      assert twice[h] == RepairTarget(refs, nodes, h, once[h], wanted[h]);
    }
  }

  /** A gc pass deletes only nodes that no stored root reaches. */
  ghost predicate CullsOnlyGarbage(refs: Refs, before: set<Hash>, after: set<Hash>, roots: multiset<Hash>) {
    && after <= before
    && forall x, h :: x in before && x !in after && h in roots ==> !Reaches(refs, h, x)
  }

  lemma GcKeepsIntact(refs: Refs, before: set<Hash>, after: set<Hash>, roots: multiset<Hash>)
    requires Intact(refs, before, roots)
    requires CullsOnlyGarbage(refs, before, after, roots)
    ensures Intact(refs, after, roots)
  {
    forall h, x | h in roots && Reaches(refs, h, x) ensures x in after {
      assert Complete(refs, before, h);
    }
  }

  lemma PersistKeepsIntact(refs: Refs, before: set<Hash>, after: set<Hash>, roots: multiset<Hash>, root: Hash)
    requires Intact(refs, before, roots)
    requires before <= after && Complete(refs, after, root)
    ensures Intact(refs, after, roots + multiset{root})
  {
    forall h, x | h in roots && Reaches(refs, h, x) ensures x in after {
      assert Complete(refs, before, h);
    }
  }
}

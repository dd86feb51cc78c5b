/**
 The table of unshielded UTXOs: inserting created ones, marking spent ones with the transaction that
 spends them, and checking the number of rows a spend touched, all inside one database transaction
 per block.
 */
module UnshieldedUtxos {
  import opened Common

  datatype Key = Key(intentHash: nat, outputIndex: nat)
  datatype Utxo = Utxo(key: Key, owner: nat, token: nat, value: nat)
  datatype Row = Row(utxo: Utxo, creating: nat, spending: Option<nat>)

  /** A regular transaction with the identifier its row got. */
  datatype Tx = Tx(id: nat, created: seq<Utxo>, spent: seq<Utxo>)

  /** The unique constraint on intent hash and output index. */
  ghost predicate UniqueKeys(rows: seq<Row>) {
    forall i, j :: 0 <= i < j < |rows| ==> rows[i].utxo.key != rows[j].utxo.key
  }

  function KeysOf(utxos: seq<Utxo>): set<Key> {
    set i | 0 <= i < |utxos| :: utxos[i].key
  }

  predicate Markable(row: Row, keys: set<Key>) {
    row.utxo.key in keys && row.spending.None?
  }

  function Mark(row: Row, keys: set<Key>, id: nat): Row {
    if Markable(row, keys) then row.(spending := Some(id)) else row
  }

  function Inserted(rows: seq<Row>, utxos: seq<Utxo>, id: nat): seq<Row> {
    rows + seq(|utxos|, i requires 0 <= i < |utxos| => Row(utxos[i], id, None))
  }

  function Marked(rows: seq<Row>, keys: set<Key>, id: nat): seq<Row> {
    seq(|rows|, i requires 0 <= i < |rows| => Mark(rows[i], keys, id))
  }

  ghost predicate IsUnspent(rows: seq<Row>, key: Key) {
    exists i :: 0 <= i < |rows| && rows[i].utxo.key == key && rows[i].spending.None?
  }

  ghost predicate DistinctKeys(utxos: seq<Utxo>) {
    forall i, j :: 0 <= i < j < |utxos| ==> utxos[i].key != utxos[j].key
  }

  /** What a block needs for its spends to be accepted: each present, unspent and listed once. */
  ghost predicate CanSpend(rows: seq<Row>, utxos: seq<Utxo>) {
    DistinctKeys(utxos) && forall i :: 0 <= i < |utxos| ==> IsUnspent(rows, utxos[i].key)
  }

  ghost predicate CanInsert(rows: seq<Row>, utxos: seq<Utxo>) {
    UniqueKeys(Inserted(rows, utxos, 0))
  }

  // ---------------------------------------------------------------------------------------------
  // The number of rows a spend touches

  function RowsAffected(rows: seq<Row>, keys: set<Key>): nat {
    if rows == [] then 0
    else RowsAffected(rows[..|rows| - 1], keys) + if Markable(rows[|rows| - 1], keys) then 1 else 0
  }

  /** One more key touches one more row if it is new and unspent, and none otherwise. */
  lemma {:induction false} OneMoreKey(rows: seq<Row>, keys: set<Key>, key: Key)
    requires UniqueKeys(rows)
    ensures RowsAffected(rows, keys + {key}) ==
            RowsAffected(rows, keys) + if key !in keys && IsUnspent(rows, key) then 1 else 0
  {
    if rows != [] {
      var front, row := rows[..|rows| - 1], rows[|rows| - 1];
      OneMoreKey(front, keys, key);
      if row.utxo.key == key {
        assert !IsUnspent(front, key);
      }
      assert IsUnspent(rows, key) <==> IsUnspent(front, key) || (row.utxo.key == key && row.spending.None?) by {
        if IsUnspent(front, key) {
          var i :| 0 <= i < |front| && front[i].utxo.key == key && front[i].spending.None?;
          assert rows[i] == front[i];
        }
        if IsUnspent(rows, key) {
          var i :| 0 <= i < |rows| && rows[i].utxo.key == key && rows[i].spending.None?;
          assert i < |front| ==> rows[i] == front[i];
        }
      }
    }
  }

  lemma KeysSnoc(utxos: seq<Utxo>)
    requires utxos != []
    ensures KeysOf(utxos) == KeysOf(utxos[..|utxos| - 1]) + {utxos[|utxos| - 1].key}
  {
  }

  /** The pigeonhole: a spend touches as many rows as it lists exactly if each is present, unspent and listed once. */
  lemma {:induction false} AffectedIff(rows: seq<Row>, utxos: seq<Utxo>)
    requires UniqueKeys(rows)
    ensures RowsAffected(rows, KeysOf(utxos)) <= |utxos|
    ensures RowsAffected(rows, KeysOf(utxos)) == |utxos| <==> CanSpend(rows, utxos)
  {
    if utxos == [] {
      assert KeysOf(utxos) == {};
      NoKeys(rows);
    } else {
      var front, last := utxos[..|utxos| - 1], utxos[|utxos| - 1];
      AffectedIff(rows, front);
      KeysSnoc(utxos);
      OneMoreKey(rows, KeysOf(front), last.key);
      assert last.key !in KeysOf(front) <==> forall i :: 0 <= i < |front| ==> utxos[i].key != last.key;
    }
  }

  lemma {:induction false} NoKeys(rows: seq<Row>)
    ensures RowsAffected(rows, {}) == 0
  {
    if rows != [] {
      NoKeys(rows[..|rows| - 1]);
    }
  }

  // ---------------------------------------------------------------------------------------------
  // Values

  /** Unspent value of a token. */
  function Balance(rows: seq<Row>, token: nat): nat {
    if rows == [] then 0
    else
      var row := rows[|rows| - 1];
      Balance(rows[..|rows| - 1], token) + if row.spending.None? && row.utxo.token == token then row.utxo.value else 0
  }

  function Total(utxos: seq<Utxo>, token: nat): nat {
    if utxos == [] then 0
    else
      var u := utxos[|utxos| - 1];
      Total(utxos[..|utxos| - 1], token) + if u.token == token then u.value else 0
  }

  lemma {:induction false} InsertAdds(rows: seq<Row>, utxos: seq<Utxo>, id: nat, token: nat)
    ensures Balance(Inserted(rows, utxos, id), token) == Balance(rows, token) + Total(utxos, token)
  {
    var all := Inserted(rows, utxos, id);
    if utxos == [] {
      assert all == rows;
    } else {
      InsertAdds(rows, utxos[..|utxos| - 1], id, token);
      assert all[..|all| - 1] == Inserted(rows, utxos[..|utxos| - 1], id);
    }
  }

  /** Marking one unspent row takes its value out of the balance. */
  lemma {:induction false} MarkOneSubtracts(rows: seq<Row>, u: Utxo, id: nat, token: nat)
    requires UniqueKeys(rows)
    requires exists i :: 0 <= i < |rows| && rows[i].utxo == u && rows[i].spending.None?
    ensures Balance(rows, token) ==
            Balance(Marked(rows, {u.key}, id), token) + if u.token == token then u.value else 0
  {
    var front, row := rows[..|rows| - 1], rows[|rows| - 1];
    var marked := Marked(rows, {u.key}, id);
    assert marked[..|rows| - 1] == Marked(front, {u.key}, id);
    if row.utxo == u && row.spending.None? {
      MarkNone(front, {u.key}, id);
    } else {
      var i :| 0 <= i < |rows| && rows[i].utxo == u && rows[i].spending.None?;
      assert front[i] == rows[i];
      MarkOneSubtracts(front, u, id, token);
    }
  }

  lemma MarkNone(rows: seq<Row>, keys: set<Key>, id: nat)
    requires forall i :: 0 <= i < |rows| ==> !Markable(rows[i], keys)
    ensures Marked(rows, keys, id) == rows
  {
  }

  /** The spends carry the very UTXOs the rows hold. */
  ghost predicate Faithful(rows: seq<Row>, utxos: seq<Utxo>) {
    forall i :: 0 <= i < |utxos| ==>
      exists k :: 0 <= k < |rows| && rows[k].utxo == utxos[i] && rows[k].spending.None?
  }

  lemma MarkInTurn(rows: seq<Row>, keys: set<Key>, key: Key, id: nat)
    ensures Marked(rows, keys + {key}, id) == Marked(Marked(rows, keys, id), {key}, id)
  {
  }

  lemma MarkedKeepsKeys(rows: seq<Row>, keys: set<Key>, id: nat)
    requires UniqueKeys(rows)
    ensures UniqueKeys(Marked(rows, keys, id))
  {
  }

  /** Marking the listed spends takes exactly their total out of the balance. */
  lemma {:induction false} MarkSubtracts(rows: seq<Row>, utxos: seq<Utxo>, id: nat, token: nat)
    requires UniqueKeys(rows) && DistinctKeys(utxos) && Faithful(rows, utxos)
    ensures Balance(rows, token) == Balance(Marked(rows, KeysOf(utxos), id), token) + Total(utxos, token)
  {
    if utxos == [] {
      MarkNone(rows, KeysOf(utxos), id);
    } else {
      var front, last := utxos[..|utxos| - 1], utxos[|utxos| - 1];
      assert forall i :: 0 <= i < |front| ==> front[i] == utxos[i];
      MarkSubtracts(rows, front, id, token);
      KeysSnoc(utxos);
      MarkInTurn(rows, KeysOf(front), last.key, id);
      var marked := Marked(rows, KeysOf(front), id);
      MarkedKeepsKeys(rows, KeysOf(front), id);
      var k :| 0 <= k < |rows| && rows[k].utxo == last && rows[k].spending.None?;
      assert last.key !in KeysOf(front);
      assert marked[k] == rows[k];
      MarkOneSubtracts(marked, last, id, token);
    }
  }

  // ---------------------------------------------------------------------------------------------
  // Transactions and blocks

  ghost function ApplyTx(rows: seq<Row>, tx: Tx): Option<seq<Row>> {
    if !CanInsert(rows, tx.created) then None
    else
      var inserted := Inserted(rows, tx.created, tx.id);
      if CanSpend(inserted, tx.spent) then Some(Marked(inserted, KeysOf(tx.spent), tx.id)) else None
  }

  ghost function ApplyBlock(rows: seq<Row>, txs: seq<Tx>): Option<seq<Row>> {
    if txs == [] then Some(rows)
    else
      var before := ApplyBlock(rows, txs[..|txs| - 1]);
      if before.None? then None else ApplyTx(before.value, txs[|txs| - 1])
  }

  function AllCreated(txs: seq<Tx>): seq<Utxo> {
    if txs == [] then [] else AllCreated(txs[..|txs| - 1]) + txs[|txs| - 1].created
  }

  function AllSpent(txs: seq<Tx>): seq<Utxo> {
    if txs == [] then [] else AllSpent(txs[..|txs| - 1]) + txs[|txs| - 1].spent
  }

  lemma {:induction false} FailsForGood(rows: seq<Row>, txs: seq<Tx>, k: nat)
    requires k <= |txs| && ApplyBlock(rows, txs[..k]).None?
    ensures ApplyBlock(rows, txs).None?
    decreases |txs|
  {
    if k == |txs| {
      assert txs[..k] == txs;
    } else {
      assert txs[..|txs| - 1][..k] == txs[..k];
      FailsForGood(rows, txs[..|txs| - 1], k);
    }
  }

  /** Nothing about a row ever changes, except that an unspent one may become spent, once. */
  ghost predicate Preserves(rows: seq<Row>, rows': seq<Row>) {
    && |rows| <= |rows'|
    && forall i :: 0 <= i < |rows| ==>
         && rows'[i].utxo == rows[i].utxo && rows'[i].creating == rows[i].creating
         && (rows[i].spending.Some? ==> rows'[i].spending == rows[i].spending)
  }

  lemma {:induction false} SpendingIsNeverOverwritten(rows: seq<Row>, txs: seq<Tx>)
    requires ApplyBlock(rows, txs).Some?
    ensures Preserves(rows, ApplyBlock(rows, txs).value)
  {
    if txs != [] {
      SpendingIsNeverOverwritten(rows, txs[..|txs| - 1]);
    }
  }

  /** The table tells exactly which of the created UTXOs have been spent, and by which transaction. */
  ghost predicate Reflects(rows: seq<Row>, txs: seq<Tx>) {
    var created, spent := AllCreated(txs), AllSpent(txs);
    && UniqueKeys(rows)
    && |rows| == |created| && (forall i :: 0 <= i < |rows| ==> rows[i].utxo == created[i])
    && DistinctKeys(spent) && KeysOf(spent) <= KeysOf(created)
    && (forall i :: 0 <= i < |rows| ==> (rows[i].spending.Some? <==> rows[i].utxo.key in KeysOf(spent)))
  }

  lemma InsertedUnique(rows: seq<Row>, utxos: seq<Utxo>, id: nat)
    requires CanInsert(rows, utxos)
    ensures UniqueKeys(Inserted(rows, utxos, id))
  {
    var a, b := Inserted(rows, utxos, 0), Inserted(rows, utxos, id);
    assert forall i :: 0 <= i < |a| ==> a[i].utxo == b[i].utxo;
  }

  lemma KeysConcat(a: seq<Utxo>, b: seq<Utxo>)
    ensures KeysOf(a + b) == KeysOf(a) + KeysOf(b)
  {
    var c := a + b;
    forall key | key in KeysOf(a) + KeysOf(b) ensures key in KeysOf(c) {
      if key in KeysOf(a) {
        var i :| 0 <= i < |a| && a[i].key == key;
        assert c[i].key == key;
      } else {
        var i :| 0 <= i < |b| && b[i].key == key;
        assert c[|a| + i].key == key;
      }
    }
    forall key | key in KeysOf(c) ensures key in KeysOf(a) + KeysOf(b) {
      var i :| 0 <= i < |c| && c[i].key == key;
      assert c[i] == if i < |a| then a[i] else b[i - |a|];
    }
  }

  lemma DistinctConcat(a: seq<Utxo>, b: seq<Utxo>)
    requires DistinctKeys(a) && DistinctKeys(b) && forall i :: 0 <= i < |b| ==> b[i].key !in KeysOf(a)
    ensures DistinctKeys(a + b)
  {
  }

  lemma InsertReflects(rows: seq<Row>, txs: seq<Tx>, tx: Tx)
    requires Reflects(rows, txs) && CanInsert(rows, tx.created)
    ensures Reflects(Inserted(rows, tx.created, tx.id), txs + [tx.(spent := [])])
  {
    var txs' := txs + [tx.(spent := [])];
    assert txs'[..|txs|] == txs;
    var rows', created, spent := Inserted(rows, tx.created, tx.id), AllCreated(txs), AllSpent(txs);
    assert AllSpent(txs') == spent;
    InsertedUnique(rows, tx.created, tx.id);
    KeysConcat(created, tx.created);
    forall i, k | |rows| <= i < |rows'| && 0 <= k < |created| ensures rows'[i].utxo.key != created[k].key {
      assert rows'[k].utxo == created[k];
    }
  }

  lemma SpendReflects(rows: seq<Row>, txs: seq<Tx>, tx: Tx)
    requires Reflects(rows, txs + [tx.(spent := [])]) && CanSpend(rows, tx.spent)
    ensures Reflects(Marked(rows, KeysOf(tx.spent), tx.id), txs + [tx])
  {
    var before, after := txs + [tx.(spent := [])], txs + [tx];
    assert before[..|txs|] == txs && after[..|txs|] == txs;
    var spent := AllSpent(txs);
    assert AllSpent(before) == spent;
    KeysConcat(spent, tx.spent);
    forall i | 0 <= i < |tx.spent| ensures tx.spent[i].key !in KeysOf(spent) && tx.spent[i].key in KeysOf(AllCreated(before)) {
      assert IsUnspent(rows, tx.spent[i].key);
    }
    DistinctConcat(spent, tx.spent);
    MarkedKeepsKeys(rows, KeysOf(tx.spent), tx.id);
    forall i | 0 <= i < |rows|
      ensures Mark(rows[i], KeysOf(tx.spent), tx.id).spending.Some? <==> rows[i].utxo.key in KeysOf(spent + tx.spent)
    {
    }
  }

  /** After any accepted transactions, starting from the empty table. */
  lemma {:induction false} TableReflects(txs: seq<Tx>)
    requires ApplyBlock([], txs).Some?
    ensures Reflects(ApplyBlock([], txs).value, txs)
  {
    if txs != [] {
      var front, tx := txs[..|txs| - 1], txs[|txs| - 1];
      TableReflects(front);
      var rows := ApplyBlock([], front).value;
      assert front + [tx] == txs;
      InsertReflects(rows, front, tx);
      SpendReflects(Inserted(rows, tx.created, tx.id), front, tx);
    }
  }

  /** The unspent rows are the created UTXOs minus the spent ones; nothing is created or spent twice. */
  lemma UnspentIsCreatedMinusSpent(txs: seq<Tx>, key: Key)
    requires ApplyBlock([], txs).Some?
    ensures IsUnspent(ApplyBlock([], txs).value, key) <==> key in KeysOf(AllCreated(txs)) && key !in KeysOf(AllSpent(txs))
    ensures DistinctKeys(AllCreated(txs)) && DistinctKeys(AllSpent(txs)) && KeysOf(AllSpent(txs)) <= KeysOf(AllCreated(txs))
  {
    TableReflects(txs);
    var rows, created := ApplyBlock([], txs).value, AllCreated(txs);
    assert forall i :: 0 <= i < |created| ==> created[i] == rows[i].utxo;
    if key in KeysOf(created) && key !in KeysOf(AllSpent(txs)) {
      var i :| 0 <= i < |created| && created[i].key == key;
      assert rows[i].utxo.key == key && rows[i].spending.None?;
    }
  }

  /** Value of a token in those of the UTXOs that have one of the keys. */
  function TotalIn(utxos: seq<Utxo>, keys: set<Key>, token: nat): nat {
    if utxos == [] then 0
    else
      var u := utxos[|utxos| - 1];
      TotalIn(utxos[..|utxos| - 1], keys, token) + if u.key in keys && u.token == token then u.value else 0
  }

  lemma {:induction false} ValueSplits(rows: seq<Row>, created: seq<Utxo>, keys: set<Key>, token: nat)
    requires |rows| == |created| && forall i :: 0 <= i < |rows| ==> rows[i].utxo == created[i]
    requires forall i :: 0 <= i < |rows| ==> (rows[i].spending.Some? <==> rows[i].utxo.key in keys)
    ensures Total(created, token) == TotalIn(created, keys, token) + Balance(rows, token)
  {
    if rows != [] {
      ValueSplits(rows[..|rows| - 1], created[..|created| - 1], keys, token);
    }
  }

  /** Per token, what was created is what the spent UTXOs were created with plus what the table holds unspent. */
  lemma ValueIsConserved(txs: seq<Tx>, token: nat)
    requires ApplyBlock([], txs).Some?
    ensures Total(AllCreated(txs), token) ==
            TotalIn(AllCreated(txs), KeysOf(AllSpent(txs)), token) + Balance(ApplyBlock([], txs).value, token)
  {
    TableReflects(txs);
    ValueSplits(ApplyBlock([], txs).value, AllCreated(txs), KeysOf(AllSpent(txs)), token);
  }

  /** Every transaction lists the UTXOs it spends as they were created. */
  ghost predicate AllFaithful(txs: seq<Tx>) {
    txs != [] ==>
      var front, tx := txs[..|txs| - 1], txs[|txs| - 1];
      AllFaithful(front) &&
      (ApplyBlock([], front).Some? ==> Faithful(Inserted(ApplyBlock([], front).value, tx.created, tx.id), tx.spent))
  }

  lemma {:induction false} TotalConcat(a: seq<Utxo>, b: seq<Utxo>, token: nat)
    ensures Total(a + b, token) == Total(a, token) + Total(b, token)
  {
    if b == [] {
      assert a + b == a;
    } else {
      TotalConcat(a, b[..|b| - 1], token);
      assert (a + b)[..|a + b| - 1] == a + b[..|b| - 1];
    }
  }

  /** If spends are listed as they were created, the listed values are conserved too. */
  lemma {:induction false} ListedValueIsConserved(txs: seq<Tx>, token: nat)
    requires ApplyBlock([], txs).Some? && AllFaithful(txs)
    ensures Total(AllCreated(txs), token) == Total(AllSpent(txs), token) + Balance(ApplyBlock([], txs).value, token)
  {
    if txs != [] {
      var front, tx := txs[..|txs| - 1], txs[|txs| - 1];
      ListedValueIsConserved(front, token);
      TableReflects(front);
      var rows := ApplyBlock([], front).value;
      InsertedUnique(rows, tx.created, tx.id);
      InsertAdds(rows, tx.created, tx.id, token);
      MarkSubtracts(Inserted(rows, tx.created, tx.id), tx.spent, tx.id, token);
      TotalConcat(AllCreated(front), tx.created, token);
      TotalConcat(AllSpent(front), tx.spent, token);
    }
  }

  /** What is left after offering the blocks one by one: those that fail leave no trace. */
  ghost function AfterBlocks(blocks: seq<seq<Tx>>): seq<Row> {
    if blocks == [] then []
    else
      var rows := AfterBlocks(blocks[..|blocks| - 1]);
      var r := ApplyBlock(rows, blocks[|blocks| - 1]);
      if r.Some? then r.value else rows
  }

  /** The transactions of the blocks that were accepted. */
  ghost function Accepted(blocks: seq<seq<Tx>>): seq<Tx> {
    if blocks == [] then []
    else
      var front, last := blocks[..|blocks| - 1], blocks[|blocks| - 1];
      Accepted(front) + if ApplyBlock(AfterBlocks(front), last).Some? then last else []
  }

  lemma {:induction false} BlocksConcat(rows: seq<Row>, a: seq<Tx>, b: seq<Tx>)
    requires ApplyBlock(rows, a).Some?
    ensures ApplyBlock(rows, a + b) == ApplyBlock(ApplyBlock(rows, a).value, b)
  {
    if b == [] {
      assert a + b == a;
    } else {
      BlocksConcat(rows, a, b[..|b| - 1]);
      assert (a + b)[..|a + b| - 1] == a + b[..|b| - 1];
    }
  }

  /** Any run of accepted and failed blocks is one run of the accepted transactions. */
  lemma {:induction false} FailedBlocksLeaveNoTrace(blocks: seq<seq<Tx>>)
    ensures ApplyBlock([], Accepted(blocks)) == Some(AfterBlocks(blocks))
  {
    if blocks != [] {
      var front, last := blocks[..|blocks| - 1], blocks[|blocks| - 1];
      FailedBlocksLeaveNoTrace(front);
      if ApplyBlock(AfterBlocks(front), last).Some? {
        BlocksConcat([], Accepted(front), last);
      } else {
        assert Accepted(front) + [] == Accepted(front);
      }
    }
  }

  class UtxoTable {
    var rows: seq<Row>

    constructor ()
      ensures rows == []
    {
      rows := [];
    }

    method SaveCreated(utxos: seq<Utxo>, id: nat) returns (ok: bool)
      requires UniqueKeys(rows)
      modifies this
      ensures ok <==> CanInsert(old(rows), utxos)
      ensures UniqueKeys(rows)
      ensures rows == if ok then Inserted(old(rows), utxos, id) else old(rows)
    {
      var all := rows;
      for i := 0 to |utxos|
        invariant rows == old(rows)
        invariant all == Inserted(rows, utxos[..i], id)
        invariant UniqueKeys(all)
      {
        if exists k :: 0 <= k < |all| && all[k].utxo.key == utxos[i].key {
          assert forall k :: 0 <= k < |all| ==> Inserted(rows, utxos, 0)[k].utxo == all[k].utxo;
          assert Inserted(rows, utxos, 0)[|all|].utxo == utxos[i];
          return false;
        }
        all := all + [Row(utxos[i], id, None)];
        assert all == Inserted(rows, utxos[..i + 1], id);
      }
      assert utxos[..|utxos|] == utxos;
      assert forall k :: 0 <= k < |all| ==> Inserted(rows, utxos, 0)[k].utxo == all[k].utxo;
      rows, ok := all, true;
    }

    /** The update has taken place whatever the check says; the caller rolls back. */
    method SaveSpent(utxos: seq<Utxo>, id: nat) returns (ok: bool)
      requires UniqueKeys(rows)
      modifies this
      ensures rows == Marked(old(rows), KeysOf(utxos), id)
      ensures ok <==> CanSpend(old(rows), utxos)
    {
      var keys := KeysOf(utxos);
      var marked, rowsAffected := [], 0;
      for i := 0 to |rows|
        invariant rows == old(rows)
        invariant marked == Marked(rows[..i], keys, id)
        invariant rowsAffected == RowsAffected(rows[..i], keys)
      {
        assert rows[..i + 1][..i] == rows[..i];
        if Markable(rows[i], keys) {
          rowsAffected := rowsAffected + 1;
        }
        marked := marked + [Mark(rows[i], keys, id)];
      }
      assert rows[..|rows|] == rows;
      AffectedIff(rows, utxos);
      rows, ok := marked, rowsAffected == |utxos|;
    }

    /** All of a block or nothing of it. */
    method SaveBlock(txs: seq<Tx>) returns (ok: bool)
      requires UniqueKeys(rows)
      modifies this
      ensures UniqueKeys(rows)
      ensures ok <==> ApplyBlock(old(rows), txs).Some?
      ensures rows == if ok then ApplyBlock(old(rows), txs).value else old(rows)
    {
      var snapshot := rows;
      for i := 0 to |txs|
        invariant UniqueKeys(rows) && ApplyBlock(snapshot, txs[..i]) == Some(rows)
      {
        assert txs[..i + 1][..i] == txs[..i];
        ok := SaveCreated(txs[i].created, txs[i].id);
        if ok {
          MarkedKeepsKeys(rows, KeysOf(txs[i].spent), txs[i].id);
          ok := SaveSpent(txs[i].spent, txs[i].id);
        }
        if !ok {
          FailsForGood(snapshot, txs, i + 1);
          rows := snapshot;
          return;
        }
      }
      assert txs[..|txs|] == txs;
      ok := true;
    }
  }
}

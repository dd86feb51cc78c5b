/**
 Finding nullifiers by prefix: the prefix turned into a range of byte strings, and the range read
 page by page with a cursor while rows may still be added.
 */
module NullifierScan {
  type Byte = b: nat | b < 256
  type Bytes = seq<Byte>

  /** Byte strings compare lexicographically in the database. */
  predicate Less(a: Bytes, b: Bytes) {
    b != [] && (a == [] || a[0] < b[0] || (a[0] == b[0] && Less(a[1..], b[1..])))
  }

  /** The upper end of the range: the last byte plus one, or a zero byte appended if it is 255. */
  function NextPrefix(p: Bytes): Bytes {
    if p == [] then p
    else if p[|p| - 1] < 255 then p[|p| - 1 := p[|p| - 1] + 1]
    else p + [0]
  }

  predicate InRange(p: Bytes, x: Bytes) {
    !Less(x, p) && Less(x, NextPrefix(p))
  }

  lemma {:induction false} BelowBump(p: Bytes, x: Bytes)
    requires p != [] && p[|p| - 1] < 255
    ensures InRange(p, x) <==> p <= x
  {
    var q := NextPrefix(p);
    if |p| == 1 {
      assert p == [p[0]] && q == [p[0] + 1] && p[1..] == [] && q[1..] == [];
      if x != [] {
        assert !Less(x[1..], []);
        assert p <= x <==> p[0] == x[0];
      }
    } else if x != [] {
      var rest := p[1..];
      assert NextPrefix(rest) == q[1..];
      BelowBump(rest, x[1..]);
      assert p == [p[0]] + rest && x == [x[0]] + x[1..];
      assert p <= x <==> p[0] == x[0] && rest <= x[1..];
    }
  }

  lemma {:induction false} BelowZeroAppended(p: Bytes, x: Bytes)
    ensures !Less(x, p) && Less(x, p + [0]) <==> x == p
  {
    if p == [] {
      assert x != [] ==> (Less(x[1..], []) <==> false);
    } else if x != [] {
      var rest := p[1..];
      BelowZeroAppended(rest, x[1..]);
      assert (p + [0])[1..] == rest + [0];
      assert p == [p[0]] + rest && x == [x[0]] + x[1..];
    }
  }

  /** A prefix below 255 in its last byte: the range holds exactly the strings that start with it. */
  lemma RangeIsPrefix(p: Bytes, x: Bytes)
    requires p != [] && p[|p| - 1] < 255
    ensures InRange(p, x) <==> p <= x
  {
    BelowBump(p, x);
  }

  /** A prefix ending in 255: the range holds only the prefix itself. */
  lemma RangeOfLast255(p: Bytes, x: Bytes)
    requires p != [] && p[|p| - 1] == 255
    ensures InRange(p, x) <==> x == p
  {
    BelowZeroAppended(p, x);
  }

  /** The empty prefix: the range is empty. */
  lemma RangeOfEmpty(x: Bytes)
    ensures !InRange([], x)
  {
  }

  /** For nullifiers of `n` bytes the range is the prefix relation exactly under this condition. */
  predicate PrefixIsExact(p: Bytes, n: nat) {
    p != [] && (p[|p| - 1] < 255 || |p| >= n)
  }

  lemma ExactIff(p: Bytes, n: nat)
    ensures (forall x: Bytes :: |x| == n ==> (InRange(p, x) <==> p <= x)) <==> PrefixIsExact(p, n)
  {
    if p == [] {
      var x: Bytes := seq(n, _ => 0);
      RangeOfEmpty(x);
      assert |x| == n && p <= x && !InRange(p, x);
    } else if p[|p| - 1] < 255 {
      forall x: Bytes | |x| == n ensures InRange(p, x) <==> p <= x {
        RangeIsPrefix(p, x);
      }
    } else if |p| >= n {
      forall x: Bytes | |x| == n ensures InRange(p, x) <==> p <= x {
        RangeOfLast255(p, x);
        assert p <= x ==> x == p;
      }
    } else {
      var x: Bytes := p + seq(n - |p|, _ => 0);
      RangeOfLast255(p, x);
      assert |x| == n && p <= x && x != p && !InRange(p, x);
    }
  }

  // ---------------------------------------------------------------------------------------------
  // Paging

  datatype Row = Row(id: nat, nullifier: Bytes, height: nat)

  datatype Query = Query(prefix: Bytes, fromBlock: nat, toBlock: nat)

  predicate Matches(q: Query, row: Row) {
    InRange(q.prefix, row.nullifier) && q.fromBlock <= row.height <= q.toBlock
  }

  /** The condition of the query on a row. */
  function Where(q: Query): Row -> bool {
    row => Matches(q, row)
  }

  ghost predicate Sorted(rows: seq<Row>) {
    && (forall i :: 0 <= i < |rows| ==> rows[i].id > 0)
    && (forall i, j :: 0 <= i < j < |rows| ==> rows[i].id < rows[j].id)
  }

  /** The first `limit` matching rows after the cursor, in identifier order. */
  ghost predicate IsPage(rows: seq<Row>, f: Row -> bool, cursor: nat, limit: nat, page: seq<Row>) {
    && |page| <= limit
    && (forall i, j :: 0 <= i < j < |page| ==> page[i].id < page[j].id)
    && (forall r :: r in page ==> r in rows && f(r) && r.id > cursor)
    && (forall r :: r in rows && f(r) && r.id > cursor && r !in page ==>
          |page| == limit && forall u :: u in page ==> u.id < r.id)
  }

  /** `page` holds, in order, the matching rows after the cursor among the first `i`. */
  ghost predicate Collected(rows: seq<Row>, f: Row -> bool, cursor: nat, i: nat, page: seq<Row>)
    requires i <= |rows|
  {
    && (forall a, b :: 0 <= a < b < |page| ==> page[a].id < page[b].id)
    && (forall r :: r in page <==> r in rows[..i] && f(r) && r.id > cursor)
  }

  lemma CollectNext(rows: seq<Row>, f: Row -> bool, cursor: nat, i: nat, page: seq<Row>)
    requires Sorted(rows) && i < |rows| && Collected(rows, f, cursor, i, page)
    ensures Collected(rows, f, cursor, i + 1, if f(rows[i]) && rows[i].id > cursor then page + [rows[i]] else page)
  {
    assert rows[..i + 1] == rows[..i] + [rows[i]];
    forall k | 0 <= k < |page| ensures page[k].id < rows[i].id {
      assert page[k] in rows[..i];
    }
  }

  lemma CollectedIsPage(rows: seq<Row>, f: Row -> bool, cursor: nat, limit: nat, i: nat, page: seq<Row>)
    requires Sorted(rows) && i <= |rows| && Collected(rows, f, cursor, i, page) && |page| <= limit
    requires i == |rows| || |page| == limit
    ensures IsPage(rows, f, cursor, limit, page)
  {
    forall r | r in rows && f(r) && r.id > cursor && r !in page
      ensures |page| == limit && forall u :: u in page ==> u.id < r.id
    {
      assert r !in rows[..i];
      forall u | u in page ensures u.id < r.id {
        var k :| 0 <= k < i && rows[k] == u;
      }
    }
  }

  method FetchPage(rows: seq<Row>, f: Row -> bool, cursor: nat, limit: nat) returns (page: seq<Row>)
    requires Sorted(rows)
    ensures IsPage(rows, f, cursor, limit, page)
  {
    page := [];
    var i := 0;
    while i < |rows| && |page| < limit
      invariant i <= |rows| && |page| <= limit
      invariant Collected(rows, f, cursor, i, page)
    {
      CollectNext(rows, f, cursor, i, page);
      if f(rows[i]) && rows[i].id > cursor {
        page := page + [rows[i]];
      }
      i := i + 1;
    }
    CollectedIsPage(rows, f, cursor, limit, i, page);
  }

  /** Successive contents of a table that is only appended to. */
  ghost predicate Snapshots(tables: seq<seq<Row>>) {
    && tables != []
    && (forall k :: 0 <= k < |tables| ==> Sorted(tables[k]))
    && (forall k, l :: 0 <= k <= l < |tables| ==> tables[k] <= tables[l])
  }

  /** `out` lists the matching rows up to the cursor, each once and in identifier order. */
  ghost predicate ListsUpTo(rows: seq<Row>, f: Row -> bool, cursor: nat, out: seq<Row>) {
    && (forall i, j :: 0 <= i < j < |out| ==> out[i].id < out[j].id)
    && (forall r :: r in out <==> r in rows && f(r) && r.id <= cursor)
  }

  ghost predicate Lists(rows: seq<Row>, f: Row -> bool, out: seq<Row>) {
    && (forall i, j :: 0 <= i < j < |out| ==> out[i].id < out[j].id)
    && (forall r :: r in out <==> r in rows && f(r))
  }

  lemma PageExtends(rows: seq<Row>, f: Row -> bool, cursor: nat, limit: nat, out: seq<Row>, page: seq<Row>)
    requires ListsUpTo(rows, f, cursor, out) && IsPage(rows, f, cursor, limit, page) && page != []
    ensures ListsUpTo(rows, f, page[|page| - 1].id, out + page)
    ensures page[|page| - 1].id > cursor && page[|page| - 1] in rows
  {
    var all, last := out + page, page[|page| - 1];
    assert last in page;
    forall i, j | 0 <= i < j < |all| ensures all[i].id < all[j].id {
      if i < |out| <= j {
        assert out[i] in out && page[j - |out|] in page;
      }
    }
    forall r | r in all ensures r in rows && f(r) && r.id <= last.id {
    }
    forall r | r in rows && f(r) && r.id <= last.id ensures r in all {
    }
  }

  lemma GrowthKeepsListing(rows: seq<Row>, later: seq<Row>, f: Row -> bool, cursor: nat, out: seq<Row>)
    requires Sorted(rows) && Sorted(later) && rows <= later && ListsUpTo(rows, f, cursor, out)
    requires cursor == 0 || exists r :: r in rows && r.id == cursor
    ensures ListsUpTo(later, f, cursor, out)
  {
    if cursor > 0 {
      var i :| 0 <= i < |rows| && rows[i].id == cursor;
      assert later[i] == rows[i];
      assert forall j :: |rows| <= j < |later| ==> later[i].id < later[j].id;
    }
    assert forall j :: 0 <= j < |rows| ==> later[j] == rows[j];
  }

  ghost function Beyond(rows: seq<Row>, cursor: nat): set<Row> {
    set r | r in rows && r.id > cursor
  }

  /**
   The cursor loop for one prefix. Each query may see a later snapshot; for every batch size the rows
   delivered are exactly the matching rows of the table as the last query saw it.
   */
  method ScanPrefix(tables: seq<seq<Row>>, f: Row -> bool, limit: nat) returns (out: seq<Row>, k: nat)
    requires Snapshots(tables) && limit > 0
    ensures k < |tables| && Lists(tables[k], f, out)
  {
    out, k := [], 0;
    var cursor := 0;
    ghost var final := tables[|tables| - 1];
    while true
      invariant k < |tables| && ListsUpTo(tables[k], f, cursor, out)
      invariant cursor == 0 || exists r :: r in tables[k] && r.id == cursor
      decreases Beyond(final, cursor)
    {
      var page := FetchPage(tables[k], f, cursor, limit);
      if page == [] {
        return;
      }
      PageExtends(tables[k], f, cursor, limit, out, page);
      var last := page[|page| - 1];
      assert last in final && last in Beyond(final, cursor) && last !in Beyond(final, last.id);
      cursor, out := last.id, out + page;
      if k + 1 < |tables| {
        GrowthKeepsListing(tables[k], tables[k + 1], f, cursor, out);
        assert forall r :: r in tables[k] ==> r in tables[k + 1];
        k := k + 1;
      }
    }
  }

  /** Pages of any two sizes deliver the same rows in the same order. */
  lemma {:induction false} ListingIsUnique(rows: seq<Row>, f: Row -> bool, a: seq<Row>, b: seq<Row>)
    requires Lists(rows, f, a) && Lists(rows, f, b)
    ensures a == b
  {
    SameMembersSameOrder(a, b);
  }

  lemma {:induction false} SameMembersSameOrder(a: seq<Row>, b: seq<Row>)
    requires forall i, j :: 0 <= i < j < |a| ==> a[i].id < a[j].id
    requires forall i, j :: 0 <= i < j < |b| ==> b[i].id < b[j].id
    requires forall r :: r in a <==> r in b
    ensures a == b
  {
    assert b != [] ==> b[0] in b;
    if a != [] {
      assert a[0] in b;
      assert b[0] in a;
      assert a[0] == b[0];
      var a', b' := a[1..], b[1..];
      forall r ensures r in a' <==> r in b' {
        assert r in a <==> r == a[0] || r in a';
        assert r in b <==> r == b[0] || r in b';
        if r in a' {
          var i :| 0 <= i < |a'| && a'[i] == r;
          assert a[i + 1] == r;
        }
        if r in b' {
          var i :| 0 <= i < |b'| && b'[i] == r;
          assert b[i + 1] == r;
        }
      }
      SameMembersSameOrder(a', b');
    }
  }

  /** All prefixes of a request in turn: per prefix, its matching rows. */
  method Scan(prefixes: seq<Bytes>, fromBlock: nat, toBlock: nat, tables: seq<seq<seq<Row>>>, limit: nat)
    returns (out: seq<Row>, parts: seq<seq<Row>>, seen: seq<nat>)
    requires limit > 0 && |tables| == |prefixes| && forall i :: 0 <= i < |tables| ==> Snapshots(tables[i])
    ensures |parts| == |seen| == |prefixes| && out == Concat(parts)
    ensures forall i :: 0 <= i < |prefixes| ==>
              seen[i] < |tables[i]| && Lists(tables[i][seen[i]], Where(Query(prefixes[i], fromBlock, toBlock)), parts[i])
  {
    out, parts, seen := [], [], [];
    for i := 0 to |prefixes|
      invariant |parts| == |seen| == i && out == Concat(parts)
      invariant forall j :: 0 <= j < i ==>
                  seen[j] < |tables[j]| && Lists(tables[j][seen[j]], Where(Query(prefixes[j], fromBlock, toBlock)), parts[j])
    {
      var part, k := ScanPrefix(tables[i], Where(Query(prefixes[i], fromBlock, toBlock)), limit);
      var longer := parts + [part];
      assert longer[..i] == parts;
      out, parts, seen := out + part, longer, seen + [k];
    }
  }

  function Concat(parts: seq<seq<Row>>): seq<Row> {
    if parts == [] then [] else Concat(parts[..|parts| - 1]) + parts[|parts| - 1]
  }

  /** For a well-chosen prefix, the rows listed are those in the block range whose nullifier starts with it. */
  lemma ListsByPrefix(rows: seq<Row>, q: Query, n: nat, out: seq<Row>, r: Row)
    requires Lists(rows, Where(q), out) && PrefixIsExact(q.prefix, n)
    requires forall u :: u in rows ==> |u.nullifier| == n
    ensures r in out <==> r in rows && q.prefix <= r.nullifier && q.fromBlock <= r.height <= q.toBlock
  {
    ExactIff(q.prefix, n);
    assert r in rows ==> (Where(q)(r) <==> Matches(q, r));
  }
}

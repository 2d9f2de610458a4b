/** Configuration documents as trees, and edits at dotted paths. */
module Toml {
  import opened Basics

  type Path = seq<string>

  type Table = map<string, Item>

  /** Inline and standard tables are alike; every other value is opaque. */
  datatype Item = Text(value: string) | Other(id: nat) | Sub(table: Table)

  /** Neither path leads through the other. */
  predicate Unrelated(p: Path, q: Path) {
    !(p <= q) && !(q <= p)
  }

  function Lookup(t: Table, p: Path): Option<Item>
    decreases |p|
  {
    if |p| == 0 then Some(Sub(t))
    else if p[0] !in t then None
    else if |p| == 1 then Some(t[p[0]])
    else if t[p[0]].Sub? then Lookup(t[p[0]].table, p[1..])
    else None
  }

  /** Writes a string, creating the tables on the way; fails at a parent that is
      not a table. */
  function Put(t: Table, p: Path, v: string): Option<Table>
    requires |p| > 0
    decreases |p|
  {
    if |p| == 1 then Some(t[p[0] := Text(v)])
    else
      var sub := if p[0] in t then t[p[0]] else Sub(map[]);
      if !sub.Sub? then None
      else
        var inner := Put(sub.table, p[1..], v);
        if inner.None? then None else Some(t[p[0] := Sub(inner.value)])
  }

  /** Removes an entry; a path that leads nowhere is left alone. */
  function Drop(t: Table, p: Path): Table
    requires |p| > 0
    decreases |p|
  {
    if |p| == 1 then t - {p[0]}
    else if p[0] in t && t[p[0]].Sub? then t[p[0] := Sub(Drop(t[p[0]].table, p[1..]))]
    else t
  }

  predicate IsTable(t: Table, p: Path) {
    var i := Lookup(t, p);
    i.Some? && i.value.Sub?
  }

  /** The value at a path, when it is not a table. */
  function Leaf(t: Table, p: Path): Option<Item> {
    var i := Lookup(t, p);
    if i.Some? && i.value.Sub? then None else i
  }

  /** The path holds a string or nothing. */
  predicate Readable(t: Table, p: Path) {
    var i := Lookup(t, p);
    i.None? || i.value.Text?
  }

  /** The string at a readable path. */
  function StringAt(t: Table, p: Path): Option<string> {
    var i := Lookup(t, p);
    if i.Some? && i.value.Text? then Some(i.value.value) else None
  }

  lemma {:induction false} PutLookup(t: Table, p: Path, v: string, q: Path)
    requires |p| > 0 && Put(t, p, v).Some?
    ensures var u := Put(t, p, v).value;
            && Lookup(u, p) == Some(Text(v))
            && (Unrelated(p, q) ==> Lookup(u, q) == Lookup(t, q))
            && (q < p ==> IsTable(u, q))
    decreases |p|
  {
    if |p| > 1 {
      var sub := if p[0] in t then t[p[0]] else Sub(map[]);
      if |q| > 0 && q[0] == p[0] {
        assert p == [p[0]] + p[1..] && q == [q[0]] + q[1..];
        PutLookup(sub.table, p[1..], v, q[1..]);
        assert p <= q <==> p[1..] <= q[1..];
        assert q <= p <==> q[1..] <= p[1..];
      } else {
        PutLookup(sub.table, p[1..], v, []);
      }
    }
  }

  lemma {:induction false} DropLookup(t: Table, p: Path, q: Path)
    requires |p| > 0
    ensures var u := Drop(t, p);
            && Lookup(u, p) == None
            && (Unrelated(p, q) ==> Lookup(u, q) == Lookup(t, q))
            && (q < p ==> IsTable(u, q) == IsTable(t, q) && Leaf(u, q) == Leaf(t, q))
    decreases |p|
  {
    if |p| > 1 && p[0] in t && t[p[0]].Sub? {
      if |q| > 0 && q[0] == p[0] {
        assert p == [p[0]] + p[1..] && q == [q[0]] + q[1..];
        DropLookup(t[p[0]].table, p[1..], q[1..]);
        assert p <= q <==> p[1..] <= q[1..];
        assert q <= p <==> q[1..] <= p[1..];
      } else {
        DropLookup(t[p[0]].table, p[1..], []);
      }
    }
  }

  /** Nothing lies below a value that is not a table. */
  lemma {:induction false} NothingBelow(t: Table, p: Path, q: Path)
    requires p < q && !IsTable(t, p)
    ensures Lookup(t, q) == None
    decreases |p|
  {
    assert |p| > 0;
    assert q[0] == p[0];
    if |p| > 1 && p[0] in t && t[p[0]].Sub? {
      assert p == [p[0]] + p[1..] && q == [q[0]] + q[1..];
      NothingBelow(t[p[0]].table, p[1..], q[1..]);
    }
  }

  /** A write that succeeds met only tables, or nothing, on its way. */
  lemma {:induction false} PutNeedsTables(t: Table, p: Path, v: string, q: Path)
    requires |p| > 0 && Put(t, p, v).Some? && q < p
    ensures Leaf(t, q) == None
    decreases |p|
  {
    if |q| > 0 {
      assert q[0] == p[0];
      assert p == [p[0]] + p[1..] && q == [q[0]] + q[1..];
      if p[0] in t {
        PutNeedsTables(t[p[0]].table, p[1..], v, q[1..]);
      }
    }
  }

  /** Writing at a readable path changes no other value anywhere. */
  lemma PutLeaf(t: Table, p: Path, v: string, q: Path)
    requires |p| > 0 && Readable(t, p) && Put(t, p, v).Some?
    ensures var u := Put(t, p, v).value;
            && Leaf(u, q) == (if q == p then Some(Text(v)) else Leaf(t, q))
            && (IsTable(u, q) <==> IsTable(t, q) || q < p)
  {
    var u := Put(t, p, v).value;
    PutLookup(t, p, v, q);
    if p < q {
      NothingBelow(t, p, q);
      NothingBelow(u, p, q);
    } else if q < p {
      PutNeedsTables(t, p, v, q);
    }
  }

  /** A write fails only at a value on its way that is not a table. */
  lemma {:induction false} PutFails(t: Table, p: Path, v: string) returns (q: Path)
    requires |p| > 0 && Put(t, p, v).None?
    ensures q < p && Leaf(t, q).Some?
    decreases |p|
  {
    var sub := if p[0] in t then t[p[0]] else Sub(map[]);
    if sub.Sub? {
      var inner := PutFails(sub.table, p[1..], v);
      q := [p[0]] + inner;
      assert q[1..] == inner;
    } else {
      q := [p[0]];
    }
  }

  /** Removing a readable path changes no other value anywhere. */
  lemma DropLeaf(t: Table, p: Path, q: Path)
    requires |p| > 0 && Readable(t, p)
    ensures var u := Drop(t, p);
            && Leaf(u, q) == (if q == p then None else Leaf(t, q))
            && IsTable(u, q) == IsTable(t, q)
  {
    DropLookup(t, p, q);
    if p < q {
      NothingBelow(t, p, q);
      NothingBelow(Drop(t, p), p, q);
    }
  }

  /** Removes a table that has become empty. */
  function Prune(t: Table, p: Path): Table
    requires |p| > 0
  {
    if Lookup(t, p) == Some(Sub(map[])) then Drop(t, p) else t
  }

  lemma {:induction false} LookupBelow(t: Table, p: Path, s: Table, q: Path)
    requires Lookup(t, p) == Some(Sub(s)) && p <= q
    ensures Lookup(t, q) == Lookup(s, q[|p|..])
    decreases |p|
  {
    if |p| > 0 {
      assert q[0] == p[0];
      if |p| == 1 {
        assert q[1..] == q[|p|..];
      } else {
        LookupBelow(t[p[0]].table, p[1..], s, q[1..]);
        assert q[1..][|p[1..]|..] == q[|p|..];
      }
    }
  }

  /** Pruning loses no value, and no table but the empty one. */
  lemma PruneLeaf(t: Table, p: Path, q: Path)
    requires |p| > 0
    ensures Leaf(Prune(t, p), q) == Leaf(t, q)
    ensures q != p ==> IsTable(Prune(t, p), q) == IsTable(t, q)
    ensures Lookup(Prune(t, p), p) != Some(Sub(map[]))
  {
    DropLookup(t, p, q);
    if (p <= q || q <= p) && |p| == |q| {
      assert p == q;
    } else if Lookup(t, p) == Some(Sub(map[])) && p < q {
      LookupBelow(t, p, map[], q);
      assert |q[|p|..]| > 0;
      NothingBelow(Drop(t, p), p, q);
    }
  }
}

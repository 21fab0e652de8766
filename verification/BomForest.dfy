/** Bill-of-material items: the table, the recursive explosion and the tree. */
module BomForest {
  import opened Common
  import opened Filters
  import opened Sorting

  /** `quantity` is NUMERIC(18,4), scaled by 10^4. */
  datatype Row = Row(id: Id, version: nat, parent: Option<Id>, variant: Id, quantity: int, level: nat, sequence: int)

  predicate UniqueIds(rows: seq<Row>) {
    forall i, j | 0 <= i < j < |rows| :: rows[i].id != rows[j].id
  }

  /** Parents are older than their children, in the same version and one level up.
      A missing parent is tolerated. */
  ghost predicate Forest(rows: seq<Row>) {
    && UniqueIds(rows)
    && (forall r | r in rows :: if r.parent.None? then r.level == 0 else r.parent.value < r.id)
    && (forall r, p | r in rows && p in rows && r.parent == Some(p.id) :: LinkOk(r, p))
  }

  predicate LinkOk(r: Row, p: Row) {
    r.version == p.version && r.level == p.level + 1 && r.variant != p.variant
  }

  /** Following parents from `r` through the table ends in a root of version `v`. */
  ghost predicate Reaches(rows: seq<Row>, v: nat, r: Row)
    decreases r.id
  {
    if r.parent.None? then r.version == v
    else exists p | p in rows :: p.id < r.id && r.parent == Some(p.id) && Reaches(rows, v, p)
  }

  function IsRoot(v: nat): Row -> bool { (r: Row) => r.parent.None? && r.version == v }

  function ChildOf(id: Id): Row -> bool { (r: Row) => r.parent == Some(id) }

  // ------------------------------------------------------------------
  // Selecting rows
  // ------------------------------------------------------------------

  lemma {:induction false} FilterMembers<T>(f: T -> bool, s: seq<T>)
    ensures forall x :: x in Filter(f, s) <==> x in s && f(x)
  {
    if s != [] {
      var m := |s| - 1;
      FilterMembers(f, s[..m]);
      assert s == s[..m] + [s[m]];
    }
  }

  lemma {:induction false} FilterUnique(f: Row -> bool, s: seq<Row>)
    requires UniqueIds(s)
    ensures UniqueIds(Filter(f, s))
  {
    if s != [] {
      var m := |s| - 1;
      FilterUnique(f, s[..m]);
      FilterMembers(f, s[..m]);
      forall r | r in Filter(f, s[..m]) ensures r.id != s[m].id {
        assert r in s[..m];
      }
    }
  }

  lemma SameIdSameRow(s: seq<Row>, a: Row, b: Row)
    requires UniqueIds(s) && a in s && b in s && a.id == b.id
    ensures a == b
  {
  }

  lemma UniqueConcat(s: seq<Row>, t: seq<Row>)
    requires UniqueIds(s) && UniqueIds(t)
    requires forall a, b | a in s && b in t :: a.id != b.id
    ensures UniqueIds(s + t)
  {
  }

  /** Two lists without repetition and with the same members are permutations. */
  lemma SameRows(s: seq<Row>, t: seq<Row>)
    requires UniqueIds(s) && UniqueIds(t) && forall r :: r in s <==> r in t
    ensures multiset(s) == multiset(t)
  {
    forall r ensures multiset(s)[r] == multiset(t)[r] {
      CountDistinct(s, r);
      CountDistinct(t, r);
    }
  }

  // ------------------------------------------------------------------
  // The recursive query
  // ------------------------------------------------------------------

  /** The join of the table with the working table: one output row per matching pair. */
  function Children(rows: seq<Row>, working: seq<Row>): seq<Row> {
    if working == [] then []
    else Children(rows, working[..|working| - 1]) + Filter(ChildOf(working[|working| - 1].id), rows)
  }

  lemma {:induction false} ChildrenMembers(rows: seq<Row>, working: seq<Row>)
    ensures forall r :: r in Children(rows, working) <==> r in rows && HasParentIn(working, r)
  {
    if working != [] {
      var m := |working| - 1;
      assert working == working[..m] + [working[m]];
      ChildrenMembers(rows, working[..m]);
      FilterMembers(ChildOf(working[m].id), rows);
      forall r: Row
        ensures HasParentIn(working, r) <==> HasParentIn(working[..m], r) || r.parent == Some(working[m].id)
      {
        if r.parent == Some(working[m].id) {
          assert working[m] in working;
        }
      }
    }
  }

  ghost predicate HasParentIn(working: seq<Row>, r: Row) {
    exists p | p in working :: r.parent == Some(p.id)
  }

  lemma {:induction false} ChildrenUnique(rows: seq<Row>, working: seq<Row>)
    requires UniqueIds(rows) && UniqueIds(working)
    ensures UniqueIds(Children(rows, working))
  {
    if working != [] {
      var m := |working| - 1;
      ChildrenUnique(rows, working[..m]);
      ChildrenMembers(rows, working[..m]);
      FilterMembers(ChildOf(working[m].id), rows);
      FilterUnique(ChildOf(working[m].id), rows);
      forall a, b | a in Children(rows, working[..m]) && b in Filter(ChildOf(working[m].id), rows)
        ensures a.id != b.id
      {
        if a.id == b.id {
          SameIdSameRow(rows, a, b);
        }
      }
      UniqueConcat(Children(rows, working[..m]), Filter(ChildOf(working[m].id), rows));
    }
  }

  ghost predicate OnLevel(rows: seq<Row>, v: nat, k: nat, r: Row) {
    r in rows && Reaches(rows, v, r) && r.level == k
  }

  ghost predicate UpToLevel(rows: seq<Row>, v: nat, k: nat, r: Row) {
    r in rows && Reaches(rows, v, r) && r.level <= k
  }

  lemma NextLevel(rows: seq<Row>, v: nat, k: nat, working: seq<Row>)
    requires Forest(rows) && UniqueIds(working)
    requires forall r :: r in working <==> OnLevel(rows, v, k, r)
    ensures UniqueIds(Children(rows, working))
    ensures forall r :: r in Children(rows, working) <==> OnLevel(rows, v, k + 1, r)
  {
    ChildrenUnique(rows, working);
    ChildrenMembers(rows, working);
    forall r | r in Children(rows, working) ensures OnLevel(rows, v, k + 1, r) {
      var p :| p in working && r.parent == Some(p.id);
      assert OnLevel(rows, v, k, p) && LinkOk(r, p);
    }
    forall r | OnLevel(rows, v, k + 1, r) ensures HasParentIn(working, r) {
      var p :| p in rows && r.parent == Some(p.id) && Reaches(rows, v, p);
      assert LinkOk(r, p) && OnLevel(rows, v, k, p);
    }
  }

  /** A row below level `k` has an ancestor on it. */
  lemma {:induction false} AncestorOnLevel(rows: seq<Row>, v: nat, r: Row, k: nat)
    requires Forest(rows) && r in rows && Reaches(rows, v, r) && k <= r.level
    ensures exists a :: OnLevel(rows, v, k, a)
    decreases r.id
  {
    if r.level == k {
      assert OnLevel(rows, v, k, r);
    } else {
      var p :| p in rows && p.id < r.id && r.parent == Some(p.id) && Reaches(rows, v, p);
      assert LinkOk(r, p);
      AncestorOnLevel(rows, v, p, k);
    }
  }

  ghost function Deepest(rows: seq<Row>): (d: nat)
    ensures forall r | r in rows :: r.level <= d
  {
    if rows == [] then 0 else
      var d := Deepest(rows[..|rows| - 1]);
      var last := rows[|rows| - 1];
      assert rows == rows[..|rows| - 1] + [last];
      if last.level > d then last.level else d
  }

  /** ORDER BY level, sequence */
  function RowLe(): (Row, Row) -> bool {
    (a: Row, b: Row) => a.level < b.level || (a.level == b.level && a.sequence <= b.sequence)
  }

  /** The rows of explodeBom's query, which terminates, as its recursion finds them. */
  method Reachable(rows: seq<Row>, v: nat) returns (listed: seq<Row>)
    requires Forest(rows)
    ensures UniqueIds(listed) && forall r :: r in listed <==> r in rows && Reaches(rows, v, r)
  {
    var working := Filter(IsRoot(v), rows);
    listed := working;
    ghost var k := 0;
    FilterMembers(IsRoot(v), rows);
    FilterUnique(IsRoot(v), rows);
    RootsOnLevel(rows, v);
    while working != []
      invariant UniqueIds(working) && forall r :: r in working <==> OnLevel(rows, v, k, r)
      invariant UniqueIds(listed) && forall r :: r in listed <==> UpToLevel(rows, v, k, r)
      decreases Deepest(rows) + 1 - k
    {
      assert OnLevel(rows, v, k, working[0]);
      NextLevel(rows, v, k, working);
      working := Children(rows, working);
      UniqueConcat(listed, working);
      k := k + 1;
      listed := listed + working;
    }
    forall r | r in rows && Reaches(rows, v, r) ensures r.level <= k {
      if r.level > k {
        AncestorOnLevel(rows, v, r, k);
      }
    }
  }

  lemma UniqueStays(s: seq<Row>, t: seq<Row>)
    requires UniqueIds(s) && multiset(s) == multiset(t)
    ensures UniqueIds(t) && forall r :: r in t <==> r in s
  {
    DistinctStays(s, t);
    SameMembers(s, t);
    forall i, j | 0 <= i < j < |t| ensures t[i].id != t[j].id {
      assert t[i] in s && t[j] in s && t[i] != t[j];
    }
  }

  function RowsOf(items: seq<Required>): (rows: seq<Row>)
    ensures |rows| == |items| && forall i | 0 <= i < |items| :: rows[i] == items[i].row
  {
    seq(|items|, i requires 0 <= i < |items| => items[i].row)
  }

  /** What one listed row requires. */
  datatype Required = Required(row: Row, quantity: real)

  /** explodeBom lists every row that reaches a root of the version exactly once, by
      level and then by sequence, with its own quantity times the ratio of the wanted
      quantity to the version's output. */
  method ExplodeBom(rows: seq<Row>, v: nat, wanted: real, output: real) returns (items: seq<Required>)
    requires Forest(rows) && output > 0.0
    ensures UniqueIds(RowsOf(items)) && forall r :: r in RowsOf(items) <==> r in rows && Reaches(rows, v, r)
    ensures forall i, j | 0 <= i < j < |items| ::
              || items[i].row.level < items[j].row.level
              || (items[i].row.level == items[j].row.level && items[i].row.sequence <= items[j].row.sequence)
    ensures forall it | it in items :: it.quantity * output == it.row.quantity as real / 10000.0 * wanted
  {
    var listed := Reachable(rows, v);
    var ordered := Sort(RowLe(), listed);
    SortSorted(RowLe(), listed);
    UniqueStays(listed, ordered);
    items := Multiply(ordered, wanted, output);
  }

  /** Each row's own quantity, times the ratio of the wanted quantity to the output. */
  function Scale(r: Row, ratio: real): Required { Required(r, r.quantity as real / 10000.0 * ratio) }

  method Multiply(ordered: seq<Row>, wanted: real, output: real) returns (items: seq<Required>)
    requires output > 0.0
    ensures RowsOf(items) == ordered
    ensures forall it | it in items :: it.quantity * output == it.row.quantity as real / 10000.0 * wanted
  {
    var ratio := wanted / output;
    items := seq(|ordered|, i requires 0 <= i < |ordered| => Scale(ordered[i], ratio));
    forall i | 0 <= i < |items| ensures items[i].quantity * output == items[i].row.quantity as real / 10000.0 * wanted {
      Scaled(ordered[i].quantity as real / 10000.0, wanted, output, items[i].quantity);
    }
  }

  lemma Scaled(q: real, wanted: real, output: real, scaled: real)
    requires output > 0.0 && scaled == q * (wanted / output)
    ensures scaled * output == q * wanted
  {
    var ratio := wanted / output;
    assert ratio * output == wanted;
    assert scaled * output == q * (ratio * output);
  }

  lemma RootsOnLevel(rows: seq<Row>, v: nat)
    requires Forest(rows)
    ensures forall r :: r in rows && IsRoot(v)(r) <==> OnLevel(rows, v, 0, r)
    ensures forall r :: OnLevel(rows, v, 0, r) <==> UpToLevel(rows, v, 0, r)
  {
    forall r, p | r in rows && p in rows && r.parent == Some(p.id) ensures r.level > 0 {
      assert LinkOk(r, p);
    }
  }

  // ------------------------------------------------------------------
  // The tree as a value
  // ------------------------------------------------------------------

  datatype Tree = Tree(row: Row, children: seq<Tree>)

  function Kids(items: seq<Row>, id: Id): (kids: seq<Row>)
    ensures forall r :: r in kids <==> r in items && r.parent == Some(id)
  {
    FilterMembers(ChildOf(id), items);
    Filter(ChildOf(id), items)
  }

  function Roots(items: seq<Row>): (roots: seq<Row>)
    ensures forall r :: r in roots <==> r in items && r.parent.None?
  {
    var f := (r: Row) => r.parent.None?;
    FilterMembers(f, items);
    Filter(f, items)
  }

  ghost predicate Below(items: seq<Row>, limit: nat) {
    Forest(items) && forall r | r in items :: r.id < limit
  }

  ghost predicate From(items: seq<Row>, rows: seq<Row>, floor: nat) {
    forall r | r in rows :: r in items && r.id >= floor
  }

  /** The other rows keep their bound; the children of the last one are younger than it. */
  lemma FromParts(items: seq<Row>, rows: seq<Row>, limit: nat, floor: nat)
    requires Below(items, limit) && From(items, rows, floor) && rows != []
    ensures From(items, rows[..|rows| - 1], floor)
    ensures var last := rows[|rows| - 1];
            last in items && last.id < limit && floor <= last.id && From(items, Kids(items, last.id), last.id + 1)
  {
    assert rows[|rows| - 1] in rows;
  }

  ghost function TreesOf(items: seq<Row>, rows: seq<Row>, limit: nat, floor: nat): (trees: seq<Tree>)
    requires Below(items, limit) && floor <= limit && From(items, rows, floor)
    ensures |trees| == |rows|
    decreases limit - floor, |rows|
  {
    if rows == [] then []
    else
      var last := rows[|rows| - 1];
      FromParts(items, rows, limit, floor);
      TreesOf(items, rows[..|rows| - 1], limit, floor)
          + [Tree(last, TreesOf(items, Kids(items, last.id), limit, last.id + 1))]
  }

  function Flatten(trees: seq<Tree>): seq<Row> {
    if trees == [] then []
    else Flatten(trees[..|trees| - 1]) + [trees[|trees| - 1].row] + Flatten(trees[|trees| - 1].children)
  }

  /** `x` is `a` or one of its descendants. */
  ghost predicate Under(items: seq<Row>, a: Row, x: Row)
    decreases x.id
  {
    x == a || exists p | p in items :: p.id < x.id && x.parent == Some(p.id) && Under(items, a, p)
  }

  lemma {:induction false} UnderIsYounger(items: seq<Row>, a: Row, x: Row)
    requires Under(items, a, x)
    ensures a.id <= x.id
    decreases x.id
  {
    if x != a {
      var p :| p in items && p.id < x.id && x.parent == Some(p.id) && Under(items, a, p);
      UnderIsYounger(items, a, p);
    }
  }

  /** Two ancestors of one row lie on one line. */
  lemma {:induction false} AncestorsInLine(items: seq<Row>, a: Row, b: Row, x: Row)
    requires UniqueIds(items) && Under(items, a, x) && Under(items, b, x)
    ensures Under(items, a, b) || Under(items, b, a)
    decreases x.id
  {
    if x != a && x != b {
      var p :| p in items && p.id < x.id && x.parent == Some(p.id) && Under(items, a, p);
      var q :| q in items && q.id < x.id && x.parent == Some(q.id) && Under(items, b, q);
      SameIdSameRow(items, p, q);
      AncestorsInLine(items, a, b, p);
    }
  }

  /** Siblings have no common descendant. */
  lemma SiblingsApart(items: seq<Row>, a: Row, b: Row, x: Row)
    requires Forest(items) && a in items && b in items && a.parent == b.parent && a != b
    requires Under(items, a, x)
    ensures !Under(items, b, x)
  {
    if Under(items, b, x) {
      AncestorsInLine(items, a, b, x);
      if Under(items, a, b) {
        NotUnderSibling(items, a, b);
      } else {
        NotUnderSibling(items, b, a);
      }
    }
  }

  lemma NotUnderSibling(items: seq<Row>, a: Row, b: Row)
    requires Forest(items) && a in items && b in items && a.parent == b.parent && a != b
    ensures !Under(items, a, b)
  {
    if Under(items, a, b) {
      var p :| p in items && p.id < b.id && b.parent == Some(p.id) && Under(items, a, p);
      UnderIsYounger(items, a, p);
    }
  }

  /** A proper descendant lies under one of the children. */
  lemma {:induction false} UnderAKid(items: seq<Row>, a: Row, x: Row) returns (kid: Row)
    requires a in items && x in items && Under(items, a, x) && x != a
    ensures kid in items && kid.parent == Some(a.id) && Under(items, kid, x)
    decreases x.id
  {
    var p :| p in items && p.id < x.id && x.parent == Some(p.id) && Under(items, a, p);
    if p == a {
      kid := x;
    } else {
      kid := UnderAKid(items, a, p);
    }
  }

  lemma {:induction false} KidUnder(items: seq<Row>, a: Row, kid: Row, x: Row)
    requires Forest(items) && a in items && kid in items && kid.parent == Some(a.id) && Under(items, kid, x)
    ensures Under(items, a, x)
    decreases x.id
  {
    if x != kid {
      var p :| p in items && p.id < x.id && x.parent == Some(p.id) && Under(items, kid, p);
      KidUnder(items, a, kid, p);
    } else {
      assert Under(items, a, a);
    }
  }

  ghost predicate UnderAny(items: seq<Row>, rows: seq<Row>, x: Row) {
    exists a | a in rows :: Under(items, a, x)
  }

  ghost function Flat(items: seq<Row>, rows: seq<Row>, limit: nat, floor: nat): seq<Row>
    requires Below(items, limit) && floor <= limit && From(items, rows, floor)
  {
    Flatten(TreesOf(items, rows, limit, floor))
  }

  lemma FlatLast(items: seq<Row>, rows: seq<Row>, limit: nat, floor: nat)
    requires Below(items, limit) && floor <= limit && From(items, rows, floor)
    requires rows != []
    ensures var last := rows[|rows| - 1];
            && last in items && last.id < limit
            && From(items, rows[..|rows| - 1], floor) && From(items, Kids(items, last.id), last.id + 1)
            && Flat(items, rows, limit, floor)
               == Flat(items, rows[..|rows| - 1], limit, floor)
                   + ([last] + Flat(items, Kids(items, last.id), limit, last.id + 1))
  {
    FromParts(items, rows, limit, floor);
    var m := |rows| - 1;
    var trees := TreesOf(items, rows, limit, floor);
    assert trees[..m] == TreesOf(items, rows[..m], limit, floor);
  }

  /** `flat` holds the rows at and below `rows`. */
  ghost predicate Spans(items: seq<Row>, rows: seq<Row>, flat: seq<Row>) {
    forall x :: x in flat <==> x in items && UnderAny(items, rows, x)
  }

  ghost predicate Siblings(rows: seq<Row>) {
    forall a, b | a in rows && b in rows :: a.parent == b.parent
  }

  /** Flattening the trees of siblings gives exactly the rows at and below them, each once. */
  lemma {:induction false} FlattenExactly(items: seq<Row>, rows: seq<Row>, limit: nat, floor: nat)
    requires Below(items, limit) && floor <= limit && From(items, rows, floor)
    requires UniqueIds(rows) && Siblings(rows)
    ensures Spans(items, rows, Flat(items, rows, limit, floor))
    ensures UniqueIds(Flat(items, rows, limit, floor))
    decreases limit - floor, |rows|
  {
    if rows != [] {
      var front, last := rows[..|rows| - 1], rows[|rows| - 1];
      FlatLast(items, rows, limit, floor);
      SiblingParts(items, rows);
      var kids := Kids(items, last.id);
      FlattenExactly(items, front, limit, floor);
      FlattenExactly(items, kids, limit, last.id + 1);
      var before, below := Flat(items, front, limit, floor), Flat(items, kids, limit, last.id + 1);
      MembersJoin(items, rows, before, below);
      UniqueJoin(items, rows, before, below);
    }
  }

  lemma MembersJoin(items: seq<Row>, rows: seq<Row>, before: seq<Row>, below: seq<Row>)
    requires Forest(items) && rows != [] && From(items, rows, 0)
    requires Spans(items, rows[..|rows| - 1], before)
    requires Spans(items, Kids(items, rows[|rows| - 1].id), below)
    ensures Spans(items, rows, before + ([rows[|rows| - 1]] + below))
  {
    var m := |rows| - 1;
    assert rows == rows[..m] + [rows[m]];
    forall x | x in items
      ensures UnderAny(items, rows, x) <==>
              UnderAny(items, rows[..m], x) || x == rows[m] || UnderAny(items, Kids(items, rows[m].id), x)
    {
      assert rows[m] in rows;
      UnderSplit(items, rows[m], x);
    }
  }

  lemma UnderSplit(items: seq<Row>, a: Row, x: Row)
    requires Forest(items) && a in items && x in items
    ensures Under(items, a, x) <==> x == a || UnderAny(items, Kids(items, a.id), x)
  {
    if Under(items, a, x) && x != a {
      var kid := UnderAKid(items, a, x);
      assert kid in Kids(items, a.id);
    }
    if UnderAny(items, Kids(items, a.id), x) {
      var kid :| kid in Kids(items, a.id) && Under(items, kid, x);
      KidUnder(items, a, kid, x);
    }
    assert Under(items, x, x);
  }

  lemma SiblingParts(items: seq<Row>, rows: seq<Row>)
    requires UniqueIds(items) && UniqueIds(rows) && Siblings(rows) && rows != []
    ensures UniqueIds(rows[..|rows| - 1]) && Siblings(rows[..|rows| - 1])
    ensures UniqueIds(Kids(items, rows[|rows| - 1].id)) && Siblings(Kids(items, rows[|rows| - 1].id))
  {
    FilterUnique(ChildOf(rows[|rows| - 1].id), items);
  }

  lemma UniqueJoin(items: seq<Row>, rows: seq<Row>, before: seq<Row>, below: seq<Row>)
    requires Forest(items) && rows != [] && UniqueIds(rows) && Siblings(rows) && From(items, rows, 0)
    requires UniqueIds(before) && UniqueIds(below)
    requires Spans(items, rows[..|rows| - 1], before)
    requires Spans(items, Kids(items, rows[|rows| - 1].id), below)
    ensures UniqueIds(before + ([rows[|rows| - 1]] + below))
  {
    var last := rows[|rows| - 1];
    assert last in rows && last in items;
    LastTreeUnique(items, last, below);
    LastTreeApart(items, rows, before, [last] + below);
  }

  lemma LastTreeUnique(items: seq<Row>, last: Row, below: seq<Row>)
    requires Forest(items) && last in items && UniqueIds(below)
    requires Spans(items, Kids(items, last.id), below)
    ensures UniqueIds([last] + below)
  {
    forall x | x in below ensures x.id != last.id {
      var kid :| kid in Kids(items, last.id) && Under(items, kid, x);
      UnderIsYounger(items, kid, x);
      assert kid.parent.value < kid.id;
    }
    UniqueConcat([last], below);
  }

  lemma LastTreeApart(items: seq<Row>, rows: seq<Row>, before: seq<Row>, tree: seq<Row>)
    requires Forest(items) && rows != [] && UniqueIds(rows) && Siblings(rows) && From(items, rows, 0)
    requires UniqueIds(before) && UniqueIds(tree)
    requires forall x | x in before :: x in items && UnderAny(items, rows[..|rows| - 1], x)
    requires forall x | x in tree :: x in items
                && (x == rows[|rows| - 1] || UnderAny(items, Kids(items, rows[|rows| - 1].id), x))
    ensures UniqueIds(before + tree)
  {
    var m := |rows| - 1;
    forall x, y | x in before && y in tree ensures x.id != y.id {
      if x.id == y.id {
        SameIdSameRow(items, x, y);
        var a :| a in rows[..m] && Under(items, a, x);
        assert rows[m] in rows && a in rows;
        UnderSplit(items, rows[m], x);
        SiblingsApart(items, a, rows[m], x);
      }
    }
    UniqueConcat(before, tree);
  }

  // ------------------------------------------------------------------
  // Query and tree agree
  // ------------------------------------------------------------------

  /** The rows of one version, in whatever order they are read. */
  ghost predicate VersionItems(rows: seq<Row>, v: nat, items: seq<Row>) {
    UniqueIds(items) && forall r :: r in items <==> r in rows && r.version == v
  }

  lemma {:induction false} ReachesIsUnderRoot(rows: seq<Row>, v: nat, items: seq<Row>, x: Row)
    requires Forest(rows) && VersionItems(rows, v, items) && x in rows
    ensures Reaches(rows, v, x) <==> x in items && UnderAny(items, Roots(items), x)
    decreases x.id
  {
    if x.parent.None? {
      if x in items {
        assert x in Roots(items) && Under(items, x, x);
      }
    } else {
      forall p | p in rows && p.id < x.id && x.parent == Some(p.id)
        ensures LinkOk(x, p) && (Reaches(rows, v, p) <==> p in items && UnderAny(items, Roots(items), p))
      {
        ReachesIsUnderRoot(rows, v, items, p);
      }
      if Reaches(rows, v, x) {
        var p :| p in rows && p.id < x.id && x.parent == Some(p.id) && Reaches(rows, v, p);
        assert x in items && p in items && UnderAny(items, Roots(items), p);
        var a :| a in Roots(items) && Under(items, a, p);
        assert Under(items, a, x);
      }
      if x in items && UnderAny(items, Roots(items), x) {
        var a :| a in Roots(items) && Under(items, a, x);
        var p :| p in items && p.id < x.id && x.parent == Some(p.id) && Under(items, a, p);
        assert p in rows && UnderAny(items, Roots(items), p);
      }
    }
  }

  lemma ItemsForest(rows: seq<Row>, v: nat, items: seq<Row>)
    requires Forest(rows) && VersionItems(rows, v, items)
    ensures Forest(items)
  {
  }

  /** The recursive query and the tree builder show the same rows equally often,
      each reachable row once, also when some parents are missing. */
  lemma ExplosionMatchesTree(rows: seq<Row>, v: nat, items: seq<Row>, listed: seq<Row>, limit: nat)
    requires Forest(rows) && VersionItems(rows, v, items) && forall r | r in rows :: r.id < limit
    requires UniqueIds(listed) && forall r :: r in listed <==> r in rows && Reaches(rows, v, r)
    ensures Below(items, limit)
    ensures multiset(listed) == multiset(Flat(items, Roots(items), limit, 0))
  {
    ItemsForest(rows, v, items);
    var flat := Flat(items, Roots(items), limit, 0);
    FilterUnique((r: Row) => r.parent.None?, items);
    FlattenExactly(items, Roots(items), limit, 0);
    forall x ensures x in listed <==> x in flat {
      if x in rows {
        ReachesIsUnderRoot(rows, v, items, x);
      }
    }
    SameRows(listed, flat);
  }
}

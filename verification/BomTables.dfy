/** The services that change and read bills of material. */
module BomTables {
  import opened Common
  import opened Filters
  import opened BomForest

  // ------------------------------------------------------------------
  // Histories of the item table
  // ------------------------------------------------------------------

  /** `next` is where the identity column stands; failed inserts may skip values. */
  datatype Table = Table(rows: seq<Row>, next: Id)

  predicate NoOrphans(rows: seq<Row>) {
    forall r | r in rows && r.parent.Some? :: HasRow(rows, r.parent.value)
  }

  predicate HasRow(rows: seq<Row>, id: Id) { exists p | p in rows :: p.id == id }

  ghost predicate Inv(t: Table) {
    Forest(t.rows) && NoOrphans(t.rows) && forall r | r in t.rows :: r.id < t.next
  }

  /** Each statement is a step of its own: addItem reads the parent before it inserts,
      and deleteItem removes the children before the item, without a transaction. */
  datatype Step =
    | Insert(row: Row)
    | RemoveChildren(id: Id)
    | RemoveItem(id: Id)

  function NotChildOf(id: Id): Row -> bool { (r: Row) => r.parent != Some(id) }

  function OtherThan(id: Id): Row -> bool { (r: Row) => r.id != id }

  /** What addItem has found out about the parent, which no later step can change. */
  predicate PlacedUnder(rows: seq<Row>, row: Row) {
    if row.parent.None? then row.level == 0
    else exists p | p in rows :: row.parent == Some(p.id) && LinkOk(row, p)
  }

  /** The foreign key on parent_item_id refuses a deletion that would leave a child behind. */
  ghost predicate Next(t: Table, step: Step, t': Table) {
    match step
    case Insert(row) =>
      t.next <= row.id < t'.next && PlacedUnder(t.rows, row) && t'.rows == t.rows + [row]
    case RemoveChildren(id) =>
      t' == t.(rows := Filter(NotChildOf(id), t.rows)) && NoOrphans(t'.rows)
    case RemoveItem(id) =>
      t' == t.(rows := Filter(OtherThan(id), t.rows)) && NoOrphans(t'.rows)
  }

  lemma RemovalKeepsForest(rows: seq<Row>, f: Row -> bool)
    requires Forest(rows)
    ensures Forest(Filter(f, rows))
  {
    FilterMembers(f, rows);
    FilterUnique(f, rows);
  }

  lemma InsertKeepsInv(t: Table, row: Row, t': Table)
    requires Inv(t) && Next(t, Insert(row), t')
    ensures Inv(t')
  {
    UniqueConcat(t.rows, [row]);
    forall r | r in t'.rows && r.parent.Some? ensures HasRow(t'.rows, r.parent.value) {
      if r in t.rows {
        assert HasRow(t.rows, r.parent.value);
        var p :| p in t.rows && p.id == r.parent.value;
        assert p in t'.rows;
      } else {
        var p :| p in t.rows && row.parent == Some(p.id) && LinkOk(row, p);
        assert p in t'.rows;
      }
    }
    forall r, p | r in t'.rows && p in t'.rows && r.parent == Some(p.id) ensures LinkOk(r, p) {
      ParentIsOld(t, row, r, p);
    }
  }

  lemma ParentIsOld(t: Table, row: Row, r: Row, p: Row)
    requires Inv(t) && t.next <= row.id && PlacedUnder(t.rows, row)
    requires r in t.rows + [row] && p in t.rows + [row] && r.parent == Some(p.id)
    ensures LinkOk(r, p)
  {
    if r in t.rows {
      assert p.id < r.id < t.next;
    } else {
      var q :| q in t.rows && row.parent == Some(q.id) && LinkOk(row, q);
      assert p.id == q.id;
      SameIdSameRow(t.rows, p, q);
    }
  }

  lemma StepKeepsInv(t: Table, step: Step, t': Table)
    requires Inv(t) && Next(t, step, t')
    ensures Inv(t')
  {
    match step
    case Insert(row) => InsertKeepsInv(t, row, t');
    case RemoveChildren(id) =>
      RemovalKeepsForest(t.rows, NotChildOf(id));
      FilterMembers(NotChildOf(id), t.rows);
    case RemoveItem(id) =>
      RemovalKeepsForest(t.rows, OtherThan(id));
      FilterMembers(OtherThan(id), t.rows);
  }

  ghost predicate History(states: seq<Table>, steps: seq<Step>) {
    && |states| == |steps| + 1 && states[0] == Table([], 1)
    && forall i | 0 <= i < |steps| :: Next(states[i], steps[i], states[i + 1])
  }

  lemma {:induction false} HistoryKeepsForest(states: seq<Table>, steps: seq<Step>)
    requires History(states, steps)
    ensures Inv(states[|steps|])
    decreases steps
  {
    if steps != [] {
      var n := |steps| - 1;
      assert History(states[..n + 1], steps[..n]);
      HistoryKeepsForest(states[..n + 1], steps[..n]);
      StepKeepsInv(states[n], steps[n], states[n + 1]);
    }
  }

  /** Without orphans the rows that reach a root of the version are all of its rows. */
  lemma {:induction false} ReachesIffVersion(rows: seq<Row>, v: nat, r: Row)
    requires Forest(rows) && NoOrphans(rows) && r in rows
    ensures Reaches(rows, v, r) <==> r.version == v
    decreases r.id
  {
    if r.parent.Some? {
      assert HasRow(rows, r.parent.value);
      forall p | p in rows && r.parent == Some(p.id) ensures LinkOk(r, p) && (Reaches(rows, v, p) <==> p.version == v) {
        ReachesIffVersion(rows, v, p);
      }
    }
  }

  /** After any history the explosion of a version lists exactly its items, each once. */
  lemma ExplosionIsComplete(states: seq<Table>, steps: seq<Step>, v: nat, listed: seq<Row>)
    requires History(states, steps)
    requires UniqueIds(listed)
    requires forall r :: r in listed <==> r in states[|steps|].rows && Reaches(states[|steps|].rows, v, r)
    ensures VersionItems(states[|steps|].rows, v, listed)
  {
    HistoryKeepsForest(states, steps);
    forall r | r in states[|steps|].rows ensures Reaches(states[|steps|].rows, v, r) <==> r.version == v {
      ReachesIffVersion(states[|steps|].rows, v, r);
    }
  }

  // ------------------------------------------------------------------
  // addItem and deleteItem
  // ------------------------------------------------------------------

  datatype VersionStatus = DraftVersion | Active | Inactive

  datatype Error =
    VersionNotFound | VersionActive | ParentNotFound | Circular | VariantNotFound | ItemNotFound | ForeignKey

  /** A row of the version with that id. */
  predicate IsParent(p: Row, version: nat, id: Id) { p.id == id && p.version == version }

  class Tables {
    var versions: seq<VersionStatus>
    var rows: seq<Row>
    var next: Id

    ghost predicate Valid()
      reads this
    {
      Inv(Table(rows, next)) && forall r | r in rows :: r.version < |versions|
    }

    constructor (versions: seq<VersionStatus>)
      ensures Valid() && rows == [] && this.versions == versions
    {
      this.versions := versions;
      rows, next := [], 1;
    }

    method AddItem(version: nat, parent: Option<Id>, variant: Id, quantity: int, sequence: int, variantActive: bool)
      returns (r: Result<Id, Error>)
      requires Valid()
      modifies this`rows, this`next
      ensures Valid()
      ensures r.Ok? <==> version < |versions| && versions[version] != Active && variantActive
                         && (parent.Some? ==>
                             exists p | p in old(rows) :: IsParent(p, version, parent.value) && p.variant != variant)
      ensures r.Ok? ==> r.value == old(next) && |rows| == |old(rows)| + 1 && rows[..|old(rows)|] == old(rows)
                        && (var row := rows[|old(rows)|];
                            row.id == r.value && row.version == version && row.parent == parent
                                && row.variant == variant
                            && row.quantity == quantity && row.sequence == sequence)
      ensures r.Err? ==> rows == old(rows) && next == old(next)
    {
      if version >= |versions| {
        return Err(VersionNotFound);
      }
      if versions[version] == Active {
        return Err(VersionActive);
      }
      var level := 0;
      if parent.Some? {
        if forall p | p in rows :: !IsParent(p, version, parent.value) {
          return Err(ParentNotFound);
        }
        var p :| p in rows && IsParent(p, version, parent.value);
        if p.variant == variant {
          forall q | q in rows && IsParent(q, version, parent.value) ensures q == p {
            SameIdSameRow(rows, p, q);
          }
          return Err(Circular);
        }
        level := p.level + 1;
      }
      if !variantActive {
        return Err(VariantNotFound);
      }
      var row := Row(next, version, parent, variant, quantity, level, sequence);
      InsertKeepsInv(Table(rows, next), row, Table(rows + [row], next + 1));
      r := Ok(next);
      rows, next := rows + [row], next + 1;
    }

    /** Deletes the item with its children, but not when a child has children itself. */
    method DeleteItem(id: Id) returns (r: Result<(), Error>)
      requires Valid()
      modifies this`rows
      ensures Valid()
      ensures r.Ok? <==> ChildrenAreLeaves(old(rows), id)
                         && exists x | x in old(rows) :: x.id == id && versions[x.version] != Active
      ensures r.Ok? ==> forall x :: x in rows <==> x in old(rows) && x.id != id && x.parent != Some(id)
      ensures r.Err? ==> rows == old(rows)
    {
      if forall x | x in rows :: x.id != id {
        return Err(ItemNotFound);
      }
      var item :| item in rows && item.id == id;
      forall x | x in rows && x.id == id ensures x == item {
        SameIdSameRow(rows, x, item);
      }
      if versions[item.version] == Active {
        return Err(VersionActive);
      }
      var left := Filter(NotChildOf(id), rows);
      FilterMembers(NotChildOf(id), rows);
      RemovalIsSafeIff(rows, id, left);
      if !NoOrphans(left) {
        return Err(ForeignKey);
      }
      var kept := Filter(OtherThan(id), left);
      FilterMembers(OtherThan(id), left);
      ItemIsLeaf(left, id, kept);
      RemovalKeepsForest(rows, NotChildOf(id));
      RemovalKeepsForest(left, OtherThan(id));
      rows := kept;
      r := Ok(());
    }
  }

  predicate ChildrenAreLeaves(rows: seq<Row>, id: Id) {
    forall c, g | c in rows && g in rows :: c.parent == Some(id) ==> g.parent != Some(c.id)
  }

  lemma RemovalIsSafeIff(rows: seq<Row>, id: Id, left: seq<Row>)
    requires Forest(rows) && NoOrphans(rows) && (exists x | x in rows :: x.id == id)
    requires forall r :: r in left <==> r in rows && r.parent != Some(id)
    ensures NoOrphans(left) <==> ChildrenAreLeaves(rows, id)
  {
    if NoOrphans(left) {
      forall c, g | c in rows && g in rows && c.parent == Some(id) ensures g.parent != Some(c.id) {
        if g.parent == Some(c.id) {
          assert g in left && HasRow(left, c.id);
          var p :| p in left && p.id == c.id;
          SameIdSameRow(rows, p, c);
        }
      }
    }
    if ChildrenAreLeaves(rows, id) {
      forall r | r in left && r.parent.Some? ensures HasRow(left, r.parent.value) {
        assert HasRow(rows, r.parent.value);
        var p :| p in rows && p.id == r.parent.value;
        assert p in left;
      }
    }
  }

  lemma ItemIsLeaf(left: seq<Row>, id: Id, kept: seq<Row>)
    requires NoOrphans(left) && forall r | r in left :: r.parent != Some(id)
    requires forall r :: r in kept <==> r in left && r.id != id
    ensures NoOrphans(kept)
  {
    forall r | r in kept && r.parent.Some? ensures HasRow(kept, r.parent.value) {
      assert HasRow(left, r.parent.value);
      var p :| p in left && p.id == r.parent.value;
      assert p in kept;
    }
  }

  // ------------------------------------------------------------------
  // buildTree
  // ------------------------------------------------------------------

  class Node {
    const row: Row
    var children: seq<Node>

    constructor (row: Row)
      ensures this.row == row && children == []
    {
      this.row := row;
      children := [];
    }
  }

  predicate Covers(nodes: map<Id, Node>, rows: seq<Row>) {
    forall r | r in rows :: r.id in nodes && nodes[r.id].row == r
  }

  predicate Keyed(nodes: map<Id, Node>) {
    forall id | id in nodes :: nodes[id].row.id == id
  }

  /** The nodes are the registered ones of these rows, in this order. */
  predicate NodesOf(nodes: map<Id, Node>, ns: seq<Node>, rows: seq<Row>) {
    && |ns| == |rows|
    && (forall i | 0 <= i < |ns| :: ns[i].row == rows[i])
    && forall n | n in ns :: n.row.id in nodes && nodes[n.row.id] == n
  }

  lemma NodesOfAppend(nodes: map<Id, Node>, ns: seq<Node>, rows: seq<Row>, n: Node)
    requires NodesOf(nodes, ns, rows) && n.row.id in nodes && nodes[n.row.id] == n
    ensures NodesOf(nodes, ns + [n], rows + [n.row])
  {
  }

  /** The heap nodes look like the trees, as far down as these go. */
  ghost predicate Shows(ns: seq<Node>, trees: seq<Tree>, repr: set<Node>)
    reads repr
    decreases trees
  {
    |ns| == |trees| && forall i | 0 <= i < |ns| ::
      ns[i] in repr && ns[i].row == trees[i].row && Shows(ns[i].children, trees[i].children, repr)
  }

  /** Every node lists the nodes of its item's children, in the order of the items. */
  ghost predicate Linked(items: seq<Row>, upTo: seq<Row>, nodes: map<Id, Node>)
    reads nodes.Values
  {
    Covers(nodes, items) && forall r | r in items :: NodesOf(nodes, nodes[r.id].children, Kids(upTo, r.id))
  }

  lemma KidsNext(upTo: seq<Row>, last: Row, id: Id)
    ensures Kids(upTo + [last], id) == if last.parent == Some(id) then Kids(upTo, id) + [last] else Kids(upTo, id)
    ensures Roots(upTo + [last]) == if last.parent.None? then Roots(upTo) + [last] else Roots(upTo)
  {
    assert (upTo + [last])[..|upTo|] == upTo;
  }

  /** First loop: one childless node per item, found by id. */
  method MakeNodes(items: seq<Row>) returns (nodes: map<Id, Node>)
    requires UniqueIds(items)
    ensures nodes.Keys == (set r | r in items :: r.id) && fresh(nodes.Values)
    ensures Keyed(nodes) && Covers(nodes, items) && forall n | n in nodes.Values :: n.children == []
  {
    nodes := map[];
    for i := 0 to |items|
      invariant nodes.Keys == (set r | r in items[..i] :: r.id) && fresh(nodes.Values)
      invariant Keyed(nodes) && Covers(nodes, items[..i])
      invariant forall n | n in nodes.Values :: n.children == []
    {
      assert items[..i + 1] == items[..i] + [items[i]];
      var node := new Node(items[i]);
      assert nodes[items[i].id := node].Values <= nodes.Values + {node};
      nodes := nodes[items[i].id := node];
    }
    assert items[..|items|] == items;
  }

  lemma NothingLinked(items: seq<Row>, nodes: map<Id, Node>)
    requires Covers(nodes, items) && forall n | n in nodes.Values :: n.children == []
    ensures Linked(items, [], nodes)
  {
  }

  /** Hang one node under its parent's, or among the roots. */
  method Place(ghost items: seq<Row>, ghost done: seq<Row>, nodes: map<Id, Node>, item: Row, roots: seq<Node>)
    returns (roots': seq<Node>)
    requires Keyed(nodes) && Linked(items, done, nodes) && item in items
    requires NodesOf(nodes, roots, Roots(done))
    modifies nodes.Values
    ensures Linked(items, done + [item], nodes)
    ensures NodesOf(nodes, roots', Roots(done + [item]))
  {
    KidsNext(done, item, item.id);
    roots' := roots;
    if item.parent.Some? && item.parent.value in nodes {
      AddChild(items, done, nodes, item);
    } else {
      NoParentNode(items, done, nodes, item);
      if item.parent.None? {
        NodesOfAppend(nodes, roots, Roots(done), nodes[item.id]);
        roots' := roots + [nodes[item.id]];
      }
    }
  }

  /** Second loop: every item in turn. */
  method LinkNodes(items: seq<Row>, nodes: map<Id, Node>) returns (roots: seq<Node>)
    requires Keyed(nodes) && Covers(nodes, items)
    requires forall n | n in nodes.Values :: n.children == []
    modifies nodes.Values
    ensures Linked(items, items, nodes)
    ensures NodesOf(nodes, roots, Roots(items))
  {
    roots := [];
    ghost var done: seq<Row> := [];
    NothingLinked(items, nodes);
    for i := 0 to |items|
      invariant done == items[..i]
      invariant Linked(items, done, nodes) && NodesOf(nodes, roots, Roots(done))
    {
      roots := Place(items, done, nodes, items[i], roots);
      done := done + [items[i]];
    }
    assert items[..|items|] == items;
  }

  lemma NoParentNode(items: seq<Row>, upTo: seq<Row>, nodes: map<Id, Node>, item: Row)
    requires Linked(items, upTo, nodes) && (item.parent.Some? ==> item.parent.value !in nodes)
    ensures Linked(items, upTo + [item], nodes)
  {
    forall r | r in items ensures Kids(upTo + [item], r.id) == Kids(upTo, r.id) {
      KidsNext(upTo, item, r.id);
    }
  }

  method AddChild(ghost items: seq<Row>, ghost upTo: seq<Row>, nodes: map<Id, Node>, item: Row)
    requires Keyed(nodes) && Linked(items, upTo, nodes) && item in items && item.parent.Some?
                && item.parent.value in nodes
    modifies nodes[item.parent.value]
    ensures Linked(items, upTo + [item], nodes)
  {
    var parent := nodes[item.parent.value];
    ghost var before := parent.children;
    parent.children := parent.children + [nodes[item.id]];
    forall r | r in items ensures NodesOf(nodes, nodes[r.id].children, Kids(upTo + [item], r.id)) {
      KidsNext(upTo, item, r.id);
      if nodes[r.id] == parent {
        NodesOfAppend(nodes, before, Kids(upTo, r.id), nodes[item.id]);
      }
    }
  }

  /** The tree builder yields the nodes of the version's forest. */
  method BuildTree(items: seq<Row>, ghost limit: nat) returns (roots: seq<Node>, nodes: map<Id, Node>)
    requires Below(items, limit)
    ensures nodes.Keys == (set r | r in items :: r.id) && fresh(nodes.Values)
    ensures Shows(roots, TreesOf(items, Roots(items), limit, 0), nodes.Values)
  {
    nodes := MakeNodes(items);
    roots := LinkNodes(items, nodes);
    ShowsForest(items, Roots(items), limit, 0, nodes, roots);
  }

  lemma {:induction false} ShowsForest(items: seq<Row>, rows: seq<Row>, limit: nat, floor: nat, nodes: map<Id, Node>,
                                       ns: seq<Node>)
    requires Below(items, limit) && floor <= limit && From(items, rows, floor) && Linked(items, items, nodes)
    requires NodesOf(nodes, ns, rows)
    ensures Shows(ns, TreesOf(items, rows, limit, floor), nodes.Values)
    decreases limit - floor, |rows|
  {
    if rows != [] {
      var m := |rows| - 1;
      var last := rows[m];
      FromParts(items, rows, limit, floor);
      assert ns[m] in ns && last in items;
      assert NodesOf(nodes, ns[..m], rows[..m]);
      ShowsForest(items, rows[..m], limit, floor, nodes, ns[..m]);
      ShowsForest(items, Kids(items, last.id), limit, last.id + 1, nodes, ns[m].children);
      ShowsLast(ns, TreesOf(items, rows, limit, floor), nodes.Values);
    }
  }

  lemma ShowsLast(ns: seq<Node>, trees: seq<Tree>, repr: set<Node>)
    requires ns != [] && |ns| == |trees|
    requires Shows(ns[..|ns| - 1], trees[..|ns| - 1], repr)
    requires ns[|ns| - 1] in repr && ns[|ns| - 1].row == trees[|ns| - 1].row
    requires Shows(ns[|ns| - 1].children, trees[|ns| - 1].children, repr)
    ensures Shows(ns, trees, repr)
  {
    var m := |ns| - 1;
    forall i | 0 <= i < |ns|
      ensures ns[i] in repr && ns[i].row == trees[i].row && Shows(ns[i].children, trees[i].children, repr)
    {
      if i < m {
        assert ns[..m][i] == ns[i] && trees[..m][i] == trees[i];
      }
    }
  }
}

/** Export of compiled schema trees into one indexed node array, under node and depth limits. */
module SchemaTree {

  /** A compiled schema node; children, actions and notifications are exported in this order. */
  datatype Schema = Schema(id: string, children: seq<Schema>, actions: seq<Schema>, notifications: seq<Schema>)

  datatype SchemaModule = SchemaModule(id: string, compiled: bool, data: seq<Schema>, rpcs: seq<Schema>,
                                       notifications: seq<Schema>)

  datatype ExportNode = ExportNode(id: string, parentId: string, children: seq<nat>)

  const MAX_EXPORT_NODES := 100000
  const MAX_EXPORT_DEPTH := 256
  const ROOT_NODE_ID := "yang-schema-root"

  // ---------------------------------------------------------- specification

  function Size(s: Schema): nat {
    1 + Sizes(s.children) + Sizes(s.actions) + Sizes(s.notifications)
  }

  function Sizes(list: seq<Schema>): nat {
    if list == [] then 0 else Size(list[0]) + Sizes(list[1..])
  }

  function Max(a: nat, b: nat): nat {
    if a < b then b else a
  }

  function Height(s: Schema): nat {
    1 + Max(Heights(s.children), Max(Heights(s.actions), Heights(s.notifications)))
  }

  function Heights(list: seq<Schema>): nat {
    if list == [] then 0 else Max(Height(list[0]), Heights(list[1..]))
  }

  /** The ids in pre-order. */
  function Walk(s: Schema): seq<string> {
    [s.id] + Walks(s.children) + Walks(s.actions) + Walks(s.notifications)
  }

  function Walks(list: seq<Schema>): seq<string> {
    if list == [] then [] else Walk(list[0]) + Walks(list[1..])
  }

  /** The indices at which the subtrees of `list` start when the first starts at `at`. */
  function Starts(list: seq<Schema>, at: nat): seq<nat> {
    if list == [] then [] else [at] + Starts(list[1..], at + Size(list[0]))
  }

  /** The nodes exported for `s` from index `at` on. */
  function Layout(s: Schema, at: nat, parentId: string): seq<ExportNode> {
    var a := at + 1;
    var b := a + Sizes(s.children);
    var c := b + Sizes(s.actions);
    [ExportNode(s.id, parentId, Starts(s.children, a) + Starts(s.actions, b) + Starts(s.notifications, c))]
    + Layouts(s.children, a, s.id) + Layouts(s.actions, b, s.id) + Layouts(s.notifications, c, s.id)
  }

  function Layouts(list: seq<Schema>, at: nat, parentId: string): seq<ExportNode> {
    if list == [] then [] else Layout(list[0], at, parentId) + Layouts(list[1..], at + Size(list[0]), parentId)
  }

  /** A module is laid out as a root node with its data nodes, RPCs and notifications below. */
  function AsSchema(m: SchemaModule): Schema {
    Schema(m.id, m.data, m.rpcs, m.notifications)
  }

  function AsSchemas(modules: seq<SchemaModule>): seq<Schema> {
    seq(|modules|, i requires 0 <= i < |modules| => AsSchema(modules[i]))
  }

  /** The ids of a module: its own, then those of its data nodes, RPCs and notifications. */
  function ModuleWalk(m: SchemaModule): seq<string> {
    [m.id] + Walks(m.data) + Walks(m.rpcs) + Walks(m.notifications)
  }

  function ModuleWalks(modules: seq<SchemaModule>): seq<string> {
    if modules == [] then [] else ModuleWalk(modules[0]) + ModuleWalks(modules[1..])
  }

  function NodeCount(modules: seq<SchemaModule>): nat {
    if modules == [] then 0
    else 1 + Sizes(modules[0].data) + Sizes(modules[0].rpcs) + Sizes(modules[0].notifications)
         + NodeCount(modules[1..])
  }

  /** The root node of a module whose nodes start at `at`. */
  function ModuleRoot(m: SchemaModule, at: nat): ExportNode {
    ExportNode(m.id, ROOT_NODE_ID,
               Starts(m.data, at + 1) + Starts(m.rpcs, at + 1 + Sizes(m.data))
               + Starts(m.notifications, at + 1 + Sizes(m.data) + Sizes(m.rpcs)))
  }

  predicate ModuleFits(m: SchemaModule, count: nat) {
    && m.compiled && count + Size(AsSchema(m)) <= MAX_EXPORT_NODES
    && Heights(m.data) <= MAX_EXPORT_DEPTH && Heights(m.rpcs) <= MAX_EXPORT_DEPTH
        && Heights(m.notifications) <= MAX_EXPORT_DEPTH
  }

  // -------------------------------------------------- effect on the node array

  function AddChildren(nodes: seq<ExportNode>, parent: nat, added: seq<nat>): seq<ExportNode>
    requires parent < |nodes|
  {
    nodes[parent := nodes[parent].(children := nodes[parent].children + added)]
  }

  /** The array after exporting one subtree, or a list of them, below `parent`. */
  function EmitOne(nodes: seq<ExportNode>, parent: nat, s: Schema): seq<ExportNode>
    requires parent < |nodes|
  {
    AddChildren(nodes, parent, [|nodes|]) + Layout(s, |nodes|, nodes[parent].id)
  }

  function Emit(nodes: seq<ExportNode>, parent: nat, list: seq<Schema>): seq<ExportNode>
    requires parent < |nodes|
  {
    AddChildren(nodes, parent, Starts(list, |nodes|)) + Layouts(list, |nodes|, nodes[parent].id)
  }

  lemma {:induction false} LayoutLength(s: Schema, at: nat, parentId: string)
    ensures |Layout(s, at, parentId)| == Size(s)
    decreases s, 0
  {
    LayoutsLength(s.children, at + 1, s.id);
    LayoutsLength(s.actions, at + 1 + Sizes(s.children), s.id);
    LayoutsLength(s.notifications, at + 1 + Sizes(s.children) + Sizes(s.actions), s.id);
  }

  lemma {:induction false} LayoutsLength(list: seq<Schema>, at: nat, parentId: string)
    ensures |Layouts(list, at, parentId)| == Sizes(list)
    decreases list, 1
  {
    if list != [] {
      LayoutLength(list[0], at, parentId);
      LayoutsLength(list[1..], at + Size(list[0]), parentId);
    }
  }

  lemma EmitFirst(nodes: seq<ExportNode>, parent: nat, list: seq<Schema>)
    requires parent < |nodes| && list != []
    ensures |EmitOne(nodes, parent, list[0])| == |nodes| + Size(list[0])
    ensures Emit(EmitOne(nodes, parent, list[0]), parent, list[1..]) == Emit(nodes, parent, list)
  {
    LayoutLength(list[0], |nodes|, nodes[parent].id);
    var k, id := |nodes|, nodes[parent].id;
    var next := k + Size(list[0]);
    EmitParts(nodes, parent, k, Starts(list[1..], next), Layout(list[0], k, id), Layouts(list[1..], next, id));
  }

  lemma EmitParts(nodes: seq<ExportNode>, parent: nat, k: nat, later: seq<nat>, first: seq<ExportNode>,
                  rest: seq<ExportNode>)
    requires parent < |nodes|
    ensures AddChildren(AddChildren(nodes, parent, [k]) + first, parent, later) + rest
            == AddChildren(nodes, parent, [k] + later) + (first + rest)
  {
    var one := AddChildren(nodes, parent, [k]) + first;
    assert one[parent].children + later == nodes[parent].children + ([k] + later);
    assert AddChildren(one, parent, later) == AddChildren(nodes, parent, [k] + later) + first;
  }

  lemma EmitNothing(nodes: seq<ExportNode>, parent: nat)
    requires parent < |nodes|
    ensures Emit(nodes, parent, []) == nodes
  {
    assert nodes[parent].children + [] == nodes[parent].children;
  }

  lemma EmitLength(nodes: seq<ExportNode>, parent: nat, list: seq<Schema>)
    requires parent < |nodes|
    ensures |Emit(nodes, parent, list)| == |nodes| + Sizes(list)
  {
    LayoutsLength(list, |nodes|, nodes[parent].id);
  }

  /** A prefix, one node, and what has been exported below it so far. */
  function Block(before: seq<ExportNode>, node: ExportNode, below: seq<ExportNode>): seq<ExportNode> {
    before + [node] + below
  }

  function WithMore(node: ExportNode, added: seq<nat>): ExportNode {
    node.(children := node.children + added)
  }

  lemma EmitInBlock(before: seq<ExportNode>, node: ExportNode, below: seq<ExportNode>, list: seq<Schema>, at: nat)
    requires at == |before| + 1 + |below|
    ensures |before| < |Block(before, node, below)|
    ensures Emit(Block(before, node, below), |before|, list)
            == Block(before, WithMore(node, Starts(list, at)), below + Layouts(list, at, node.id))
  {
  }

  /** The array after a fresh node and its three groups. */
  function EmitGroups(before: seq<ExportNode>, s: Schema, parentId: string): (r: seq<ExportNode>)
    ensures |before| < |r|
  {
    var k, started := |before|, Block(before, ExportNode(s.id, parentId, []), []);
    Emit(Emit(Emit(started, k, s.children), k, s.actions), k, s.notifications)
  }

  lemma GroupsAreBlock(before: seq<ExportNode>, s: Schema, parentId: string, a: nat, b: nat, c: nat)
    requires a == |before| + 1 && b == a + Sizes(s.children) && c == b + Sizes(s.actions)
    ensures EmitGroups(before, s, parentId)
            == Block(before, WithMore(WithMore(WithMore(ExportNode(s.id, parentId, []), Starts(s.children, a)),
                                               Starts(s.actions, b)), Starts(s.notifications, c)),
                     [] + Layouts(s.children, a, s.id) + Layouts(s.actions, b, s.id)
                         + Layouts(s.notifications, c, s.id))
  {
    var node := ExportNode(s.id, parentId, []);
    LayoutsLength(s.children, a, s.id);
    LayoutsLength(s.actions, b, s.id);
    var below1 := [] + Layouts(s.children, a, s.id);
    var below2 := below1 + Layouts(s.actions, b, s.id);
    var node1 := WithMore(node, Starts(s.children, a));
    var node2 := WithMore(node1, Starts(s.actions, b));
    EmitInBlock(before, node, [], s.children, a);
    EmitInBlock(before, node1, below1, s.actions, b);
    EmitInBlock(before, node2, below2, s.notifications, c);
  }

  lemma GroupsAreLayout(before: seq<ExportNode>, s: Schema, parentId: string)
    ensures EmitGroups(before, s, parentId) == before + Layout(s, |before|, parentId)
  {
    var a := |before| + 1;
    var b := a + Sizes(s.children);
    var c := b + Sizes(s.actions);
    var x, y, z := Starts(s.children, a), Starts(s.actions, b), Starts(s.notifications, c);
    var first, second, third := Layouts(s.children, a, s.id), Layouts(s.actions, b, s.id),
        Layouts(s.notifications, c, s.id);
    assert EmitGroups(before, s, parentId)
        == Block(before, WithMore(WithMore(WithMore(ExportNode(s.id, parentId, []), x), y), z),
                 [] + first + second + third) by {
      GroupsAreBlock(before, s, parentId, a, b, c);
    }
    FinalBlock(before, s.id, parentId, x, y, z, first, second, third);
    assert Layout(s, |before|, parentId) == [ExportNode(s.id, parentId, x + y + z)] + first + second + third;
  }

  lemma FinalBlock(before: seq<ExportNode>, id: string, parentId: string, x: seq<nat>, y: seq<nat>, z: seq<nat>,
                   first: seq<ExportNode>, second: seq<ExportNode>, third: seq<ExportNode>)
    ensures Block(before, WithMore(WithMore(WithMore(ExportNode(id, parentId, []), x), y), z),
                  [] + first + second + third)
            == before + ([ExportNode(id, parentId, x + y + z)] + first + second + third)
  {
    assert [] + x == x;
    assert [] + first == first;
  }

  lemma EmitNode(nodes: seq<ExportNode>, parent: nat, s: Schema)
    requires parent < |nodes|
    ensures var before := AddChildren(nodes, parent, [|nodes|]);
            && AddChildren(nodes + [ExportNode(s.id, nodes[parent].id, [])], parent, [|nodes|])
               == Block(before, ExportNode(s.id, nodes[parent].id, []), [])
            && EmitGroups(before, s, nodes[parent].id) == EmitOne(nodes, parent, s)
  {
    GroupsAreLayout(AddChildren(nodes, parent, [|nodes|]), s, nodes[parent].id);
  }

  // ------------------------------------------------------------------ source

  predicate OneFits(s: Schema, count: nat, depth: nat) {
    depth + Height(s) <= MAX_EXPORT_DEPTH + 1 && count + Size(s) <= MAX_EXPORT_NODES
  }

  predicate AllFit(list: seq<Schema>, count: nat, depth: nat) {
    (list == [] || depth + Heights(list) <= MAX_EXPORT_DEPTH + 1) && count + Sizes(list) <= MAX_EXPORT_NODES
  }

  class ExportTree {
    var nodes: seq<ExportNode>
    var roots: seq<nat>

    constructor ()
      ensures nodes == [] && roots == []
    {
      nodes, roots := [], [];
    }

    method NewNode(node: ExportNode) returns (ok: bool, index: nat)
      modifies this`nodes
      ensures ok == (|old(nodes)| < MAX_EXPORT_NODES)
      ensures index == |old(nodes)| && nodes == if ok then old(nodes) + [node] else old(nodes)
    {
      ok, index := |nodes| < MAX_EXPORT_NODES, |nodes|;
      if ok {
        nodes := nodes + [node];
      }
    }

    method ExportSiblings(list: seq<Schema>, parent: nat, depth: nat) returns (ok: bool)
      requires parent < |nodes| <= MAX_EXPORT_NODES
      modifies this`nodes
      ensures ok == AllFit(list, |old(nodes)|, depth)
      ensures ok ==> nodes == Emit(old(nodes), parent, list)
      decreases list, 1
    {
      var i := 0;
      while i < |list|
        invariant 0 <= i <= |list|
        invariant parent < |nodes| <= MAX_EXPORT_NODES
        invariant Emit(nodes, parent, list[i..]) == Emit(old(nodes), parent, list)
        invariant AllFit(list[i..], |nodes|, depth) == AllFit(list, |old(nodes)|, depth)
      {
        EmitFirst(nodes, parent, list[i..]);
        assert list[i..][1..] == list[i + 1..];
        ok := ExportSchemaNode(list[i], parent, depth);
        if !ok {
          return false;
        }
        i := i + 1;
      }
      EmitNothing(nodes, parent);
      return true;
    }

    method ExportSchemaNode(schema: Schema, parent: nat, depth: nat) returns (ok: bool)
      requires parent < |nodes| <= MAX_EXPORT_NODES
      modifies this`nodes
      ensures ok == OneFits(schema, |old(nodes)|, depth)
      ensures ok ==> nodes == EmitOne(old(nodes), parent, schema)
      decreases schema, 1
    {
      if depth > MAX_EXPORT_DEPTH {
        return false;
      }
      EmitNode(nodes, parent, schema);
      var index: nat;
      ok, index := NewNode(ExportNode(schema.id, nodes[parent].id, []));
      if !ok {
        return false;
      }
      nodes := AddChildren(nodes, parent, [index]);
      ok := ExportBelow(schema, index, depth + 1);
    }

    /** The three loops that follow a new node. */
    method ExportBelow(schema: Schema, index: nat, depth: nat) returns (ok: bool)
      requires index < |nodes| <= MAX_EXPORT_NODES
      modifies this`nodes
      ensures ok == (AllFit(schema.children, |old(nodes)|, depth)
                     && AllFit(schema.actions, |old(nodes)| + Sizes(schema.children), depth)
                     && AllFit(schema.notifications, |old(nodes)| + Sizes(schema.children) + Sizes(schema.actions),
                               depth))
      ensures var one := Emit(old(nodes), index, schema.children);
              index < |one| && index < |Emit(one, index, schema.actions)|
              && (ok ==> nodes == Emit(Emit(one, index, schema.actions), index, schema.notifications))
      decreases schema, 0
    {
      EmitLength(nodes, index, schema.children);
      EmitLength(Emit(nodes, index, schema.children), index, schema.actions);
      ok := ExportSiblings(schema.children, index, depth);
      if !ok {
        return false;
      }
      ok := ExportSiblings(schema.actions, index, depth);
      if !ok {
        return false;
      }
      ok := ExportSiblings(schema.notifications, index, depth);
    }

    /** One module: a root node, then its data nodes, RPCs and notifications. */
    method ExportModule(m: SchemaModule) returns (ok: bool)
      requires |nodes| <= MAX_EXPORT_NODES
      modifies this
      ensures |old(nodes)| <= MAX_EXPORT_NODES && ok == ModuleFits(m, |old(nodes)|)
      ensures ok ==> nodes == old(nodes) + Layout(AsSchema(m), |old(nodes)|, ROOT_NODE_ID)
      ensures ok ==> roots == old(roots) + [|old(nodes)|]
    {
      if !m.compiled {
        return false;
      }
      var index: nat;
      ok, index := NewNode(ExportNode(m.id, ROOT_NODE_ID, []));
      if !ok {
        return false;
      }
      roots := roots + [index];
      assert nodes == Block(old(nodes), ExportNode(m.id, ROOT_NODE_ID, []), []);
      GroupsAreLayout(old(nodes), AsSchema(m), ROOT_NODE_ID);
      EmitLength(nodes, index, m.data);
      EmitLength(Emit(nodes, index, m.data), index, m.rpcs);
      ok := ExportSiblings(m.data, index, 1);
      if !ok {
        return false;
      }
      ok := ExportSiblings(m.rpcs, index, 1);
      if !ok {
        return false;
      }
      ok := ExportSiblings(m.notifications, index, 1);
    }

    /** All relevant modules in turn, stopping at the first that does not fit. */
    method ExportModules(modules: seq<SchemaModule>) returns (ok: bool)
      requires nodes == [] && roots == []
      modifies this
      ensures ok <==> (forall m :: m in modules ==> Exportable(m)) && NodeCount(modules) <= 100_000
      ensures ok ==> nodes == ModulesLayout(modules, 0) && roots == ModuleStarts(modules, 0)
      ensures ok ==> Ids(nodes) == ModuleWalks(modules)
    {
      ok := true;
      ModulesAreWalks(modules);
      NodesCounted(modules);
      FitIff(modules, 0);
      var i := 0;
      while i < |modules|
        invariant 0 <= i <= |modules|
        invariant |nodes| <= MAX_EXPORT_NODES
        invariant AllModulesFit(modules[i..], |nodes|) == AllModulesFit(modules, 0)
        invariant nodes + ModulesLayout(modules[i..], |nodes|) == ModulesLayout(modules, 0)
        invariant roots + ModuleStarts(modules[i..], |nodes|) == ModuleStarts(modules, 0)
      {
        NextModule(nodes, roots, modules[i..]);
        assert modules[i..][1..] == modules[i + 1..];
        ok := ExportModule(modules[i]);
        if !ok {
          return false;
        }
        i := i + 1;
      }
    }
  }

  lemma NextModule(nodes: seq<ExportNode>, roots: seq<nat>, modules: seq<SchemaModule>)
    requires modules != []
    ensures var next := nodes + Layout(AsSchema(modules[0]), |nodes|, ROOT_NODE_ID);
            |next| == |nodes| + Size(AsSchema(modules[0]))
            && next + ModulesLayout(modules[1..], |next|) == nodes + ModulesLayout(modules, |nodes|)
            && roots + [|nodes|] + ModuleStarts(modules[1..], |next|) == roots + ModuleStarts(modules, |nodes|)
  {
    var top := AsSchema(modules[0]);
    LayoutLength(top, |nodes|, ROOT_NODE_ID);
    ModulesUnfold(modules, |nodes|);
    var k := |nodes| + Size(top);
    Regroup(nodes, Layout(top, |nodes|, ROOT_NODE_ID), ModulesLayout(modules[1..], k));
    Regroup(roots, [|nodes|], ModuleStarts(modules[1..], k));
  }

  lemma ModulesUnfold(modules: seq<SchemaModule>, at: nat)
    requires modules != []
    ensures var top := AsSchema(modules[0]);
            && ModulesLayout(modules, at)
               == Layout(top, at, ROOT_NODE_ID) + ModulesLayout(modules[1..], at + Size(top))
            && ModuleStarts(modules, at) == [at] + ModuleStarts(modules[1..], at + Size(top))
  {
    SchemasUnfold(modules);
    LayoutsUnfold(AsSchemas(modules), at, ROOT_NODE_ID);
  }

  lemma SchemasUnfold(modules: seq<SchemaModule>)
    requires modules != []
    ensures var list := AsSchemas(modules);
            list != [] && list[0] == AsSchema(modules[0]) && list[1..] == AsSchemas(modules[1..])
  {
  }

  lemma LayoutsUnfold(list: seq<Schema>, at: nat, parentId: string)
    requires list != []
    ensures Layouts(list, at, parentId)
            == Layout(list[0], at, parentId) + Layouts(list[1..], at + Size(list[0]), parentId)
    ensures Starts(list, at) == [at] + Starts(list[1..], at + Size(list[0]))
  {
  }

  lemma Regroup<T>(a: seq<T>, b: seq<T>, c: seq<T>)
    ensures a + b + c == a + (b + c)
  {
  }

  predicate AllModulesFit(modules: seq<SchemaModule>, count: nat) {
    modules == [] || (ModuleFits(modules[0], count) && AllModulesFit(modules[1..], count + Size(AsSchema(modules[0]))))
  }

  /** Compiled, and not too deep. */
  predicate Exportable(m: SchemaModule) {
    m.compiled && Heights(m.data) <= 256 && Heights(m.rpcs) <= 256 && Heights(m.notifications) <= 256
  }

  /** The modules fit one behind the other exactly when each is exportable and all nodes together fit. */
  lemma {:induction false} FitIff(modules: seq<SchemaModule>, count: nat)
    requires count <= MAX_EXPORT_NODES
    ensures AllModulesFit(modules, count) <==>
            (forall m :: m in modules ==> Exportable(m)) && count + Sizes(AsSchemas(modules)) <= MAX_EXPORT_NODES
    decreases |modules|
  {
    if modules != [] {
      var m, rest := modules[0], modules[1..];
      assert AsSchemas(modules)[0] == AsSchema(m) && AsSchemas(modules)[1..] == AsSchemas(rest);
      assert forall x :: x in modules <==> x == m || x in rest;
      assert Sizes(AsSchemas(modules)) == Size(AsSchema(m)) + Sizes(AsSchemas(rest));
      assert ModuleFits(m, count) <==> Exportable(m) && count + Size(AsSchema(m)) <= MAX_EXPORT_NODES;
      if count + Size(AsSchema(m)) <= MAX_EXPORT_NODES {
        FitIff(rest, count + Size(AsSchema(m)));
      }
    }
  }

  function ModulesLayout(modules: seq<SchemaModule>, at: nat): seq<ExportNode> {
    Layouts(AsSchemas(modules), at, ROOT_NODE_ID)
  }

  function ModuleStarts(modules: seq<SchemaModule>, at: nat): seq<nat> {
    Starts(AsSchemas(modules), at)
  }

  // ----------------------------------------------------------- pre-order walk

  function Ids(nodes: seq<ExportNode>): seq<string> {
    seq(|nodes|, i requires 0 <= i < |nodes| => nodes[i].id)
  }

  lemma IdsAppend(a: seq<ExportNode>, b: seq<ExportNode>)
    ensures Ids(a + b) == Ids(a) + Ids(b)
  {
  }

  /** The exported array lists the nodes in pre-order: a node, then children, actions and notifications. */
  lemma {:induction false} LayoutIsWalk(s: Schema, at: nat, parentId: string)
    ensures Ids(Layout(s, at, parentId)) == Walk(s)
    decreases s, 0
  {
    var a := at + 1;
    var b := a + Sizes(s.children);
    var c := b + Sizes(s.actions);
    LayoutsAreWalks(s.children, a, s.id);
    LayoutsAreWalks(s.actions, b, s.id);
    LayoutsAreWalks(s.notifications, c, s.id);
    var top := ExportNode(s.id, parentId, Starts(s.children, a) + Starts(s.actions, b) + Starts(s.notifications, c));
    WalkParts(top, Layouts(s.children, a, s.id), Layouts(s.actions, b, s.id), Layouts(s.notifications, c, s.id));
  }

  lemma WalkParts(node: ExportNode, x: seq<ExportNode>, y: seq<ExportNode>, z: seq<ExportNode>)
    ensures Ids([node] + x + y + z) == [node.id] + Ids(x) + Ids(y) + Ids(z)
  {
  }

  lemma {:induction false} LayoutsAreWalks(list: seq<Schema>, at: nat, parentId: string)
    ensures Ids(Layouts(list, at, parentId)) == Walks(list)
    decreases list, 1
  {
    if list != [] {
      LayoutIsWalk(list[0], at, parentId);
      LayoutsAreWalks(list[1..], at + Size(list[0]), parentId);
      IdsAppend(Layout(list[0], at, parentId), Layouts(list[1..], at + Size(list[0]), parentId));
    }
  }

  // ------------------------------------------------------------------ shape

  /** `g` is listed as a child by the node at offset `j`. */
  predicate Lists(nodes: seq<ExportNode>, j: nat, g: nat)
    requires j < |nodes|
  {
    g in nodes[j].children
  }

  ghost predicate Increasing(s: seq<nat>, low: nat, high: nat) {
    && (forall i :: 0 <= i < |s| ==> low <= s[i] < high)
    && (forall i, j :: 0 <= i < j < |s| ==> s[i] < s[j])
  }

  /** Some node lists `g`. */
  ghost predicate Listed(nodes: seq<ExportNode>, g: nat) {
    exists j: nat :: j < |nodes| && Lists(nodes, j, g)
  }

  /** Children come after their parent and in order, and carry its id. */
  ghost predicate Nested(nodes: seq<ExportNode>, at: nat) {
    && (forall j :: 0 <= j < |nodes| ==> Increasing(nodes[j].children, at + j + 1, at + |nodes|))
    && (forall j: nat, g: nat :: j < |nodes| && Lists(nodes, j, g) ==> nodes[g - at].parentId == nodes[j].id)
  }

  /** No node is listed by two. */
  ghost predicate ListedOnce(nodes: seq<ExportNode>) {
    forall i: nat, j: nat, g: nat :: i < |nodes| && j < |nodes| && Lists(nodes, i, g) && Lists(nodes, j, g) ==> i == j
  }

  /** The tops are the nodes that none lists, and carry the id of a parent outside. */
  ghost predicate Topped(nodes: seq<ExportNode>, at: nat, tops: seq<nat>, parentId: string) {
    && Increasing(tops, at, at + |nodes|)
    && (forall t :: t in tops ==> nodes[t - at].parentId == parentId)
    && (forall g: nat :: at <= g < at + |nodes| ==> (g in tops <==> !Listed(nodes, g)))
  }

  /** Nodes at `at ..`, with `tops` the ones that belong to a parent outside: every other node is listed by
      exactly one node, once, which comes before it and whose id it carries as parent id. */
  ghost predicate Shape(nodes: seq<ExportNode>, at: nat, tops: seq<nat>, parentId: string) {
    Nested(nodes, at) && ListedOnce(nodes) && Topped(nodes, at, tops, parentId)
  }

  lemma ShapeEmpty(at: nat, parentId: string)
    ensures Shape([], at, [], parentId)
  {
  }

  lemma ListsWithin(nodes: seq<ExportNode>, at: nat, j: nat, g: nat)
    requires Nested(nodes, at) && j < |nodes| && Lists(nodes, j, g)
    ensures at + j < g < at + |nodes|
  {
  }

  lemma NestedAppend(a: seq<ExportNode>, b: seq<ExportNode>, at: nat)
    requires Nested(a, at) && Nested(b, at + |a|)
    ensures Nested(a + b, at)
  {
    var c := a + b;
    forall j: nat, g: nat | j < |c| && Lists(c, j, g) ensures c[g - at].parentId == c[j].id {
      if j < |a| {
        assert Lists(a, j, g);
      } else {
        assert Lists(b, j - |a|, g);
      }
    }
  }

  lemma ListedOnceAppend(a: seq<ExportNode>, b: seq<ExportNode>, at: nat)
    requires Nested(a, at) && Nested(b, at + |a|) && ListedOnce(a) && ListedOnce(b)
    ensures ListedOnce(a + b)
  {
    var c := a + b;
    forall i: nat, j: nat, g: nat | i < |c| && j < |c| && Lists(c, i, g) && Lists(c, j, g) ensures i == j {
      SideOf(a, b, at, i, g);
      SideOf(a, b, at, j, g);
    }
  }

  /** A node of an append lists only nodes of its own side. */
  lemma SideOf(a: seq<ExportNode>, b: seq<ExportNode>, at: nat, j: nat, g: nat)
    requires Nested(a, at) && Nested(b, at + |a|) && j < |a + b| && Lists(a + b, j, g)
    ensures j < |a| <==> g < at + |a|
    ensures if j < |a| then Lists(a, j, g) else Lists(b, j - |a|, g)
  {
    if j < |a| {
      ListsWithin(a, at, j, g);
    } else {
      ListsWithin(b, at + |a|, j - |a|, g);
    }
  }

  lemma ToppedAppend(a: seq<ExportNode>, b: seq<ExportNode>, at: nat, x: seq<nat>, y: seq<nat>, parentId: string)
    requires Nested(a, at) && Nested(b, at + |a|)
    requires Topped(a, at, x, parentId) && Topped(b, at + |a|, y, parentId)
    ensures Topped(a + b, at, x + y, parentId)
  {
    forall g: nat | at <= g < at + |a + b| ensures g in x + y <==> !Listed(a + b, g) {
      ListedInAppend(a, b, g);
      ListedOnOwnSide(a, at, g);
      ListedOnOwnSide(b, at + |a|, g);
    }
  }

  lemma ListedOnOwnSide(nodes: seq<ExportNode>, at: nat, g: nat)
    requires Nested(nodes, at)
    ensures Listed(nodes, g) ==> at < g < at + |nodes|
  {
    if Listed(nodes, g) {
      var j: nat :| j < |nodes| && Lists(nodes, j, g);
      ListsWithin(nodes, at, j, g);
    }
  }

  /** Two adjacent shapes with the same outside parent form one. */
  lemma ShapeAppend(a: seq<ExportNode>, b: seq<ExportNode>, at: nat, mid: nat, x: seq<nat>, y: seq<nat>,
                    parentId: string)
    requires mid == at + |a| && Shape(a, at, x, parentId) && Shape(b, mid, y, parentId)
    ensures Shape(a + b, at, x + y, parentId)
  {
    NestedAppend(a, b, at);
    ListedOnceAppend(a, b, at);
    ToppedAppend(a, b, at, x, y, parentId);
  }

  lemma ListedInAppend(a: seq<ExportNode>, b: seq<ExportNode>, g: nat)
    ensures Listed(a + b, g) <==> Listed(a, g) || Listed(b, g)
  {
    forall j: nat | j < |a| && Lists(a, j, g) ensures Lists(a + b, j, g) {
    }
    forall j: nat | j < |b| && Lists(b, j, g) ensures Lists(a + b, j + |a|, g) {
    }
    forall j: nat | j < |a + b| && Lists(a + b, j, g) ensures Listed(a, g) || Listed(b, g) {
      if j < |a| {
        assert Lists(a, j, g);
      } else {
        assert Lists(b, j - |a|, g);
      }
    }
  }

  /** A node in front of a shape that lists exactly its tops. */
  lemma ShapeNode(id: string, parentId: string, below: seq<ExportNode>, at: nat, next: nat, tops: seq<nat>)
    requires next == at + 1 && Shape(below, next, tops, id)
    ensures Shape([ExportNode(id, parentId, tops)] + below, at, [at], parentId)
  {
    var node := ExportNode(id, parentId, tops);
    var c := [node] + below;
    forall j: nat, g: nat | j < |c| && Lists(c, j, g)
      ensures c[g - at].parentId == c[j].id && g != at && (j == 0 <==> g in tops)
    {
      if j > 0 {
        assert Lists(below, j - 1, g);
      }
    }
    forall i: nat, j: nat, g: nat | i < |c| && j < |c| && Lists(c, i, g) && Lists(c, j, g) ensures i == j {
      if i > 0 && j > 0 {
        assert Lists(below, i - 1, g) && Lists(below, j - 1, g);
      }
    }
    forall g: nat | at <= g < at + |c| ensures g in [at] <==> !Listed(c, g) {
      ListedInAppend([node], below, g);
      assert Lists([node], 0, g) <==> g in tops;
    }
  }

  /** A node in front of three adjacent shapes that lists the tops of all of them. */
  lemma ShapeGroups(id: string, parentId: string, at: nat, a: nat, b: nat, c: nat, x: seq<ExportNode>,
                    y: seq<ExportNode>,
                    z: seq<ExportNode>, p: seq<nat>, q: seq<nat>, r: seq<nat>, nodes: seq<ExportNode>)
    requires a == at + 1 && b == a + |x| && c == b + |y|
    requires Shape(x, a, p, id) && Shape(y, b, q, id) && Shape(z, c, r, id)
    requires nodes == [ExportNode(id, parentId, p + q + r)] + x + y + z
    ensures Shape(nodes, at, [at], parentId)
  {
    ShapeAppend(x, y, a, b, p, q, id);
    ShapeAppend(x + y, z, a, c, p + q, r, id);
    ShapeNode(id, parentId, x + y + z, at, a, p + q + r);
    LayoutRegroup(ExportNode(id, parentId, p + q + r), x, y, z);
  }

  lemma LayoutRegroup(node: ExportNode, x: seq<ExportNode>, y: seq<ExportNode>, z: seq<ExportNode>)
    ensures [node] + x + y + z == [node] + (x + y + z)
  {
  }

  lemma LayoutShape(s: Schema, at: nat, parentId: string)
    ensures Shape(Layout(s, at, parentId), at, [at], parentId)
  {
    LayoutShapeOf(s, at, parentId, Layout(s, at, parentId));
  }

  lemma {:induction false} LayoutShapeOf(s: Schema, at: nat, parentId: string, nodes: seq<ExportNode>)
    requires nodes == Layout(s, at, parentId)
    ensures Shape(nodes, at, [at], parentId)
    decreases s, 1
  {
    var a := at + 1;
    var b := a + Sizes(s.children);
    var c := b + Sizes(s.actions);
    var x, y, z := Layouts(s.children, a, s.id), Layouts(s.actions, b, s.id), Layouts(s.notifications, c, s.id);
    var p, q, r := Starts(s.children, a), Starts(s.actions, b), Starts(s.notifications, c);
    GroupShapes(s, a, b, c, x, y, z, p, q, r);
    ShapeGroups(s.id, parentId, at, a, b, c, x, y, z, p, q, r, nodes);
  }

  lemma {:induction false} GroupShapes(s: Schema, a: nat, b: nat, c: nat, x: seq<ExportNode>, y: seq<ExportNode>,
                                       z: seq<ExportNode>, p: seq<nat>, q: seq<nat>, r: seq<nat>)
    requires x == Layouts(s.children, a, s.id) && p == Starts(s.children, a)
    requires y == Layouts(s.actions, b, s.id) && q == Starts(s.actions, b)
    requires z == Layouts(s.notifications, c, s.id) && r == Starts(s.notifications, c)
    ensures Shape(x, a, p, s.id) && Shape(y, b, q, s.id) && Shape(z, c, r, s.id)
    ensures |x| == Sizes(s.children) && |y| == Sizes(s.actions)
    decreases s, 0
  {
    LayoutsLength(s.children, a, s.id);
    LayoutsLength(s.actions, b, s.id);
    LayoutsShape(s.children, a, s.id, x, p);
    LayoutsShape(s.actions, b, s.id, y, q);
    LayoutsShape(s.notifications, c, s.id, z, r);
  }

  lemma {:induction false} LayoutsShape(list: seq<Schema>, at: nat, parentId: string, nodes: seq<ExportNode>,
                                        tops: seq<nat>)
    requires nodes == Layouts(list, at, parentId) && tops == Starts(list, at)
    ensures Shape(nodes, at, tops, parentId)
    decreases list, 2
  {
    if list == [] {
      ShapeEmpty(at, parentId);
    } else {
      var first, next := Layout(list[0], at, parentId), at + Size(list[0]);
      var rest, more := Layouts(list[1..], next, parentId), Starts(list[1..], next);
      LayoutsUnfold(list, at, parentId);
      LayoutLength(list[0], at, parentId);
      LayoutShapeOf(list[0], at, parentId, first);
      LayoutsShape(list[1..], next, parentId, rest, more);
      ShapeAppend(first, rest, at, next, [at], more, parentId);
    }
  }

  lemma {:induction false} NodesCounted(modules: seq<SchemaModule>)
    ensures Sizes(AsSchemas(modules)) == NodeCount(modules)
    decreases |modules|
  {
    if modules != [] {
      SchemasUnfold(modules);
      NodesCounted(modules[1..]);
    }
  }

  lemma {:induction false} SchemaWalks(modules: seq<SchemaModule>)
    ensures Walks(AsSchemas(modules)) == ModuleWalks(modules)
    decreases |modules|
  {
    if modules != [] {
      SchemasUnfold(modules);
      SchemaWalks(modules[1..]);
      assert Walk(AsSchema(modules[0])) == ModuleWalk(modules[0]);
    }
  }

  /** The array lists, module by module, the id, the data nodes, the RPCs and the notifications in pre-order. */
  lemma ModulesAreWalks(modules: seq<SchemaModule>)
    ensures Ids(ModulesLayout(modules, 0)) == ModuleWalks(modules)
  {
    LayoutsAreWalks(AsSchemas(modules), 0, ROOT_NODE_ID);
    SchemaWalks(modules);
  }

  lemma LayoutRoot(m: SchemaModule, at: nat)
    ensures Layout(AsSchema(m), at, ROOT_NODE_ID) != []
    ensures Layout(AsSchema(m), at, ROOT_NODE_ID)[0] == ModuleRoot(m, at)
  {
  }

  /** Each module starts where those before it end, with a root node that lists where its data nodes, its RPCs and
      its notifications start. */
  lemma {:induction false} RootOfModule(modules: seq<SchemaModule>, at: nat, i: nat, start: nat)
    requires i < |modules| && start == NodeCount(modules[..i])
    ensures i < |ModuleStarts(modules, at)| && ModuleStarts(modules, at)[i] == at + start
    ensures start < |ModulesLayout(modules, at)|
    ensures ModulesLayout(modules, at)[start] == ModuleRoot(modules[i], at + start)
    decreases |modules|
  {
    var top := AsSchema(modules[0]);
    ModulesUnfold(modules, at);
    LayoutLength(top, at, ROOT_NODE_ID);
    if i == 0 {
      LayoutRoot(modules[0], at);
    } else {
      assert modules[..i][0] == modules[0] && modules[..i][1..] == modules[1..][..i - 1];
      RootOfModule(modules[1..], at + Size(top), i - 1, start - Size(top));
    }
  }

  /** Over all modules: the tops are the module roots, every other node has exactly one, earlier parent, and the
      array lists the modules' nodes in pre-order. */
  lemma ModulesShape(modules: seq<SchemaModule>)
    ensures Shape(ModulesLayout(modules, 0), 0, ModuleStarts(modules, 0), ROOT_NODE_ID)
    ensures Ids(ModulesLayout(modules, 0)) == ModuleWalks(modules)
  {
    ModulesAreWalks(modules);
    LayoutsShape(AsSchemas(modules), 0, ROOT_NODE_ID, ModulesLayout(modules, 0), ModuleStarts(modules, 0));
  }
}

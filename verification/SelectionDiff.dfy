/** Selections of a datastore as trees of XML nodes, their identities, the diff that produces YANG Patch edits,
    and a receiver that applies those edits. */
module SelectionDiff {
  import opened Options

  /** A parsed element: local name, text and child elements in document order. */
  datatype Node = Node(name: string, text: string, children: seq<Node>)

  /** What tells siblings apart: the name, and for list entries the key as well. */
  datatype Identity = Plain(name: string) | Keyed(name: string, key: string)

  datatype Operation = Create | Delete | Replace

  /** A YANG Patch edit. `target` is the path of identities from the root; `node` carries the new value and is
      absent for a delete. */
  datatype Edit = Edit(target: seq<Identity>, operation: Operation, node: Option<Node>)

  /** The receiver's copy: siblings by identity, so sibling order is forgotten. */
  datatype Tree = Tree(text: string, children: map<Identity, Tree>)
  type Forest = map<Identity, Tree>

  // ---------------------------------------------------------------- source

  /** Text of the first child called `name`, or the empty string. */
  function KeyText(children: seq<Node>): string {
    if children == [] then ""
    else if children[0].name == "name" then children[0].text
    else KeyText(children[1..])
  }

  function IdentityOf(node: Node): Identity {
    if node.name == "interface" then Keyed(node.name, KeyText(node.children)) else Plain(node.name)
  }

  /** The sibling map: a later sibling replaces an earlier one with the same identity. */
  function Lookup(nodes: seq<Node>, id: Identity): (r: Option<Node>)
    ensures r.Some? ==> r.value in nodes && IdentityOf(r.value) == id
    ensures r.Some? <==> exists n :: n in nodes && IdentityOf(n) == id
  {
    if nodes == [] then None
    else
      var last := nodes[|nodes| - 1];
      if IdentityOf(last) == id then Some(last) else Lookup(nodes[..|nodes| - 1], id)
  }

  /** Identities in order of first appearance, after those already in `seen`. */
  function Identities(nodes: seq<Node>, seen: seq<Identity>): (r: seq<Identity>)
    ensures forall id :: id in r <==> id in seen || exists n :: n in nodes && IdentityOf(n) == id
    ensures Distinct(seen) ==> Distinct(r)
  {
    if nodes == [] then seen
    else
      var id := IdentityOf(nodes[0]);
      Identities(nodes[1..], if id in seen then seen else seen + [id])
  }

  ghost predicate Distinct<T>(s: seq<T>) {
    forall i, j :: 0 <= i < j < |s| ==> s[i] != s[j]
  }

  function Diff(previous: seq<Node>, current: seq<Node>, parent: seq<Identity>): seq<Edit>
    decreases previous, 1, 0
  {
    DiffOver(Identities(current, Identities(previous, [])), previous, current, parent)
  }

  function DiffOver(ids: seq<Identity>, previous: seq<Node>, current: seq<Node>, parent: seq<Identity>): seq<Edit>
    decreases previous, 0, |ids|
  {
    if ids == [] then [] else DiffAt(ids[0], previous, current, parent) + DiffOver(ids[1..], previous, current, parent)
  }

  function DiffAt(id: Identity, previous: seq<Node>, current: seq<Node>, parent: seq<Identity>): seq<Edit>
    decreases previous, 0, 0
  {
    var target := parent + [id];
    match (Lookup(previous, id), Lookup(current, id))
    case (None, None) => []
    case (None, Some(after)) => [Edit(target, Create, Some(after))]
    case (Some(_), None) => [Edit(target, Delete, None)]
    case (Some(before), Some(after)) =>
      if |before.children| > 0 || |after.children| > 0 then
        if |before.children| == 0 || |after.children| == 0 then [Edit(target, Replace, Some(after))]
        else Diff(before.children, after.children, target)
      else if before.text != after.text then [Edit(target, Replace, Some(after))]
      else []
  }

  // ------------------------------------------------- well-formed selections

  /** Sibling identities are unique at every level and no element mixes text with children. */
  ghost predicate WellFormed(nodes: seq<Node>) {
    && (forall i, j :: 0 <= i < j < |nodes| ==> IdentityOf(nodes[i]) != IdentityOf(nodes[j]))
    && (forall n :: n in nodes ==> (n.children == [] || n.text == "") && WellFormed(n.children))
  }

  /** The same nodes at every level, whatever the order of siblings. */
  ghost predicate SameUpToOrder(a: seq<Node>, b: seq<Node>)
    decreases a, 1
  {
    EachFound(a, b) && EachNeeded(a, b)
  }

  ghost predicate EachFound(a: seq<Node>, b: seq<Node>)
    decreases a, 0
  {
    forall x :: x in a ==> exists y :: y in b && SameNode(x, y)
  }

  ghost predicate EachNeeded(a: seq<Node>, b: seq<Node>)
    decreases a, 0
  {
    forall y :: y in b ==> exists x :: x in a && SameNode(x, y)
  }

  ghost predicate SameNode(x: Node, y: Node)
    decreases x.children, 2
  {
    x.name == y.name && x.text == y.text && SameUpToOrder(x.children, y.children)
  }

  // --------------------------------------------------------------- receiver

  ghost function TreeOf(node: Node): Tree {
    Tree(node.text, ForestOf(node.children))
  }

  ghost function ForestOf(nodes: seq<Node>): Forest {
    map id | id in (set n | n in nodes :: IdentityOf(n)) :: TreeOf(Lookup(nodes, id).value)
  }

  function Get(f: Forest, id: Identity): Option<Tree> {
    if id in f then Some(f[id]) else None
  }

  function Put(f: Forest, id: Identity, slot: Option<Tree>): Forest {
    match slot
    case None => f - {id}
    case Some(t) => f[id := t]
  }

  /** Applies one edit at the sibling named by the head of its target; the outer option is the receiver's refusal:
      a create of something present, a delete or replace of something absent, a missing parent, or a value that is
      not the target. */
  ghost function EditSlot(slot: Option<Tree>, e: Edit): Option<Option<Tree>>
    decreases |e.target|, 0
  {
    if e.target == [] then None
    else if |e.target| == 1 then
      match e.operation
      case Delete => if slot.Some? then Some(None) else None
      case Create => if slot.None? && ValueFits(e) then Some(Some(TreeOf(e.node.value))) else None
      case Replace => if slot.Some? && ValueFits(e) then Some(Some(TreeOf(e.node.value))) else None
    else if slot.None? then None
    else
      match EditForest(slot.value.children, Below(e))
      case None => None
      case Some(children) => Some(Some(slot.value.(children := children)))
  }

  ghost function EditForest(f: Forest, e: Edit): Option<Forest>
    decreases |e.target|, 1
  {
    if e.target == [] then None
    else
      match EditSlot(Get(f, e.target[0]), e)
      case None => None
      case Some(slot) => Some(Put(f, e.target[0], slot))
  }

  ghost predicate ValueFits(e: Edit)
    requires |e.target| == 1
  {
    e.node.Some? && IdentityOf(e.node.value) == e.target[0]
  }

  /** The same edit seen from inside the sibling its target starts with. */
  function Below(e: Edit): Edit
    requires e.target != []
  {
    e.(target := e.target[1..])
  }

  /** The receiver applies the edits of a patch in order and refuses the whole patch if one is refused. */
  ghost function Patch(f: Forest, edits: seq<Edit>): Option<Forest>
    decreases |edits|
  {
    if edits == [] then Some(f)
    else
      match EditForest(f, edits[0])
      case None => None
      case Some(g) => Patch(g, edits[1..])
  }

  ghost function PatchSlot(slot: Option<Tree>, edits: seq<Edit>): Option<Option<Tree>>
    decreases |edits|
  {
    if edits == [] then Some(slot)
    else
      match EditSlot(slot, edits[0])
      case None => None
      case Some(next) => PatchSlot(next, edits[1..])
  }

  lemma {:induction false} PatchAppend(f: Forest, a: seq<Edit>, b: seq<Edit>)
    ensures Patch(f, a + b) == (match Patch(f, a) case None => None case Some(g) => Patch(g, b))
    decreases |a|
  {
    if a == [] {
      assert a + b == b;
    } else {
      assert (a + b)[1..] == a[1..] + b;
      match EditForest(f, a[0])
      case None =>
      case Some(g) => PatchAppend(g, a[1..], b);
    }
  }

  // ----------------------------------------------- edits grouped by sibling

  /** The edits at or below sibling `id`, in order. */
  function Select(edits: seq<Edit>, id: Identity): seq<Edit> {
    if edits == [] then []
    else (if edits[0].target != [] && edits[0].target[0] == id then [edits[0]] else []) + Select(edits[1..], id)
  }

  lemma {:induction false} SelectAppend(a: seq<Edit>, b: seq<Edit>, id: Identity)
    ensures Select(a + b, id) == Select(a, id) + Select(b, id)
  {
    if a == [] {
      assert a + b == b;
    } else {
      assert (a + b)[0] == a[0] && (a + b)[1..] == a[1..] + b;
      SelectAppend(a[1..], b, id);
      var first := if a[0].target != [] && a[0].target[0] == id then [a[0]] else [];
      assert first + (Select(a[1..], id) + Select(b, id)) == first + Select(a[1..], id) + Select(b, id);
    }
  }

  lemma {:induction false} SelectCount(edits: seq<Edit>, id: Identity, e: Edit)
    ensures multiset(Select(edits, id))[e] ==
            if e.target != [] && e.target[0] == id then multiset(edits)[e] else 0
  {
    if edits != [] {
      assert edits == [edits[0]] + edits[1..];
      SelectCount(edits[1..], id, e);
    }
  }

  lemma SelectPermutes(a: seq<Edit>, b: seq<Edit>, id: Identity)
    requires multiset(a) == multiset(b)
    ensures multiset(Select(a, id)) == multiset(Select(b, id))
  {
    forall e ensures multiset(Select(a, id))[e] == multiset(Select(b, id))[e] {
      SelectCount(a, id, e);
      SelectCount(b, id, e);
    }
  }

  lemma ForestsEqual(f: Forest, g: Forest)
    requires forall id :: Get(f, id) == Get(g, id)
    ensures f == g
  {
    assert forall id :: id in f ==> Get(f, id) == Get(g, id);
    assert forall id :: id in g ==> Get(f, id) == Get(g, id);
  }

  lemma PatchSlotStep(slot: Option<Tree>, e: Edit, rest: seq<Edit>)
    ensures PatchSlot(slot, [e] + rest) ==
            (match EditSlot(slot, e) case None => None case Some(next) => PatchSlot(next, rest))
  {
    assert ([e] + rest)[1..] == rest;
  }

  /** At every sibling, that sibling's own edits take `f` to `g`. */
  ghost predicate EachSiblingReaches(f: Forest, edits: seq<Edit>, g: Forest) {
    forall id :: PatchSlot(Get(f, id), Select(edits, id)) == Some(Get(g, id))
  }

  lemma SelectFirst(e: Edit, rest: seq<Edit>, id: Identity)
    ensures Select([e] + rest, id) ==
            if e.target != [] && e.target[0] == id then [e] + Select(rest, id) else Select(rest, id)
  {
    assert ([e] + rest)[1..] == rest;
  }

  lemma GetPut(f: Forest, id: Identity, slot: Option<Tree>, other: Identity)
    ensures Get(Put(f, id, slot), other) == if other == id then slot else Get(f, other)
  {
  }

  lemma EditForestAt(f: Forest, e: Edit, id: Identity)
    requires e.target != []
    requires EditForest(f, e).Some?
    ensures EditSlot(Get(f, e.target[0]), e).Some?
    ensures Get(EditForest(f, e).value, id) ==
            if id == e.target[0] then EditSlot(Get(f, id), e).value else Get(f, id)
  {
    GetPut(f, e.target[0], EditSlot(Get(f, e.target[0]), e).value, id);
  }

  lemma SiblingStep(f: Forest, e: Edit, rest: seq<Edit>, id: Identity)
    requires e.target != []
    requires EditForest(f, e).Some?
    requires PatchSlot(Get(f, id), Select([e] + rest, id)).Some?
    ensures PatchSlot(Get(EditForest(f, e).value, id), Select(rest, id))
            == PatchSlot(Get(f, id), Select([e] + rest, id))
  {
    SelectFirst(e, rest, id);
    EditForestAt(f, e, id);
    if id == e.target[0] {
      PatchSlotStep(Get(f, id), e, Select(rest, id));
    }
  }

  lemma FirstEditAccepted(f: Forest, e: Edit, rest: seq<Edit>, g: Forest)
    requires e.target != []
    requires EachSiblingReaches(f, [e] + rest, g)
    ensures EditForest(f, e).Some?
  {
    var head := e.target[0];
    SelectFirst(e, rest, head);
    PatchSlotStep(Get(f, head), e, Select(rest, head));
    assert PatchSlot(Get(f, head), Select([e] + rest, head)) == Some(Get(g, head));
  }

  lemma EachSiblingStep(f: Forest, e: Edit, rest: seq<Edit>, g: Forest)
    requires e.target != []
    requires EachSiblingReaches(f, [e] + rest, g)
    ensures EditForest(f, e).Some?
    ensures EachSiblingReaches(EditForest(f, e).value, rest, g)
  {
    FirstEditAccepted(f, e, rest, g);
    var h := EditForest(f, e).value;
    forall id ensures PatchSlot(Get(h, id), Select(rest, id)) == Some(Get(g, id)) {
      assert PatchSlot(Get(f, id), Select([e] + rest, id)) == Some(Get(g, id));
      SiblingStep(f, e, rest, id);
    }
  }

  /** A patch works sibling by sibling: what takes `f` to `g` at each sibling takes `f` to `g`. */
  lemma {:induction false} PatchBySibling(f: Forest, edits: seq<Edit>, g: Forest)
    requires forall e :: e in edits ==> e.target != []
    requires EachSiblingReaches(f, edits, g)
    ensures Patch(f, edits) == Some(g)
    decreases |edits|
  {
    if edits == [] {
      forall id ensures Get(f, id) == Get(g, id) {
        assert PatchSlot(Get(f, id), Select(edits, id)) == Some(Get(g, id));
      }
      ForestsEqual(f, g);
    } else {
      assert edits == [edits[0]] + edits[1..];
      EachSiblingStep(f, edits[0], edits[1..], g);
      PatchBySibling(EditForest(f, edits[0]).value, edits[1..], g);
    }
  }

  // ----------------------------------------------------- shape of the diff

  function Prefixed(parent: seq<Identity>, edits: seq<Edit>): seq<Edit> {
    seq(|edits|, i requires 0 <= i < |edits| => edits[i].(target := parent + edits[i].target))
  }

  lemma {:induction false} DiffRelative(a: seq<Node>, b: seq<Node>, parent: seq<Identity>)
    ensures Diff(a, b, parent) == Prefixed(parent, Diff(a, b, []))
    decreases a, 1, 0
  {
    DiffOverRelative(Identities(b, Identities(a, [])), a, b, parent);
  }

  lemma {:induction false} DiffOverRelative(ids: seq<Identity>, a: seq<Node>, b: seq<Node>, parent: seq<Identity>)
    ensures DiffOver(ids, a, b, parent) == Prefixed(parent, DiffOver(ids, a, b, []))
    decreases a, 0, |ids|
  {
    if ids != [] {
      DiffAtRelative(ids[0], a, b, parent);
      DiffOverRelative(ids[1..], a, b, parent);
      PrefixedJoined(parent, DiffAt(ids[0], a, b, []), DiffOver(ids[1..], a, b, []));
    }
  }

  lemma PrefixedJoined(parent: seq<Identity>, x: seq<Edit>, y: seq<Edit>)
    ensures Prefixed(parent, x + y) == Prefixed(parent, x) + Prefixed(parent, y)
  {
  }

  lemma PrefixedTwice(outer: seq<Identity>, inner: seq<Identity>, edits: seq<Edit>)
    ensures Prefixed(outer + inner, edits) == Prefixed(outer, Prefixed(inner, edits))
  {
    forall i | 0 <= i < |edits|
      ensures Prefixed(outer + inner, edits)[i] == Prefixed(outer, Prefixed(inner, edits))[i]
    {
      assert outer + inner + edits[i].target == outer + (inner + edits[i].target);
    }
  }

  lemma {:induction false} DiffAtRelative(id: Identity, a: seq<Node>, b: seq<Node>, parent: seq<Identity>)
    ensures DiffAt(id, a, b, parent) == Prefixed(parent, DiffAt(id, a, b, []))
    decreases a, 0, 0
  {
    assert [] + [id] == [id];
    match (Lookup(a, id), Lookup(b, id))
    case (Some(x), Some(y)) =>
      if x.children != [] && y.children != [] {
        DiffRelative(x.children, y.children, parent + [id]);
        DiffRelative(x.children, y.children, [id]);
        PrefixedTwice(parent, [id], Diff(x.children, y.children, []));
      }
    case _ =>
  }

  lemma DiffAtHeads(id: Identity, a: seq<Node>, b: seq<Node>)
    ensures forall e :: e in DiffAt(id, a, b, []) ==> e.target != [] && e.target[0] == id
  {
    assert [] + [id] == [id];
    match (Lookup(a, id), Lookup(b, id))
    case (Some(x), Some(y)) =>
      if x.children != [] && y.children != [] {
        DiffRelative(x.children, y.children, [id]);
      }
    case _ =>
  }

  lemma {:induction false} SelectAll(edits: seq<Edit>, id: Identity)
    requires forall e :: e in edits ==> e.target != [] && e.target[0] == id
    ensures Select(edits, id) == edits
  {
    if edits != [] {
      SelectAll(edits[1..], id);
    }
  }

  lemma {:induction false} SelectNone(edits: seq<Edit>, id: Identity)
    requires forall e :: e in edits ==> e.target != [] && e.target[0] != id
    ensures Select(edits, id) == []
  {
    if edits != [] {
      SelectNone(edits[1..], id);
    }
  }

  lemma {:induction false} SelectDiffOver(ids: seq<Identity>, a: seq<Node>, b: seq<Node>, id: Identity)
    requires Distinct(ids)
    ensures Select(DiffOver(ids, a, b, []), id) == if id in ids then DiffAt(id, a, b, []) else []
  {
    if ids != [] {
      var here, rest := DiffAt(ids[0], a, b, []), ids[1..];
      DiffAtHeads(ids[0], a, b);
      SelectAppend(here, DiffOver(rest, a, b, []), id);
      SelectDiffOver(rest, a, b, id);
      if id == ids[0] {
        SelectAll(here, id);
      } else {
        SelectNone(here, id);
      }
    }
  }

  /** The edits a diff makes at or below a sibling are those of that sibling alone. */
  lemma SelectDiff(a: seq<Node>, b: seq<Node>, id: Identity)
    ensures Select(Diff(a, b, []), id) == DiffAt(id, a, b, [])
  {
    SelectDiffOver(Identities(b, Identities(a, [])), a, b, id);
  }

  lemma {:induction false} DiffOverHeads(ids: seq<Identity>, a: seq<Node>, b: seq<Node>)
    ensures forall e :: e in DiffOver(ids, a, b, []) ==> e.target != [] && e.target[0] in ids
  {
    if ids != [] {
      DiffAtHeads(ids[0], a, b);
      DiffOverHeads(ids[1..], a, b);
    }
  }

  // ----------------------------------------------------------- permutations

  function AllBelow(edits: seq<Edit>): seq<Edit>
    requires forall e :: e in edits ==> e.target != []
  {
    seq(|edits|, i requires 0 <= i < |edits| => Below(edits[i]))
  }

  lemma {:induction false} AllBelowCount(edits: seq<Edit>, id: Identity, e: Edit)
    requires forall e :: e in edits ==> e.target != [] && e.target[0] == id
    ensures multiset(AllBelow(edits))[e] == multiset(edits)[e.(target := [id] + e.target)]
  {
    if edits != [] {
      var first, rest := edits[0], edits[1..];
      assert edits == [first] + rest;
      assert AllBelow(edits) == [Below(first)] + AllBelow(rest);
      AllBelowCount(rest, id, e);
      assert Below(first) == e <==> first == e.(target := [id] + e.target);
    }
  }

  lemma AllBelowPermutes(s: seq<Edit>, t: seq<Edit>, id: Identity)
    requires forall e :: e in s ==> e.target != [] && e.target[0] == id
    requires forall e :: e in t ==> e.target != [] && e.target[0] == id
    requires multiset(s) == multiset(t)
    ensures multiset(AllBelow(s)) == multiset(AllBelow(t))
  {
    forall e ensures multiset(AllBelow(s))[e] == multiset(AllBelow(t))[e] {
      AllBelowCount(s, id, e);
      AllBelowCount(t, id, e);
    }
  }

  lemma OnlyPermutationOfOne(s: seq<Edit>, e: Edit)
    requires multiset(s) == multiset([e])
    ensures s == [e]
  {
    assert |multiset(s)| == 1;
    assert s[0] in multiset(s);
  }

  lemma {:induction false} PatchSlotBelow(t: Tree, edits: seq<Edit>)
    requires forall e :: e in edits ==> |e.target| >= 2
    ensures PatchSlot(Some(t), edits) ==
            (match Patch(t.children, AllBelow(edits))
             case None => None
             case Some(g) => Some(Some(t.(children := g))))
    decreases |edits|
  {
    if edits != [] {
      assert AllBelow(edits)[1..] == AllBelow(edits[1..]);
      match EditForest(t.children, Below(edits[0]))
      case None =>
      case Some(g) => PatchSlotBelow(t.(children := g), edits[1..]);
    }
  }

  /** The tree a forest built from `nodes` has under `id`. */
  ghost function SlotOf(nodes: seq<Node>, id: Identity): Option<Tree> {
    match Lookup(nodes, id)
    case None => None
    case Some(n) => Some(TreeOf(n))
  }

  lemma ForestAt(nodes: seq<Node>, id: Identity)
    ensures Get(ForestOf(nodes), id) == SlotOf(nodes, id)
  {
  }

  // ---------------------------------------------------------- main theorems

  /** Applying the edits of a diff, in any order, turns the first selection into the second. */
  lemma {:induction false} DiffThenPatch(a: seq<Node>, b: seq<Node>, edits: seq<Edit>)
    requires WellFormed(a) && WellFormed(b)
    requires multiset(edits) == multiset(Diff(a, b, []))
    ensures Patch(ForestOf(a), edits) == Some(ForestOf(b))
    decreases a, 1
  {
    forall e | e in edits ensures e.target != [] {
      assert e in multiset(Diff(a, b, []));
      DiffOverHeads(Identities(b, Identities(a, [])), a, b);
    }
    forall id ensures PatchSlot(Get(ForestOf(a), id), Select(edits, id)) == Some(Get(ForestOf(b), id)) {
      ForestAt(a, id);
      ForestAt(b, id);
      DiffThenPatchAt(a, b, edits, id);
    }
    PatchBySibling(ForestOf(a), edits, ForestOf(b));
  }

  lemma {:induction false} DiffThenPatchAt(a: seq<Node>, b: seq<Node>, edits: seq<Edit>, id: Identity)
    requires WellFormed(a) && WellFormed(b)
    requires multiset(edits) == multiset(Diff(a, b, []))
    ensures PatchSlot(SlotOf(a, id), Select(edits, id)) == Some(SlotOf(b, id))
    decreases a, 0
  {
    var mine := Select(edits, id);
    SelectPermutes(edits, Diff(a, b, []), id);
    SelectDiff(a, b, id);
    if BothHaveChildren(a, b, id) {
      var x, y := Lookup(a, id).value, Lookup(b, id).value;
      assert [] + [id] == [id];
      DiffThenPatchInside(x, y, mine, id);
    } else {
      DiffThenPatchWhole(a, b, mine, id);
    }
  }

  /** The case in which the diff descends. */
  predicate BothHaveChildren(a: seq<Node>, b: seq<Node>, id: Identity) {
    var (x, y) := (Lookup(a, id), Lookup(b, id));
    x.Some? && y.Some? && x.value.children != [] && y.value.children != []
  }

  lemma DiffThenPatchWhole(a: seq<Node>, b: seq<Node>, edits: seq<Edit>, id: Identity)
    requires !BothHaveChildren(a, b, id)
    requires multiset(edits) == multiset(DiffAt(id, a, b, []))
    ensures PatchSlot(SlotOf(a, id), edits) == Some(SlotOf(b, id))
  {
    var all := DiffAt(id, a, b, []);
    assert [] + [id] == [id];
    if all == [] {
      assert |multiset(edits)| == 0;
    } else {
      OnlyPermutationOfOne(edits, all[0]);
    }
  }

  lemma {:induction false} DiffThenPatchInside(x: Node, y: Node, edits: seq<Edit>, id: Identity)
    requires x.children != [] && y.children != [] && x.text == y.text
    requires WellFormed(x.children) && WellFormed(y.children)
    requires multiset(edits) == multiset(Diff(x.children, y.children, [id]))
    ensures PatchSlot(Some(TreeOf(x)), edits) == Some(Some(TreeOf(y)))
    decreases x.children, 2
  {
    var inner := Diff(x.children, y.children, []);
    DiffRelative(x.children, y.children, [id]);
    var outer := Prefixed([id], inner);
    DiffOverHeads(Identities(y.children, Identities(x.children, [])), x.children, y.children);
    forall e | e in edits ensures |e.target| >= 2 && e.target[0] == id {
      assert e in multiset(outer);
    }
    AllBelowPermutes(edits, outer, id);
    assert AllBelow(outer) == inner;
    DiffThenPatch(x.children, y.children, AllBelow(edits));
    PatchSlotBelow(TreeOf(x), edits);
  }

  /** No edit's target is, or lies below, the target of another edit. */
  ghost predicate NoNestedTargets(edits: seq<Edit>) {
    forall i, j :: 0 <= i < |edits| && 0 <= j < |edits| && i != j ==> !(edits[i].target <= edits[j].target)
  }

  lemma NoNestedAppend(a: seq<Edit>, b: seq<Edit>)
    requires NoNestedTargets(a) && NoNestedTargets(b)
    requires forall e, f :: e in a && f in b ==> e.target != [] && f.target != [] && e.target[0] != f.target[0]
    ensures NoNestedTargets(a + b)
  {
    forall i, j | 0 <= i < |a + b| && 0 <= j < |a + b| && i != j
      ensures !((a + b)[i].target <= (a + b)[j].target)
    {
      if i < |a| && j >= |a| {
        assert a[i] in a && b[j - |a|] in b;
      } else if i >= |a| && j < |a| {
        assert a[j] in a && b[i - |a|] in b;
      }
    }
  }

  lemma {:induction false} DiffTargetsNotNested(a: seq<Node>, b: seq<Node>)
    ensures NoNestedTargets(Diff(a, b, []))
    decreases a, 1, 0
  {
    DiffOverNotNested(Identities(b, Identities(a, [])), a, b);
  }

  lemma {:induction false} DiffOverNotNested(ids: seq<Identity>, a: seq<Node>, b: seq<Node>)
    requires Distinct(ids)
    ensures NoNestedTargets(DiffOver(ids, a, b, []))
    decreases a, 0, |ids|
  {
    if ids != [] {
      DiffAtNotNested(ids[0], a, b);
      DiffOverNotNested(ids[1..], a, b);
      DiffAtHeads(ids[0], a, b);
      DiffOverHeads(ids[1..], a, b);
      NoNestedAppend(DiffAt(ids[0], a, b, []), DiffOver(ids[1..], a, b, []));
    }
  }

  lemma PrefixBelow(id: Identity, p: seq<Identity>, q: seq<Identity>)
    ensures [id] + p <= [id] + q ==> p <= q
  {
    assert p == ([id] + p)[1..] && q == ([id] + q)[1..];
  }

  lemma {:induction false} DiffAtNotNested(id: Identity, a: seq<Node>, b: seq<Node>)
    ensures NoNestedTargets(DiffAt(id, a, b, []))
    decreases a, 0, 0
  {
    if BothHaveChildren(a, b, id) {
      var x, y := Lookup(a, id).value, Lookup(b, id).value;
      assert [] + [id] == [id];
      DiffRelative(x.children, y.children, [id]);
      DiffTargetsNotNested(x.children, y.children);
      var inner := Diff(x.children, y.children, []);
      forall i, j | 0 <= i < |inner| && 0 <= j < |inner| && i != j
        ensures !([id] + inner[i].target <= [id] + inner[j].target)
      {
        PrefixBelow(id, inner[i].target, inner[j].target);
      }
    }
  }

  lemma {:induction false} SameForestNoEdits(a: seq<Node>, b: seq<Node>)
    requires ForestOf(a) == ForestOf(b)
    ensures Diff(a, b, []) == []
    decreases a, 1
  {
    forall id ensures DiffAt(id, a, b, []) == [] {
      SameForestNoEditsAt(id, a, b);
    }
    NoEditsOver(Identities(b, Identities(a, [])), a, b);
  }

  lemma {:induction false} NoEditsOver(ids: seq<Identity>, a: seq<Node>, b: seq<Node>)
    requires forall id :: DiffAt(id, a, b, []) == []
    ensures DiffOver(ids, a, b, []) == []
  {
    if ids != [] {
      NoEditsOver(ids[1..], a, b);
    }
  }

  lemma {:induction false} SameForestNoEditsAt(id: Identity, a: seq<Node>, b: seq<Node>)
    requires ForestOf(a) == ForestOf(b)
    ensures DiffAt(id, a, b, []) == []
    decreases a, 0
  {
    SameSlots(a, b, id);
    if Lookup(a, id).Some? {
      var x, y := Lookup(a, id).value, Lookup(b, id).value;
      EmptyForest(x.children);
      EmptyForest(y.children);
      if x.children != [] {
        SameForestNoEdits(x.children, y.children);
        DiffRelative(x.children, y.children, [id]);
        assert [] + [id] == [id];
      }
    }
  }

  lemma EmptyForest(nodes: seq<Node>)
    ensures ForestOf(nodes) == map[] <==> nodes == []
  {
    if nodes != [] {
      ForestAt(nodes, IdentityOf(nodes[|nodes| - 1]));
    }
  }

  /** The diff is empty exactly when both selections hold the same nodes up to sibling order. */
  lemma DiffEmptyIffSame(a: seq<Node>, b: seq<Node>)
    requires WellFormed(a) && WellFormed(b)
    ensures Diff(a, b, []) == [] <==> SameUpToOrder(a, b)
    ensures SameUpToOrder(a, b) <==> ForestOf(a) == ForestOf(b)
  {
    if Diff(a, b, []) == [] {
      DiffThenPatch(a, b, []);
    }
    if ForestOf(a) == ForestOf(b) {
      SameForestNoEdits(a, b);
      SameForestIsSame(a, b);
    }
    if SameUpToOrder(a, b) {
      SameIsSameForest(a, b);
    }
  }

  lemma {:induction false} LookupUnique(nodes: seq<Node>, n: Node)
    requires WellFormed(nodes) && n in nodes
    ensures Lookup(nodes, IdentityOf(n)) == Some(n)
  {
    var m := Lookup(nodes, IdentityOf(n)).value;
    var i :| 0 <= i < |nodes| && nodes[i] == m;
    var j :| 0 <= j < |nodes| && nodes[j] == n;
    assert i == j;
  }

  lemma {:induction false} SameForestIsSame(a: seq<Node>, b: seq<Node>)
    requires WellFormed(a) && WellFormed(b)
    requires ForestOf(a) == ForestOf(b)
    ensures SameUpToOrder(a, b)
    decreases a, 1
  {
    forall x | x in a ensures exists y :: y in b && SameNode(x, y) {
      var y := TwinIn(a, b, x);
    }
    forall y | y in b ensures exists x :: x in a && SameNode(x, y) {
      var x := TwinOf(a, b, y);
    }
  }

  lemma SameSlots(a: seq<Node>, b: seq<Node>, id: Identity)
    requires ForestOf(a) == ForestOf(b)
    ensures SlotOf(a, id) == SlotOf(b, id)
  {
    ForestAt(a, id);
    ForestAt(b, id);
  }

  lemma {:induction false} TwinIn(a: seq<Node>, b: seq<Node>, x: Node) returns (y: Node)
    requires WellFormed(a) && WellFormed(b) && x in a
    requires ForestOf(a) == ForestOf(b)
    ensures y in b && SameNode(x, y)
    decreases a, 0
  {
    LookupUnique(a, x);
    SameSlots(a, b, IdentityOf(x));
    y := Lookup(b, IdentityOf(x)).value;
    SameForestIsSame(x.children, y.children);
  }

  lemma {:induction false} TwinOf(a: seq<Node>, b: seq<Node>, y: Node) returns (x: Node)
    requires WellFormed(a) && WellFormed(b) && y in b
    requires ForestOf(a) == ForestOf(b)
    ensures x in a && SameNode(x, y)
    decreases a, 0
  {
    LookupUnique(b, y);
    SameSlots(a, b, IdentityOf(y));
    x := Lookup(a, IdentityOf(y)).value;
    SameForestIsSame(x.children, y.children);
  }

  lemma {:induction false} KeyTextIsKeyed(nodes: seq<Node>)
    requires WellFormed(nodes)
    ensures KeyText(nodes) ==
            (match Get(ForestOf(nodes), Plain("name")) case None => "" case Some(t) => t.text)
  {
    ForestAt(nodes, Plain("name"));
    if k :| 0 <= k < |nodes| && nodes[k].name == "name" {
      LookupUnique(nodes, nodes[k]);
      KeyTextAt(nodes, k);
    } else {
      KeyTextNone(nodes);
      assert forall n :: n in nodes ==> IdentityOf(n) != Plain("name");
    }
  }

  lemma {:induction false} KeyTextAt(nodes: seq<Node>, k: nat)
    requires k < |nodes| && nodes[k].name == "name"
    requires forall i :: 0 <= i < |nodes| && i != k ==> nodes[i].name != "name"
    ensures KeyText(nodes) == nodes[k].text
  {
    if k > 0 {
      KeyTextAt(nodes[1..], k - 1);
    }
  }

  lemma {:induction false} KeyTextNone(nodes: seq<Node>)
    requires forall n :: n in nodes ==> n.name != "name"
    ensures KeyText(nodes) == ""
  {
    if nodes != [] {
      KeyTextNone(nodes[1..]);
    }
  }

  lemma {:induction false} SameIsSameForest(a: seq<Node>, b: seq<Node>)
    requires WellFormed(a) && WellFormed(b)
    requires SameUpToOrder(a, b)
    ensures ForestOf(a) == ForestOf(b)
    decreases a, 1
  {
    FoundEverywhere(a, b);
    NeededEverywhere(a, b);
    SameTreesSameForest(a, b);
  }

  lemma SameTreesSameForest(a: seq<Node>, b: seq<Node>)
    requires forall x :: x in a ==> SameTreeIn(x, b)
    requires forall y :: y in b ==> Lookup(a, IdentityOf(y)).Some?
    ensures ForestOf(a) == ForestOf(b)
  {
    forall id ensures Get(ForestOf(a), id) == Get(ForestOf(b), id) {
      ForestAt(a, id);
      ForestAt(b, id);
      if Lookup(a, id).Some? {
        assert SameTreeIn(Lookup(a, id).value, b);
      }
    }
    ForestsEqual(ForestOf(a), ForestOf(b));
  }

  ghost predicate SameTreeIn(x: Node, b: seq<Node>) {
    Lookup(b, IdentityOf(x)).Some? && TreeOf(Lookup(b, IdentityOf(x)).value) == TreeOf(x)
  }

  lemma {:induction false} FoundEverywhere(a: seq<Node>, b: seq<Node>)
    requires WellFormed(a) && WellFormed(b) && EachFound(a, b)
    ensures forall x :: x in a ==> SameTreeIn(x, b)
    decreases a, 0, 1
  {
    forall x | x in a ensures SameTreeIn(x, b) {
      FoundAt(a, b, x);
    }
  }

  lemma {:induction false} NeededEverywhere(a: seq<Node>, b: seq<Node>)
    requires WellFormed(a) && WellFormed(b) && EachNeeded(a, b)
    ensures forall y :: y in b ==> Lookup(a, IdentityOf(y)).Some?
    decreases a, 0, 1
  {
    forall y | y in b ensures Lookup(a, IdentityOf(y)).Some? {
      NeededAt(a, b, y);
    }
  }

  lemma {:induction false} FoundAt(a: seq<Node>, b: seq<Node>, x: Node)
    requires WellFormed(a) && WellFormed(b) && EachFound(a, b)
    requires x in a
    ensures SameTreeIn(x, b)
    decreases a, 0, 0
  {
    var y :| y in b && SameNode(x, y);
    SameNodeSameTree(x, y);
    LookupUnique(b, y);
  }

  lemma {:induction false} NeededAt(a: seq<Node>, b: seq<Node>, y: Node)
    requires WellFormed(a) && WellFormed(b) && EachNeeded(a, b)
    requires y in b
    ensures Lookup(a, IdentityOf(y)).Some?
    decreases a, 0, 0
  {
    var x :| x in a && SameNode(x, y);
    SameNodeSameTree(x, y);
  }

  lemma {:induction false} SameNodeSameTree(x: Node, y: Node)
    requires WellFormed(x.children) && WellFormed(y.children)
    requires SameNode(x, y)
    ensures IdentityOf(x) == IdentityOf(y) && TreeOf(x) == TreeOf(y)
    decreases x.children, 2
  {
    SameIsSameForest(x.children, y.children);
    KeyTextIsKeyed(x.children);
    KeyTextIsKeyed(y.children);
  }
}

/** Patches met by a receiver they were not made for: when they are still accepted, and what they leave behind.
    Forests are compared path by path, by the text found at each path. */
module PatchTransfer {
  import opened Options
  import opened SelectionDiff

  type Path = seq<Identity>

  // -------------------------------------------------------------------- paths

  /** The text at `path` below a sibling, if there is a node. */
  ghost function SlotText(slot: Option<Tree>, path: Path): Option<string>
    decreases |path|
  {
    if slot.None? then None
    else if path == [] then Some(slot.value.text)
    else SlotText(Get(slot.value.children, path[0]), path[1..])
  }

  ghost function TextAt(f: Forest, path: Path): Option<string> {
    if path == [] then None else SlotText(Get(f, path[0]), path[1..])
  }

  function Parent(path: Path): Path
    requires path != []
  {
    path[..|path| - 1]
  }

  lemma {:induction false} SlotParentPresent(slot: Option<Tree>, path: Path)
    requires path != [] && SlotText(slot, path).Some?
    ensures SlotText(slot, Parent(path)).Some?
    decreases |path|
  {
    if |path| > 1 {
      SlotParentPresent(Get(slot.value.children, path[0]), path[1..]);
      assert Parent(path)[1..] == Parent(path[1..]);
    }
  }

  lemma ParentPresent(f: Forest, path: Path)
    requires |path| > 1 && TextAt(f, path).Some?
    ensures TextAt(f, Parent(path)).Some?
  {
    SlotParentPresent(Get(f, path[0]), path[1..]);
    assert Parent(path)[1..] == Parent(path[1..]);
  }

  /** Equal texts at every path mean equal forests. */
  lemma {:induction false} SameTextsSameForest(f: Forest, nodes: seq<Node>)
    requires forall p :: TextAt(f, p) == TextAt(ForestOf(nodes), p)
    ensures f == ForestOf(nodes)
    decreases nodes
  {
    forall id ensures Get(f, id) == Get(ForestOf(nodes), id) {
      ForestAt(nodes, id);
      assert TextAt(f, [id]) == TextAt(ForestOf(nodes), [id]);
      if Get(f, id).Some? {
        var t, n := Get(f, id).value, Lookup(nodes, id).value;
        forall p ensures TextAt(t.children, p) == TextAt(ForestOf(n.children), p) {
          TextBelow(f, id, p);
          TextBelow(ForestOf(nodes), id, p);
          assert TextAt(f, [id] + p) == TextAt(ForestOf(nodes), [id] + p);
        }
        SameTextsSameForest(t.children, n.children);
      }
    }
    ForestsEqual(f, ForestOf(nodes));
  }

  lemma TextBelow(f: Forest, id: Identity, path: Path)
    requires Get(f, id).Some?
    ensures path != [] ==> TextAt(f, [id] + path) == TextAt(Get(f, id).value.children, path)
  {
    assert ([id] + path)[1..] == path;
  }

  // ---------------------------------------------------------------- one edit

  /** The edit carries a node named by its target, where it needs one. */
  predicate ValueOk(e: Edit)
    requires e.target != []
  {
    e.operation.Delete? || (e.node.Some? && IdentityOf(e.node.value) == e.target[|e.target| - 1])
  }

  /** What is to be created is absent under a parent that is there; what is to be deleted or replaced is there. */
  ghost predicate Fits(f: Forest, e: Edit)
    requires e.target != []
  {
    if e.operation.Create?
    then TextAt(f, e.target).None? && (|e.target| > 1 ==> TextAt(f, Parent(e.target)).Some?)
    else TextAt(f, e.target).Some?
  }

  ghost predicate SlotFits(slot: Option<Tree>, e: Edit)
    requires e.target != []
  {
    var path := e.target[1..];
    if e.operation.Create?
    then SlotText(slot, path).None? && (path != [] ==> SlotText(slot, Parent(path)).Some?)
    else SlotText(slot, path).Some?
  }

  lemma {:induction false} SlotAcceptsIff(slot: Option<Tree>, e: Edit)
    requires e.target != []
    ensures EditSlot(slot, e).Some? <==> ValueOk(e) && SlotFits(slot, e)
    decreases |e.target|
  {
    if |e.target| > 1 && slot.Some? {
      var inner, path := Below(e), e.target[1..];
      SlotAcceptsIff(Get(slot.value.children, inner.target[0]), inner);
      assert path[0] == inner.target[0] && path[1..] == inner.target[1..];
      if |path| > 1 {
        assert Parent(path)[0] == path[0] && Parent(path)[1..] == Parent(path[1..]);
      }
    }
  }

  /** The receiver accepts one edit exactly when it fits. */
  lemma AcceptsIff(f: Forest, e: Edit)
    requires e.target != []
    ensures EditForest(f, e).Some? <==> ValueOk(e) && Fits(f, e)
  {
    SlotAcceptsIff(Get(f, e.target[0]), e);
    if |e.target| > 1 {
      assert Parent(e.target)[0] == e.target[0] && Parent(e.target)[1..] == Parent(e.target[1..]);
    }
  }

  /** What an edit leaves at `rest` below its target. */
  ghost function NewText(e: Edit, rest: Path): Option<string> {
    if e.operation.Delete? || e.node.None? then None else SlotText(Some(TreeOf(e.node.value)), rest)
  }

  lemma {:induction false} SlotEdited(slot: Option<Tree>, e: Edit, path: Path)
    requires e.target != [] && EditSlot(slot, e).Some?
    ensures SlotText(EditSlot(slot, e).value, path) ==
            if e.target[1..] <= path then NewText(e, path[|e.target| - 1..]) else SlotText(slot, path)
    decreases |e.target|
  {
    if |e.target| == 1 {
      assert e.target[1..] == [] && path[0..] == path;
    } else if path != [] {
      var inner, f := Below(e), slot.value.children;
      EditForestAt(f, inner, path[0]);
      if path[0] == inner.target[0] {
        SlotEdited(Get(f, path[0]), inner, path[1..]);
        TailPrefix(e.target[1..], path);
        if e.target[1..] <= path {
          assert path[1..][|inner.target| - 1..] == path[|e.target| - 1..];
        }
      }
    }
  }

  lemma TailPrefix(a: Path, b: Path)
    requires a != [] && b != [] && a[0] == b[0]
    ensures a <= b <==> a[1..] <= b[1..]
  {
    if a[1..] <= b[1..] {
      assert a == [a[0]] + a[1..] && b == [b[0]] + b[1..];
    }
  }

  /** An accepted edit decides everything at and below its target and leaves all else alone. */
  lemma Edited(f: Forest, e: Edit, path: Path)
    requires e.target != [] && EditForest(f, e).Some?
    ensures TextAt(EditForest(f, e).value, path) ==
            if e.target <= path then NewText(e, path[|e.target|..]) else TextAt(f, path)
  {
    if path != [] {
      EditForestAt(f, e, path[0]);
      if path[0] == e.target[0] {
        SlotEdited(Get(f, path[0]), e, path[1..]);
        TailPrefix(e.target, path);
        if e.target <= path {
          assert path[1..][|e.target| - 1..] == path[|e.target|..];
        }
      }
    }
  }

  // ----------------------------------------------------------------- a queue

  /** Some edit decides the node at `path`. */
  predicate Touched(edits: seq<Edit>, path: Path) {
    exists e | e in edits :: e.target <= path
  }

  /** The receiver started as `f` and holds the intended `v` at every path touched. */
  ghost predicate Mixed(w: Forest, f: Forest, v: Forest, done: seq<Edit>) {
    forall p :: TextAt(w, p) == if Touched(done, p) then TextAt(v, p) else TextAt(f, p)
  }

  /** Where an edit was applied below a node nothing has touched, that node was there from the start. */
  ghost predicate Rooted(f: Forest, done: seq<Edit>) {
    forall e :: e in done && |e.target| > 1 && !Touched(done, Parent(e.target)) ==> TextAt(f, Parent(e.target)).Some?
  }

  lemma TouchedAppend(done: seq<Edit>, e: Edit, path: Path)
    ensures Touched(done + [e], path) <==> Touched(done, path) || e.target <= path
  {
    assert forall x :: x in done + [e] <==> x in done || x == e;
  }

  lemma TouchedBelow(done: seq<Edit>, path: Path)
    requires path != [] && Touched(done, Parent(path))
    ensures Touched(done, path)
  {
    var e :| e in done && e.target <= Parent(path);
    assert e.target <= path;
  }

  /** The next edit, intended for `v`, is accepted at a touched place, and elsewhere exactly when it fits `f`. */
  lemma NextAccepted(w: Forest, f: Forest, v: Forest, done: seq<Edit>, e: Edit)
    requires Mixed(w, f, v, done) && Rooted(f, done) && e.target != [] && EditForest(v, e).Some?
    ensures EditForest(w, e).Some? <==> Touched(done, e.target) || Fits(f, e)
  {
    AcceptsIff(v, e);
    AcceptsIff(w, e);
    assert TextAt(w, e.target) == if Touched(done, e.target) then TextAt(v, e.target) else TextAt(f, e.target);
    if |e.target| > 1 {
      var up := Parent(e.target);
      assert TextAt(w, up) == if Touched(done, up) then TextAt(v, up) else TextAt(f, up);
      if Touched(done, up) {
        TouchedBelow(done, e.target);
      } else if Touched(done, e.target) {
        OnlyHere(done, e.target);
      }
    }
  }

  lemma OnlyHere(done: seq<Edit>, path: Path)
    requires |path| > 1 && Touched(done, path) && !Touched(done, Parent(path))
    ensures exists e :: e in done && e.target == path
  {
    var e, up :| e in done && e.target <= path && up == Parent(path);
    assert |e.target| < |path| ==> e.target <= up;
  }

  lemma NextMixed(w: Forest, f: Forest, v: Forest, done: seq<Edit>, e: Edit)
    requires Mixed(w, f, v, done) && e.target != [] && EditForest(v, e).Some? && EditForest(w, e).Some?
    ensures Mixed(EditForest(w, e).value, f, EditForest(v, e).value, done + [e])
  {
    forall p
      ensures TextAt(EditForest(w, e).value, p) ==
              if Touched(done + [e], p) then TextAt(EditForest(v, e).value, p) else TextAt(f, p)
    {
      Edited(w, e, p);
      Edited(v, e, p);
      TouchedAppend(done, e, p);
      assert TextAt(w, p) == if Touched(done, p) then TextAt(v, p) else TextAt(f, p);
    }
  }

  lemma NextRooted(w: Forest, f: Forest, v: Forest, done: seq<Edit>, e: Edit)
    requires Mixed(w, f, v, done) && Rooted(f, done) && e.target != [] && EditForest(w, e).Some?
    ensures Rooted(f, done + [e])
  {
    forall x | x in done + [e] && |x.target| > 1 && !Touched(done + [e], Parent(x.target))
      ensures TextAt(f, Parent(x.target)).Some?
    {
      TouchedAppend(done, e, Parent(x.target));
      if x !in done {
        AcceptsIff(w, e);
        if !e.operation.Create? {
          ParentPresent(w, e.target);
        }
        assert TextAt(w, Parent(e.target)) == TextAt(f, Parent(e.target));
      }
    }
  }

  /** Every edit that is the first at its place fits the forest the receiver starts from. */
  ghost predicate FirstsFit(f: Forest, done: seq<Edit>, edits: seq<Edit>) {
    forall i :: 0 <= i < |edits| && edits[i].target != [] && !Touched(done + edits[..i], edits[i].target) ==>
        Fits(f, edits[i])
  }

  lemma FirstsFitStep(f: Forest, done: seq<Edit>, edits: seq<Edit>)
    requires edits != [] && edits[0].target != []
    ensures FirstsFit(f, done, edits) <==>
            (Touched(done, edits[0].target) || Fits(f, edits[0])) && FirstsFit(f, done + [edits[0]], edits[1..])
  {
    assert done + edits[..0] == done;
    forall i | 0 <= i < |edits| - 1
      ensures edits[1..][i] == edits[i + 1] && done + [edits[0]] + edits[1..][..i] == done + edits[..i + 1]
    {
    }
    if FirstsFit(f, done + [edits[0]], edits[1..]) && (Touched(done, edits[0].target) || Fits(f, edits[0])) {
      forall i | 0 <= i < |edits| && edits[i].target != [] && !Touched(done + edits[..i], edits[i].target)
        ensures Fits(f, edits[i])
      {
        if i > 0 {
          assert edits[1..][i - 1] == edits[i] && done + [edits[0]] + edits[1..][..i - 1] == done + edits[..i];
        }
      }
    }
  }

  lemma {:induction false} TransferSteps(w: Forest, f: Forest, v: Forest, done: seq<Edit>, edits: seq<Edit>)
    requires Mixed(w, f, v, done) && Rooted(f, done) && Patch(v, edits).Some?
    ensures Patch(w, edits).Some? <==> FirstsFit(f, done, edits)
    ensures Patch(w, edits).Some? ==> Mixed(Patch(w, edits).value, f, Patch(v, edits).value, done + edits)
    decreases |edits|
  {
    if edits == [] {
      assert done + edits == done;
    } else {
      var e := edits[0];
      NextAccepted(w, f, v, done, e);
      FirstsFitStep(f, done, edits);
      if EditForest(w, e).Some? {
        NextMixed(w, f, v, done, e);
        NextRooted(w, f, v, done, e);
        assert done + [e] + edits[1..] == done + edits;
        TransferSteps(EditForest(w, e).value, f, EditForest(v, e).value, done + [e], edits[1..]);
      }
    }
  }

  /** Away from the places the edits decide, the two forests have the same nodes and texts. */
  ghost predicate AgreeElsewhere(f: Forest, g: Forest, edits: seq<Edit>) {
    forall p :: !Touched(edits, p) ==> TextAt(f, p) == TextAt(g, p)
  }

  /** Edits that lead from some forest to the selection `b` lead from `f` to `b` exactly when every first edit at
      a place fits `f`, and `f` agrees with `b` at every place no edit touches. */
  lemma TransferIff(f: Forest, v: Forest, edits: seq<Edit>, b: seq<Node>)
    requires Patch(v, edits) == Some(ForestOf(b))
    ensures Patch(f, edits) == Some(ForestOf(b)) <==> FirstsFit(f, [], edits) && AgreeElsewhere(f, ForestOf(b), edits)
  {
    var g := ForestOf(b);
    TransferSteps(f, f, v, [], edits);
    assert [] + edits == edits;
    if Patch(f, edits).Some? {
      var h := Patch(f, edits).value;
      assert forall p :: TextAt(h, p) == if Touched(edits, p) then TextAt(g, p) else TextAt(f, p);
      if AgreeElsewhere(f, g, edits) {
        SameTextsSameForest(h, b);
      }
    }
  }

  /** A receiver that already holds `b` follows edits that led to `b` exactly when every first edit at a place
      fits `b`. */
  lemma MetAgainIff(v: Forest, edits: seq<Edit>, b: seq<Node>)
    requires Patch(v, edits) == Some(ForestOf(b))
    ensures Patch(ForestOf(b), edits) == Some(ForestOf(b)) <==> FirstsFit(ForestOf(b), [], edits)
  {
    TransferIff(ForestOf(b), v, edits, b);
  }
}

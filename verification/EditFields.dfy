/** What `edit-config` makes of the texts it is given, field by field: which fragments are refused and why, and what
    is stored under each name afterwards. */
module EditFields {
  import opened Options
  import opened EditConfig

  // ---------------------------------------------------------------- refusals

  predicate Removal(e: InterfaceEdit) {
    e.operation in {"delete", "remove"}
  }

  predicate Named(e: InterfaceEdit) {
    e.name.Some? && e.name.value != ""
  }

  predicate ValuesOk(e: InterfaceEdit) {
    && (e.enabled.Some? ==> e.enabled.value in {"true", "1", "false", "0"})
    && (e.mtu.Some? ==> e.mtu.value.Integer? && 576 <= e.mtu.value.value <= 9216)
  }

  predicate Acceptable(e: InterfaceEdit) {
    Named(e) && (Removal(e) || ValuesOk(e))
  }

  lemma AcceptableIff(e: InterfaceEdit)
    ensures Acceptable(e) <==> Accepts(e)
    ensures !Accepts(e) ==> Refusal(e).value == if Named(e) then InvalidValue else MissingElement
  {
  }

  /** Element `i` is the first that is not acceptable. */
  ghost predicate FirstBad(edits: seq<InterfaceEdit>, i: nat) {
    i < |edits| && !Acceptable(edits[i]) && forall j :: 0 <= j < i ==> Acceptable(edits[j])
  }

  /** A fragment is accepted exactly when it has a known part and every interface element is acceptable; a removal
      needs a name only. Otherwise the error says that something is missing or unknown, or is that of the first bad
      element. */
  lemma FragmentOutcome(current: Config, fragment: Fragment, replace: bool)
    ensures var r := ApplyFragment(current, fragment, replace);
            && (r.Ok? <==>
                  fragment.Fragment? && (fragment.system.Some? || fragment.interfaces.Some?)
                  && (fragment.interfaces.Some? ==> forall e :: e in fragment.interfaces.value ==> Acceptable(e)))
            && (fragment.Blank? ==> r == Err(MissingElement))
            && (fragment == Fragment(None, None) ==> r == Err(UnknownElement))
            && (fragment.Fragment? && fragment.interfaces.Some? ==>
                  forall i: nat :: FirstBad(fragment.interfaces.value, i) ==>
                    r == Err(if Named(fragment.interfaces.value[i]) then InvalidValue else MissingElement))
  {
    if fragment.Fragment? && fragment.interfaces.Some? {
      var edits := fragment.interfaces.value;
      forall e: InterfaceEdit ensures Acceptable(e) <==> Accepts(e) {
        AcceptableIff(e);
      }
      EditAllOutcome(if replace then [] else current.interfaces, edits);
      forall i: nat | FirstBad(edits, i)
        ensures FirstRefused(edits, i)
        ensures Refusal(edits[i]).value == if Named(edits[i]) then InvalidValue else MissingElement
      {
        AcceptableIff(edits[i]);
      }
    }
  }

  // ------------------------------------------------------------------ fields

  datatype Field = Description | Enabled | Mtu

  predicate Gives(e: InterfaceEdit, field: Field) {
    match field
    case Description => e.description.Some?
    case Enabled => e.enabled.Some?
    case Mtu => e.mtu.Some?
  }

  /** The interface has in this field what the element says. */
  predicate Obeys(item: Interface, e: InterfaceEdit, field: Field)
    requires Gives(e, field)
  {
    match field
    case Description => item.description == e.description.value
    case Enabled => item.enabled <==> e.enabled.value in {"true", "1"}
    case Mtu => e.mtu.value == Integer(item.mtu)
  }

  predicate SameIn(a: Interface, b: Interface, field: Field) {
    match field
    case Description => a.description == b.description
    case Enabled => a.enabled == b.enabled
    case Mtu => a.mtu == b.mtu
  }

  predicate Concerns(edits: seq<InterfaceEdit>, i: int, name: string) {
    0 <= i < |edits| && edits[i].name == Some(name)
  }

  /** Element `i` is the last about this name. */
  ghost predicate LastAbout(edits: seq<InterfaceEdit>, name: string, i: nat) {
    Concerns(edits, i, name) && forall j :: Concerns(edits, j, name) ==> j <= i
  }

  /** Element `i` has the last word on a field: it gives it, and nothing later about this name gives it or removes. */
  ghost predicate LastWord(edits: seq<InterfaceEdit>, name: string, field: Field, i: nat) {
    && Concerns(edits, i, name) && !Removal(edits[i]) && Gives(edits[i], field)
    && forall j :: i < j && Concerns(edits, j, name) ==> !Removal(edits[j]) && !Gives(edits[j], field)
  }

  ghost predicate Mentioned(edits: seq<InterfaceEdit>, name: string) {
    exists i :: Concerns(edits, i, name)
  }

  ghost predicate Removed(edits: seq<InterfaceEdit>, name: string) {
    exists i :: Concerns(edits, i, name) && Removal(edits[i])
  }

  ghost predicate Settled(edits: seq<InterfaceEdit>, name: string, field: Field) {
    exists i: nat :: LastWord(edits, name, field, i)
  }

  /** Where the fields come from that no element has the last word on. */
  ghost function LeftOver(was: Option<Interface>, edits: seq<InterfaceEdit>, name: string): Interface {
    if was.None? || Removed(edits, name) then Interface(name, "", true, 1500) else was.value
  }

  /** What is stored under a name before (`was`) and after (`now`) the elements: the last word counts, and without
      one the old value, or the default once there was none to keep. */
  ghost predicate Outcome(was: Option<Interface>, edits: seq<InterfaceEdit>, name: string, field: Field,
                          now: Option<Interface>) {
    && (!Mentioned(edits, name) ==> now == was)
    && (forall i: nat :: LastAbout(edits, name, i) ==> (now.Some? <==> !Removal(edits[i])))
    && (now.Some? && Mentioned(edits, name) ==>
          && now.value.name == name
          && (forall i: nat :: LastWord(edits, name, field, i) ==> Obeys(now.value, edits[i], field))
          && (!Settled(edits, name, field) ==> SameIn(now.value, LeftOver(was, edits, name), field)))
  }

  lemma OutcomeOfNothing(was: Option<Interface>, name: string, field: Field)
    ensures Outcome(was, [], name, field, was)
  {
  }

  /** One more element about another name. */
  lemma OutcomeElsewhere(was: Option<Interface>, edits: seq<InterfaceEdit>, e: InterfaceEdit, name: string,
                         field: Field, now: Option<Interface>)
    requires Outcome(was, edits, name, field, now) && e.name != Some(name)
    ensures Outcome(was, edits + [e], name, field, now)
  {
    var all := edits + [e];
    assert forall i :: Concerns(all, i, name) <==> Concerns(edits, i, name);
    assert forall i :: Concerns(edits, i, name) ==> all[i] == edits[i];
    assert forall i: nat :: LastWord(all, name, field, i) <==> LastWord(edits, name, field, i);
    assert forall i: nat :: LastAbout(all, name, i) <==> LastAbout(edits, name, i);
  }

  lemma {:induction false} SomeLastAbout(edits: seq<InterfaceEdit>, name: string) returns (i: nat)
    requires Mentioned(edits, name)
    ensures LastAbout(edits, name, i)
    decreases |edits|
  {
    var init := edits[..|edits| - 1];
    if edits[|edits| - 1].name == Some(name) {
      i := |edits| - 1;
      assert Concerns(edits, i, name);
    } else {
      assert forall j :: Concerns(edits, j, name) <==> Concerns(init, j, name);
      i := SomeLastAbout(init, name);
    }
  }

  /** Nothing is stored: it never was, or the last element removed it, so no value is left to keep. */
  lemma NothingStored(was: Option<Interface>, edits: seq<InterfaceEdit>, name: string, field: Field)
    requires Outcome(was, edits, name, field, None)
    ensures was.None? || Removed(edits, name)
    ensures !Settled(edits, name, field)
  {
    if Mentioned(edits, name) {
      var i := SomeLastAbout(edits, name);
      assert Concerns(edits, i, name) && Removal(edits[i]);
    }
  }

  /** What the elements so far say about one more element of this name. */
  lemma OneMore(edits: seq<InterfaceEdit>, e: InterfaceEdit, name: string, field: Field)
    requires e.name == Some(name)
    ensures LastAbout(edits + [e], name, |edits|)
    ensures forall i: nat :: LastAbout(edits + [e], name, i) ==> i == |edits|
    ensures Removed(edits + [e], name) <==> Removal(e) || Removed(edits, name)
    ensures forall i: nat :: LastWord(edits + [e], name, field, i) <==>
              if Removal(e) then false
              else if Gives(e, field) then i == |edits|
              else LastWord(edits, name, field, i)
    ensures Settled(edits + [e], name, field) <==> !Removal(e) && (Gives(e, field) || Settled(edits, name, field))
  {
    var all, n := edits + [e], |edits|;
    assert Concerns(all, n, name) && all[n] == e;
    assert forall i :: i != n ==> (Concerns(all, i, name) <==> Concerns(edits, i, name));
    assert forall i :: Concerns(edits, i, name) ==> all[i] == edits[i];
    if !Removal(e) && Gives(e, field) {
      assert LastWord(all, name, field, n);
    } else if !Removal(e) {
      assert forall i: nat :: LastWord(all, name, field, i) <==> LastWord(edits, name, field, i);
    }
  }

  /** One more element about this name. */
  lemma OutcomeHere(was: Option<Interface>, edits: seq<InterfaceEdit>, e: InterfaceEdit, name: string, field: Field,
                    now: Option<Interface>)
    requires Outcome(was, edits, name, field, now) && e.name == Some(name) && Accepts(e)
    requires was.Some? ==> was.value.name == name
    ensures Outcome(was, edits + [e], name, field, EditEntry(now, e))
  {
    OneMore(edits, e, name, field);
    if now.None? {
      NothingStored(was, edits, name, field);
    }
    if !Removal(e) {
      FieldHere(was, edits, e, name, field, now);
      assert LeftOver(was, edits + [e], name) == LeftOver(was, edits, name);
    }
  }

  lemma FieldHere(was: Option<Interface>, edits: seq<InterfaceEdit>, e: InterfaceEdit, name: string, field: Field,
                  now: Option<Interface>)
    requires Outcome(was, edits, name, field, now) && e.name == Some(name) && Accepts(e) && !Removal(e)
    requires was.Some? ==> was.value.name == name
    requires now.None? ==> (was.None? || Removed(edits, name)) && !Settled(edits, name, field)
    ensures EditEntry(now, e).Some? && EditEntry(now, e).value.name == name
    ensures Gives(e, field) ==> Obeys(EditEntry(now, e).value, e, field)
    ensures !Gives(e, field) ==>
              (forall i: nat :: LastWord(edits, name, field, i) ==> Obeys(EditEntry(now, e).value, edits[i], field))
              && (!Settled(edits, name, field) ==>
                    SameIn(EditEntry(now, e).value, LeftOver(was, edits, name), field))
  {
  }

  lemma {:induction false} EntryOutcome(was: Option<Interface>, edits: seq<InterfaceEdit>, name: string, field: Field)
    requires forall e :: e in edits ==> Accepts(e)
    requires was.Some? ==> was.value.name == name
    ensures Outcome(was, edits, name, field, EditEntries(was, name, edits))
    decreases |edits|
  {
    if edits == [] {
      OutcomeOfNothing(was, name, field);
    } else {
      var init, last := edits[..|edits| - 1], edits[|edits| - 1];
      assert edits == init + [last];
      EntryOutcome(was, init, name, field);
      if last.name == Some(name) {
        OutcomeHere(was, init, last, name, field, EditEntries(was, name, init));
      } else {
        OutcomeElsewhere(was, init, last, name, field, EditEntries(was, name, init));
      }
    }
  }

  // ------------------------------------------------------------ configurations

  /** `item` is what the list holds under a name. */
  ghost predicate Holds(items: seq<Interface>, name: string, item: Option<Interface>) {
    match item
    case Some(i) => i.name == name && i in items
    case None => forall i :: i in items ==> i.name != name
  }

  lemma EntryHolds(items: seq<Interface>, name: string, item: Option<Interface>)
    requires DistinctNames(items)
    ensures Holds(items, name, item) <==> Entry(items, name) == item
  {
  }

  /** The interfaces after an accepted fragment, under every name and in every field. */
  lemma InterfacesStored(current: Config, fragment: Fragment, replace: bool, name: string, field: Field,
                         was: Option<Interface>, now: Option<Interface>)
    requires DistinctNames(current.interfaces) && ApplyFragment(current, fragment, replace).Ok?
    requires Holds(if replace then [] else current.interfaces, name, was)
    requires Holds(ApplyFragment(current, fragment, replace).value.interfaces, name, now)
    ensures Outcome(was, if fragment.interfaces.Some? then fragment.interfaces.value else [], name, field, now)
  {
    var base := if replace then [] else current.interfaces;
    EntryHolds(base, name, was);
    if fragment.interfaces.Some? {
      var edits := fragment.interfaces.value;
      EditAllOutcome(base, edits);
      EditAllRefines(base, edits, name);
      EntryHolds(EditAll(base, edits).value, name, now);
      EntryOutcome(was, edits, name, field);
    } else {
      EntryHolds(base, name, now);
      OutcomeOfNothing(was, name, field);
    }
  }

  function Chosen(given: Option<string>, was: string, replace: bool): string {
    if given.Some? then given.value else if replace then "" else was
  }

  /** The system container after an accepted fragment: each text given is stored in its own field, and the others
      stay, or become empty when the configuration is replaced. */
  lemma SystemStored(current: Config, fragment: Fragment, replace: bool)
    requires ApplyFragment(current, fragment, replace).Ok?
    ensures var now, was := ApplyFragment(current, fragment, replace).value.system, current.system;
            var given := if fragment.system.Some? then fragment.system.value else SystemEdit(None, None, None);
            && now.hostname == Chosen(given.hostname, was.hostname, replace)
            && now.location == Chosen(given.location, was.location, replace)
            && now.contact == Chosen(given.contact, was.contact, replace)
  {
  }
}

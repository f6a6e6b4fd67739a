/** Device configurations and the edit-config fragment that changes them. XML parsing is taken as given: a
    fragment arrives as the texts of its elements. */
module EditConfig {
  import opened Options

  datatype System = System(hostname: string, location: string, contact: string)
  datatype Interface = Interface(name: string, description: string, enabled: bool, mtu: int)
  datatype Config = Config(system: System, interfaces: seq<Interface>)

  /** What `Number(text)` makes of an MTU element. */
  datatype Numeric = NotAnInteger | Integer(value: int)

  datatype SystemEdit = SystemEdit(hostname: Option<string>, location: Option<string>, contact: Option<string>)

  /** One `interface` element; `operation` is already in lower case. */
  datatype InterfaceEdit = InterfaceEdit(name: Option<string>, operation: string, description: Option<string>,
                                         enabled: Option<string>, mtu: Option<Numeric>)

  datatype Fragment = Blank | Fragment(system: Option<SystemEdit>, interfaces: Option<seq<InterfaceEdit>>)

  datatype Error = MissingElement | InvalidValue | UnknownElement
  datatype Result<+T> = Ok(value: T) | Err(error: Error)

  const MIN_MTU := 576
  const MAX_MTU := 9216

  // ---------------------------------------------------------------- source

  function EmptyConfig(): Config {
    Config(System("", "", ""), [])
  }

  function InitialConfig(): Config {
    Config(System("netnexus-mock", "local-lab", "netnexus@example.test"),
           [Interface("eth0", "Management interface", true, 1500),
            Interface("loopback0", "Mock loopback interface", true, 1500)])
  }

  function ParseBoolean(text: string): Option<bool> {
    if text == "true" || text == "1" then Some(true)
    else if text == "false" || text == "0" then Some(false)
    else None
  }

  function FindIndex(items: seq<Interface>, name: string): (k: int)
    ensures -1 <= k < |items|
    ensures k >= 0 ==> items[k].name == name && forall j :: 0 <= j < k ==> items[j].name != name
    ensures k < 0 ==> forall j :: 0 <= j < |items| ==> items[j].name != name
  {
    if items == [] then -1
    else if items[0].name == name then 0
    else
      var k := FindIndex(items[1..], name);
      if k < 0 then -1 else k + 1
  }

  predicate Deletes(e: InterfaceEdit) {
    e.operation == "delete" || e.operation == "remove"
  }

  /** Why an interface element is refused, if it is. A delete needs nothing but a name. */
  function Refusal(e: InterfaceEdit): Option<Error> {
    if e.name.None? || e.name.value == "" then Some(MissingElement)
    else if Deletes(e) then None
    else if e.enabled.Some? && ParseBoolean(e.enabled.value).None? then Some(InvalidValue)
    else if e.mtu.Some? && !(e.mtu.value.Integer? && MIN_MTU <= e.mtu.value.value <= MAX_MTU) then Some(InvalidValue)
    else None
  }

  predicate Accepts(e: InterfaceEdit) {
    Refusal(e).None?
  }

  function DefaultInterface(name: string): Interface {
    Interface(name, "", true, 1500)
  }

  function Overwrite(item: Interface, e: InterfaceEdit): Interface
    requires Accepts(e) && !Deletes(e)
  {
    Interface(item.name,
              if e.description.Some? then e.description.value else item.description,
              if e.enabled.Some? then ParseBoolean(e.enabled.value).value else item.enabled,
              if e.mtu.Some? then e.mtu.value.value else item.mtu)
  }

  /** One turn of the loop: splice out, splice in place, or push. */
  function EditList(items: seq<Interface>, e: InterfaceEdit): seq<Interface>
    requires Accepts(e)
  {
    var k := FindIndex(items, e.name.value);
    if Deletes(e) then
      if k >= 0 then items[..k] + items[k + 1..] else items
    else if k >= 0 then items[k := Overwrite(items[k], e)]
    else items + [Overwrite(DefaultInterface(e.name.value), e)]
  }

  function EditAll(items: seq<Interface>, edits: seq<InterfaceEdit>): Result<seq<Interface>>
    decreases |edits|
  {
    if edits == [] then Ok(items)
    else if !Accepts(edits[0]) then Err(Refusal(edits[0]).value)
    else EditAll(EditList(items, edits[0]), edits[1..])
  }

  function EditSystem(system: System, e: SystemEdit): System {
    System(if e.hostname.Some? then e.hostname.value else system.hostname,
           if e.location.Some? then e.location.value else system.location,
           if e.contact.Some? then e.contact.value else system.contact)
  }

  function ApplyFragment(current: Config, fragment: Fragment, replace: bool): Result<Config> {
    if fragment.Blank? then Err(MissingElement)
    else
      var base := if replace then EmptyConfig() else current;
      var system := if fragment.system.Some? then EditSystem(base.system, fragment.system.value) else base.system;
      if fragment.interfaces.None? then
        if fragment.system.None? then Err(UnknownElement) else Ok(Config(system, base.interfaces))
      else
        match EditAll(base.interfaces, fragment.interfaces.value)
        case Err(e) => Err(e)
        case Ok(items) => Ok(Config(system, items))
  }

  /** The loop body for one interface element. */
  method EditInterface(items: seq<Interface>, e: InterfaceEdit) returns (r: Result<seq<Interface>>)
    ensures r == if Accepts(e) then Ok(EditList(items, e)) else Err(Refusal(e).value)
  {
    if e.name.None? || e.name.value == "" {
      return Err(MissingElement);
    }
    var name := e.name.value;
    var existing := FindIndex(items, name);
    if Deletes(e) {
      return Ok(if existing >= 0 then items[..existing] + items[existing + 1..] else items);
    }
    var item := if existing >= 0 then items[existing] else DefaultInterface(name);
    if e.description.Some? {
      item := item.(description := e.description.value);
    }
    if e.enabled.Some? {
      var flag := ParseBoolean(e.enabled.value);
      if flag.None? {
        return Err(InvalidValue);
      }
      item := item.(enabled := flag.value);
    }
    if e.mtu.Some? {
      if !e.mtu.value.Integer? || e.mtu.value.value < MIN_MTU || e.mtu.value.value > MAX_MTU {
        return Err(InvalidValue);
      }
      item := item.(mtu := e.mtu.value.value);
    }
    return Ok(if existing >= 0 then items[existing := item] else items + [item]);
  }

  /** The source's loop over the interface elements, updating one list step by step. */
  method EditInterfaces(start: seq<Interface>, edits: seq<InterfaceEdit>) returns (r: Result<seq<Interface>>)
    ensures r == EditAll(start, edits)
  {
    var items, i := start, 0;
    while i < |edits|
      invariant 0 <= i <= |edits|
      invariant EditAll(items, edits[i..]) == EditAll(start, edits)
    {
      assert edits[i..][1..] == edits[i + 1..];
      var edited := EditInterface(items, edits[i]);
      if edited.Err? {
        return Err(edited.error);
      }
      items, i := edited.value, i + 1;
    }
    return Ok(items);
  }

  /** A whole fragment: the first refused element wins, and unknown content is refused. */
  method ApplyConfigFragment(current: Config, fragment: Fragment, replace: bool) returns (r: Result<Config>)
    ensures r == ApplyFragment(current, fragment, replace)
  {
    if fragment.Blank? {
      return Err(MissingElement);
    }
    var next := if replace then EmptyConfig() else current;
    var recognized := false;
    if fragment.system.Some? {
      recognized := true;
      next := next.(system := EditSystem(next.system, fragment.system.value));
    }
    if fragment.interfaces.Some? {
      recognized := true;
      var items := EditInterfaces(next.interfaces, fragment.interfaces.value);
      if items.Err? {
        return Err(items.error);
      }
      next := next.(interfaces := items.value);
    }
    if !recognized {
      return Err(UnknownElement);
    }
    return Ok(next);
  }

  // ------------------------------------------------ keyed reference model

  ghost predicate DistinctNames(items: seq<Interface>) {
    forall i, j :: 0 <= i < j < |items| ==> items[i].name != items[j].name
  }

  /** What every stored configuration satisfies. */
  ghost predicate GoodConfig(c: Config) {
    DistinctNames(c.interfaces) && MtusInRange(c.interfaces)
  }

  /** The interface stored under a name, order forgotten. */
  function Entry(items: seq<Interface>, name: string): Option<Interface> {
    var k := FindIndex(items, name);
    if k >= 0 then Some(items[k]) else None
  }

  /** What one accepted element does to the entry of its own name. */
  function EditEntry(entry: Option<Interface>, e: InterfaceEdit): Option<Interface>
    requires Accepts(e)
  {
    if Deletes(e) then None
    else Some(Overwrite(if entry.Some? then entry.value else DefaultInterface(e.name.value), e))
  }

  /** What a list of elements does to one entry, element by element. */
  function EditEntries(entry: Option<Interface>, name: string, edits: seq<InterfaceEdit>): Option<Interface>
    requires forall e :: e in edits ==> Accepts(e)
    decreases |edits|
  {
    if edits == [] then entry
    else
      var last := edits[|edits| - 1];
      var before := EditEntries(entry, name, edits[..|edits| - 1]);
      if last.name == Some(name) then EditEntry(before, last) else before
  }

  lemma FindIndexUnique(items: seq<Interface>, k: nat)
    requires DistinctNames(items) && k < |items|
    ensures FindIndex(items, items[k].name) == k
  {
  }

  lemma EditListEntry(items: seq<Interface>, e: InterfaceEdit, name: string)
    requires DistinctNames(items) && Accepts(e)
    ensures DistinctNames(EditList(items, e))
    ensures Entry(EditList(items, e), name) ==
            if e.name == Some(name) then EditEntry(Entry(items, name), e) else Entry(items, name)
  {
    var k := FindIndex(items, e.name.value);
    if Deletes(e) {
      if k >= 0 {
        RemoveEntry(items, k, name);
      }
    } else if k >= 0 {
      ReplaceEntry(items, k, Overwrite(items[k], e), name);
    } else {
      PushEntry(items, Overwrite(DefaultInterface(e.name.value), e), name);
    }
  }

  lemma RemoveEntry(items: seq<Interface>, k: nat, name: string)
    requires DistinctNames(items) && k < |items|
    ensures DistinctNames(items[..k] + items[k + 1..])
    ensures Entry(items[..k] + items[k + 1..], name) == if name == items[k].name then None else Entry(items, name)
  {
    var after := items[..k] + items[k + 1..];
    var was := FindIndex(items, name);
    if was >= 0 && was != k {
      var now := if k < was then was - 1 else was;
      assert after[now] == items[was];
      FindIndexUnique(after, now);
    }
  }

  lemma ReplaceEntry(items: seq<Interface>, k: nat, item: Interface, name: string)
    requires DistinctNames(items) && k < |items| && item.name == items[k].name
    ensures DistinctNames(items[k := item])
    ensures Entry(items[k := item], name) == if name == item.name then Some(item) else Entry(items, name)
  {
    var was := FindIndex(items, name);
    if was >= 0 {
      assert items[k := item][was].name == name;
      FindIndexUnique(items[k := item], was);
      if name == item.name {
        FindIndexUnique(items, k);
      }
    }
  }

  lemma PushEntry(items: seq<Interface>, item: Interface, name: string)
    requires DistinctNames(items) && FindIndex(items, item.name) < 0
    ensures DistinctNames(items + [item])
    ensures Entry(items + [item], name) == if name == item.name then Some(item) else Entry(items, name)
  {
    var was := FindIndex(items, name);
    if name == item.name {
      FindIndexUnique(items + [item], |items|);
    } else if was >= 0 {
      FindIndexUnique(items + [item], was);
    }
  }

  /** Element `i` is the first to be refused. */
  ghost predicate FirstRefused(edits: seq<InterfaceEdit>, i: nat) {
    i < |edits| && !Accepts(edits[i]) && forall j :: 0 <= j < i ==> Accepts(edits[j])
  }

  /** The loop succeeds exactly when it accepts every element, and otherwise reports why the first refused one
      was. */
  lemma {:induction false} EditAllOutcome(items: seq<Interface>, edits: seq<InterfaceEdit>)
    ensures EditAll(items, edits).Ok? <==> forall e :: e in edits ==> Accepts(e)
    ensures forall i: nat :: FirstRefused(edits, i) ==> EditAll(items, edits) == Err(Refusal(edits[i]).value)
    decreases |edits|
  {
    if edits != [] {
      var rest := edits[1..];
      assert forall e :: e in edits <==> e == edits[0] || e in rest;
      if Accepts(edits[0]) {
        EditAllOutcome(EditList(items, edits[0]), rest);
        forall i: nat | FirstRefused(edits, i) ensures i > 0 && FirstRefused(rest, i - 1) && rest[i - 1] == edits[i] {
        }
      }
    }
  }

  lemma {:induction false} EditAllAppend(items: seq<Interface>, edits: seq<InterfaceEdit>, e: InterfaceEdit)
    requires forall x :: x in edits + [e] ==> Accepts(x)
    ensures EditAll(items, edits).Ok?
    ensures EditAll(items, edits + [e]) == Ok(EditList(EditAll(items, edits).value, e))
    decreases |edits|
  {
    EditAllOutcome(items, edits);
    if edits != [] {
      assert (edits + [e])[1..] == edits[1..] + [e];
      EditAllAppend(EditList(items, edits[0]), edits[1..], e);
    } else {
      assert (edits + [e])[0] == e && (edits + [e])[1..] == [];
    }
  }

  /** The list loop refines the keyed fold: same entries, and names stay distinct. */
  lemma {:induction false} EditAllRefines(items: seq<Interface>, edits: seq<InterfaceEdit>, name: string)
    requires DistinctNames(items)
    requires forall e :: e in edits ==> Accepts(e)
    ensures EditAll(items, edits).Ok? && DistinctNames(EditAll(items, edits).value)
    ensures Entry(EditAll(items, edits).value, name) == EditEntries(Entry(items, name), name, edits)
    decreases |edits|
  {
    if edits != [] {
      var init, last := edits[..|edits| - 1], edits[|edits| - 1];
      assert edits == init + [last];
      EditAllRefines(items, init, name);
      EditAllAppend(items, init, last);
      EditListEntry(EditAll(items, init).value, last, name);
    }
  }

  ghost predicate MtusInRange(items: seq<Interface>) {
    forall i :: 0 <= i < |items| ==> MIN_MTU <= items[i].mtu <= MAX_MTU
  }

  lemma EditListKeepsMtu(items: seq<Interface>, e: InterfaceEdit)
    requires MtusInRange(items) && Accepts(e)
    ensures MtusInRange(EditList(items, e))
  {
    var k, name := FindIndex(items, e.name.value), e.name.value;
    if Deletes(e) {
      if k >= 0 {
        MtusWithout(items, k);
      }
    } else {
      var item := Overwrite(if k >= 0 then items[k] else DefaultInterface(name), e);
      assert MIN_MTU <= item.mtu <= MAX_MTU;
      MtusWith(items, k, item);
    }
  }

  lemma MtusWithout(items: seq<Interface>, k: nat)
    requires MtusInRange(items) && k < |items|
    ensures MtusInRange(items[..k] + items[k + 1..])
  {
  }

  lemma MtusWith(items: seq<Interface>, k: int, item: Interface)
    requires MtusInRange(items) && MIN_MTU <= item.mtu <= MAX_MTU
    ensures MtusInRange(items + [item])
    ensures 0 <= k < |items| ==> MtusInRange(items[k := item])
  {
  }

  lemma {:induction false} EditAllKeepsMtu(items: seq<Interface>, edits: seq<InterfaceEdit>)
    requires MtusInRange(items) && EditAll(items, edits).Ok?
    ensures MtusInRange(EditAll(items, edits).value)
    decreases |edits|
  {
    if edits != [] {
      EditListKeepsMtu(items, edits[0]);
      EditAllKeepsMtu(EditList(items, edits[0]), edits[1..]);
    }
  }

  /** An accepted fragment keeps names distinct and every MTU in range. */
  lemma ApplyFragmentKeepsGood(current: Config, fragment: Fragment, replace: bool)
    requires GoodConfig(current)
    requires ApplyFragment(current, fragment, replace).Ok?
    ensures GoodConfig(ApplyFragment(current, fragment, replace).value)
  {
    if fragment.interfaces.Some? {
      var base := if replace then EmptyConfig() else current;
      var edits := fragment.interfaces.value;
      EditAllOutcome(base.interfaces, edits);
      EditAllRefines(base.interfaces, edits, "");
      EditAllKeepsMtu(base.interfaces, edits);
    }
  }

  // ------------------------------------------------------------ idempotence

  /** Net effect of a list of elements on one entry: nothing, removal, or an overlay of fields, on a fresh default
      when a removal came before. */
  datatype Effect = Same | Gone | Overlay(anew: bool, description: Option<string>, enabled: Option<bool>,
                                          mtu: Option<int>)

  function Later<T>(first: Option<T>, second: Option<T>): Option<T> {
    if second.Some? then second else first
  }

  function ThenEdit(effect: Effect, e: InterfaceEdit): Effect
    requires Accepts(e)
  {
    if Deletes(e) then Gone
    else
      var enabled := if e.enabled.Some? then ParseBoolean(e.enabled.value) else None;
      var mtu := if e.mtu.Some? then Some(e.mtu.value.value) else None;
      match effect
      case Same => Overlay(false, e.description, enabled, mtu)
      case Gone => Overlay(true, e.description, enabled, mtu)
      case Overlay(f, d, en, m) => Overlay(f, Later(d, e.description), Later(en, enabled), Later(m, mtu))
  }

  function NetEffect(name: string, edits: seq<InterfaceEdit>): Effect
    requires forall e :: e in edits ==> Accepts(e)
    decreases |edits|
  {
    if edits == [] then Same
    else
      var last := edits[|edits| - 1];
      var before := NetEffect(name, edits[..|edits| - 1]);
      if last.name == Some(name) then ThenEdit(before, last) else before
  }

  function Take(effect: Effect, entry: Option<Interface>, name: string): Option<Interface> {
    match effect
    case Same => entry
    case Gone => None
    case Overlay(anew, d, en, m) =>
      var base := if anew || entry.None? then DefaultInterface(name) else entry.value;
      Some(Interface(base.name, if d.Some? then d.value else base.description,
                     if en.Some? then en.value else base.enabled, if m.Some? then m.value else base.mtu))
  }

  lemma {:induction false} EditEntriesNet(entry: Option<Interface>, name: string, edits: seq<InterfaceEdit>)
    requires forall e :: e in edits ==> Accepts(e)
    ensures EditEntries(entry, name, edits) == Take(NetEffect(name, edits), entry, name)
    decreases |edits|
  {
    if edits != [] {
      var init, last := edits[..|edits| - 1], edits[|edits| - 1];
      EditEntriesNet(entry, name, init);
      assert last in edits;
      if last.name == Some(name) {
        TakeThenEdit(NetEffect(name, init), entry, name, last);
      }
    }
  }

  lemma TakeThenEdit(effect: Effect, entry: Option<Interface>, name: string, e: InterfaceEdit)
    requires Accepts(e) && e.name == Some(name)
    ensures Take(ThenEdit(effect, e), entry, name) == EditEntry(Take(effect, entry, name), e)
  {
  }

  /** The same accepted fragment applied again leaves every entry and the system as they are. */
  lemma ApplyFragmentIdempotent(current: Config, fragment: Fragment, replace: bool, name: string)
    requires DistinctNames(current.interfaces)
    requires ApplyFragment(current, fragment, replace).Ok?
    ensures var once := ApplyFragment(current, fragment, replace).value;
            var twice := ApplyFragment(once, fragment, replace);
            twice.Ok? && twice.value.system == once.system
            && Entry(twice.value.interfaces, name) == Entry(once.interfaces, name)
  {
    var base := if replace then EmptyConfig() else current;
    var once := ApplyFragment(current, fragment, replace).value;
    if fragment.interfaces.Some? && !replace {
      var edits := fragment.interfaces.value;
      EditAllOutcome(base.interfaces, edits);
      EditAllRefines(base.interfaces, edits, name);
      EditAllRefines(once.interfaces, edits, name);
      EditEntriesNet(Entry(base.interfaces, name), name, edits);
      EditEntriesNet(Entry(once.interfaces, name), name, edits);
    }
  }

  /** Delete and re-create `a`, then mention `b`. */
  function Reordering(): seq<InterfaceEdit> {
    [InterfaceEdit(Some("a"), "delete", None, None, None), InterfaceEdit(Some("a"), "merge", None, None, None),
     InterfaceEdit(Some("b"), "merge", None, None, None)]
  }

  lemma ReorderingOnce(a: Interface, b: Interface)
    requires a == DefaultInterface("a") && b == DefaultInterface("b")
    ensures EditAll([], Reordering()) == Ok([a, b])
  {
    EditThree([], Reordering()[0], Reordering()[1], Reordering()[2], [], [a], [a, b]);
  }

  lemma ReorderingTwice(a: Interface, b: Interface)
    requires a == DefaultInterface("a") && b == DefaultInterface("b")
    ensures EditAll([a, b], Reordering()) == Ok([b, a])
  {
    EditThree([a, b], Reordering()[0], Reordering()[1], Reordering()[2], [b], [b, a], [b, a]);
  }

  /** The list order is not idempotent. */
  lemma OrderMayChange()
    ensures exists c: Config, f: Fragment ::
              var once := ApplyFragment(c, f, false);
              once.Ok? && ApplyFragment(once.value, f, false).Ok?
              && ApplyFragment(once.value, f, false).value.interfaces != once.value.interfaces
  {
    var a, b := DefaultInterface("a"), DefaultInterface("b");
    var f := Fragment(None, Some(Reordering()));
    ReorderingOnce(a, b);
    ReorderingTwice(a, b);
    assert [b, a][0] != [a, b][0];
    var once := ApplyFragment(EmptyConfig(), f, false);
    assert once == Ok(Config(System("", "", ""), [a, b]));
    assert ApplyFragment(once.value, f, false) == Ok(Config(System("", "", ""), [b, a]));
  }

  lemma EditThree(items: seq<Interface>, x: InterfaceEdit, y: InterfaceEdit, z: InterfaceEdit,
                  first: seq<Interface>, second: seq<Interface>, third: seq<Interface>)
    requires Accepts(x) && Accepts(y) && Accepts(z)
    requires EditList(items, x) == first && EditList(first, y) == second && EditList(second, z) == third
    ensures EditAll(items, [x, y, z]) == Ok(third)
  {
    assert [x, y, z][1..] == [y, z] && [y, z][1..] == [z];
    assert EditAll(second, [z]) == Ok(third);
    assert EditAll(first, [y, z]) == Ok(third);
  }
}

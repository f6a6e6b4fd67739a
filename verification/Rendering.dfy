/** A reader of the receiver's copy: from the forest of a rendered configuration it takes back every field. */
module Rendering {
  import opened Options
  import opened SelectionDiff
  import opened EditConfig
  import opened NetconfServer

  // ------------------------------------------------------------------ numbers

  function Digits(text: string): Option<int> {
    if text == [] then Some(0)
    else
      var last := text[|text| - 1];
      var before := Digits(text[..|text| - 1]);
      if before.None? || last < '0' || last > '9' then None else Some(before.value * 10 + (last as int - '0' as int))
  }

  function Number(text: string): Option<int> {
    if text == [] || text == "-" then None
    else if text[0] == '-' then
      var r := Digits(text[1..]);
      if r.None? then None else Some(-r.value)
    else
      var r := Digits(text);
      if r.None? then None else Some(r.value)
  }

  lemma {:induction false} DigitsOfDecimal(n: nat)
    ensures Digits(Decimal(n)) == Some(n) && Decimal(n) != [] && Decimal(n)[0] != '-'
    decreases n
  {
    if n < 10 {
      assert Decimal(n)[..0] == [];
    } else {
      DigitsOfDecimal(n / 10);
      assert Decimal(n)[..|Decimal(n)| - 1] == Decimal(n / 10);
    }
  }

  lemma NumberOfMtu(mtu: int)
    ensures Number(if mtu >= 0 then Decimal(mtu) else "-" + Decimal(-mtu)) == Some(mtu)
  {
    if mtu >= 0 {
      DigitsOfDecimal(mtu);
    } else {
      DigitsOfDecimal(-mtu);
      var text := "-" + Decimal(-mtu);
      assert text[1..] == Decimal(-mtu);
    }
  }

  // ------------------------------------------------------------------- reader

  /** The text of a leaf. */
  ghost function ReadLeaf(f: Forest, name: string): Option<string> {
    if Plain(name) in f then Some(f[Plain(name)].text) else None
  }

  /** What lies below a container, or below the entry of a list with the given key. */
  ghost function Below(f: Forest, id: Identity): Forest {
    if id in f then f[id].children else map[]
  }

  ghost function ReadSystem(f: Forest): Option<System> {
    var system := Below(f, Plain("system"));
    var h, l, c := ReadLeaf(system, "hostname"), ReadLeaf(system, "location"), ReadLeaf(system, "contact");
    if h.Some? && l.Some? && c.Some? then Some(System(h.value, l.value, c.value)) else None
  }

  ghost function ReadInterface(f: Forest, name: string): Option<Interface> {
    var entry := Below(Below(f, Plain("interfaces")), Keyed("interface", name));
    var n, d := ReadLeaf(entry, "name"), ReadLeaf(entry, "description");
    var e, m := ReadLeaf(entry, "enabled"), ReadLeaf(entry, "mtu");
    if n.None? || d.None? || e.None? || m.None? || Number(m.value).None? then None
    else Some(Interface(n.value, d.value, e.value == "true", Number(m.value).value))
  }

  // --------------------------------------------------------------- round trip

  lemma ForestHolds(nodes: seq<Node>, n: Node)
    requires WellFormed(nodes) && n in nodes
    ensures IdentityOf(n) in ForestOf(nodes) && ForestOf(nodes)[IdentityOf(n)] == TreeOf(n)
  {
    LookupUnique(nodes, n);
  }

  lemma LeafRead(nodes: seq<Node>, name: string, text: string)
    requires WellFormed(nodes) && Leaf(name, text) in nodes && name != "interface"
    ensures ReadLeaf(ForestOf(nodes), name) == Some(text)
  {
    ForestHolds(nodes, Leaf(name, text));
  }

  lemma BelowIs(nodes: seq<Node>, n: Node)
    requires WellFormed(nodes) && n in nodes
    ensures Below(ForestOf(nodes), IdentityOf(n)) == ForestOf(n.children)
  {
    ForestHolds(nodes, n);
  }

  /** The system container can be read back from the forest. */
  lemma SystemReads(c: Config)
    requires DistinctNames(c.interfaces)
    ensures ReadSystem(ForestOf(Render(c))) == Some(c.system)
  {
    RenderWellFormedIff(c);
    var n := Render(c)[0];
    assert n in Render(c) && IdentityOf(n) == Plain("system");
    BelowIs(Render(c), n);
    assert n.children[0] in n.children && n.children[1] in n.children && n.children[2] in n.children;
    LeafRead(n.children, "hostname", c.system.hostname);
    LeafRead(n.children, "location", c.system.location);
    LeafRead(n.children, "contact", c.system.contact);
  }

  lemma EntryReads(i: Interface)
    ensures WellFormed(InterfaceNode(i).children)
    ensures var f := ForestOf(InterfaceNode(i).children);
            && ReadLeaf(f, "name") == Some(i.name) && ReadLeaf(f, "description") == Some(i.description)
            && ReadLeaf(f, "enabled").Some? && (ReadLeaf(f, "enabled").value == "true" <==> i.enabled)
            && ReadLeaf(f, "mtu").Some? && Number(ReadLeaf(f, "mtu").value) == Some(i.mtu)
  {
    InterfaceNodeWellFormed(i);
    NumberOfMtu(i.mtu);
    var leaves := InterfaceNode(i).children;
    assert leaves[0] in leaves && leaves[1] in leaves && leaves[2] in leaves && leaves[3] in leaves;
    LeafRead(leaves, "name", i.name);
    LeafRead(leaves, "description", i.description);
    LeafRead(leaves, "enabled", leaves[2].text);
    LeafRead(leaves, "mtu", leaves[3].text);
  }

  lemma InterfacesBelow(c: Config, nodes: seq<Node>)
    requires DistinctNames(c.interfaces) && nodes == Render(c)[1].children
    ensures WellFormed(nodes) && Below(ForestOf(Render(c)), Plain("interfaces")) == ForestOf(nodes)
  {
    RenderWellFormedIff(c);
    var n := Render(c)[1];
    assert n in Render(c) && IdentityOf(n) == Plain("interfaces");
    BelowIs(Render(c), n);
  }

  lemma StoredReads(c: Config, k: nat)
    requires DistinctNames(c.interfaces) && k < |c.interfaces|
    ensures ReadInterface(ForestOf(Render(c)), c.interfaces[k].name) == Some(c.interfaces[k])
  {
    var nodes, i := Render(c)[1].children, c.interfaces[k];
    InterfacesBelow(c, nodes);
    assert nodes[k] == InterfaceNode(i) && nodes[k] in nodes;
    InterfaceNodeWellFormed(i);
    BelowIs(nodes, InterfaceNode(i));
    EntryReads(i);
  }

  lemma AbsentReads(c: Config, name: string)
    requires DistinctNames(c.interfaces) && forall i :: i in c.interfaces ==> i.name != name
    ensures ReadInterface(ForestOf(Render(c)), name) == None
  {
    var nodes := Render(c)[1].children;
    InterfacesBelow(c, nodes);
    forall n | n in nodes ensures IdentityOf(n) != Keyed("interface", name) {
      var k :| 0 <= k < |nodes| && nodes[k] == n;
      InterfaceNodeWellFormed(c.interfaces[k]);
    }
  }

  /** Under every name the reader finds exactly the interface stored there, with all its fields, and nothing where
      none is stored. */
  lemma InterfacesRead(c: Config, name: string)
    requires DistinctNames(c.interfaces)
    ensures forall i :: i in c.interfaces && i.name == name ==> ReadInterface(ForestOf(Render(c)), name) == Some(i)
    ensures (forall i :: i in c.interfaces ==> i.name != name) ==> ReadInterface(ForestOf(Render(c)), name) == None
  {
    if k: nat :| k < |c.interfaces| && c.interfaces[k].name == name {
      StoredReads(c, k);
    } else {
      AbsentReads(c, name);
    }
  }
}

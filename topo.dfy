/**
 * The exported topology: nodes that hand out numbered ports, links joining two ports,
 * option bags of typed values, and the `topo` element tree the exporter builds from them.
 */
module Topo {
  import opened Wrappers
  import opened OrderedDict
  import opened Ipv4

  datatype NodeCategory = Host | Switch

  /** `category.name` of the `NodeCategory` enum. */
  function CategoryName(c: NodeCategory): string {
    match c
    case Host => "Host"
    case Switch => "Switch"
  }

  // ---- option values ----

  /** The values an `Option` holds: numbers, strings, IPv4 addresses and IPv4 networks. */
  datatype Scalar = Num(n: int) | Text(s: string) | Addr(a: Address) | Net(net: Network)

  /** `str(value)` of a scalar. */
  function ScalarText(v: Scalar): string {
    match v
    case Num(n) => IntText(n)
    case Text(s) => s
    case Addr(a) => DottedQuad(a)
    case Net(n) => NetworkText(n)
  }

  /**
   * `Option.guess_type`: numbers are "number", address objects are "ip", and anything else
   * is "ip" exactly when its text starts with four dot-separated runs of one to three digits.
   */
  function GuessType(v: Scalar): (t: string)
    ensures t == "number" || t == "ip" || t == "string"
    ensures t == "number" <==> v.Num?
    ensures v.Addr? ==> t == "ip"
    ensures !v.Num? && !v.Addr? ==> (t == "ip" <==> MatchesIpPattern(ScalarText(v)))
  {
    if v.Num? then "number"
    else if v.Addr? then "ip"
    else if MatchesIpPattern(ScalarText(v)) then "ip"
    else "string"
  }

  /** A network is tagged "ip": its text starts with the dotted quad of its address. */
  lemma GuessTypeNetwork(n: Network)
    ensures GuessType(Net(n)) == "ip"
  {
    DottedQuadMatches(n.address);
    MatchesIpPatternExtend(DottedQuad(n.address), "/");
    MatchesIpPatternExtend(DottedQuad(n.address) + "/", Dec(n.prefixLen));
  }

  /** The text of an address is tagged like the address itself. */
  lemma GuessTypeAddressText(a: Address)
    ensures GuessType(Text(DottedQuad(a))) == GuessType(Addr(a)) == "ip"
  {
    DottedQuadMatches(a);
  }

  /** The pattern is matched, not searched: whatever follows a matching text keeps it "ip". */
  lemma GuessTypeTextExtend(s: string, t: string)
    requires GuessType(Text(s)) == "ip"
    ensures GuessType(Text(s + t)) == "ip"
  {
    MatchesIpPatternExtend(s, t);
  }

  /** A text that does not start with a digit is a "string". */
  lemma GuessTypeNonDigitText(s: string)
    requires s == [] || !IsDigit(s[0])
    ensures GuessType(Text(s)) == "string"
  {
    NonDigitStartNoMatch(s);
  }

  datatype Option = Option(value: Scalar, subtype: string, unit: string)

  /** `Option(value, subtype, unit)`: an empty subtype is replaced by the guessed one. */
  function MakeOption(value: Scalar, subtype: string, unit: string): (o: Option)
    ensures o.value == value && o.unit == unit && o.subtype != ""
    ensures subtype != "" ==> o.subtype == subtype
    ensures subtype == "" ==> o.subtype == GuessType(value)
  {
    Option(value, if subtype != "" then subtype else GuessType(value), unit)
  }

  /**
   * What an option bag can hold: an `Option`, a list, a dict, or any other Python object
   * (`Other`), which the exporter refuses.
   */
  datatype OptValue =
    | Opt(option: Option)
    | List(items: seq<OptValue>)
    | Dict(entries: seq<Entry<string, OptValue>>)
    | Other

  /** An option bag: a dict from option name to value. */
  type Options = seq<Entry<string, OptValue>>

  const CpuCountKey := "cpuCount"
  const RamKey := "ram"
  const NoControlNicKey := "_noControlNic"
  const RouteListKey := "route_list"

  /** The bag after `use_default_physic` on a node running `os`. */
  function DefaultPhysic(bag: Options, os: string): (r: Options)
    ensures Get(r, CpuCountKey) == Some(Opt(Option(Num(if os == "windows" then 2 else 1), "number", "个")))
    ensures Get(r, RamKey) == Some(Opt(Option(Num(if os == "windows" then 2048 else 1024), "number", "MB")))
    ensures forall k :: k != CpuCountKey && k != RamKey ==> Get(r, k) == Get(bag, k)
  {
    if os == "windows" then
      Set(Set(bag, CpuCountKey, Opt(MakeOption(Num(2), "", "个"))), RamKey, Opt(MakeOption(Num(2048), "", "MB")))
    else
      Set(Set(bag, CpuCountKey, Opt(MakeOption(Num(1), "", "个"))), RamKey, Opt(MakeOption(Num(1024), "", "MB")))
  }

  /** The bag after `remove_control_nic`. */
  function WithoutControlNic(bag: Options): (r: Options)
    ensures Get(r, NoControlNicKey) == Some(Opt(Option(Text("true"), "string", "")))
    ensures forall k :: k != NoControlNicKey ==> Get(r, k) == Get(bag, k)
  {
    GuessTypeNonDigitText("true");
    Set(bag, NoControlNicKey, Opt(MakeOption(Text("true"), "", "")))
  }

  /** The dict `add_route_entry` appends for one route. */
  function RouteItem(target: Network, gateway: Address): (r: OptValue)
    ensures r.Dict? && Keys(r.entries) == ["targetNete", "networkLength", "nicIp"]
    ensures r.entries[0].value == Opt(Option(Addr(target.address), "ip", ""))
    ensures r.entries[1].value == Opt(Option(Num(target.prefixLen), "number", ""))
    ensures r.entries[2].value == Opt(Option(Addr(gateway), "ip", ""))
  {
    Dict([
      Entry("targetNete", Opt(MakeOption(Addr(target.address), "", ""))),
      Entry("networkLength", Opt(MakeOption(Num(target.prefixLen), "", ""))),
      Entry("nicIp", Opt(MakeOption(Addr(gateway), "", "")))
    ])
  }

  /** The routes already in a bag's "route_list" (none when it is absent). */
  function Routes(bag: Options): seq<OptValue> {
    match Get(bag, RouteListKey)
    case Some(v) => if v.List? then v.items else []
    case None => []
  }

  /**
   * The bag after `add_route_entry`: "route_list" is created empty on first use and gets one
   * more route; a "route_list" that is not a list has no `append` and the call fails.
   */
  function AppendRoute(bag: Options, target: Network, gateway: Address): (r: Result<Options>)
    ensures r.Ok? <==> Get(bag, RouteListKey).None? || Get(bag, RouteListKey).value.List?
    ensures r.Ok? ==> Get(r.value, RouteListKey) == Some(List(Routes(bag) + [RouteItem(target, gateway)]))
    ensures r.Ok? ==> forall k :: k != RouteListKey ==> Get(r.value, k) == Get(bag, k)
    ensures r.Err? ==> r.error == AttributeError("append")
  {
    match Get(bag, RouteListKey)
    case None =>
      assert Routes(bag) + [RouteItem(target, gateway)] == [RouteItem(target, gateway)];
      Ok(Set(bag, RouteListKey, List([RouteItem(target, gateway)])))
    case Some(v) =>
      if v.List? then Ok(Set(bag, RouteListKey, List(v.items + [RouteItem(target, gateway)])))
      else Err(AttributeError("append"))
  }

  /** A route list grows by one route per successful call and keeps the earlier ones in order. */
  lemma AppendRouteKeepsRoutes(bag: Options, target: Network, gateway: Address)
    requires AppendRoute(bag, target, gateway).Ok?
    ensures Routes(AppendRoute(bag, target, gateway).value) == Routes(bag) + [RouteItem(target, gateway)]
  {
  }

  /** The bag after `config_ip`: four "ip" options and nothing else changed. */
  function IpOptions(bag: Options, ip: Scalar, netmask: Scalar, gateway: Scalar, dns: Scalar): (r: Options)
    ensures Get(r, "ip") == Some(Opt(Option(ip, "ip", "")))
    ensures Get(r, "netmask") == Some(Opt(Option(netmask, "ip", "")))
    ensures Get(r, "defaultGateway") == Some(Opt(Option(gateway, "ip", "")))
    ensures Get(r, "dns") == Some(Opt(Option(dns, "ip", "")))
    ensures forall k :: k != "ip" && k != "netmask" && k != "defaultGateway" && k != "dns" ==> Get(r, k) == Get(bag, k)
  {
    var b1 := Set(bag, "ip", Opt(MakeOption(ip, "ip", "")));
    var b2 := Set(b1, "netmask", Opt(MakeOption(netmask, "ip", "")));
    var b3 := Set(b2, "defaultGateway", Opt(MakeOption(gateway, "ip", "")));
    Set(b3, "dns", Opt(MakeOption(dns, "ip", "")))
  }

  // ---- nodes, ports and links ----

  /** The ports of the nodes of `ns`. */
  ghost function PortsOf(ns: set<Node>): set<Port>
    reads ns`ports
  {
    set n, p | n in ns && p in n.ports :: p
  }

  /** Every node of `ns` numbers its ports 1, 2, 3, ... and each of their ports lies on a link that has it as an end. */
  ghost predicate AllLinked(ns: set<Node>)
    reads ns`ports, ns`nextPortIndex, PortsOf(ns)`link
  {
    (forall n :: n in ns ==> n.Valid()) && forall n, p :: n in ns && p in n.ports ==> p.Linked()
  }

  /** A new node with no ports joins a set of nodes whose ports all lie on links. */
  lemma AllLinkedAdd(ns: set<Node>, node: Node)
    requires AllLinked(ns) && node.Valid() && node.ports == []
    ensures AllLinked(ns + {node})
  {
  }

  /** Fewer nodes, still all linked. */
  lemma AllLinkedSub(sub: set<Node>, ns: set<Node>)
    requires sub <= ns && AllLinked(ns)
    ensures AllLinked(sub)
  {
  }

  class Topology {
    var nodes: seq<Entry<string, Node>>

    constructor ()
      ensures nodes == []
    {
      nodes := [];
    }

    /** The nodes the topology holds. */
    ghost function NodeSet(): set<Node>
      reads this`nodes
    {
      set e | e in nodes :: e.value
    }

    /** The ids the topology holds nodes under. */
    ghost function KeySet(): set<string>
      reads this`nodes
    {
      set k | k in Keys(nodes)
    }

    /**
     * Every node numbers its ports 1, 2, 3, ... and every port lies on a link that has it as
     * one of its two ends: the exporter finds a peer for every port.
     */
    ghost predicate WellLinked()
      reads this`nodes, NodeSet()`ports, NodeSet()`nextPortIndex, PortsOf(NodeSet())`link
    {
      AllLinked(NodeSet())
    }

    /** Every node is filed under its own id, as `add_node` files it. */
    ghost predicate IdKeyed()
      reads this`nodes
    {
      forall e :: e in nodes ==> e.key == e.value.id
    }

    /** In a topology that files every node under its own id, a query finds a node with that id. */
    lemma QueryNodeId(id: string)
      requires IdKeyed() && QueryNode(id).Ok?
      ensures QueryNode(id).value.id == id
    {
      GetFinds(nodes, id);
    }

    /** `add_node`: the node is filed under its id, replacing any node with that id. */
    method AddNode(node: Node)
      modifies this`nodes
      ensures nodes == Set(old(nodes), node.id, node)
      ensures QueryNode(node.id) == Ok(node)
      ensures forall id :: id != node.id ==> QueryNode(id) == old(QueryNode(id))
      ensures node in NodeSet() && NodeSet() <= old(NodeSet()) + {node}
      ensures KeySet() == old(KeySet()) + {node.id}
      ensures old(IdKeyed()) ==> IdKeyed()
    {
      SetEntries(nodes, node.id, node);
      SetKeys(nodes, node.id, node);
      nodes := Set(nodes, node.id, node);
      assert forall k :: k in Keys(nodes) <==> k in Keys(old(nodes)) || k == node.id;
      forall id | id != node.id
        ensures QueryNode(id) == old(QueryNode(id))
      {
        GetSomeIffKey(old(nodes), id);
      }
    }

    /** `query_node`: the node filed under `id`, or a `KeyError`. */
    function QueryNode(id: string): (r: Result<Node>)
      reads this`nodes
      ensures r.Ok? <==> id in Keys(nodes)
      ensures r.Ok? ==> Get(nodes, id) == Some(r.value) && r.value in NodeSet()
      ensures r.Err? ==> r.error == KeyError(id)
    {
      GetSomeIffKey(nodes, id);
      match Get(nodes, id)
      case Some(n) => GetFinds(nodes, id); Ok(n)
      case None => Err(KeyError(id))
    }
  }

  class Node {
    const id: string
    const name: string
    const category: string
    const templateId: string
    var emulation: string
    var image: string
    var os: string
    var options: Options
    var ports: seq<Port>
    var nextPortIndex: nat

    /** Ports are numbered 1, 2, 3, ... in creation order, and the counter is the next number. */
    ghost predicate Valid()
      reads this`ports, this`nextPortIndex
    {
      nextPortIndex == |ports| + 1 &&
      forall i :: 0 <= i < |ports| ==> ports[i].node == this && ports[i].index == i + 1
    }

    /** `Node(id, name, category, template_id, options)` with a template id of "" for none. */
    constructor (id: string, name: string, category: NodeCategory, templateId: string, options: Options)
      ensures this.id == id && this.name == name && this.category == CategoryName(category)
      ensures this.templateId == templateId && this.options == options
      ensures emulation == "vsphere" && image == "" && os == ""
      ensures ports == [] && nextPortIndex == 1
      ensures Valid()
    {
      this.id := id;
      this.name := name;
      this.category := CategoryName(category);
      this.templateId := templateId;
      emulation := "vsphere";
      image := "";
      os := "";
      this.options := options;
      ports := [];
      nextPortIndex := 1;
    }

    /** `use_default_physic`. */
    method UseDefaultPhysic()
      modifies this
      ensures options == DefaultPhysic(old(options), os)
      ensures ports == old(ports) && nextPortIndex == old(nextPortIndex)
      ensures emulation == old(emulation) && image == old(image) && os == old(os)
    {
      if os == "windows" {
        options := Set(options, CpuCountKey, Opt(MakeOption(Num(2), "", "个")));
        options := Set(options, RamKey, Opt(MakeOption(Num(2048), "", "MB")));
      } else {
        options := Set(options, CpuCountKey, Opt(MakeOption(Num(1), "", "个")));
        options := Set(options, RamKey, Opt(MakeOption(Num(1024), "", "MB")));
      }
    }

    /** `add_port`: a new unlinked port numbered by the counter, which then moves on. */
    method AddPort() returns (port: Port)
      modifies this`ports, this`nextPortIndex
      ensures fresh(port) && port.node == this && port.index == old(nextPortIndex)
      ensures port.options == [] && port.link == null
      ensures ports == old(ports) + [port] && nextPortIndex == old(nextPortIndex) + 1
      ensures old(Valid()) ==> Valid()
    {
      var index := nextPortIndex;
      nextPortIndex := nextPortIndex + 1;
      port := new Port(this, index);
      ports := ports + [port];
    }

    /**
     * `link_to_node`: one new port here, one on `other` (two here when `other` is this node),
     * both joined by one new link; the ports that existed before are untouched.
     */
    method LinkToNode(other: Node) returns (port1: Port, port2: Port)
      modifies this`ports, this`nextPortIndex, other`ports, other`nextPortIndex
      ensures fresh(port1) && fresh(port2) && port1 != port2
      ensures port1.node == this && port2.node == other
      ensures port1.link != null && fresh(port1.link) && port2.link == port1.link
      ensures port1.link.port1 == port1 && port1.link.port2 == port2
      ensures port1.options == [] && port2.options == []
      ensures other == this ==> ports == old(ports) + [port1, port2]
      ensures other == this ==> port1.index == old(nextPortIndex) && port2.index == old(nextPortIndex) + 1
      ensures other != this ==> ports == old(ports) + [port1] && other.ports == old(other.ports) + [port2]
      ensures other != this ==> port1.index == old(nextPortIndex) && port2.index == old(other.nextPortIndex)
      ensures old(Valid()) && old(other.Valid()) ==> Valid() && other.Valid()
    {
      port1 := AddPort();
      port2 := other.AddPort();
      var link := new Link(port1, port2);
    }

    /** `remove_control_nic`. */
    method RemoveControlNic()
      modifies this
      ensures options == WithoutControlNic(old(options))
      ensures ports == old(ports) && nextPortIndex == old(nextPortIndex)
      ensures emulation == old(emulation) && image == old(image) && os == old(os)
    {
      options := Set(options, NoControlNicKey, Opt(MakeOption(Text("true"), "", "")));
    }

    /** `add_route_entry`: one more route in "route_list", or the error of a non-list one. */
    method AddRouteEntry(target: Network, gateway: Address) returns (r: Outcome)
      modifies this
      ensures AppendRoute(old(options), target, gateway).Ok? ==>
        r == Pass && options == AppendRoute(old(options), target, gateway).value
      ensures AppendRoute(old(options), target, gateway).Err? ==>
        r == Fail(AppendRoute(old(options), target, gateway).error) && options == old(options)
      ensures ports == old(ports) && nextPortIndex == old(nextPortIndex)
      ensures emulation == old(emulation) && image == old(image) && os == old(os)
    {
      var routeTable := Get(options, RouteListKey);
      if routeTable.None? {
        options := Set(options, RouteListKey, List([]));
        routeTable := Some(List([]));
      }
      if !routeTable.value.List? {
        return Fail(AttributeError("append"));
      }
      SetTwice(old(options), RouteListKey, List([]), List(routeTable.value.items + [RouteItem(target, gateway)]));
      options := Set(options, RouteListKey, List(routeTable.value.items + [RouteItem(target, gateway)]));
      r := Pass;
    }
  }

  class Port {
    const node: Node
    const index: nat
    var options: Options
    var link: Link?

    /** The port lies on a link that has it as an end. */
    ghost predicate Linked()
      reads this`link
    {
      link != null && link.AdjacentPort(this).Ok?
    }

    constructor (node: Node, index: nat)
      ensures this.node == node && this.index == index && options == [] && link == null
    {
      this.node := node;
      this.index := index;
      options := [];
      link := null;
    }

    /** `config_ip`. */
    method ConfigIp(ip: Scalar, netmask: Scalar, gateway: Scalar, dns: Scalar)
      modifies this`options
      ensures options == IpOptions(old(options), ip, netmask, gateway, dns)
    {
      options := Set(options, "ip", Opt(MakeOption(ip, "ip", "")));
      options := Set(options, "netmask", Opt(MakeOption(netmask, "ip", "")));
      options := Set(options, "defaultGateway", Opt(MakeOption(gateway, "ip", "")));
      options := Set(options, "dns", Opt(MakeOption(dns, "ip", "")));
    }
  }

  class Link {
    const port1: Port
    const port2: Port

    /** `Link(port1, port2)`: both ports refer back to the new link. */
    constructor (port1: Port, port2: Port)
      modifies port1, port2
      ensures this.port1 == port1 && this.port2 == port2
      ensures port1.link == this && port2.link == this
      ensures port1.options == old(port1.options) && port2.options == old(port2.options)
    {
      this.port1 := port1;
      this.port2 := port2;
      new;
      port1.link := this;
      port2.link := this;
    }

    /** `adjacent_port`: the other end of the link, or an error for a port not on it. */
    function AdjacentPort(port: Port): (r: Result<Port>)
      ensures r.Ok? <==> port == port1 || port == port2
      ensures r.Ok? ==> {port, r.value} == {port1, port2}
      ensures r.Err? ==> r.error == Raised("port not in link")
    {
      if port == port1 then Ok(port2)
      else if port == port2 then Ok(port1)
      else Err(Raised("port not in link"))
    }

    /** Going to the other end and back returns to the start. */
    lemma AdjacentPortInvolution(port: Port)
      requires AdjacentPort(port).Ok?
      ensures AdjacentPort(AdjacentPort(port).value) == Ok(port)
    {
    }
  }

  // ---- the exported element tree ----

  /** An XML element: tag, attributes in insertion order, children in order. */
  datatype Element = Element(tag: string, attrs: seq<Entry<string, string>>, children: seq<Element>)

  /** Whether `fill_options` accepts a value: only `Option`s, and dicts of acceptable entries. */
  predicate Fillable(o: OptValue)
    decreases o, 2
  {
    match o
    case Opt(_) => true
    case Dict(es) => EntriesFillable(es)
    case List(_) => false
    case Other => false
  }

  /** Every entry is acceptable; the value of a list entry must be a list of acceptable items. */
  predicate EntriesFillable(es: seq<Entry<string, OptValue>>)
    decreases es, 1
  {
    if es == [] then true
    else
      var e := es[0];
      assert e in es;
      assert e.value < e;
      (if e.value.List? then ItemsFillable(e.value.items) else Fillable(e.value)) &&
      EntriesFillable(es[1..])
  }

  predicate ItemsFillable(items: seq<OptValue>)
    decreases items, 0
  {
    if items == [] then true else Fillable(items[0]) && ItemsFillable(items[1..])
  }

  /** How many `config` elements one entry of a dict becomes: one per item of a list, else one. */
  function EntryCount(e: Entry<string, OptValue>): nat {
    if e.value.List? then |e.value.items| else 1
  }

  /** How many `config` elements the entries of a dict become. */
  function ConfigCount(es: seq<Entry<string, OptValue>>): nat {
    if es == [] then 0 else EntryCount(es[0]) + ConfigCount(es[1..])
  }

  /** The attributes of an element once an `Option` is written onto it. */
  function OptionAttrs(attrs: seq<Entry<string, string>>, opt: Option): (r: seq<Entry<string, string>>)
    ensures Get(r, "value") == Some(ScalarText(opt.value))
    ensures Get(r, "type") == Some(opt.subtype)
    ensures Get(r, "unit") == Some(opt.unit)
    ensures forall k :: k != "value" && k != "type" && k != "unit" ==> Get(r, k) == Get(attrs, k)
  {
    Set(Set(Set(attrs, "value", ScalarText(opt.value)), "type", opt.subtype), "unit", opt.unit)
  }

  /**
   * `fill_options(entity, options)`: an `Option` writes its value, type and unit; a dict
   * appends its `config` elements; a bare list or any other value raises.
   */
  function FillOptions(e: Element, o: OptValue): (r: Result<Element>)
    ensures r.Ok? <==> Fillable(o)
    ensures r.Ok? ==> r.value.tag == e.tag
    ensures r.Ok? && o.Opt? ==> r.value.children == e.children && r.value.attrs == OptionAttrs(e.attrs, o.option)
    ensures r.Ok? && o.Dict? ==> r.value.attrs == e.attrs
    ensures r.Ok? && o.Dict? ==> |r.value.children| == |e.children| + ConfigCount(o.entries)
    ensures r.Ok? && o.Dict? ==> r.value.children[..|e.children|] == e.children
    ensures r.Ok? && o.Dict? ==> EntryConfigs(o.entries).Ok? && r.value.children[|e.children|..] == EntryConfigs(o.entries).value
    ensures o.List? ==> r == Err(Raised("raw list is not support"))
    ensures o.Other? ==> r == Err(Raised("unknown type"))
    decreases o, 2
  {
    match o
    case Opt(opt) => Ok(e.(attrs := OptionAttrs(e.attrs, opt)))
    case Dict(es) =>
      (match EntryConfigs(es)
       case Err(err) => Err(err)
       case Ok(configs) => Ok(e.(children := e.children + configs)))
    case List(_) => Err(Raised("raw list is not support"))
    case Other => Err(Raised("unknown type"))
  }

  /** The `config` elements for the entries of a dict, in order, or the first entry's error. */
  function EntryConfigs(es: seq<Entry<string, OptValue>>): (r: Result<seq<Element>>)
    ensures r.Ok? <==> EntriesFillable(es)
    ensures r.Ok? ==> |r.value| == ConfigCount(es)
    decreases es, 1
  {
    if es == [] then Ok([])
    else
      var e := es[0];
      assert e in es;
      assert e.value < e;
      match EntryElements(e)
      case Err(err) => Err(err)
      case Ok(cs) =>
        match EntryConfigs(es[1..])
        case Err(err) => Err(err)
        case Ok(rest) => Ok(cs + rest)
  }

  /**
   * The `config` elements for one entry of a dict: for a list, one per item, named after the
   * key and numbered; for any other value, one named after the key.
   */
  function EntryElements(e: Entry<string, OptValue>): (r: Result<seq<Element>>)
    ensures r.Ok? <==> if e.value.List? then ItemsFillable(e.value.items) else Fillable(e.value)
    ensures r.Ok? ==> |r.value| == EntryCount(e)
    decreases e.value, 4
  {
    if e.value.List? then ItemConfigs(e.key, e.value.items, 0)
    else
      match NamedConfig(e.key, e.value)
      case Err(err) => Err(err)
      case Ok(c) => Ok([c])
  }

  /** The `config` element named `key`, filled with `value`. */
  function NamedConfig(key: string, value: OptValue): Result<Element>
    decreases value, 3
  {
    FillOptions(Element("config", [Entry("name", key)], []), value)
  }

  /** Every element the entries of a dict become is a `config` element. */
  lemma {:induction false} EntryConfigsTagged(es: seq<Entry<string, OptValue>>)
    requires EntryConfigs(es).Ok?
    ensures forall c :: c in EntryConfigs(es).value ==> c.tag == "config"
  {
    forall c | c in EntryConfigs(es).value
      ensures c.tag == "config"
    {
      var n :| 0 <= n < |EntryConfigs(es).value| && EntryConfigs(es).value[n] == c;
      var i := EntryAtPlace(es, n);
      EntryConfigsAt(es, i);
      var j := n - ConfigCount(es[..i]);
      if es[i].value.List? {
        ItemConfigNamed(es[i].key, j, es[i].value.items[j]);
      }
    }
  }

  /** The entry whose `config` elements include place `n`. */
  lemma {:induction false} EntryAtPlace(es: seq<Entry<string, OptValue>>, n: int) returns (i: int)
    requires 0 <= n < ConfigCount(es)
    ensures 0 <= i < |es| && ConfigCount(es[..i]) <= n < ConfigCount(es[..i]) + EntryCount(es[i])
  {
    if n < EntryCount(es[0]) {
      assert es[..0] == [];
      i := 0;
    } else {
      var k := EntryAtPlace(es[1..], n - EntryCount(es[0]));
      i := k + 1;
      assert es[..i][0] == es[0] && es[..i][1..] == es[1..][..k];
    }
  }

  /** How many `config` elements a prefix followed by one more entry becomes. */
  lemma {:induction false} ConfigCountSnoc(es: seq<Entry<string, OptValue>>, i: int)
    requires 0 <= i < |es|
    ensures ConfigCount(es[..i + 1]) == ConfigCount(es[..i]) + EntryCount(es[i])
  {
    if i > 0 {
      assert es[..i + 1][1..] == es[1..][..i] && es[..i][1..] == es[1..][..i - 1];
      ConfigCountSnoc(es[1..], i - 1);
    }
  }

  /** A run of places in the second part of a concatenation is that run of the second part. */
  lemma SliceAt<T>(whole: seq<T>, part: seq<T>, lo: int)
    requires 0 <= lo && lo + |part| <= |whole| && whole[lo..lo + |part|] == part
    ensures forall j :: 0 <= j < |part| ==> whole[lo + j] == part[j]
  {
  }

  lemma PrefixOfAppend<T>(whole: seq<T>, h: seq<T>, rest: seq<T>, at: int, n: int)
    requires whole == h + rest && at == 0 && n == |h|
    ensures at + n <= |whole| && whole[at..at + n] == h
  {
  }

  lemma SliceOfAppend<T>(whole: seq<T>, h: seq<T>, rest: seq<T>, part: seq<T>, lo: int, at: int, n: int)
    requires whole == h + rest && 0 <= lo && at == |h| + lo && n == |part|
    requires lo + n <= |rest| && rest[lo..lo + n] == part
    ensures at + n <= |whole| && whole[at..at + n] == part
  {
  }

  /** The `config` elements of a dict: those of its first entry, then those of the others. */
  lemma EntryConfigsCons(es: seq<Entry<string, OptValue>>)
    requires EntryConfigs(es).Ok? && es != []
    ensures EntryElements(es[0]).Ok? && EntryConfigs(es[1..]).Ok?
    ensures EntryConfigs(es).value == EntryElements(es[0]).value + EntryConfigs(es[1..]).value
  {
  }

  /** The elements of entry `i` of a dict are its `config` elements from place `ConfigCount(es[..i])` on. */
  lemma {:induction false} EntryElementsAt(es: seq<Entry<string, OptValue>>, i: int)
    requires EntryConfigs(es).Ok? && 0 <= i < |es|
    ensures EntryElements(es[i]).Ok?
    ensures ConfigCount(es[..i]) + EntryCount(es[i]) <= |EntryConfigs(es).value|
    ensures EntryConfigs(es).value[ConfigCount(es[..i])..ConfigCount(es[..i]) + EntryCount(es[i])] == EntryElements(es[i]).value
  {
    EntryConfigsCons(es);
    var h := EntryElements(es[0]).value;
    var rest := EntryConfigs(es[1..]).value;
    if i == 0 {
      assert es[..0] == [];
      PrefixOfAppend(EntryConfigs(es).value, h, rest, ConfigCount(es[..0]), EntryCount(es[0]));
    } else {
      EntryElementsAt(es[1..], i - 1);
      assert es[..i][0] == es[0] && es[..i][1..] == es[1..][..i - 1];
      var lo := ConfigCount(es[1..][..i - 1]);
      var at, n := ConfigCount(es[..i]), EntryCount(es[i]);
      assert at == |h| + lo;
      assert es[1..][i - 1] == es[i];
      SliceOfAppend(EntryConfigs(es).value, h, rest, EntryElements(es[i]).value, lo, at, n);
    }
  }

  /**
   * Entry `i` of a dict becomes the `config` elements from place `ConfigCount(es[..i])` on: one
   * `config` named after the key and filled with the value for a plain entry, and for a list
   * entry one `config` per item, filled with item `j` and numbered `j`.
   */
  lemma EntryConfigsAt(es: seq<Entry<string, OptValue>>, i: int)
    requires EntryConfigs(es).Ok? && 0 <= i < |es|
    ensures ConfigCount(es[..i + 1]) == ConfigCount(es[..i]) + EntryCount(es[i]) <= |EntryConfigs(es).value|
    ensures es[i].value.List? ==> forall j :: 0 <= j < |es[i].value.items| ==>
      FillOptions(ItemConfig(es[i].key, j), es[i].value.items[j]) == Ok(EntryConfigs(es).value[ConfigCount(es[..i]) + j])
    ensures !es[i].value.List? ==>
      FillOptions(Element("config", [Entry("name", es[i].key)], []), es[i].value) == Ok(EntryConfigs(es).value[ConfigCount(es[..i])])
    ensures !es[i].value.List? ==> Get(EntryConfigs(es).value[ConfigCount(es[..i])].attrs, "name") == Some(es[i].key)
  {
    ConfigCountSnoc(es, i);
    EntryElementsAt(es, i);
    var e := es[i];
    var lo := ConfigCount(es[..i]);
    SliceAt(EntryConfigs(es).value, EntryElements(e).value, lo);
    if !e.value.List? {
      assert EntryConfigs(es).value[lo + 0] == EntryElements(e).value[0];
      GetDistinctAt([Entry("name", e.key)], 0);
    }
  }

  /** Item `j` of list entry `i` becomes a `config` element named after the key and numbered `j`. */
  lemma EntryConfigsItemAt(es: seq<Entry<string, OptValue>>, i: int, j: int)
    requires EntryConfigs(es).Ok? && 0 <= i < |es| && es[i].value.List? && 0 <= j < |es[i].value.items|
    ensures ConfigCount(es[..i]) + j < |EntryConfigs(es).value|
    ensures EntryConfigs(es).value[ConfigCount(es[..i]) + j].tag == "config"
    ensures Get(EntryConfigs(es).value[ConfigCount(es[..i]) + j].attrs, "name") == Some(es[i].key)
    ensures Get(EntryConfigs(es).value[ConfigCount(es[..i]) + j].attrs, "index") == Some(Dec(j))
  {
    EntryConfigsAt(es, i);
    ItemConfigNamed(es[i].key, j, es[i].value.items[j]);
  }

  /** The fresh `config` element for item `index` of the list under `key`. */
  function ItemConfig(key: string, index: nat): Element {
    Element("config", [Entry("name", key), Entry("index", Dec(index))], [])
  }

  /**
   * The `config` elements for the items of a list entry: item `j` fills the `config` element
   * named after the key and numbered `index + j`.
   */
  function ItemConfigs(key: string, items: seq<OptValue>, index: nat): (r: Result<seq<Element>>)
    ensures r.Ok? <==> ItemsFillable(items)
    ensures r.Ok? ==> |r.value| == |items|
    ensures r.Ok? ==> forall j {:trigger items[j]} :: 0 <= j < |items| ==> FillOptions(ItemConfig(key, index + j), items[j]) == Ok(r.value[j])
    decreases items, 0
  {
    if items == [] then Ok([])
    else
      match FillOptions(ItemConfig(key, index), items[0])
      case Err(err) => Err(err)
      case Ok(c) =>
        match ItemConfigs(key, items[1..], index + 1)
        case Err(err) => Err(err)
        case Ok(rest) =>
          var r := [c] + rest;
          assert r[1..] == rest;
          Ok(r)
  }

  /** Item `j` of a list entry becomes a `config` element named after the key with index `j`. */
  lemma ItemConfigNamed(key: string, j: nat, item: OptValue)
    requires FillOptions(ItemConfig(key, j), item).Ok?
    ensures FillOptions(ItemConfig(key, j), item).value.tag == "config"
    ensures Get(FillOptions(ItemConfig(key, j), item).value.attrs, "name") == Some(key)
    ensures Get(FillOptions(ItemConfig(key, j), item).value.attrs, "index") == Some(Dec(j))
  {
    GetDistinctAt(ItemConfig(key, j).attrs, 1);
  }

  /** The attributes of the `interface` element of `port`, whose link leads to `peer`. */
  function InterfaceAttrs(port: Port, peer: Port): (r: seq<Entry<string, string>>)
    ensures Get(r, "index") == Some(Dec(port.index))
    ensures Get(r, "toNode") == Some(peer.node.name)
    ensures Get(r, "toPort") == Some(Dec(peer.index))
  {
    var attrs := [
      Entry("name", ""), Entry("index", Dec(port.index)),
      Entry("toNode", peer.node.name), Entry("toPort", Dec(peer.index))];
    GetDistinctAt(attrs, 1);
    GetDistinctAt(attrs, 2);
    GetDistinctAt(attrs, 3);
    attrs
  }

  /** The `interface` element of a port: its number and the peer's node name and number. */
  function InterfaceElement(port: Port): (r: Result<Element>)
    reads port
    ensures r.Ok? ==> port.link != null && port.link.AdjacentPort(port).Ok?
    ensures r.Ok? ==> r.value.tag == "interface"
    ensures r.Ok? ==> r.value.attrs == InterfaceAttrs(port, port.link.AdjacentPort(port).value)
    ensures r.Ok? ==> EntryConfigs(port.options).Ok? && r.value.children == EntryConfigs(port.options).value
    ensures port.link == null ==> r == Err(AttributeError("adjacent_port"))
  {
    if port.link == null then Err(AttributeError("adjacent_port"))
    else
      match port.link.AdjacentPort(port)
      case Err(err) => Err(err)
      case Ok(peer) => FillOptions(Element("interface", InterfaceAttrs(port, peer), []), Dict(port.options))
  }

  /** The values of some results in order, or the error of the first that failed. */
  function Collect(rs: seq<Result<Element>>): (r: Result<seq<Element>>)
    ensures r.Ok? <==> forall i :: 0 <= i < |rs| ==> rs[i].Ok?
    ensures r.Ok? ==> |r.value| == |rs|
    ensures r.Ok? ==> forall i :: 0 <= i < |rs| ==> r.value[i] == rs[i].value
  {
    if rs == [] then Ok([])
    else
      var init := rs[..|rs| - 1];
      match Collect(init)
      case Err(err) => Err(err)
      case Ok(es) =>
        match rs[|rs| - 1]
        case Err(err) => Err(err)
        case Ok(last) => Ok(es + [last])
  }

  /** Once a prefix of the results has failed, the whole sequence fails with the same error. */
  lemma {:induction false} CollectErrorPersists(rs: seq<Result<Element>>, k: nat)
    requires k <= |rs| && Collect(rs[..k]).Err?
    ensures Collect(rs) == Collect(rs[..k])
    decreases |rs| - k
  {
    if k < |rs| {
      assert rs[..k + 1][..k] == rs[..k];
      CollectErrorPersists(rs, k + 1);
    } else {
      assert rs[..k] == rs;
    }
  }

  /** The `interface` element of each port, failed or not, in port order. */
  function InterfaceResults(ports: seq<Port>): (rs: seq<Result<Element>>)
    reads ports
    ensures |rs| == |ports|
    ensures forall i :: 0 <= i < |ports| ==> rs[i] == InterfaceElement(ports[i])
  {
    seq(|ports|, i requires 0 <= i < |ports| reads ports => InterfaceElement(ports[i]))
  }

  /** The `interface` elements of some ports in order, or the error of the first that fails. */
  function InterfaceElements(ports: seq<Port>): (r: Result<seq<Element>>)
    reads ports
    ensures r.Ok? <==> forall i :: 0 <= i < |ports| ==> InterfaceElement(ports[i]).Ok?
    ensures r.Ok? ==> |r.value| == |ports|
    ensures r.Ok? ==> forall i :: 0 <= i < |ports| ==> r.value[i] == InterfaceElement(ports[i]).value
  {
    Collect(InterfaceResults(ports))
  }

  /** Once a prefix of the ports fails, the whole sequence fails with the same error. */
  lemma InterfaceElementsErrorPersists(ports: seq<Port>, k: nat)
    requires k <= |ports| && InterfaceElements(ports[..k]).Err?
    ensures InterfaceElements(ports) == InterfaceElements(ports[..k])
  {
    assert InterfaceResults(ports[..k]) == InterfaceResults(ports)[..k];
    CollectErrorPersists(InterfaceResults(ports), k);
  }

  /** The attributes of a `node` element, in the order the exporter writes them. */
  function NodeAttrs(node: Node): seq<Entry<string, string>>
    reads node
  {
    [Entry("id", node.id), Entry("name", node.name), Entry("templateId", node.templateId),
     Entry("category", node.category), Entry("emulation", node.emulation), Entry("os", node.os),
     Entry("image", node.image)]
  }

  /**
   * The `node` element of a node: its attributes, then the `config` elements of its options,
   * then one `interface` element per port in port order.
   */
  function NodeElement(node: Node): (r: Result<Element>)
    reads node, node.ports
    ensures r.Ok? <==> EntriesFillable(node.options) && forall i :: 0 <= i < |node.ports| ==> InterfaceElement(node.ports[i]).Ok?
    ensures r.Ok? ==> r.value.tag == "node" && r.value.attrs == NodeAttrs(node)
    ensures r.Ok? ==> |r.value.children| == ConfigCount(node.options) + |node.ports|
    ensures r.Ok? ==> EntryConfigs(node.options).Ok? && r.value.children[..ConfigCount(node.options)] == EntryConfigs(node.options).value
    ensures r.Ok? ==> forall i :: 0 <= i < |node.ports| ==>
      r.value.children[ConfigCount(node.options) + i] == InterfaceElement(node.ports[i]).value
  {
    match FillOptions(Element("node", NodeAttrs(node), []), Dict(node.options))
    case Err(err) => Err(err)
    case Ok(e) =>
      match InterfaceElements(node.ports)
      case Err(err) => Err(err)
      case Ok(interfaces) => Ok(e.(children := e.children + interfaces))
  }

  /** The exporter's inner loop: one `interface` element per port, or the first error. */
  method ExportInterfaces(ports: seq<Port>) returns (r: Result<seq<Element>>)
    ensures r == InterfaceElements(ports)
  {
    ghost var results := InterfaceResults(ports);
    var interfaces: seq<Element> := [];
    var k := 0;
    while k < |ports|
      invariant 0 <= k <= |ports|
      invariant Collect(results[..k]) == Ok(interfaces)
    {
      assert results[..k + 1][..k] == results[..k];
      var p := InterfaceElement(ports[k]);
      if p.Err? {
        CollectErrorPersists(results, k + 1);
        return Err(p.error);
      }
      interfaces := interfaces + [p.value];
      k := k + 1;
    }
    assert results[..k] == results;
    r := Ok(interfaces);
  }

  /** The exporter's loop body for one node: the `node` element, then one `interface` per port. */
  method ExportNode(node: Node) returns (r: Result<Element>)
    ensures r == NodeElement(node)
  {
    var n := FillOptions(Element("node", NodeAttrs(node), []), Dict(node.options));
    if n.Err? {
      return Err(n.error);
    }
    var interfaces := ExportInterfaces(node.ports);
    if interfaces.Err? {
      return Err(interfaces.error);
    }
    r := Ok(n.value.(children := n.value.children + interfaces.value));
  }

  /** One more exported node extends the exported prefix. */
  lemma ExportedSnoc(nodes: seq<Entry<string, Node>>, children: seq<Element>, x: Element)
    requires |children| < |nodes|
    requires forall j :: 0 <= j < |children| ==> NodeElement(nodes[j].value) == Ok(children[j])
    requires NodeElement(nodes[|children|].value) == Ok(x)
    ensures forall j :: 0 <= j < |children| + 1 ==> NodeElement(nodes[j].value) == Ok((children + [x])[j])
  {
  }

  /**
   * `CadtsTopologyExporter.export`, up to the XML text: a `topo` element of version 2.0 with
   * one `node` element per node in the topology's order, or the first error.
   */
  method Export(topology: Topology) returns (r: Result<Element>)
    ensures r.Ok? <==> forall i :: 0 <= i < |topology.nodes| ==> NodeElement(topology.nodes[i].value).Ok?
    ensures r.Ok? ==> r.value.tag == "topo" && r.value.attrs == [Entry("_v", "2.0")]
    ensures r.Ok? ==> |r.value.children| == |topology.nodes|
    ensures r.Ok? ==> forall i :: 0 <= i < |topology.nodes| ==>
      r.value.children[i] == NodeElement(topology.nodes[i].value).value
    ensures r.Err? ==> exists i :: (0 <= i < |topology.nodes| && NodeElement(topology.nodes[i].value) == Err(r.error) &&
      forall j :: 0 <= j < i ==> NodeElement(topology.nodes[j].value).Ok?)
  {
    var children: seq<Element> := [];
    var i := 0;
    while i < |topology.nodes|
      invariant 0 <= i <= |topology.nodes|
      invariant |children| == i
      invariant forall j :: 0 <= j < i ==> NodeElement(topology.nodes[j].value) == Ok(children[j])
    {
      var n := ExportNode(topology.nodes[i].value);
      if n.Err? {
        r := Err(n.error);
        assert NodeElement(topology.nodes[i].value) == Err(r.error);
        return;
      }
      ExportedSnoc(topology.nodes, children, n.value);
      children := children + [n.value];
      i := i + 1;
    }
    r := Ok(Element("topo", [Entry("_v", "2.0")], children));
  }
}

/**
 * The scene a scene file declares: hosts, routers and LANs by id, node templates, and the
 * environment; the linking pass (`adjust`) that binds templates and LAN memberships; and the
 * extraction of the exported topology from it.
 */
module Scene {
  import opened Wrappers
  import opened OrderedDict
  import opened Ipv4
  import opened Topo

  /** The `NodeRole` enum; its member names are what a scene file's role keyword is matched against. */
  datatype NodeRole = SWITCH | HOST | SERVER | ATTACKER | TERMINAL | ROUTER

  function RoleName(role: NodeRole): string {
    match role
    case SWITCH => "SWITCH"
    case HOST => "HOST"
    case SERVER => "SERVER"
    case ATTACKER => "ATTACKER"
    case TERMINAL => "TERMINAL"
    case ROUTER => "ROUTER"
  }

  /** Member lookup by name, `NodeRole[name]`: no member of that name is a `KeyError`. */
  function RoleNamed(name: string): (r: Result<NodeRole>)
    ensures r.Ok? ==> RoleName(r.value) == name
    ensures r.Err? ==> r.error == KeyError(name) && forall role :: RoleName(role) != name
  {
    if name == "SWITCH" then Ok(SWITCH)
    else if name == "HOST" then Ok(HOST)
    else if name == "SERVER" then Ok(SERVER)
    else if name == "ATTACKER" then Ok(ATTACKER)
    else if name == "TERMINAL" then Ok(TERMINAL)
    else if name == "ROUTER" then Ok(ROUTER)
    else Err(KeyError(name))
  }

  /** Every role is found under its own name. */
  lemma RoleNamedInverse(role: NodeRole)
    ensures RoleNamed(RoleName(role)) == Ok(role)
  {
  }

  // ---- templates ----

  const ComputerImage := "/images/计算机.png"
  const VirtualPcImage := "/images/虚拟PC.png"
  const ServerImage := "/images/服务器.png"
  const RouterImage := "/images/路由器.png"
  const SwitchImage := "/images/交换机.png"

  /** A node template: what a node using it is emulated with, runs, and is drawn as. */
  datatype NodeTemplate = NodeTemplate(id: string, category: NodeCategory, emulation: string, os: string, image: string)

  /** `NodeTemplate(template_id)`: a Windows host emulated on vSphere, drawn as a computer. */
  function NewTemplate(id: string): NodeTemplate {
    NodeTemplate(id, Host, "vsphere", "windows", ComputerImage)
  }

  /**
   * `NodeTemplate.default_template`: the new template with the image, operating system and
   * emulation the role calls for; a plain `HOST` keeps all of the new template's fields.
   */
  function DefaultTemplate(id: string, role: NodeRole): (t: NodeTemplate)
    ensures t.id == id && t.category == Host
    ensures t.emulation == (if role == SWITCH then "" else "vsphere")
    ensures t.os == (if role == SWITCH then "" else if role == SERVER || role == ROUTER then "linux" else "windows")
    ensures t.image == match role
      case ATTACKER => VirtualPcImage
      case SERVER => ServerImage
      case ROUTER => RouterImage
      case SWITCH => SwitchImage
      case _ => ComputerImage
  {
    var t := NewTemplate(id);
    if role == ATTACKER then t.(image := VirtualPcImage)
    else if role == SERVER then t.(image := ServerImage, os := "linux")
    else if role == TERMINAL then t.(image := ComputerImage)
    else if role == ROUTER then t.(image := RouterImage, os := "linux")
    else if role == SWITCH then t.(os := "", image := SwitchImage, emulation := "")
    else t
  }

  // ---- the environment, routes and addresses ----

  /** The scene's environment: the external networks, and the control network's gateway if any. */
  datatype Environment = Environment(externalNets: seq<Network>, controlNetGateway: Maybe<Address>)

  const EmptyEnvironment := Environment([], None)

  datatype RouteEntry = RouteEntry(targetNet: Network, gateway: Address)

  /** A router's static routes, in declaration order. */
  class RouteTable {
    var entries: seq<RouteEntry>

    constructor (entries: seq<RouteEntry>)
      ensures this.entries == entries
    {
      this.entries := entries;
    }

    method AddEntry(targetNet: Network, gateway: Address)
      modifies this
      ensures entries == old(entries) + [RouteEntry(targetNet, gateway)]
    {
      entries := entries + [RouteEntry(targetNet, gateway)];
    }

    /** `merge`: the other table's entries follow this one's (twice this one's when merged with itself). */
    method Merge(other: RouteTable)
      modifies this
      ensures entries == old(entries) + old(other.entries)
    {
      entries := entries + other.entries;
    }
  }

  /** The route list an attacker gets: every external network through the control network's gateway. */
  function EnvironmentRoutes(env: Environment): (routes: seq<RouteEntry>)
    requires env.controlNetGateway.Some?
    ensures |routes| == |env.externalNets|
    ensures forall i :: 0 <= i < |routes| ==> routes[i] == RouteEntry(env.externalNets[i], env.controlNetGateway.value)
  {
    seq(|env.externalNets|, i requires 0 <= i < |env.externalNets| => RouteEntry(env.externalNets[i], env.controlNetGateway.value))
  }

  /** An address with the network it lies in: `IpWithMask("a.b.c.d/k")`. */
  datatype IpWithMask = IpWithMask(ip: Address, net: Network)

  /** The network of `ip_network(text, strict=False)`: the host bits of the address are dropped. */
  function MakeIpWithMask(ip: Address, prefixLen: PrefixLength): (r: IpWithMask)
    ensures r.ip == ip && r.net.prefixLen == prefixLen
    ensures r.net.address <= ip < r.net.address + HostSize(prefixLen)
  {
    IpWithMask(ip, Network(MaskAddress(ip, prefixLen), prefixLen))
  }

  /** Where a port goes: into a LAN (with its address in it, if given), or straight to another node's port. */
  datatype HostInLan = HostInLan(lanId: string, ip: Maybe<string>)

  /**
   * A direct port-to-port connection. The scene file's peer port name is recorded under
   * `peerPortName`; the `port_name` attribute itself is never set.
   */
  datatype PortToPort = PortToPort(nodeId: string, portName: Maybe<string>, selfIp: Maybe<IpWithMask>,
                                   peerIp: Maybe<IpWithMask>, peerPortName: Maybe<string>)

  function NewPortToPort(nodeId: string): PortToPort {
    PortToPort(nodeId, None, None, None, None)
  }

  /** What `NodePort(in_lan_or_to_port)` is given: a `HostInLan`, a `PortToPort`, or neither. */
  datatype PortTarget = InLan(inLan: HostInLan) | ToPort(toPort: PortToPort) | NoTarget

  /** A port a scene file declares on a host or router. */
  class NodePort {
    const name: Maybe<string>
    const inLan: Maybe<HostInLan>
    const toPort: Maybe<PortToPort>
    /** The LAN the port is bound to by `adjust`; null before that. */
    var lan: Lan?

    constructor (target: PortTarget, name: Maybe<string>)
      ensures this.name == name && lan == null
      ensures inLan == (if target.InLan? then Some(target.inLan) else None)
      ensures toPort == (if target.ToPort? then Some(target.toPort) else None)
      ensures !(inLan.Some? && toPort.Some?)
    {
      this.name := name;
      inLan := if target.InLan? then Some(target.inLan) else None;
      toPort := if target.ToPort? then Some(target.toPort) else None;
      lan := null;
    }
  }

  // ---- the options a node is exported with ----

  /** The bag after `add_route_entry` for each entry in turn, stopping at the first failure. */
  function AppendRoutes(bag: Options, entries: seq<RouteEntry>): Result<Options>
    decreases |entries|
  {
    if entries == [] then Ok(bag)
    else
      var last := entries[|entries| - 1];
      match AppendRoutes(bag, entries[..|entries| - 1])
      case Ok(b) => AppendRoute(b, last.targetNet, last.gateway)
      case Err(e) => Err(e)
  }

  /** The route dicts for a list of route entries. */
  function RouteItems(entries: seq<RouteEntry>): (items: seq<OptValue>)
    ensures |items| == |entries|
    ensures forall i :: 0 <= i < |entries| ==> items[i] == RouteItem(entries[i].targetNet, entries[i].gateway)
  {
    seq(|entries|, i requires 0 <= i < |entries| => RouteItem(entries[i].targetNet, entries[i].gateway))
  }

  lemma RouteItemsSnoc(entries: seq<RouteEntry>)
    requires entries != []
    ensures RouteItems(entries) == RouteItems(entries[..|entries| - 1]) + [RouteItem(entries[|entries| - 1].targetNet, entries[|entries| - 1].gateway)]
  {
  }

  lemma RouteItemsConcat(first: seq<RouteEntry>, second: seq<RouteEntry>)
    ensures RouteItems(first + second) == RouteItems(first) + RouteItems(second)
  {
  }

  lemma ConcatAssociative<T>(a: seq<T>, b: seq<T>, c: seq<T>)
    ensures (a + b) + c == a + (b + c)
  {
  }

  /** Whether a bag can take routes: its "route_list" is absent or a list. */
  predicate TakesRoutes(bag: Options) {
    Get(bag, RouteListKey).None? || Get(bag, RouteListKey).value.List?
  }

  /** Appending routes succeeds exactly when there is nothing to append or the bag takes routes. */
  lemma {:induction false} AppendRoutesOk(bag: Options, entries: seq<RouteEntry>)
    ensures AppendRoutes(bag, entries).Ok? <==> entries == [] || TakesRoutes(bag)
    ensures AppendRoutes(bag, entries).Err? ==> AppendRoutes(bag, entries).error == AttributeError("append")
    decreases |entries|
  {
    if entries != [] {
      var init := entries[..|entries| - 1];
      AppendRoutesOk(bag, init);
      if init != [] && AppendRoutes(bag, init).Ok? {
        AppendRoutesRoutes(bag, init);
      }
    }
  }

  /** After appending, "route_list" holds the old routes followed by the new ones, in order. */
  lemma {:induction false} AppendRoutesRoutes(bag: Options, entries: seq<RouteEntry>)
    requires AppendRoutes(bag, entries).Ok? && entries != []
    ensures Get(AppendRoutes(bag, entries).value, RouteListKey) == Some(List(Routes(bag) + RouteItems(entries)))
    decreases |entries|
  {
    var init := entries[..|entries| - 1];
    var last := entries[|entries| - 1];
    var item := RouteItem(last.targetNet, last.gateway);
    var b := AppendRoutes(bag, init).value;
    assert AppendRoutes(bag, entries) == AppendRoute(b, last.targetNet, last.gateway);
    assert Get(AppendRoutes(bag, entries).value, RouteListKey) == Some(List(Routes(b) + [item]));
    RouteItemsSnoc(entries);
    if init != [] {
      AppendRoutesRoutes(bag, init);
      assert Routes(b) == Routes(bag) + RouteItems(init);
      ConcatAssociative(Routes(bag), RouteItems(init), [item]);
    } else {
      assert b == bag;
      assert RouteItems(entries) == [item];
    }
  }

  /** Appending routes changes no option but "route_list". */
  lemma {:induction false} AppendRoutesKeeps(bag: Options, entries: seq<RouteEntry>, k: string)
    requires AppendRoutes(bag, entries).Ok? && k != RouteListKey
    ensures Get(AppendRoutes(bag, entries).value, k) == Get(bag, k)
    decreases |entries|
  {
    if entries != [] {
      AppendRoutesKeeps(bag, entries[..|entries| - 1], k);
    }
  }

  /** One more entry: the route of entry `k` appended to the bag after the first `k` entries. */
  lemma AppendRoutesStep(bag: Options, entries: seq<RouteEntry>, k: nat, b: Options)
    requires k < |entries| && AppendRoutes(bag, entries[..k]) == Ok(b)
    ensures AppendRoutes(bag, entries[..k + 1]) == AppendRoute(b, entries[k].targetNet, entries[k].gateway)
  {
    assert entries[..k + 1][..k] == entries[..k];
  }

  /** An error part-way through a list of routes is the error of the whole list. */
  lemma {:induction false} AppendRoutesErrorPersists(bag: Options, entries: seq<RouteEntry>, k: nat)
    requires k <= |entries| && AppendRoutes(bag, entries[..k]).Err?
    ensures AppendRoutes(bag, entries) == AppendRoutes(bag, entries[..k])
    decreases |entries| - k
  {
    if k < |entries| {
      assert entries[..k + 1][..k] == entries[..k];
      AppendRoutesErrorPersists(bag, entries, k + 1);
    } else {
      assert entries[..k] == entries;
    }
  }

  /** The routes a node of this role gets from the environment: an attacker's, when there is a gateway. */
  function PolicyRoutes(role: NodeRole, env: Environment): seq<RouteEntry> {
    if role == ATTACKER && env.controlNetGateway.Some? then EnvironmentRoutes(env) else []
  }

  /**
   * The routes each node gets from the environment, nodes in extraction order, when every
   * attacker gets the external networks in full: what a list of networks gives.
   */
  function RoleRoutes(roles: seq<NodeRole>, env: Environment): (rs: seq<seq<RouteEntry>>)
    ensures |rs| == |roles|
    ensures forall i :: 0 <= i < |roles| && roles[i] == ATTACKER && env.controlNetGateway.Some? ==> rs[i] == EnvironmentRoutes(env)
    ensures forall i :: 0 <= i < |roles| && (roles[i] != ATTACKER || env.controlNetGateway.None?) ==> rs[i] == []
    decreases |roles|
  {
    if roles == [] then [] else [PolicyRoutes(roles[0], env)] + RoleRoutes(roles[1..], env)
  }

  /**
   * The routes each node gets from the environment, nodes in extraction order, when the
   * external networks are a one-shot iterator, as `external_net` stores them: the first
   * attacker to read them (attackers read them only when there is a gateway) takes them all,
   * and every later attacker finds the iterator `spent`.
   */
  function SpentRoutes(roles: seq<NodeRole>, env: Environment, spent: bool): (rs: seq<seq<RouteEntry>>)
    ensures |rs| == |roles|
    decreases |roles|
  {
    if roles == [] then []
    else
      var drains := roles[0] == ATTACKER && env.controlNetGateway.Some?;
      [if spent then [] else PolicyRoutes(roles[0], env)] + SpentRoutes(roles[1..], env, spent || drains)
  }

  /** A spent iterator gives no node any route. */
  lemma {:induction false} SpentRoutesNone(roles: seq<NodeRole>, env: Environment)
    ensures forall i :: 0 <= i < |roles| ==> SpentRoutes(roles, env, true)[i] == []
    decreases |roles|
  {
    if roles != [] {
      SpentRoutesNone(roles[1..], env);
    }
  }

  /** With the iterator, at most one node gets routes from the environment. */
  lemma {:induction false} SpentRoutesOnce(roles: seq<NodeRole>, env: Environment, spent: bool)
    ensures forall i, j :: 0 <= i < j < |roles| && SpentRoutes(roles, env, spent)[i] != [] ==> SpentRoutes(roles, env, spent)[j] == []
    decreases |roles|
  {
    if roles != [] {
      var drains := roles[0] == ATTACKER && env.controlNetGateway.Some?;
      var rest := SpentRoutes(roles[1..], env, spent || drains);
      SpentRoutesOnce(roles[1..], env, spent || drains);
      if !spent && PolicyRoutes(roles[0], env) != [] {
        SpentRoutesNone(roles[1..], env);
      }
      forall i, j | 0 <= i < j < |roles| && SpentRoutes(roles, env, spent)[i] != []
        ensures SpentRoutes(roles, env, spent)[j] == []
      {
        assert SpentRoutes(roles, env, spent)[j] == rest[j - 1];
        if i > 0 {
          assert SpentRoutes(roles, env, spent)[i] == rest[i - 1];
        }
      }
    }
  }

  /** Up to and including the first attacker, the iterator gives what the list gives. */
  lemma {:induction false} SpentRoutesAgree(roles: seq<NodeRole>, env: Environment, i: nat)
    requires i < |roles| && forall j :: 0 <= j < i ==> roles[j] != ATTACKER
    ensures SpentRoutes(roles, env, false)[i] == RoleRoutes(roles, env)[i]
    decreases i
  {
    if i > 0 {
      SpentRoutesAgree(roles[1..], env, i - 1);
    }
  }

  /**
   * Two attackers and one external network: as written, the second attacker gets no route,
   * where a list of networks would route both.
   */
  lemma SecondAttackerUnrouted()
    ensures var env := Environment([Network(0, 8)], Some(1));
      SpentRoutes([ATTACKER, ATTACKER], env, false) == [[RouteEntry(Network(0, 8), 1)], []] &&
      RoleRoutes([ATTACKER, ATTACKER], env) == [[RouteEntry(Network(0, 8), 1)], [RouteEntry(Network(0, 8), 1)]]
  {
    var env := Environment([Network(0, 8)], Some(1));
    assert EnvironmentRoutes(env) == [RouteEntry(Network(0, 8), 1)];
    assert [ATTACKER, ATTACKER][1..] == [ATTACKER];
    assert SpentRoutes([ATTACKER], env, true) == [[]];
  }

  /**
   * The entity's options after the role's policy: an attacker gets its routes, any other role
   * is marked as having no control NIC.
   */
  function PolicyOptions(bag: Options, role: NodeRole, env: Environment): Result<Options> {
    if role != ATTACKER then Ok(WithoutControlNic(bag)) else AppendRoutes(bag, PolicyRoutes(role, env))
  }

  /**
   * The options of the node a host or router becomes: the role's policy, then the default CPU
   * count and memory for `os`, then the entity's own route table (empty for a host).
   */
  function NodeOptions(bag: Options, role: NodeRole, env: Environment, os: string, table: seq<RouteEntry>): Result<Options> {
    match PolicyOptions(bag, role, env)
    case Ok(b) => AppendRoutes(DefaultPhysic(b, os), table)
    case Err(e) => Err(e)
  }

  /** The policy leaves "route_list" alone when it adds no route, and makes it a list when it adds some. */
  lemma PolicyOptionsRoutes(bag: Options, role: NodeRole, env: Environment)
    ensures PolicyOptions(bag, role, env).Ok? <==> PolicyRoutes(role, env) == [] || TakesRoutes(bag)
    ensures PolicyOptions(bag, role, env).Err? ==> PolicyOptions(bag, role, env).error == AttributeError("append")
    ensures PolicyOptions(bag, role, env).Ok? && PolicyRoutes(role, env) == [] ==>
      Get(PolicyOptions(bag, role, env).value, RouteListKey) == Get(bag, RouteListKey)
    ensures PolicyOptions(bag, role, env).Ok? && PolicyRoutes(role, env) != [] ==>
      Get(PolicyOptions(bag, role, env).value, RouteListKey) == Some(List(Routes(bag) + RouteItems(PolicyRoutes(role, env))))
  {
    var routes := PolicyRoutes(role, env);
    AppendRoutesOk(bag, routes);
    if role == ATTACKER && routes != [] && PolicyOptions(bag, role, env).Ok? {
      AppendRoutesRoutes(bag, routes);
    }
  }

  /**
   * Building the node options fails, for want of `append`, exactly when some route is due
   * and the entity's "route_list" is not a list.
   */
  lemma NodeOptionsOk(bag: Options, role: NodeRole, env: Environment, os: string, table: seq<RouteEntry>)
    ensures NodeOptions(bag, role, env, os, table).Ok? <==> PolicyRoutes(role, env) + table == [] || TakesRoutes(bag)
    ensures NodeOptions(bag, role, env, os, table).Err? ==> NodeOptions(bag, role, env, os, table).error == AttributeError("append")
  {
    PolicyOptionsRoutes(bag, role, env);
    if PolicyOptions(bag, role, env).Ok? {
      var b := PolicyOptions(bag, role, env).value;
      var physic := DefaultPhysic(b, os);
      assert Get(physic, RouteListKey) == Get(b, RouteListKey);
      AppendRoutesOk(physic, table);
    }
  }

  /**
   * The node options mark exactly the non-attackers as having no control NIC, set CPU count
   * and memory by operating system, and keep every other option but "route_list".
   */
  lemma NodeOptionsSettings(bag: Options, role: NodeRole, env: Environment, os: string, table: seq<RouteEntry>, k: string)
    requires NodeOptions(bag, role, env, os, table).Ok?
    ensures k == NoControlNicKey ==>
      Get(NodeOptions(bag, role, env, os, table).value, k) ==
        (if role == ATTACKER then Get(bag, k) else Some(Opt(Option(Text("true"), "string", ""))))
    ensures k == CpuCountKey ==>
      Get(NodeOptions(bag, role, env, os, table).value, k) == Some(Opt(Option(Num(if os == "windows" then 2 else 1), "number", "个")))
    ensures k == RamKey ==>
      Get(NodeOptions(bag, role, env, os, table).value, k) == Some(Opt(Option(Num(if os == "windows" then 2048 else 1024), "number", "MB")))
    ensures k != NoControlNicKey && k != CpuCountKey && k != RamKey && k != RouteListKey ==>
      Get(NodeOptions(bag, role, env, os, table).value, k) == Get(bag, k)
  {
    if k != RouteListKey {
      var b := PolicyOptions(bag, role, env).value;
      if role == ATTACKER {
        AppendRoutesKeeps(bag, PolicyRoutes(role, env), k);
      }
      AppendRoutesKeeps(DefaultPhysic(b, os), table, k);
    }
  }

  /** The node's "route_list" holds the entity's routes, then the policy's, then the table's, in order. */
  lemma NodeOptionsRoutes(bag: Options, role: NodeRole, env: Environment, os: string, table: seq<RouteEntry>)
    requires NodeOptions(bag, role, env, os, table).Ok?
    ensures PolicyRoutes(role, env) + table == [] ==>
      Get(NodeOptions(bag, role, env, os, table).value, RouteListKey) == Get(bag, RouteListKey)
    ensures PolicyRoutes(role, env) + table != [] ==>
      Get(NodeOptions(bag, role, env, os, table).value, RouteListKey) ==
        Some(List(Routes(bag) + RouteItems(PolicyRoutes(role, env) + table)))
  {
    PolicyOptionsRoutes(bag, role, env);
    var b := PolicyOptions(bag, role, env).value;
    var physic := DefaultPhysic(b, os);
    assert Get(physic, RouteListKey) == Get(b, RouteListKey);
    assert NodeOptions(bag, role, env, os, table) == AppendRoutes(physic, table);
    RoutesAfterPolicy(bag, b, physic, PolicyRoutes(role, env), table);
  }

  /** The route list step of `NodeOptionsRoutes`, over any bag whose routes are those of `b`. */
  lemma RoutesAfterPolicy(bag: Options, b: Options, physic: Options, routes: seq<RouteEntry>, table: seq<RouteEntry>)
    requires Get(physic, RouteListKey) == Get(b, RouteListKey)
    requires routes == [] ==> Get(b, RouteListKey) == Get(bag, RouteListKey)
    requires routes != [] ==> Get(b, RouteListKey) == Some(List(Routes(bag) + RouteItems(routes)))
    requires AppendRoutes(physic, table).Ok?
    ensures routes + table == [] ==> Get(AppendRoutes(physic, table).value, RouteListKey) == Get(bag, RouteListKey)
    ensures routes + table != [] ==>
      Get(AppendRoutes(physic, table).value, RouteListKey) == Some(List(Routes(bag) + RouteItems(routes + table)))
  {
    var r := AppendRoutes(physic, table).value;
    if table == [] {
      assert r == physic;
      assert routes + table == routes;
    } else {
      AppendRoutesRoutes(physic, table);
      assert Routes(physic) == Routes(b);
      if routes == [] {
        assert Routes(b) == Routes(bag);
        assert routes + table == table;
      } else {
        assert Routes(b) == Routes(bag) + RouteItems(routes);
        RouteItemsConcat(routes, table);
        ConcatAssociative(Routes(bag), RouteItems(routes), RouteItems(table));
      }
    }
  }

  // ---- hosts, routers and LANs ----

  /**
   * A host or a router of the scene (`Host` and `Router` share `HostBase`): a router is the
   * one that has a route table. A template id of "" stands for none.
   */
  class HostBase {
    const id: string
    const role: NodeRole
    const name: string
    const templateId: string
    const ports: seq<NodePort>
    const options: Options
    const isGlobalDnsServer: bool
    const routeTable: RouteTable?
    var template: Maybe<NodeTemplate>
    var inLan: Maybe<HostInLan>

    /**
     * `Host(id, role)` with the attributes the parser sets on it before handing it on: its
     * alias, template id, ports, options, DNS flag and LAN. No template is bound yet.
     */
    constructor Host(id: string, role: NodeRole, name: string, templateId: string, ports: seq<NodePort>,
                     options: Options, isGlobalDnsServer: bool, inLan: Maybe<HostInLan>)
      ensures this.id == id && this.role == role && this.name == name && this.templateId == templateId
      ensures this.ports == ports && this.options == options && this.isGlobalDnsServer == isGlobalDnsServer
      ensures this.inLan == inLan && template == None && routeTable == null
    {
      this.id := id;
      this.role := role;
      this.name := name;
      this.templateId := templateId;
      this.ports := ports;
      this.options := options;
      this.isGlobalDnsServer := isGlobalDnsServer;
      this.inLan := inLan;
      template := None;
      routeTable := null;
    }

    /** `Router(id)`: role `ROUTER`, never in a LAN of its own, with the route table the parser filled. */
    constructor Router(id: string, name: string, templateId: string, ports: seq<NodePort>, options: Options,
                       routeTable: RouteTable)
      ensures this.id == id && role == ROUTER && this.name == name && this.templateId == templateId
      ensures this.ports == ports && this.options == options && !isGlobalDnsServer
      ensures inLan == None && template == None && this.routeTable == routeTable
    {
      this.id := id;
      role := ROUTER;
      this.name := name;
      this.templateId := templateId;
      this.ports := ports;
      this.options := options;
      isGlobalDnsServer := false;
      inLan := None;
      template := None;
      this.routeTable := routeTable;
    }

    predicate IsRouter() {
      routeTable != null
    }

    /** The routes of the entity's own table: none for a host. */
    function TableRoutes(): seq<RouteEntry>
      reads (if routeTable == null then {} else {routeTable})`entries
    {
      if routeTable == null then [] else routeTable.entries
    }

    /** The operating system the node gets: the template's when a template id is set. */
    function NodeOs(): string
      reads this`template
    {
      if templateId != "" && template.Some? then template.value.os else ""
    }

    /**
     * `to_node`: a new host node with the entity's id, name and template id, the template's
     * emulation, operating system and image when a template id is set, and the options
     * `NodeOptions` gives. A template id set without a bound template has no `emulation`
     * to read.
     */
    method ToNode(env: Environment) returns (r: Result<Node>)
      ensures templateId != "" && template.None? ==> r == Err(AttributeError("emulation"))
      ensures templateId == "" || template.Some? ==>
        (r.Ok? <==> NodeOptions(options, role, env, NodeOs(), TableRoutes()).Ok?) &&
        (r.Err? ==> r.error == NodeOptions(options, role, env, NodeOs(), TableRoutes()).error)
      ensures r.Ok? ==> fresh(r.value) && r.value.Valid() && r.value.ports == []
      ensures r.Ok? ==> r.value.id == id && r.value.name == name && r.value.category == "Host" && r.value.templateId == templateId
      ensures r.Ok? && templateId != "" ==>
        r.value.emulation == template.value.emulation && r.value.os == template.value.os && r.value.image == template.value.image
      ensures r.Ok? && templateId == "" ==> r.value.emulation == "vsphere" && r.value.os == "" && r.value.image == ""
      ensures r.Ok? ==> r.value.options == NodeOptions(options, role, env, NodeOs(), TableRoutes()).value
    {
      var node: Node := new Node(id, name, NodeCategory.Host, templateId, options);
      if templateId != "" {
        if template.None? {
          return Err(AttributeError("emulation"));
        }
        node.emulation := template.value.emulation;
        node.os := template.value.os;
        node.image := template.value.image;
      }
      assert node.os == NodeOs() && node.Valid();
      ghost var policy := PolicyOptions(options, role, env);
      ghost var result := NodeOptions(options, role, env, NodeOs(), TableRoutes());
      var outcome := ApplyRolePolicy(node, env);
      if outcome.Fail? {
        assert result == Err(policy.error);
        return Err(outcome.error);
      }
      assert node.options == policy.value;
      node.UseDefaultPhysic();
      assert result == AppendRoutes(node.options, TableRoutes());
      if routeTable != null {
        outcome := FillRouteTable(node);
        if outcome.Fail? {
          return Err(outcome.error);
        }
      } else {
        assert result == Ok(node.options);
      }
      assert node.Valid();
      return Ok(node);
    }

    /**
     * The role's policy, applied to a node being built: an attacker's node is routed to every
     * external network through the control network's gateway (when there is one), any other
     * node has its control NIC removed.
     */
    method ApplyRolePolicy(node: Node, env: Environment) returns (r: Outcome)
      modifies node
      ensures PolicyOptions(old(node.options), role, env).Ok? ==>
        r == Pass && node.options == PolicyOptions(old(node.options), role, env).value
      ensures PolicyOptions(old(node.options), role, env).Err? ==>
        r == Fail(PolicyOptions(old(node.options), role, env).error)
      ensures unchanged(node`ports, node`nextPortIndex, node`emulation, node`os, node`image)
    {
      if role == ATTACKER {
        if env.controlNetGateway.Some? {
          ghost var bag := node.options;
          ghost var routes := EnvironmentRoutes(env);
          var k := 0;
          while k < |env.externalNets|
            invariant 0 <= k <= |env.externalNets|
            invariant AppendRoutes(bag, routes[..k]) == Ok(node.options)
            invariant unchanged(node`ports, node`nextPortIndex, node`emulation, node`os, node`image)
          {
            AppendRoutesStep(bag, routes, k, node.options);
            var outcome := node.AddRouteEntry(env.externalNets[k], env.controlNetGateway.value);
            if outcome.Fail? {
              AppendRoutesErrorPersists(bag, routes, k + 1);
              return outcome;
            }
            assert AppendRoutes(bag, routes[..k + 1]) == Ok(node.options);
            k := k + 1;
          }
          assert routes[..k] == routes;
        }
      } else {
        node.RemoveControlNic();
      }
      return Pass;
    }

    /** `Router.fill_route_table`: the node gets every route of the table, in order. */
    method FillRouteTable(node: Node) returns (r: Outcome)
      requires routeTable != null
      modifies node
      ensures AppendRoutes(old(node.options), routeTable.entries).Ok? ==>
        r == Pass && node.options == AppendRoutes(old(node.options), routeTable.entries).value
      ensures AppendRoutes(old(node.options), routeTable.entries).Err? ==>
        r == Fail(AppendRoutes(old(node.options), routeTable.entries).error)
      ensures unchanged(node`ports, node`nextPortIndex, node`emulation, node`os, node`image)
    {
      var entries := routeTable.entries;
      ghost var bag := node.options;
      var k := 0;
      while k < |entries|
        invariant 0 <= k <= |entries|
        invariant AppendRoutes(bag, entries[..k]) == Ok(node.options)
        invariant unchanged(node`ports, node`nextPortIndex, node`emulation, node`os, node`image)
      {
        AppendRoutesStep(bag, entries, k, node.options);
        var outcome := node.AddRouteEntry(entries[k].targetNet, entries[k].gateway);
        if outcome.Fail? {
          AppendRoutesErrorPersists(bag, entries, k + 1);
          return outcome;
        }
        assert AppendRoutes(bag, entries[..k + 1]) == Ok(node.options);
        k := k + 1;
      }
      assert entries[..k] == entries;
      return Pass;
    }
  }

  /** A LAN: its hosts, in the order they joined, and its network if declared. */
  class Lan {
    const id: string
    const name: string
    const net: Maybe<Network>
    var hosts: seq<HostBase>

    /** `Lan(id)` with the alias and network the parser sets on it before handing it on; no hosts yet. */
    constructor (id: string, name: string, net: Maybe<Network>)
      ensures this.id == id && this.name == name && this.net == net && hosts == []
    {
      this.id := id;
      this.name := name;
      this.net := net;
      hosts := [];
    }

    /** `add_host`: the host joins at the end and is marked as in this LAN, with no address. */
    method AddHost(host: HostBase)
      modifies this, host`inLan
      ensures hosts == old(hosts) + [host]
      ensures host.inLan == Some(HostInLan(id, None))
      ensures host.template == old(host.template)
    {
      host.inLan := Some(HostInLan(id, None));
      hosts := hosts + [host];
    }

    /** `to_node`: a switch node with the LAN's id and name, drawn as a switch, with no options. */
    method ToNode() returns (node: Node)
      ensures fresh(node) && node.Valid() && node.ports == []
      ensures node.id == id && node.name == name && node.category == "Switch" && node.templateId == "/switch"
      ensures node.emulation == "" && node.os == "" && node.image == SwitchImage && node.options == []
    {
      node := new Node(id, name, Switch, "/switch", []);
      node.os := "";
      node.image := SwitchImage;
      node.emulation := "";
    }
  }

  // ---- what `adjust` computes, as values ----

  /** A node's template id with its role, as `adjust` sees them. */
  datatype TemplateUse = TemplateUse(id: string, role: NodeRole)

  /**
   * The template table after one node's template is bound: a set id that is not yet known
   * gets the default template for the node's role; a known id, or none, changes nothing.
   */
  function BindTemplate(templates: seq<Entry<string, NodeTemplate>>, use: TemplateUse): (r: seq<Entry<string, NodeTemplate>>)
    ensures use.id != "" ==> Get(r, use.id).Some?
    ensures use.id != "" && Get(templates, use.id).None? ==> Get(r, use.id) == Some(DefaultTemplate(use.id, use.role))
    ensures forall k :: k != use.id || Get(templates, k).Some? ==> Get(r, k) == Get(templates, k)
  {
    if use.id == "" || Get(templates, use.id).Some? then templates
    else Set(templates, use.id, DefaultTemplate(use.id, use.role))
  }

  /** The template table after the nodes' templates are bound in order. */
  function BindTemplates(templates: seq<Entry<string, NodeTemplate>>, uses: seq<TemplateUse>): seq<Entry<string, NodeTemplate>>
    decreases |uses|
  {
    if uses == [] then templates
    else BindTemplate(BindTemplates(templates, uses[..|uses| - 1]), uses[|uses| - 1])
  }

  /** Binding never replaces a template that is already known. */
  lemma {:induction false} BindTemplatesKeeps(templates: seq<Entry<string, NodeTemplate>>, uses: seq<TemplateUse>, k: string)
    requires Get(templates, k).Some?
    ensures Get(BindTemplates(templates, uses), k) == Get(templates, k)
    decreases |uses|
  {
    if uses != [] {
      BindTemplatesKeeps(templates, uses[..|uses| - 1], k);
    }
  }

  /** After binding, every template id in use is known. */
  lemma {:induction false} BindTemplatesBinds(templates: seq<Entry<string, NodeTemplate>>, uses: seq<TemplateUse>, i: nat)
    requires i < |uses| && uses[i].id != ""
    ensures Get(BindTemplates(templates, uses), uses[i].id).Some?
    decreases |uses|
  {
    if i < |uses| - 1 {
      BindTemplatesBinds(templates, uses[..|uses| - 1], i);
    }
  }

  /**
   * A template that binding adds is the default template for the role of a node that uses
   * its id; any other id is left as it was.
   */
  lemma {:induction false} BindTemplatesAdds(templates: seq<Entry<string, NodeTemplate>>, uses: seq<TemplateUse>, k: string)
    requires Get(templates, k).None?
    ensures Get(BindTemplates(templates, uses), k).None? ||
      exists i :: 0 <= i < |uses| && uses[i].id == k && Get(BindTemplates(templates, uses), k) == Some(DefaultTemplate(k, uses[i].role))
    ensures (forall i :: 0 <= i < |uses| ==> uses[i].id != k) ==> Get(BindTemplates(templates, uses), k).None?
    decreases |uses|
  {
    if uses != [] {
      var init := uses[..|uses| - 1];
      BindTemplatesAdds(templates, init, k);
      if Get(BindTemplates(templates, init), k).Some? {
        var i :| 0 <= i < |init| && init[i].id == k && Get(BindTemplates(templates, init), k) == Some(DefaultTemplate(k, init[i].role));
        assert uses[i] == init[i];
      }
    }
  }

  /** When every template id in use is already known, binding changes nothing: `adjust` binds templates once. */
  lemma {:induction false} BindTemplatesIdle(templates: seq<Entry<string, NodeTemplate>>, uses: seq<TemplateUse>)
    requires forall i :: 0 <= i < |uses| && uses[i].id != "" ==> Get(templates, uses[i].id).Some?
    ensures BindTemplates(templates, uses) == templates
    decreases |uses|
  {
    if uses != [] {
      BindTemplatesIdle(templates, uses[..|uses| - 1]);
    }
  }

  lemma PrefixSnoc<T>(s: seq<T>, i: int)
    requires 0 <= i < |s|
    ensures s[..i + 1] == s[..i] + [s[i]]
  {
  }

  lemma FullPrefix<T>(s: seq<T>)
    ensures s[..|s|] == s
  {
  }

  lemma BindTemplatesSnoc(templates: seq<Entry<string, NodeTemplate>>, uses: seq<TemplateUse>, i: int)
    requires 0 <= i < |uses|
    ensures BindTemplates(templates, uses[..i + 1]) == BindTemplate(BindTemplates(templates, uses[..i]), uses[i])
  {
    assert uses[..i + 1][..i] == uses[..i];
  }

  lemma JoinsSnoc(nodes: seq<HostBase>, lists: seq<seq<NodePort>>, i: int)
    requires |nodes| == |lists| && 0 <= i < |nodes|
    ensures Joins(nodes[..i + 1], lists[..i + 1]) == Joins(nodes[..i], lists[..i]) + PortJoins(nodes[i], lists[i])
  {
    assert nodes[..i + 1][..i] == nodes[..i] && lists[..i + 1][..i] == lists[..i];
  }

  /** One node joining a LAN through one of its ports. */
  datatype LanJoin = LanJoin(node: HostBase, lanId: string)

  /** The joins of a node's ports, in port order: one for each port that names a LAN. */
  function PortJoins(node: HostBase, ports: seq<NodePort>): (js: seq<LanJoin>)
    ensures forall j :: j in js ==> j.node == node
    decreases |ports|
  {
    if ports == [] then []
    else
      var last := ports[|ports| - 1];
      PortJoins(node, ports[..|ports| - 1]) + if last.inLan.Some? then [LanJoin(node, last.inLan.value.lanId)] else []
  }

  /** The joins of all nodes, node by node, given each node's ports. */
  function Joins(nodes: seq<HostBase>, portLists: seq<seq<NodePort>>): seq<LanJoin>
    requires |nodes| == |portLists|
    decreases |nodes|
  {
    if nodes == [] then []
    else Joins(nodes[..|nodes| - 1], portLists[..|nodes| - 1]) + PortJoins(nodes[|nodes| - 1], portLists[|nodes| - 1])
  }

  /**
   * How `adjust`'s LAN lookups end over the joins in order: the `KeyError` of the first join
   * whose LAN id the scene does not have, or success when it has every one.
   */
  function JoinsOutcome(js: seq<LanJoin>, lans: seq<Entry<string, Lan>>): (r: Outcome)
    ensures r.Pass? <==> forall k :: 0 <= k < |js| ==> js[k].lanId in Keys(lans)
    ensures r.Fail? ==> exists k :: (0 <= k < |js| && js[k].lanId !in Keys(lans) && r.error == KeyError(js[k].lanId) &&
      forall q :: 0 <= q < k ==> js[q].lanId in Keys(lans))
    decreases |js|
  {
    if js == [] then Pass
    else
      var init := js[..|js| - 1];
      assert forall q :: 0 <= q < |init| ==> init[q] == js[q];
      match JoinsOutcome(init, lans)
      case Fail(e) => Fail(e)
      case Pass => if js[|js| - 1].lanId in Keys(lans) then Pass else Fail(KeyError(js[|js| - 1].lanId))
  }

  /** The lookups over two runs of joins end as the first run's failure, or else as the second run. */
  lemma {:induction false} JoinsOutcomeConcat(a: seq<LanJoin>, b: seq<LanJoin>, lans: seq<Entry<string, Lan>>)
    ensures JoinsOutcome(a + b, lans) == if JoinsOutcome(a, lans).Fail? then JoinsOutcome(a, lans) else JoinsOutcome(b, lans)
    decreases |b|
  {
    if b == [] {
      assert a + b == a;
    } else {
      assert (a + b)[..|a + b| - 1] == a + b[..|b| - 1];
      assert b[..|b| - 1] + [b[|b| - 1]] == b;
      JoinsOutcomeConcat(a, b[..|b| - 1], lans);
    }
  }

  /** One more port: the lookups over a node's first `k + 1` ports end as the first `k` and then that port. */
  lemma PortJoinsOutcomeStep(node: HostBase, ports: seq<NodePort>, k: int, lans: seq<Entry<string, Lan>>)
    requires 0 <= k < |ports|
    ensures JoinsOutcome(PortJoins(node, ports[..k + 1]), lans) ==
      if JoinsOutcome(PortJoins(node, ports[..k]), lans).Fail? then JoinsOutcome(PortJoins(node, ports[..k]), lans)
      else if ports[k].inLan.Some? && ports[k].inLan.value.lanId !in Keys(lans) then Fail(KeyError(ports[k].inLan.value.lanId))
      else Pass
  {
    assert ports[..k + 1][..k] == ports[..k];
    var last := if ports[k].inLan.Some? then [LanJoin(node, ports[k].inLan.value.lanId)] else [];
    JoinsOutcomeConcat(PortJoins(node, ports[..k]), last, lans);
  }

  /** Once the lookups over a node's first `k` ports have failed, its whole port list fails the same way. */
  lemma {:induction false} PortJoinsOutcomePersists(node: HostBase, ports: seq<NodePort>, k: int, lans: seq<Entry<string, Lan>>)
    requires 0 <= k <= |ports| && JoinsOutcome(PortJoins(node, ports[..k]), lans).Fail?
    ensures JoinsOutcome(PortJoins(node, ports), lans) == JoinsOutcome(PortJoins(node, ports[..k]), lans)
    decreases |ports| - k
  {
    if k < |ports| {
      PortJoinsOutcomeStep(node, ports, k, lans);
      PortJoinsOutcomePersists(node, ports, k + 1, lans);
    } else {
      assert ports[..k] == ports;
    }
  }

  /** One more node: the lookups over the first `i + 1` nodes end as the first `i` and then that node's ports. */
  lemma JoinsOutcomeStep(nodes: seq<HostBase>, lists: seq<seq<NodePort>>, i: int, lans: seq<Entry<string, Lan>>)
    requires |nodes| == |lists| && 0 <= i < |nodes|
    ensures JoinsOutcome(Joins(nodes[..i + 1], lists[..i + 1]), lans) ==
      if JoinsOutcome(Joins(nodes[..i], lists[..i]), lans).Fail? then JoinsOutcome(Joins(nodes[..i], lists[..i]), lans)
      else JoinsOutcome(PortJoins(nodes[i], lists[i]), lans)
  {
    JoinsSnoc(nodes, lists, i);
    JoinsOutcomeConcat(Joins(nodes[..i], lists[..i]), PortJoins(nodes[i], lists[i]), lans);
  }

  /** Once the lookups over the first `i` nodes have failed, all the nodes fail the same way. */
  lemma {:induction false} JoinsOutcomePersists(nodes: seq<HostBase>, lists: seq<seq<NodePort>>, i: int, lans: seq<Entry<string, Lan>>)
    requires |nodes| == |lists| && 0 <= i <= |nodes| && JoinsOutcome(Joins(nodes[..i], lists[..i]), lans).Fail?
    ensures JoinsOutcome(Joins(nodes, lists), lans) == JoinsOutcome(Joins(nodes[..i], lists[..i]), lans)
    decreases |nodes| - i
  {
    if i < |nodes| {
      JoinsOutcomeStep(nodes, lists, i, lans);
      JoinsOutcomePersists(nodes, lists, i + 1, lans);
    } else {
      assert nodes[..i] == nodes && lists[..i] == lists;
    }
  }

  /** When the first `m` ports that name a LAN all name a known one, their lookups succeed. */
  lemma {:induction false} PortJoinsKnown(node: HostBase, ports: seq<NodePort>, m: int, lans: seq<Entry<string, Lan>>)
    requires 0 <= m <= |ports|
    requires forall q :: 0 <= q < m && ports[q].inLan.Some? ==> Get(lans, ports[q].inLan.value.lanId).Some?
    ensures JoinsOutcome(PortJoins(node, ports[..m]), lans) == Pass
    decreases m
  {
    if m > 0 {
      PortJoinsKnown(node, ports, m - 1, lans);
      PortJoinsOutcomeStep(node, ports, m - 1, lans);
      if ports[m - 1].inLan.Some? {
        GetSomeIffKey(lans, ports[m - 1].inLan.value.lanId);
      }
    }
  }

  /** The first port of a node naming an unknown LAN decides the node's lookups: its `KeyError`. */
  lemma PortJoinsFirstMissing(node: HostBase, ports: seq<NodePort>, k: int, lans: seq<Entry<string, Lan>>)
    requires 0 <= k < |ports|
    requires forall q :: 0 <= q < k && ports[q].inLan.Some? ==> Get(lans, ports[q].inLan.value.lanId).Some?
    requires ports[k].inLan.Some? && ports[k].inLan.value.lanId !in Keys(lans)
    ensures JoinsOutcome(PortJoins(node, ports), lans) == Fail(KeyError(ports[k].inLan.value.lanId))
  {
    PortJoinsKnown(node, ports, k, lans);
    PortJoinsOutcomeStep(node, ports, k, lans);
    PortJoinsOutcomePersists(node, ports, k + 1, lans);
  }

  /** Every port of the nodes that names a LAN names one the scene has. */
  ghost predicate LansKnown(nodes: seq<HostBase>, lans: seq<Entry<string, Lan>>) {
    forall n, p :: n in nodes && p in n.ports && p.inLan.Some? ==> Get(lans, p.inLan.value.lanId).Some?
  }

  /** When every port of the first `m` nodes that names a LAN names a known one, their lookups succeed. */
  lemma {:induction false} JoinsKnown(nodes: seq<HostBase>, m: int, lans: seq<Entry<string, Lan>>)
    requires 0 <= m <= |nodes|
    requires LansKnown(nodes[..m], lans)
    ensures JoinsOutcome(Joins(nodes[..m], PortLists(nodes)[..m]), lans) == Pass
    decreases m
  {
    if m > 0 {
      var node := nodes[m - 1];
      assert nodes[..m - 1] <= nodes[..m] && node in nodes[..m];
      JoinsKnown(nodes, m - 1, lans);
      JoinsOutcomeStep(nodes, PortLists(nodes), m - 1, lans);
      PortJoinsKnown(node, node.ports, |node.ports|, lans);
      FullPrefix(node.ports);
    }
  }

  /** The lookups over all the nodes succeed exactly when every port that names a LAN names a known one. */
  lemma JoinsOutcomeKnown(nodes: seq<HostBase>, lans: seq<Entry<string, Lan>>)
    ensures JoinsOutcome(Joins(nodes, PortLists(nodes)), lans).Pass? <==> LansKnown(nodes, lans)
  {
    var js := Joins(nodes, PortLists(nodes));
    if LansKnown(nodes, lans) {
      assert nodes[..|nodes|] == nodes;
      FullPrefix(PortLists(nodes));
      JoinsKnown(nodes, |nodes|, lans);
    } else {
      var n, p :| n in nodes && p in n.ports && p.inLan.Some? && Get(lans, p.inLan.value.lanId).None?;
      GetSomeIffKey(lans, p.inLan.value.lanId);
      var i :| 0 <= i < |nodes| && nodes[i] == n;
      var k :| 0 <= k < |n.ports| && n.ports[k] == p;
      JoinsContain(nodes, PortLists(nodes), i, k);
      var q :| 0 <= q < |js| && js[q] == LanJoin(n, p.inLan.value.lanId);
    }
  }

  /**
   * The first node whose lookups fail decides the lookups of all the nodes, provided every
   * LAN port of the nodes before it names a known LAN.
   */
  lemma JoinsFirstMissing(nodes: seq<HostBase>, i: int, lans: seq<Entry<string, Lan>>)
    requires 0 <= i < |nodes|
    requires LansKnown(nodes[..i], lans)
    requires JoinsOutcome(PortJoins(nodes[i], nodes[i].ports), lans).Fail?
    ensures JoinsOutcome(Joins(nodes, PortLists(nodes)), lans) == JoinsOutcome(PortJoins(nodes[i], nodes[i].ports), lans)
  {
    JoinsKnown(nodes, i, lans);
    JoinsOutcomeStep(nodes, PortLists(nodes), i, lans);
    JoinsOutcomePersists(nodes, PortLists(nodes), i + 1, lans);
  }

  /**
   * The hosts of LAN `l` after the joins in order: a join through an id that names `l`
   * appends its node unless the node is already there.
   */
  function Joined(hosts: seq<HostBase>, l: Lan, lans: seq<Entry<string, Lan>>, js: seq<LanJoin>): seq<HostBase>
    decreases |js|
  {
    if js == [] then hosts
    else
      var prev := Joined(hosts, l, lans, js[..|js| - 1]);
      var j := js[|js| - 1];
      if Get(lans, j.lanId) == Some(l) && j.node !in prev then prev + [j.node] else prev
  }

  lemma {:induction false} JoinedConcat(hosts: seq<HostBase>, l: Lan, lans: seq<Entry<string, Lan>>, a: seq<LanJoin>, b: seq<LanJoin>)
    ensures Joined(hosts, l, lans, a + b) == Joined(Joined(hosts, l, lans, a), l, lans, b)
    decreases |b|
  {
    if b == [] {
      assert a + b == a;
    } else {
      assert (a + b)[..|a + b| - 1] == a + b[..|b| - 1];
      JoinedConcat(hosts, l, lans, a, b[..|b| - 1]);
    }
  }

  /** Some join in `js` brings `node` into LAN `l`. */
  ghost predicate JoinsInto(js: seq<LanJoin>, l: Lan, lans: seq<Entry<string, Lan>>, node: HostBase) {
    exists j :: j in js && j.node == node && Get(lans, j.lanId) == Some(l)
  }

  /**
   * Joining only appends: the LAN's earlier hosts stay first, and each host it gains was
   * brought in by a join naming this LAN and was not there already.
   */
  lemma {:induction false} JoinedGrows(hosts: seq<HostBase>, l: Lan, lans: seq<Entry<string, Lan>>, js: seq<LanJoin>)
    ensures hosts <= Joined(hosts, l, lans, js)
    ensures forall i :: |hosts| <= i < |Joined(hosts, l, lans, js)| ==>
      Joined(hosts, l, lans, js)[i] !in Joined(hosts, l, lans, js)[..i] && JoinsInto(js, l, lans, Joined(hosts, l, lans, js)[i])
    decreases |js|
  {
    if js != [] {
      var init := js[..|js| - 1];
      var j := js[|js| - 1];
      var prev := Joined(hosts, l, lans, init);
      var r := Joined(hosts, l, lans, js);
      JoinedGrows(hosts, l, lans, init);
      forall i | |hosts| <= i < |r|
        ensures r[i] !in r[..i] && JoinsInto(js, l, lans, r[i])
      {
        if i < |prev| {
          assert r[i] == prev[i] && r[..i] == prev[..i];
          var w :| w in init && w.node == prev[i] && Get(lans, w.lanId) == Some(l);
          assert w in js;
        } else {
          assert r == prev + [j.node] && r[..i] == prev;
          assert j in js;
        }
      }
    }
  }

  /** Every node that joins through an id naming the LAN ends up among its hosts. */
  lemma {:induction false} JoinedContains(hosts: seq<HostBase>, l: Lan, lans: seq<Entry<string, Lan>>, js: seq<LanJoin>, j: LanJoin)
    requires j in js && Get(lans, j.lanId) == Some(l)
    ensures j.node in Joined(hosts, l, lans, js)
    decreases |js|
  {
    var init := js[..|js| - 1];
    if j != js[|js| - 1] {
      assert j in init;
      JoinedContains(hosts, l, lans, init, j);
    }
  }

  /** When every node that joins is already among the hosts, joining changes nothing: `adjust` adds each host once. */
  lemma {:induction false} JoinedIdle(hosts: seq<HostBase>, l: Lan, lans: seq<Entry<string, Lan>>, js: seq<LanJoin>)
    requires forall j :: j in js && Get(lans, j.lanId) == Some(l) ==> j.node in hosts
    ensures Joined(hosts, l, lans, js) == hosts
    decreases |js|
  {
    if js != [] {
      JoinedIdle(hosts, l, lans, js[..|js| - 1]);
    }
  }

  /** A port of node `j` that names a LAN gives a join of that node. */
  lemma {:induction false} JoinsContain(nodes: seq<HostBase>, portLists: seq<seq<NodePort>>, i: nat, k: nat)
    requires |nodes| == |portLists| && i < |nodes| && k < |portLists[i]| && portLists[i][k].inLan.Some?
    ensures LanJoin(nodes[i], portLists[i][k].inLan.value.lanId) in Joins(nodes, portLists)
    decreases |nodes|
  {
    var n := |nodes| - 1;
    if i < n {
      JoinsContain(nodes[..n], portLists[..n], i, k);
    } else {
      PortJoinsContain(nodes[i], portLists[i], k);
    }
  }

  lemma {:induction false} PortJoinsContain(node: HostBase, ports: seq<NodePort>, k: nat)
    requires k < |ports| && ports[k].inLan.Some?
    ensures LanJoin(node, ports[k].inLan.value.lanId) in PortJoins(node, ports)
    decreases |ports|
  {
    if k < |ports| - 1 {
      PortJoinsContain(node, ports[..|ports| - 1], k);
    }
  }

  /** Every join comes from a port, naming a LAN, of one of the nodes. */
  lemma {:induction false} JoinsFrom(nodes: seq<HostBase>, portLists: seq<seq<NodePort>>, j: LanJoin)
    requires |nodes| == |portLists| && j in Joins(nodes, portLists)
    ensures exists i, k :: (0 <= i < |nodes| && 0 <= k < |portLists[i]| && nodes[i] == j.node &&
      portLists[i][k].inLan.Some? && portLists[i][k].inLan.value.lanId == j.lanId)
    decreases |nodes|
  {
    var n := |nodes| - 1;
    if j in Joins(nodes[..n], portLists[..n]) {
      JoinsFrom(nodes[..n], portLists[..n], j);
      var i, k :| 0 <= i < n && 0 <= k < |portLists[..n][i]| && nodes[..n][i] == j.node &&
        portLists[..n][i][k].inLan.Some? && portLists[..n][i][k].inLan.value.lanId == j.lanId;
      assert nodes[i] == j.node && portLists[i] == portLists[..n][i];
    } else {
      var k := PortJoinsFrom(nodes[n], portLists[n], j);
    }
  }

  lemma {:induction false} PortJoinsFrom(node: HostBase, ports: seq<NodePort>, j: LanJoin) returns (k: nat)
    requires j in PortJoins(node, ports)
    ensures k < |ports| && j.node == node && ports[k].inLan.Some? && ports[k].inLan.value.lanId == j.lanId
    decreases |ports|
  {
    var init := ports[..|ports| - 1];
    if j in PortJoins(node, init) {
      k := PortJoinsFrom(node, init, j);
    } else {
      k := |ports| - 1;
    }
  }

  /**
   * `adjust` is idempotent: binding the same template uses a second time adds no template,
   * and replaying the same LAN joins adds no host to any LAN.
   */
  lemma AdjustIdempotent(templates: seq<Entry<string, NodeTemplate>>, uses: seq<TemplateUse>,
                         hosts: seq<HostBase>, l: Lan, lans: seq<Entry<string, Lan>>, js: seq<LanJoin>)
    ensures BindTemplates(BindTemplates(templates, uses), uses) == BindTemplates(templates, uses)
    ensures Joined(Joined(hosts, l, lans, js), l, lans, js) == Joined(hosts, l, lans, js)
  {
    forall i | 0 <= i < |uses| && uses[i].id != ""
      ensures Get(BindTemplates(templates, uses), uses[i].id).Some?
    {
      BindTemplatesBinds(templates, uses, i);
    }
    BindTemplatesIdle(BindTemplates(templates, uses), uses);
    forall j | j in js && Get(lans, j.lanId) == Some(l)
      ensures j.node in Joined(hosts, l, lans, js)
    {
      JoinedContains(hosts, l, lans, js, j);
    }
    JoinedIdle(Joined(hosts, l, lans, js), l, lans, js);
  }

  // ---- the scene ----

  /** What `add_entity` is given: a host or router, a LAN, a template, or anything else. */
  datatype Entity = NodeEntity(node: HostBase) | LanEntity(lan: Lan) | TemplateEntity(template: NodeTemplate) | OtherEntity

  /** The template uses of the nodes, in order. */
  function TemplateUses(nodes: seq<HostBase>): (uses: seq<TemplateUse>)
    ensures |uses| == |nodes|
    ensures forall i :: 0 <= i < |nodes| ==> uses[i] == TemplateUse(nodes[i].templateId, nodes[i].role)
  {
    seq(|nodes|, i requires 0 <= i < |nodes| => TemplateUse(nodes[i].templateId, nodes[i].role))
  }

  /** The port lists of the nodes, in order. */
  function PortLists(nodes: seq<HostBase>): (lists: seq<seq<NodePort>>)
    ensures |lists| == |nodes|
    ensures forall i :: 0 <= i < |nodes| ==> lists[i] == nodes[i].ports
  {
    seq(|nodes|, i requires 0 <= i < |nodes| => nodes[i].ports)
  }

  /** The nodes among `ns` whose template `adjust` may bind: those with a template id. */
  function Bindable(ns: set<HostBase>): (r: set<HostBase>)
    ensures r <= ns && forall n :: n in ns ==> (n in r <==> n.templateId != "")
  {
    set n | n in ns && n.templateId != ""
  }

  /** The ports among `ps` that `adjust` may bind to a LAN: those that name one. */
  function LanNaming(ps: set<NodePort>): (r: set<NodePort>)
    ensures r <= ps && forall p :: p in ps ==> (p in r <==> p.inLan.Some?)
  {
    set p | p in ps && p.inLan.Some?
  }

  // ---- what `extract_topology` computes, as values ----

  /** The scene's LAN table, which `handle_port` looks LAN ids up in. */
  type LanTable = seq<Entry<string, Lan>>

  /** The network of the LAN filed under `id`, if there is one and it has one. */
  function NetOf(lans: LanTable, id: string): Maybe<Network> {
    match Get(lans, id)
    case None => None
    case Some(l) => l.net
  }

  /**
   * How `handle_port` ends for a port, given the ids the topology holds and the scene's LANs:
   * a port outside any LAN has no `lan_id`, a LAN id unknown to the topology or to the scene
   * is a `KeyError`, and a port with an address in a LAN without a network has no `netmask`
   * (the link is made before that is found out).
   */
  function PortOutcome(keys: set<string>, lans: LanTable, np: NodePort): Outcome {
    if np.inLan.None? then Fail(AttributeError("lan_id"))
    else if np.inLan.value.lanId !in keys || np.inLan.value.lanId !in Keys(lans) then Fail(KeyError(np.inLan.value.lanId))
    else if np.inLan.value.ip.Some? && np.inLan.value.ip.value != "" && NetOf(lans, np.inLan.value.lanId).None? then
      Fail(AttributeError("netmask"))
    else Pass
  }

  /** `handle_port` gets as far as linking the node to the LAN's switch. */
  predicate LinksPort(keys: set<string>, lans: LanTable, np: NodePort) {
    np.inLan.Some? && np.inLan.value.lanId in keys && np.inLan.value.lanId in Keys(lans)
  }

  /** The options `config_ip` gives a new port for an address in a network. */
  function AddressOptions(ip: string, net: Network): Options {
    IpOptions([], Text(ip), Addr(Netmask(net)), Text(""), Text(""))
  }

  /** The options the node's new port gets: its address and the LAN's netmask, when both are there. */
  function PortOptions(lans: LanTable, np: NodePort): Options {
    if np.inLan.Some? && np.inLan.value.ip.Some? && np.inLan.value.ip.value != "" && NetOf(lans, np.inLan.value.lanId).Some? then
      AddressOptions(np.inLan.value.ip.value, NetOf(lans, np.inLan.value.lanId).value)
    else []
  }

  /** How `handle_ports` ends: the outcome of the first port that fails, or `Pass`. */
  function PortsOutcome(keys: set<string>, lans: LanTable, ports: seq<NodePort>): Outcome
    decreases |ports|
  {
    if ports == [] then Pass
    else
      match PortsOutcome(keys, lans, ports[..|ports| - 1])
      case Fail(err) => Fail(err)
      case Pass => PortOutcome(keys, lans, ports[|ports| - 1])
  }

  /** After a prefix that passes, the next port decides the outcome of the longer prefix. */
  lemma PortsOutcomeStep(keys: set<string>, lans: LanTable, ports: seq<NodePort>, i: int)
    requires 0 <= i < |ports| && PortsOutcome(keys, lans, ports[..i]) == Pass
    ensures PortsOutcome(keys, lans, ports[..i + 1]) == PortOutcome(keys, lans, ports[i])
  {
    assert ports[..i + 1][..i] == ports[..i];
  }

  /** Once a prefix of the ports fails, all of them fail the same way. */
  lemma {:induction false} PortsOutcomeFails(keys: set<string>, lans: LanTable, ports: seq<NodePort>, k: nat)
    requires k <= |ports| && PortsOutcome(keys, lans, ports[..k]).Fail?
    ensures PortsOutcome(keys, lans, ports) == PortsOutcome(keys, lans, ports[..k])
    decreases |ports| - k
  {
    if k < |ports| {
      assert ports[..k + 1][..k] == ports[..k];
      PortsOutcomeFails(keys, lans, ports, k + 1);
    } else {
      assert ports[..k] == ports;
    }
  }

  /**
   * A port the topology's nodes got for `np`: it is the first end of a link whose other end
   * is on the topology's node for the port's LAN, and it has the options of `np`'s address.
   */
  ghost predicate PortAttached(t: Topology, lans: LanTable, port: Port, np: NodePort)
    reads t`nodes, port`link, port`options
  {
    np.inLan.Some? && t.QueryNode(np.inLan.value.lanId).Ok? &&
    port.link != null && port.link.port1 == port && port.link.port2.node == t.QueryNode(np.inLan.value.lanId).value &&
    port.options == PortOptions(lans, np)
  }

  /** Each of `added` is attached for the port of `ports` at the same place. */
  ghost predicate AllAttached(t: Topology, lans: LanTable, added: seq<Port>, ports: seq<NodePort>)
    reads t`nodes, added`link, added`options
  {
    |added| == |ports| && forall j :: 0 <= j < |added| ==> PortAttached(t, lans, added[j], ports[j])
  }

  lemma AllAttachedSnoc(t: Topology, lans: LanTable, added: seq<Port>, p: Port, ports: seq<NodePort>, i: int)
    requires 0 <= i < |ports| && AllAttached(t, lans, added, ports[..i]) && PortAttached(t, lans, p, ports[i])
    ensures AllAttached(t, lans, added + [p], ports[..i + 1])
  {
    assert ports[..i + 1] == ports[..i] + [ports[i]];
  }

  /**
   * What `handle_ports` has established after the first `i` ports: none of them failed, and a
   * node outside the topology holds its first ports `base` followed by one new port per port.
   */
  ghost predicate PortsHandled(t: Topology, keys: set<string>, lans: LanTable, node: Node,
                               base: seq<Port>, added: seq<Port>, ports: seq<NodePort>, i: int)
    reads t`nodes, node`ports
  {
    0 <= i <= |ports| && PortsOutcome(keys, lans, ports[..i]) == Pass &&
    (node !in t.NodeSet() ==> node.ports == base + added)
  }

  // ---- what `extract_topology` computes for each host and router ----

  /** The keys the scene files its LANs under, as a set. */
  function LanKeys(lans: LanTable): set<string> {
    set k | k in Keys(lans)
  }

  /** The ids of some hosts and routers, as a set. */
  function EntityIds(ns: seq<HostBase>): (ids: set<string>)
    ensures forall k :: 0 <= k < |ns| ==> ns[k].id in ids
    ensures forall id :: id in ids ==> exists k :: 0 <= k < |ns| && ns[k].id == id
    decreases |ns|
  {
    if ns == [] then {} else EntityIds(ns[..|ns| - 1]) + {ns[|ns| - 1].id}
  }

  lemma EntityIdsStep(ns: seq<HostBase>, i: int)
    requires 0 <= i < |ns|
    ensures EntityIds(ns[..i + 1]) == EntityIds(ns[..i]) + {ns[i].id}
  {
    assert ns[..i + 1][..i] == ns[..i];
  }

  /**
   * The ids the topology holds beyond the LANs' make no difference to `handle_ports`: a port
   * fails or passes just as it would against a topology of the LANs' nodes alone.
   */
  lemma {:induction false} PortsOutcomeKeys(keys: set<string>, lans: LanTable, ports: seq<NodePort>)
    requires LanKeys(lans) <= keys
    ensures PortsOutcome(keys, lans, ports) == PortsOutcome(LanKeys(lans), lans, ports)
    decreases |ports|
  {
    if ports != [] {
      PortsOutcomeKeys(keys, lans, ports[..|ports| - 1]);
      assert PortOutcome(keys, lans, ports[|ports| - 1]) == PortOutcome(LanKeys(lans), lans, ports[|ports| - 1]);
    }
  }

  /**
   * What `extract_topology` reads of a host or router: whether a template id is set with no
   * template bound, the options, role and operating system `to_node` starts from, the routes
   * of its own table, and its ports.
   */
  datatype EntityView = EntityView(unbound: bool, options: Options, role: NodeRole, emulation: string, os: string,
                                   image: string, routes: seq<RouteEntry>, ports: seq<NodePort>)

  function ViewOf(n: HostBase): EntityView
    reads n`template, (if n.routeTable == null then {} else {n.routeTable})`entries
  {
    ViewFrom(n, n.template, n.TableRoutes())
  }

  /** The view of a host or router whose template is `template` and whose own routes are `table`. */
  function ViewFrom(n: HostBase, template: Maybe<NodeTemplate>, table: seq<RouteEntry>): EntityView {
    var bound := n.templateId != "" && template.Some?;
    EntityView(n.templateId != "" && template.None?, n.options, n.role,
               if bound then template.value.emulation else "vsphere", if bound then template.value.os else "",
               if bound then template.value.image else "", table, n.ports)
  }

  /** The views of a sequence of hosts and routers, in order. */
  ghost function Views(ns: seq<HostBase>): (vs: seq<EntityView>)
    reads (set n | n in ns)`template, (set n | n in ns && n.routeTable != null :: n.routeTable)`entries
    ensures |vs| == |ns| && forall j :: 0 <= j < |ns| ==> vs[j] == ViewOf(ns[j])
    decreases |ns|
  {
    if ns == [] then [] else Views(ns[..|ns| - 1]) + [ViewOf(ns[|ns| - 1])]
  }

  /** A node apart from its ports, as a value. */
  datatype NodeFace = NodeFace(id: string, name: string, category: string, templateId: string,
                               emulation: string, os: string, image: string, options: Options)

  ghost function FaceOf(n: Node): NodeFace
    reads n`emulation, n`os, n`image, n`options
  {
    NodeFace(n.id, n.name, n.category, n.templateId, n.emulation, n.os, n.image, n.options)
  }

  /**
   * A port as a value: the id of the node at the other end of the link the port is the first
   * end of (none when it is no link's first end), and the port's options.
   */
  datatype PortFace = PortFace(towards: Maybe<string>, options: Options)

  ghost function PortFaceOf(p: Port): PortFace
    reads p`link, p`options
  {
    PortFace(if p.link != null && p.link.port1 == p then Some(p.link.port2.node.id) else None, p.options)
  }

  /** The switch node `to_node` makes for `lan`, whatever ports it has since been given. */
  ghost predicate IsSwitchNode(n: Node, lan: Lan)
    reads n`emulation, n`os, n`image, n`options
  {
    FaceOf(n) == NodeFace(lan.id, lan.name, "Switch", "/switch", "", "", SwitchImage, [])
  }

  /**
   * The node `to_node` makes for the host or router `e`, seen as `v`: its id, name and template
   * id, the template's emulation, operating system and image, and the options `NodeOptions`
   * gives.
   */
  ghost predicate IsEntityNode(n: Node, e: HostBase, v: EntityView, env: Environment)
    reads n`emulation, n`os, n`image, n`options
  {
    NodeOptions(v.options, v.role, env, v.os, v.routes).Ok? &&
    FaceOf(n) == NodeFace(e.id, e.name, "Host", e.templateId, v.emulation, v.os, v.image,
                          NodeOptions(v.options, v.role, env, v.os, v.routes).value)
  }

  /**
   * The port `handle_port` made for `np`: the first end of a link whose other end is on a node
   * with the id of the port's LAN, with the options of `np`'s address.
   */
  ghost predicate PortOn(lans: LanTable, port: Port, np: NodePort)
    reads port`link, port`options
  {
    np.inLan.Some? && PortFaceOf(port) == PortSpec(lans, np)
  }

  /** The port `handle_port` makes for `np`, as a value. */
  function PortSpec(lans: LanTable, np: NodePort): PortFace {
    PortFace(if np.inLan.Some? then Some(np.inLan.value.lanId) else None, PortOptions(lans, np))
  }

  /** The ports `handle_ports` makes for `nps`, in order, as values. */
  function PortSpecs(lans: LanTable, nps: seq<NodePort>): seq<PortFace> {
    if nps == [] then [] else [PortSpec(lans, nps[0])] + PortSpecs(lans, nps[1..])
  }

  /** The ports `ports`, in order, as values. */
  ghost function PortFaces(ports: seq<Port>): seq<PortFace>
    reads (set p | p in ports)`link, (set p | p in ports)`options
  {
    if ports == [] then [] else [PortFaceOf(ports[0])] + PortFaces(ports[1..])
  }

  /** Each of `added` is the port made for the port of `ports` at the same place. */
  ghost predicate PortsOn(lans: LanTable, added: seq<Port>, ports: seq<NodePort>)
    reads added`link, added`options
  {
    |added| == |ports| && forall j :: 0 <= j < |added| ==> PortOn(lans, added[j], ports[j])
  }

  /** In a topology that files nodes under their own ids, an attached port is on its LAN's node. */
  lemma AttachedOn(t: Topology, lans: LanTable, added: seq<Port>, ports: seq<NodePort>)
    requires t.IdKeyed() && AllAttached(t, lans, added, ports)
    ensures PortsOn(lans, added, ports)
  {
    forall j | 0 <= j < |added|
      ensures PortOn(lans, added[j], ports[j])
    {
      t.QueryNodeId(ports[j].inLan.value.lanId);
    }
  }

  /** Ports attached from the start of `added` are, in a topology keyed by id, all on their LANs' nodes. */
  lemma AttachedFromStart(t: Topology, lans: LanTable, added: seq<Port>, k: int, ports: seq<NodePort>)
    requires t.IdKeyed() && k == 0 && AllAttached(t, lans, added[k..], ports)
    ensures PortsOn(lans, added, ports)
  {
    assert added[k..] == added;
    AttachedOn(t, lans, added, ports);
  }

  /** Ports made one for one for `nps` are, as values, the ports `PortSpecs` gives. */
  lemma {:induction false} PortFacesOn(lans: LanTable, added: seq<Port>, nps: seq<NodePort>)
    requires PortsOn(lans, added, nps)
    ensures PortFaces(added) == PortSpecs(lans, nps)
  {
    if added != [] {
      forall j | 0 <= j < |added| - 1
        ensures PortOn(lans, added[1..][j], nps[1..][j])
      {
        assert PortOn(lans, added[j + 1], nps[j + 1]);
      }
      PortFacesOn(lans, added[1..], nps[1..]);
      assert PortOn(lans, added[0], nps[0]);
    }
  }

  /** A node as `extract_topology` files it: the node apart from its ports, and its ports in order. */
  datatype NodeShape = NodeShape(face: NodeFace, ports: seq<PortFace>)

  /**
   * The node `to_node` and `handle_ports` make for the host or router `e`, seen as `v`, with
   * the options `NodeOptions` gives (none where it fails, as `extract_topology` then files
   * no node).
   */
  function EntitySpec(lans: LanTable, e: HostBase, v: EntityView, env: Environment): NodeShape {
    var options := match NodeOptions(v.options, v.role, env, v.os, v.routes) case Ok(o) => o case Err(_) => [];
    NodeShape(NodeFace(e.id, e.name, "Host", e.templateId, v.emulation, v.os, v.image, options), PortSpecs(lans, e.ports))
  }

  /** `specs` holds the node `EntitySpec` gives for each of `all`, seen as `views`. */
  ghost predicate Specced(lans: LanTable, env: Environment, all: seq<HostBase>, views: seq<EntityView>, specs: seq<NodeShape>) {
    |specs| == |all| == |views| &&
    forall j {:trigger EntitySpec(lans, all[j], views[j], env)} :: 0 <= j < |all| ==> specs[j] == EntitySpec(lans, all[j], views[j], env)
  }

  /** The nodes `extract_topology` makes for `all`, seen as `views`, in order. */
  function Specs(lans: LanTable, env: Environment, all: seq<HostBase>, views: seq<EntityView>): (r: seq<NodeShape>)
    requires |all| == |views|
    ensures Specced(lans, env, all, views, r)
  {
    seq(|all|, j requires 0 <= j < |all| => EntitySpec(lans, all[j], views[j], env))
  }

  /** Under `lan`'s id the topology holds that LAN's switch node. */
  ghost predicate SwitchFiled(t: Topology, lan: Lan)
    reads t`nodes, t.NodeSet()`emulation, t.NodeSet()`os, t.NodeSet()`image, t.NodeSet()`options
  {
    t.QueryNode(lan.id).Ok? && IsSwitchNode(t.QueryNode(lan.id).value, lan)
  }

  /**
   * Under `id` the topology holds a node that is `spec` apart from its ports, and, unless a LAN
   * of `lans` has the same id, that node's ports are `spec`'s.
   */
  ghost predicate EntityFiled(t: Topology, lans: LanTable, id: string, spec: NodeShape)
    reads t`nodes, t.NodeSet()`emulation, t.NodeSet()`os, t.NodeSet()`image, t.NodeSet()`options
    reads EntityNodes(t, lans)`ports, PortsOf(EntityNodes(t, lans))`link, PortsOf(EntityNodes(t, lans))`options
  {
    t.QueryNode(id).Ok? && FaceOf(t.QueryNode(id).value) == spec.face &&
    (id !in LanKeys(lans) ==> (EntityNodeUnder(t, lans, id); PortFaces(t.QueryNode(id).value.ports) == spec.ports))
  }

  /** The nodes the topology holds under ids that no LAN of `lans` has. */
  ghost function EntityNodes(t: Topology, lans: LanTable): set<Node>
    reads t`nodes
  {
    set e | e in t.nodes && e.key !in LanKeys(lans) :: e.value
  }

  /** The node under an id no LAN has is one of the topology's entity nodes. */
  lemma EntityNodeUnder(t: Topology, lans: LanTable, id: string)
    requires t.QueryNode(id).Ok? && id !in LanKeys(lans)
    ensures t.QueryNode(id).value in EntityNodes(t, lans)
  {
    GetFinds(t.nodes, id);
    var k :| 0 <= k < |t.nodes| && t.nodes[k] == Entry(id, t.QueryNode(id).value);
    assert t.nodes[k] in t.nodes;
  }

  /** In a topology that files every node under its own id, those nodes have ids no LAN has. */
  lemma EntityNodesApart(t: Topology, lans: LanTable)
    requires t.IdKeyed()
    ensures forall n :: n in EntityNodes(t, lans) ==> n.id !in LanKeys(lans) && n in t.NodeSet()
  {
  }

  /**
   * After the first pass has reached `ls[i]`: the topology holds the ids `keys[..i]` of the
   * LANs `ls[..i]`, and under each of them that LAN's switch node.
   */
  ghost predicate LansFiled(t: Topology, ls: seq<Lan>, keys: seq<string>, i: int, ns: set<Node>)
    reads *
  {
    0 <= i <= |ls| == |keys| && t.NodeSet() <= ns && AllLinked(ns) && t.IdKeyed() &&
    t.KeySet() == (set k | k in keys[..i]) && forall m :: 0 <= m < i ==> SwitchFiled(t, ls[m])
  }

  /** No host or router after `all[j]` and before `all[i]` has its id: `all[j]` was filed last. */
  ghost predicate LastAt(all: seq<HostBase>, j: int, i: int)
    requires 0 <= j < i <= |all|
  {
    forall m :: j < m < i ==> all[m].id != all[j].id
  }

  /**
   * How `extract_topology` ends for one host or router once the LANs are in the topology:
   * `to_node` finds no template to read when a template id was never bound, the role's policy
   * or the route table can fail, and then `handle_ports` decides.
   */
  function NodeOutcome(v: EntityView, lans: LanTable, env: Environment): Outcome {
    if v.unbound then Fail(AttributeError("emulation"))
    else match NodeOptions(v.options, v.role, env, v.os, v.routes)
      case Err(e) => Fail(e)
      case Ok(_) => PortsOutcome(LanKeys(lans), lans, v.ports)
  }

  /** How `extract_topology`'s passes over hosts and routers end: the first failure, or `Pass`. */
  function NodesOutcome(vs: seq<EntityView>, lans: LanTable, env: Environment): Outcome
    decreases |vs|
  {
    if vs == [] then Pass
    else
      match NodesOutcome(vs[..|vs| - 1], lans, env)
      case Fail(err) => Fail(err)
      case Pass => NodeOutcome(vs[|vs| - 1], lans, env)
  }

  /** After hosts and routers that pass, the next one decides the outcome of the longer prefix. */
  lemma NodesOutcomeStep(vs: seq<EntityView>, lans: LanTable, env: Environment, i: int)
    requires 0 <= i < |vs| && NodesOutcome(vs[..i], lans, env) == Pass
    ensures NodesOutcome(vs[..i + 1], lans, env) == NodeOutcome(vs[i], lans, env)
  {
    assert vs[..i + 1][..i] == vs[..i];
  }

  /** Once a prefix of the hosts and routers fails, the whole extraction fails the same way. */
  lemma {:induction false} NodesOutcomeFails(vs: seq<EntityView>, lans: LanTable, env: Environment, k: nat)
    requires k <= |vs| && NodesOutcome(vs[..k], lans, env).Fail?
    ensures NodesOutcome(vs, lans, env) == NodesOutcome(vs[..k], lans, env)
    decreases |vs| - k
  {
    if k < |vs| {
      assert vs[..k + 1][..k] == vs[..k];
      NodesOutcomeFails(vs, lans, env, k + 1);
    } else {
      assert vs[..k] == vs;
    }
  }

  /**
   * One more host or router after a prefix that passed: its own outcome is the longer
   * prefix's, its id joins the prefix's ids, and if it fails the whole extraction fails so.
   */
  lemma NodeAtSteps(all: seq<HostBase>, vs: seq<EntityView>, lans: LanTable, env: Environment, i: int)
    requires 0 <= i < |all| == |vs| && NodesOutcome(vs[..i], lans, env) == Pass
    ensures NodesOutcome(vs[..i + 1], lans, env) == NodeOutcome(vs[i], lans, env)
    ensures EntityIds(all[..i + 1]) == EntityIds(all[..i]) + {all[i].id}
    ensures NodeOutcome(vs[i], lans, env).Fail? ==> NodesOutcome(vs, lans, env) == NodeOutcome(vs[i], lans, env)
  {
    NodesOutcomeStep(vs, lans, env, i);
    EntityIdsStep(all, i);
    if NodeOutcome(vs[i], lans, env).Fail? {
      NodesOutcomeFails(vs, lans, env, i + 1);
    }
  }

  class Scene {
    var routers: seq<Entry<string, HostBase>>
    var hosts: seq<Entry<string, HostBase>>
    var lans: seq<Entry<string, Lan>>
    var templates: seq<Entry<string, NodeTemplate>>
    var env: Environment

    constructor ()
      ensures routers == [] && hosts == [] && lans == [] && templates == [] && env == EmptyEnvironment
      ensures Keyed()
    {
      routers := [];
      hosts := [];
      lans := [];
      templates := [];
      env := EmptyEnvironment;
    }

    /** Every LAN, host and router is filed under its own id, as `add_entity` files them, and no LAN id repeats. */
    /** Each LAN is filed under its own id, and no LAN before it has that id. */
    ghost predicate LanIdsOnce()
      reads this`lans
    {
      forall i :: 0 <= i < |lans| ==> lans[i].key == lans[i].value.id && lans[i].key !in Keys(lans)[..i]
    }

    lemma KeyedLanIdsOnce()
      requires Keyed()
      ensures LanIdsOnce()
    {
      forall i | 0 <= i < |lans|
        ensures lans[i].key !in Keys(lans)[..i]
      {
        assert lans[i] in lans;
        forall m | 0 <= m < i
          ensures Keys(lans)[..i][m] != lans[i].key
        {
          assert Keys(lans)[..i][m] == lans[m].key;
        }
      }
    }

    ghost predicate Keyed()
      reads this`lans, this`hosts, this`routers
    {
      Distinct(lans) &&
      (forall e :: e in lans ==> e.key == e.value.id) &&
      (forall e :: e in hosts ==> e.key == e.value.id) &&
      (forall e :: e in routers ==> e.key == e.value.id)
    }

    /** `add_entity`: each kind goes into its own table under its id (replacing an earlier one); anything else is refused. */
    method AddEntity(entity: Entity) returns (r: Outcome)
      modifies this
      ensures r.Pass? <==> !entity.OtherEntity?
      ensures r.Fail? ==> r.error == Raised("unknown child type")
      ensures routers == (if entity.NodeEntity? && entity.node.IsRouter() then Set(old(routers), entity.node.id, entity.node) else old(routers))
      ensures hosts == (if entity.NodeEntity? && !entity.node.IsRouter() then Set(old(hosts), entity.node.id, entity.node) else old(hosts))
      ensures lans == (if entity.LanEntity? then Set(old(lans), entity.lan.id, entity.lan) else old(lans))
      ensures templates == (if entity.TemplateEntity? then Set(old(templates), entity.template.id, entity.template) else old(templates))
      ensures env == old(env)
      ensures old(Keyed()) ==> Keyed()
    {
      match entity
      case NodeEntity(node) =>
        if !node.IsRouter() {
          SetEntries(hosts, node.id, node);
          hosts := Set(hosts, node.id, node);
        } else {
          SetEntries(routers, node.id, node);
          routers := Set(routers, node.id, node);
        }
        r := Pass;
      case LanEntity(lan) =>
        SetEntries(lans, lan.id, lan);
        if Distinct(lans) {
          SetDistinct(lans, lan.id, lan);
        }
        lans := Set(lans, lan.id, lan);
        r := Pass;
      case TemplateEntity(template) =>
        templates := Set(templates, template.id, template);
        r := Pass;
      case OtherEntity =>
        r := Fail(Raised("unknown child type"));
    }

    /** `node_list`: the routers, then the hosts. */
    function NodeList(): seq<HostBase>
      reads this`routers, this`hosts
    {
      Values(routers) + Values(hosts)
    }

    ghost function Nodes(): set<HostBase>
      reads this`routers, this`hosts
    {
      set n | n in NodeList()
    }

    ghost function Ports(): set<NodePort>
      reads this`routers, this`hosts
    {
      set n, p | n in Nodes() && p in n.ports :: p
    }

    ghost function LanSet(): set<Lan>
      reads this`lans
    {
      set e | e in lans :: e.value
    }

    /** `find_template`. */
    function FindTemplate(id: string): (r: Maybe<NodeTemplate>)
      reads this`templates
      ensures r.Some? <==> id in Keys(templates)
      ensures r.Some? ==> r.value in Values(templates)
    {
      GetSomeIffKey(templates, id);
      if Get(templates, id).Some? then GetFinds(templates, id); Get(templates, id) else None
    }

    /**
     * What `adjust` establishes: every node with a template id holds the scene's template of
     * that id, and every port that names a LAN is bound to the scene's LAN of that id, which
     * lists the port's node among its hosts.
     */
    ghost predicate Adjusted()
      reads this`templates, this`routers, this`hosts, this`lans, Nodes()`template, Ports()`lan, LanSet()`hosts
    {
      (forall n :: n in Nodes() && n.templateId != "" ==> n.template.Some? && Get(templates, n.templateId) == n.template) &&
      forall n, p :: n in Nodes() && p in n.ports && p.inLan.Some? ==>
        p.lan in LanSet() && Get(lans, p.inLan.value.lanId) == Some(p.lan) && n in p.lan.hosts
    }

    /** The template half of `adjust`'s loop body, for one node. */
    method BindNodeTemplate(node: HostBase)
      modifies this`templates, Bindable({node})`template
      ensures templates == BindTemplate(old(templates), TemplateUse(node.templateId, node.role))
      ensures node.templateId != "" ==> node.template.Some? && Get(templates, node.templateId) == node.template
      ensures node.templateId == "" ==> node.template == old(node.template)
    {
      if node.templateId != "" {
        var template := FindTemplate(node.templateId);
        if template.None? {
          template := Some(DefaultTemplate(node.templateId, node.role));
          templates := Set(templates, template.value.id, template.value);
        }
        node.template := template;
      }
    }

    /**
     * The LAN half of `adjust`'s loop body, for one port of `node`: a port naming a LAN is bound
     * to the scene's LAN of that id (a `KeyError` when there is none), which gains the node
     * unless it already lists it.
     */
    method JoinPortLan(node: HostBase, port: NodePort) returns (r: Outcome)
      modifies LanNaming({port})`lan, LanSet()`hosts
      ensures port.inLan.None? ==> r == Pass && port.lan == old(port.lan)
      ensures port.inLan.Some? && port.inLan.value.lanId !in Keys(lans) ==> r == Fail(KeyError(port.inLan.value.lanId))
      ensures port.inLan.Some? && port.inLan.value.lanId in Keys(lans) ==>
        r == Pass && port.lan in LanSet() && Get(lans, port.inLan.value.lanId) == Some(port.lan)
      ensures r.Pass? ==> forall l :: l in LanSet() ==> l.hosts == Joined(old(l.hosts), l, lans, PortJoins(node, [port]))
    {
      assert PortJoins(node, [port]) == PortJoins(node, []) + if port.inLan.Some? then [LanJoin(node, port.inLan.value.lanId)] else [];
      if port.inLan.None? {
        return Pass;
      }
      var id := port.inLan.value.lanId;
      GetSomeIffKey(lans, id);
      var lan := Get(lans, id);
      if lan.None? {
        return Fail(KeyError(id));
      }
      GetFinds(lans, id);
      port.lan := lan.value;
      if node !in port.lan.hosts {
        port.lan.hosts := port.lan.hosts + [node];
      }
      r := Pass;
    }

    /** The ports of `ports` before `k` that name a LAN are bound to the scene's LAN of that id. */
    ghost predicate PortsBoundUpTo(ports: seq<NodePort>, k: int)
      reads this`lans, ports`lan
    {
      forall q :: 0 <= q < k && q < |ports| ==> PortBound(ports[q])
    }

    /** `adjust`'s port loop body for port `k` of `node`, once the ports before it are done. */
    method JoinPortAt(node: HostBase, k: int, ghost h0: map<Lan, seq<HostBase>>) returns (r: Outcome)
      requires 0 <= k < |node.ports|
      requires LanHostsAfter(h0, PortJoins(node, node.ports[..k])) && PortsBoundUpTo(node.ports, k)
      modifies LanNaming({node.ports[k]})`lan, LanSet()`hosts
      ensures r.Fail? <==> node.ports[k].inLan.Some? && node.ports[k].inLan.value.lanId !in Keys(lans)
      ensures r.Fail? ==> r.error == KeyError(node.ports[k].inLan.value.lanId)
      ensures r.Pass? ==> LanHostsAfter(h0, PortJoins(node, node.ports[..k + 1])) && PortsBoundUpTo(node.ports, k + 1)
    {
      var ports := node.ports;
      ghost var js := PortJoins(node, ports[..k]);
      assert PortJoins(node, ports[..k + 1]) == js + PortJoins(node, [ports[k]]) by {
        assert ports[..k + 1][..k] == ports[..k];
      }
      label Before:
      r := JoinPortLan(node, ports[k]);
      if r.Pass? {
        forall l | l in LanSet()
          ensures l in h0 && l.hosts == Joined(h0[l], l, lans, PortJoins(node, ports[..k + 1]))
        {
          JoinedConcat(h0[l], l, lans, js, PortJoins(node, [ports[k]]));
        }
        forall q | 0 <= q < k + 1
          ensures PortBound(ports[q])
        {
          if ports[q] != ports[k] {
            assert ports[q].lan == old@Before(ports[q].lan);
          }
        }
      }
    }

    /** `adjust`'s loop over the ports of `node`, from LAN hosts `h0`, stopping at the first unknown LAN. */
    method JoinPorts(node: HostBase, ghost h0: map<Lan, seq<HostBase>>) returns (r: Outcome)
      requires LanHostsAfter(h0, [])
      modifies LanNaming(set p | p in node.ports)`lan, LanSet()`hosts
      ensures r == JoinsOutcome(PortJoins(node, node.ports), lans)
      ensures r.Fail? ==> exists p :: p in node.ports && p.inLan.Some? && p.inLan.value.lanId !in Keys(lans)
      ensures r.Pass? ==> LanHostsAfter(h0, PortJoins(node, node.ports)) && PortsBoundUpTo(node.ports, |node.ports|)
    {
      var ports := node.ports;
      assert ports[..0] == [];
      var k := 0;
      while k < |ports|
        invariant 0 <= k <= |ports|
        invariant forall q :: 0 <= q < k && ports[q].inLan.Some? ==> Get(lans, ports[q].inLan.value.lanId).Some?
        invariant LanHostsAfter(h0, PortJoins(node, ports[..k])) && PortsBoundUpTo(ports, k)
      {
        r := JoinPortAt(node, k, h0);
        if r.Fail? {
          PortJoinsFirstMissing(node, ports, k, lans);
          return;
        }
        assert LanHostsAfter(h0, PortJoins(node, ports[..k + 1])) && PortsBoundUpTo(ports, k + 1);
        if ports[k].inLan.Some? {
          GetSomeIffKey(lans, ports[k].inLan.value.lanId);
        }
        k := k + 1;
      }
      assert ports[..k] == ports;
      PortJoinsKnown(node, ports, k, lans);
      r := Pass;
    }

    /** The LAN half of `adjust`'s loop body: every port of `node` in order, stopping at the first unknown LAN. */
    method JoinLans(node: HostBase) returns (r: Outcome)
      modifies LanNaming(set p | p in node.ports)`lan, LanSet()`hosts
      ensures r.Pass? ==> forall l :: l in LanSet() ==> l.hosts == Joined(old(l.hosts), l, lans, PortJoins(node, node.ports))
      ensures r.Pass? ==> forall p :: p in node.ports && p.inLan.Some? ==>
        p.lan in LanSet() && Get(lans, p.inLan.value.lanId) == Some(p.lan)
      ensures r.Pass? <==> forall p :: p in node.ports && p.inLan.Some? ==> p.inLan.value.lanId in Keys(lans)
      ensures r == JoinsOutcome(PortJoins(node, node.ports), lans)
      ensures forall p: NodePort :: old(allocated(p)) && p.inLan.None? ==> p.lan == old(p.lan)
    {
      ghost var h0: map<Lan, seq<HostBase>> := map l: Lan | l in LanSet() :: l.hosts;
      r := JoinPorts(node, h0);
      if r.Pass? {
        PortsBoundKnown(node.ports);
      }
    }

    /** Ports bound to the scene's LANs name known LANs. */
    lemma PortsBoundKnown(ports: seq<NodePort>)
      requires PortsBoundUpTo(ports, |ports|)
      ensures forall p :: p in ports && p.inLan.Some? ==>
        p.inLan.value.lanId in Keys(lans) && p.lan in LanSet() && Get(lans, p.inLan.value.lanId) == Some(p.lan)
    {
      forall p | p in ports && p.inLan.Some?
        ensures p.inLan.value.lanId in Keys(lans)
      {
        var q :| 0 <= q < |ports| && ports[q] == p;
        assert PortBound(p);
        GetSomeIffKey(lans, p.inLan.value.lanId);
      }
    }

    /** Every node of `ns` that has a template id holds the scene's template of that id. */
    ghost predicate TemplatesBound(ns: seq<HostBase>)
      reads this`templates, ns`template
    {
      forall j :: 0 <= j < |ns| && ns[j].templateId != "" ==>
        ns[j].template.Some? && Get(templates, ns[j].templateId) == ns[j].template
    }

    /** Every port of the nodes of `ns` that names a LAN is bound to the scene's LAN of that id. */
    ghost predicate PortsBound(ns: seq<HostBase>)
      reads this`lans, (set n, p | n in ns && p in n.ports :: p)`lan
    {
      forall n, p :: n in ns && p in n.ports && p.inLan.Some? ==>
        p.lan in LanSet() && Get(lans, p.inLan.value.lanId) == Some(p.lan)
    }

    /** Each LAN's hosts are its hosts in `before` followed by what the joins `js` add. */
    ghost predicate LanHostsAfter(before: map<Lan, seq<HostBase>>, js: seq<LanJoin>)
      reads this`lans, LanSet()`hosts
    {
      forall l :: l in LanSet() ==> l in before && l.hosts == Joined(before[l], l, lans, js)
    }

    /**
     * What `adjust` has done after its first `i` nodes: the template table is the old one with
     * their uses bound, their templates and LAN ports are bound, and each LAN's hosts are its
     * hosts in `before` followed by what their joins add.
     */
    ghost predicate AdjustedUpTo(nodes: seq<HostBase>, i: int, t0: seq<Entry<string, NodeTemplate>>, before: map<Lan, seq<HostBase>>)
      reads this`templates, this`lans, nodes`template, (set n, p | n in nodes && p in n.ports :: p)`lan, LanSet()`hosts
    {
      0 <= i <= |nodes| &&
      templates == BindTemplates(t0, TemplateUses(nodes)[..i]) &&
      TemplatesBound(nodes[..i]) && PortsBound(nodes[..i]) &&
      LanHostsAfter(before, Joins(nodes[..i], PortLists(nodes)[..i]))
    }

    /** The template half of `adjust`'s loop body for node `i`. */
    method BindTemplateAt(nodes: seq<HostBase>, i: int)
      requires 0 <= i < |nodes| && TemplatesBound(nodes[..i])
      modifies this`templates, Bindable({nodes[i]})`template
      ensures templates == BindTemplate(old(templates), TemplateUse(nodes[i].templateId, nodes[i].role))
      ensures TemplatesBound(nodes[..i + 1])
    {
      PrefixSnoc(nodes, i);
      label Bind:
      BindNodeTemplate(nodes[i]);
      forall j | 0 <= j < i && nodes[j].templateId != ""
        ensures nodes[j].template.Some? && Get(templates, nodes[j].templateId) == nodes[j].template
      {
        if nodes[j] != nodes[i] {
          assert nodes[j].template == old@Bind(nodes[j].template);
        }
      }
    }

    /** The LAN half of `adjust`'s loop body for node `i`. */
    method JoinLansAt(nodes: seq<HostBase>, i: int, ghost before: map<Lan, seq<HostBase>>) returns (r: Outcome)
      requires 0 <= i < |nodes|
      requires PortsBound(nodes[..i]) && LanHostsAfter(before, Joins(nodes[..i], PortLists(nodes)[..i]))
      modifies LanNaming(set p | p in nodes[i].ports)`lan, LanSet()`hosts
      ensures r.Pass? ==> PortsBound(nodes[..i + 1]) && LanHostsAfter(before, Joins(nodes[..i + 1], PortLists(nodes)[..i + 1]))
      ensures r == JoinsOutcome(PortJoins(nodes[i], nodes[i].ports), lans)
    {
      var node := nodes[i];
      ghost var js := Joins(nodes[..i], PortLists(nodes)[..i]);
      PrefixSnoc(nodes, i);
      JoinsSnoc(nodes, PortLists(nodes), i);
      r := JoinLans(node);
      if r.Pass? {
        forall n, p | n in nodes[..i + 1] && p in n.ports && p.inLan.Some?
          ensures p.lan in LanSet() && Get(lans, p.inLan.value.lanId) == Some(p.lan)
        {
          if p !in node.ports {
            assert p.lan == old(p.lan);
          }
        }
        forall l | l in LanSet()
          ensures l.hosts == Joined(before[l], l, lans, js + PortJoins(node, node.ports))
        {
          JoinedConcat(before[l], l, lans, js, PortJoins(node, node.ports));
        }
      }
    }

    /** `adjust`'s loop body for node `i`: its template, then its ports' LANs. */
    method AdjustNode(nodes: seq<HostBase>, i: int, ghost t0: seq<Entry<string, NodeTemplate>>, ghost before: map<Lan, seq<HostBase>>)
      returns (r: Outcome)
      requires AdjustedUpTo(nodes, i, t0, before) && i < |nodes|
      modifies this`templates, Bindable({nodes[i]})`template, LanNaming(set p | p in nodes[i].ports)`lan, LanSet()`hosts
      ensures r.Pass? ==> AdjustedUpTo(nodes, i + 1, t0, before)
      ensures r == JoinsOutcome(PortJoins(nodes[i], nodes[i].ports), lans)
    {
      assert PortsBound(nodes[..i]) && LanHostsAfter(before, Joins(nodes[..i], PortLists(nodes)[..i]));
      BindTemplatesSnoc(t0, TemplateUses(nodes), i);
      BindTemplateAt(nodes, i);
      assert templates == BindTemplates(t0, TemplateUses(nodes)[..i + 1]) && TemplatesBound(nodes[..i + 1]);
      r := JoinLansAt(nodes, i, before);
    }

    /** Once every node is done, the pass's results hold of the whole node list. */
    lemma AdjustedAll(nodes: seq<HostBase>, t0: seq<Entry<string, NodeTemplate>>, before: map<Lan, seq<HostBase>>)
      requires nodes == NodeList() && AdjustedUpTo(nodes, |nodes|, t0, before)
      ensures templates == BindTemplates(t0, TemplateUses(nodes))
      ensures forall l :: l in LanSet() ==> l in before && l.hosts == Joined(before[l], l, lans, Joins(nodes, PortLists(nodes)))
      ensures forall n, p :: n in Nodes() && p in n.ports && p.inLan.Some? ==> p.inLan.value.lanId in Keys(lans)
      ensures Adjusted()
    {
      FullPrefix(nodes);
      FullPrefix(TemplateUses(nodes));
      FullPrefix(PortLists(nodes));
      assert nodes[..|nodes|] == nodes && PortLists(nodes)[..|nodes|] == PortLists(nodes);
      AdjustedPorts(nodes, before);
    }

    /** Every port of every node that names a LAN names a known one, is bound to it, and its node is among its hosts. */
    lemma AdjustedPorts(nodes: seq<HostBase>, before: map<Lan, seq<HostBase>>)
      requires nodes == NodeList() && PortsBound(nodes) && LanHostsAfter(before, Joins(nodes, PortLists(nodes)))
      ensures forall n, p :: n in Nodes() && p in n.ports && p.inLan.Some? ==>
        p.inLan.value.lanId in Keys(lans) && p.lan in LanSet() && Get(lans, p.inLan.value.lanId) == Some(p.lan) && n in p.lan.hosts
    {
      var lists := PortLists(nodes);
      forall n, p | n in Nodes() && p in n.ports && p.inLan.Some?
        ensures p.inLan.value.lanId in Keys(lans) && n in p.lan.hosts
      {
        var j :| 0 <= j < |nodes| && nodes[j] == n;
        var k :| 0 <= k < |n.ports| && n.ports[k] == p;
        GetSomeIffKey(lans, p.inLan.value.lanId);
        JoinsContain(nodes, lists, j, k);
        JoinedContains(before[p.lan], p.lan, lans, Joins(nodes, lists), LanJoin(n, p.inLan.value.lanId));
      }
    }

    /**
     * `adjust`: for each node in `node_list` order, its template is bound (a default one for
     * its role is added when its id is unknown), then each of its ports that names a LAN is
     * bound to that LAN, which gains the node unless it lists it already. The first port that
     * names an unknown LAN stops the pass with a `KeyError`. Nothing but the template table,
     * node templates, port LANs and LAN hosts changes, so a second pass binds the same uses
     * and replays the same joins (see `AdjustIdempotent`).
     */
    method Adjust() returns (r: Outcome)
      modifies this`templates, Bindable(Nodes())`template, LanNaming(Ports())`lan, LanSet()`hosts
      ensures r.Pass? <==> LansKnown(NodeList(), lans)
      ensures r == JoinsOutcome(Joins(NodeList(), PortLists(NodeList())), lans)
      ensures forall n: HostBase :: old(allocated(n)) && n.templateId == "" ==> n.template == old(n.template)
      ensures forall p: NodePort :: old(allocated(p)) && p.inLan.None? ==> p.lan == old(p.lan)
      ensures r.Pass? ==> templates == BindTemplates(old(templates), TemplateUses(NodeList()))
      ensures r.Pass? ==> forall l :: l in LanSet() ==>
        l.hosts == Joined(old(l.hosts), l, lans, Joins(NodeList(), PortLists(NodeList())))
      ensures r.Pass? ==> Adjusted()
    {
      var nodes := NodeList();
      ghost var before: map<Lan, seq<HostBase>> := map l: Lan | l in LanSet() :: l.hosts;
      JoinsOutcomeKnown(nodes, lans);
      AdjustedNone(nodes, before);
      assert forall n: HostBase :: n.templateId == "" ==> n !in Bindable(Nodes());
      assert forall p: NodePort :: p.inLan.None? ==> p !in LanNaming(Ports());
      r := AdjustNodes(nodes, templates, before);
      if r.Pass? {
        AdjustedAll(nodes, old(templates), before);
      }
    }

    /** Before `adjust`'s loop no node is done yet. */
    lemma AdjustedNone(nodes: seq<HostBase>, before: map<Lan, seq<HostBase>>)
      requires before == map l: Lan | l in LanSet() :: l.hosts
      ensures AdjustedUpTo(nodes, 0, templates, before)
    {
      assert nodes[..0] == [] && TemplateUses(nodes)[..0] == [] && PortLists(nodes)[..0] == [];
    }

    /** `adjust`'s loop over `node_list`, from a state where no node is done yet. */
    method AdjustNodes(nodes: seq<HostBase>, ghost t0: seq<Entry<string, NodeTemplate>>, ghost before: map<Lan, seq<HostBase>>)
      returns (r: Outcome)
      requires nodes == NodeList() && AdjustedUpTo(nodes, 0, t0, before)
      modifies this`templates, Bindable(Nodes())`template, LanNaming(Ports())`lan, LanSet()`hosts
      ensures r.Pass? ==> AdjustedUpTo(nodes, |nodes|, t0, before)
      ensures r == JoinsOutcome(Joins(nodes, PortLists(nodes)), lans)
    {
      var i := 0;
      while i < |nodes|
        invariant AdjustedUpTo(nodes, i, t0, before)
      {
        assert nodes[i] in Nodes();
        BoundLansKnown(nodes[..i]);
        r := AdjustNode(nodes, i, t0, before);
        if r.Fail? {
          JoinsFirstMissing(nodes, i, lans);
          return;
        }
        i := i + 1;
      }
      BoundLansKnown(nodes[..i]);
      JoinsKnown(nodes, i, lans);
      FullPrefix(nodes);
      FullPrefix(PortLists(nodes));
      r := Pass;
    }

    /** Ports bound to LANs name LANs the scene has. */
    lemma BoundLansKnown(ns: seq<HostBase>)
      requires PortsBound(ns)
      ensures LansKnown(ns, lans)
    {
    }

    /** A port that names a LAN is bound to the scene's LAN of that id. */
    ghost predicate PortBound(p: NodePort)
      reads this`lans, p`lan
    {
      p.inLan.Some? ==> p.lan in LanSet() && Get(lans, p.inLan.value.lanId) == Some(p.lan)
    }

    // ---- extract_topology ----

    /** The nodes of `ns` with a LAN's id: the only nodes `handle_port` links a new port to. */
    ghost function LanTargets(ns: set<Node>): set<Node>
      reads this`lans
    {
      set n | n in ns && n.id in LanKeys(lans)
    }

    /**
     * `link_to_node` from a node to a switch, both among `ns`: a new port on each, joined by a
     * new link. The ports that were there keep their links.
     */
    static method LinkNodes(ghost ns: set<Node>, node: Node, sw: Node) returns (port: Port, peer: Port)
      requires node in ns && sw in ns
      modifies node`ports, node`nextPortIndex, sw`ports, sw`nextPortIndex
      ensures fresh(port) && fresh(peer) && port != peer && port.link != null && fresh(port.link)
      ensures port.link.port1 == port && port.link.port2 == peer && peer.node == sw && port.options == [] && peer.options == []
      ensures sw != node ==> node.ports == old(node.ports) + [port] && sw.ports == old(sw.ports) + [peer]
      ensures sw == node ==> node.ports == old(node.ports) + [port, peer]
      ensures old(AllLinked(ns)) ==> AllLinked(ns)
    {
      port, peer := node.LinkToNode(sw);
      if old(AllLinked(ns)) {
        forall n, p | n in ns && p in n.ports ensures p.Linked() {
          if p != port && p != peer {
            assert p in old(n.ports);
            assert old(p.Linked());
          }
        }
      }
    }

    /**
     * The part of `handle_port` after the lookups: a new port on the node linked to a new port
     * on the switch, then the address, which needs the LAN's network. The ports that were
     * there keep their links.
     */
    method LinkToSwitch(ghost ns: set<Node>, node: Node, sw: Node, ip: Maybe<string>, net: Maybe<Network>) returns (r: Outcome)
      requires node in ns && sw in ns
      modifies node`ports, node`nextPortIndex, sw`ports, sw`nextPortIndex
      ensures r == (if ip.Some? && ip.value != "" && net.None? then Fail(AttributeError("netmask")) else Pass)
      ensures var k := |old(node.ports)|;
        k < |node.ports| && node.ports[..k] == old(node.ports) &&
        fresh(node.ports[k]) && node.ports[k].link != null && fresh(node.ports[k].link) &&
        node.ports[k].link.port1 == node.ports[k] && node.ports[k].link.port2.node == sw &&
        node.ports[k].link.port2.options == [] &&
        (sw != node ==> node.ports == old(node.ports) + [node.ports[k]] && sw.ports == old(sw.ports) + [node.ports[k].link.port2]) &&
        (sw == node ==> node.ports == old(node.ports) + [node.ports[k], node.ports[k].link.port2]) &&
        (r.Pass? ==> node.ports[k].options == if ip.Some? && ip.value != "" then AddressOptions(ip.value, net.value) else [])
      ensures old(AllLinked(ns)) ==> AllLinked(ns)
    {
      var port, peer := LinkNodes(ns, node, sw);
      if ip.Some? && ip.value != "" {
        if net.None? {
          return Fail(AttributeError("netmask"));
        }
        port.ConfigIp(Text(ip.value), Addr(Netmask(net.value)), Text(""), Text(""));
      }
      r := Pass;
    }

    /**
     * `handle_port`: the node gets a new port linked to a new port of the topology's node for
     * the port's LAN, configured with the port's address and the LAN's netmask when an address
     * is given. Every other port keeps its link, so a topology whose ports all lie on links
     * keeps that property.
     */
    method HandlePort(t: Topology, node: Node, np: NodePort, ghost ns: set<Node>) returns (r: Outcome)
      requires t.NodeSet() + {node} <= ns && t.IdKeyed()
      modifies ({node} + LanTargets(ns))`ports, ({node} + LanTargets(ns))`nextPortIndex
      ensures r == PortOutcome(t.KeySet(), lans, np)
      ensures !LinksPort(t.KeySet(), lans, np) ==> node.ports == old(node.ports)
      ensures LinksPort(t.KeySet(), lans, np) ==>
        var k := |old(node.ports)|;
        k < |node.ports| && node.ports[..k] == old(node.ports) && fresh(node.ports[k]) && fresh(node.ports[k].link) &&
        (if node == t.QueryNode(np.inLan.value.lanId).value then |node.ports| == k + 2
         else node.ports == old(node.ports) + [node.ports[k]]) &&
        (r.Pass? ==> PortAttached(t, lans, node.ports[k], np))
      ensures old(AllLinked(ns)) ==> AllLinked(ns)
    {
      if np.inLan.None? {
        return Fail(AttributeError("lan_id"));
      }
      var id := np.inLan.value.lanId;
      var q := t.QueryNode(id);
      if q.Err? {
        return Fail(q.error);
      }
      var sw := q.value;
      var lan := Get(lans, id);
      GetSomeIffKey(lans, id);
      if lan.None? {
        return Fail(KeyError(id));
      }
      t.QueryNodeId(id);
      assert sw in LanTargets(ns);
      var net := lan.value.net;
      r := LinkToSwitch(ns, node, sw, np.inLan.value.ip, net);
    }

    /**
     * `handle_ports`: each of the entity's ports in turn, stopping at the first that fails.
     * A node outside the topology gets, after the ports it had, one attached port per port of
     * the entity.
     */
    method HandlePorts(t: Topology, entity: HostBase, node: Node, ghost ns: set<Node>) returns (r: Outcome)
      requires t.NodeSet() + {node} <= ns && t.IdKeyed()
      modifies ({node} + LanTargets(ns))`ports, ({node} + LanTargets(ns))`nextPortIndex
      ensures r == PortsOutcome(t.KeySet(), lans, entity.ports)
      ensures r.Pass? && node !in t.NodeSet() ==>
        var k := |old(node.ports)|;
        k <= |node.ports| && node.ports[..k] == old(node.ports) && AllAttached(t, lans, node.ports[k..], entity.ports)
      ensures old(AllLinked(ns)) ==> AllLinked(ns)
    {
      var ports := entity.ports;
      ghost var base := node.ports;
      ghost var added: seq<Port> := [];
      ghost var linked0 := AllLinked(ns);
      ghost var keys := t.KeySet();
      var i := 0;
      while i < |ports|
        invariant PortsHandled(t, keys, lans, node, base, added, ports, i)
        invariant node !in t.NodeSet() ==> AllAttached(t, lans, added, ports[..i])
        invariant linked0 ==> AllLinked(ns)
      {
        r, added := HandlePortAt(t, node, ports, i, keys, base, added, ns, linked0);
        if r.Fail? {
          return;
        }
        i := i + 1;
      }
      assert ports[..i] == ports;
      if node !in t.NodeSet() {
        assert node.ports[|base|..] == added;
      }
      r := Pass;
    }

    /** One turn of `handle_ports`' loop: the port at `i`, keeping what the loop has established. */
    method HandlePortAt(t: Topology, node: Node, ports: seq<NodePort>, i: int, ghost keys: set<string>,
                        ghost base: seq<Port>, ghost added: seq<Port>, ghost ns: set<Node>, ghost linked0: bool)
      returns (r: Outcome, ghost grown: seq<Port>)
      requires keys == t.KeySet()
      requires PortsHandled(t, keys, lans, node, base, added, ports, i) && i < |ports|
      requires node !in t.NodeSet() ==> AllAttached(t, lans, added, ports[..i])
      requires t.NodeSet() + {node} <= ns && (linked0 ==> AllLinked(ns)) && t.IdKeyed()
      modifies ({node} + LanTargets(ns))`ports, ({node} + LanTargets(ns))`nextPortIndex
      ensures r.Pass? ==> PortsHandled(t, keys, lans, node, base, grown, ports, i + 1)
      ensures r.Pass? && node !in t.NodeSet() ==> AllAttached(t, lans, grown, ports[..i + 1])
      ensures r.Fail? ==> r == PortsOutcome(keys, lans, ports)
      ensures linked0 ==> AllLinked(ns)
    {
      PortsOutcomeStep(keys, lans, ports, i);
      var k := |node.ports|;
      r := HandlePort(t, node, ports[i], ns);
      grown := added;
      if r.Fail? {
        PortsOutcomeFails(keys, lans, ports, i + 1);
      } else if node !in t.NodeSet() {
        var p := node.ports[k];
        grown := added + [p];
        assert node.ports == base + grown;
        AllAttachedSnoc(t, lans, added, p, ports, i);
      }
    }

    /**
     * A host's or router's node for `extract_topology`: `to_node`, then `handle_ports` against
     * the topology so far. With the LANs already in the topology, it ends as `NodeOutcome`
     * says of the entity's view, and the ports of the nodes (all among `ns` and the new node)
     * still lie on links.
     */
    method EntityNode(t: Topology, entity: HostBase, ghost view: EntityView, ghost ns: set<Node>)
      returns (r: Outcome, node: Node?)
      requires view == ViewFrom(entity, entity.template, if entity.routeTable == null then [] else entity.routeTable.entries)
      requires LanKeys(lans) <= t.KeySet() && t.NodeSet() <= ns && AllLinked(ns) && t.IdKeyed()
      modifies LanTargets(ns)`ports, LanTargets(ns)`nextPortIndex
      ensures r == NodeOutcome(view, lans, env)
      ensures r.Pass? ==> node != null && fresh(node) && AllLinked(ns + {node})
      ensures r.Pass? ==> IsEntityNode(node, entity, view, env) && PortsOn(lans, node.ports, entity.ports)
    {
      var res := EntityToNode(entity, view);
      if res.Err? {
        return Fail(res.error), null;
      }
      node := res.value;
      PortsOutcomeKeys(t.KeySet(), lans, entity.ports);
      r := AttachPorts(t, entity, node, ns);
    }

    /**
     * `handle_ports` for a new node without ports: each port it ends with is the one made for
     * the entity's port at the same place, and the ports of `ns` and the node still lie on links.
     */
    method AttachPorts(t: Topology, entity: HostBase, node: Node, ghost ns: set<Node>) returns (r: Outcome)
      requires t.NodeSet() <= ns && node !in ns && AllLinked(ns) && t.IdKeyed() && node.Valid() && node.ports == []
      modifies ({node} + LanTargets(ns))`ports, ({node} + LanTargets(ns))`nextPortIndex
      ensures r == PortsOutcome(t.KeySet(), lans, entity.ports)
      ensures r.Pass? ==> AllLinked(ns + {node}) && PortsOn(lans, node.ports, entity.ports)
    {
      AllLinkedAdd(ns, node);
      r := HandlePorts(t, entity, node, ns + {node});
      if r.Pass? {
        AttachedFromStart(t, lans, node.ports, |old(node.ports)|, entity.ports);
      }
    }

    /**
     * `to_node` of a host or router during `extract_topology`: a new node without ports, or
     * the failure `NodeOutcome` gives for the entity's view before any port is handled.
     */
    method EntityToNode(entity: HostBase, ghost view: EntityView) returns (res: Result<Node>)
      requires view == ViewFrom(entity, entity.template, if entity.routeTable == null then [] else entity.routeTable.entries)
      ensures res.Err? ==> NodeOutcome(view, lans, env) == Fail(res.error)
      ensures res.Ok? ==> NodeOutcome(view, lans, env) == PortsOutcome(LanKeys(lans), lans, entity.ports)
      ensures res.Ok? ==> fresh(res.value) && res.value.Valid() && res.value.ports == [] && IsEntityNode(res.value, entity, view, env)
    {
      res := entity.ToNode(env);
    }

    /**
     * `add_node` for a new node: the topology holds one more id, under it the node, and the
     * ports of its nodes (all among `ns` and the node) still lie on links.
     */
    static method FileNode(t: Topology, node: Node, ghost ns: set<Node>) returns (ghost grown: set<Node>)
      requires t.NodeSet() <= ns && AllLinked(ns + {node})
      modifies t`nodes
      ensures grown == ns + {node}
      ensures t.QueryNode(node.id) == Ok(node) && t.KeySet() == old(t.KeySet()) + {node.id}
      ensures forall id :: id != node.id ==> t.QueryNode(id) == old(t.QueryNode(id))
      ensures old(t.IdKeyed()) ==> t.IdKeyed()
      ensures t.NodeSet() <= grown && AllLinked(grown)
    {
      t.AddNode(node);
      grown := ns + {node};
    }

    /**
     * What `extract_topology`'s passes over hosts and routers have established after `all[..i]`
     * (whose views are `views`): none failed, the topology holds the LANs' and their ids, and
     * the ports of its nodes (all among `ns`) lie on links.
     */
    ghost predicate NodesExtracted(t: Topology, all: seq<HostBase>, views: seq<EntityView>, i: int, ns: set<Node>)
      reads this`lans, this`env, t`nodes, ns`ports, ns`nextPortIndex, PortsOf(ns)`link
    {
      0 <= i <= |all| == |views| && NodesOutcome(views[..i], lans, env) == Pass &&
      t.KeySet() == LanKeys(lans) + EntityIds(all[..i]) && t.NodeSet() <= ns && AllLinked(ns) && t.IdKeyed()
    }

    /**
     * What the topology holds after the LANs and `all[..i]` (whose nodes are `specs`): under
     * the id of each LAN that none of them took, that LAN's switch node; under the id of each
     * of them that no later one took, its node, with, unless a LAN has the same id, one port
     * per port of the entity, linked to a node with that port's LAN id.
     */
    ghost predicate Filed(t: Topology, all: seq<HostBase>, specs: seq<NodeShape>, i: int)
      reads *
    {
      0 <= i <= |all| == |specs| &&
      (forall l {:trigger SwitchFiled(t, l)} :: l in Values(lans) && l.id !in EntityIds(all[..i]) ==> SwitchFiled(t, l)) &&
      forall j {:trigger EntityFiled(t, lans, all[j].id, specs[j])} :: 0 <= j < i && LastAt(all, j, i) ==> EntityFiled(t, lans, all[j].id, specs[j])
    }

    /** The hosts and routers `all[from..]` are as `views` has them. */
    ghost predicate Viewed(all: seq<HostBase>, views: seq<EntityView>, from: int)
      reads (set n | n in all)`template, (set n | n in all && n.routeTable != null :: n.routeTable)`entries
    {
      0 <= from <= |all| == |views| &&
      forall j :: from <= j < |all| ==>
        views[j] == ViewFrom(all[j], all[j].template, if all[j].routeTable == null then [] else all[j].routeTable.entries)
    }

    /**
     * Where a pass of `extract_topology` over `all[from..]` stands after `all[..i]`: the
     * entities it has yet to reach are as `views` and `specs` have them, none of `all[..i]`
     * failed, and the topology holds what `NodesExtracted` and `Filed` say.
     */
    ghost predicate Extracting(t: Topology, all: seq<HostBase>, views: seq<EntityView>, specs: seq<NodeShape>,
                               from: int, i: int, ns: set<Node>)
      reads *
    {
      from <= i && Viewed(all, views, from) && NodesExtracted(t, all, views, i, ns) && Filed(t, all, specs, i)
    }

    /**
     * `extract_topology`'s pass over `all[from..to]` (its hosts, or its routers), after the
     * LANs and `all[..from]` are in the topology.
     */
    method ExtractNodes(t: Topology, all: seq<HostBase>, ghost views: seq<EntityView>, ghost specs: seq<NodeShape>,
                        from: int, to: int, ghost ns: set<Node>)
      returns (r: Outcome, ghost grown: set<Node>)
      requires from <= to <= |all| && Extracting(t, all, views, specs, from, from, ns) && Specced(lans, env, all, views, specs)
      modifies t`nodes, LanTargets(ns)`ports, LanTargets(ns)`nextPortIndex
      ensures r.Pass? ==> Extracting(t, all, views, specs, from, to, grown) && fresh(grown - ns)
      ensures r.Fail? ==> r == NodesOutcome(views, lans, env)
    {
      var i := from;
      grown := ns;
      while i != to
        invariant i <= to && Extracting(t, all, views, specs, from, i, grown) == true && fresh(grown - ns)
      {
        r, grown := ExtractNodeAt(t, all, views, specs, from, i, grown);
        if r.Fail? {
          return;
        }
        i := i + 1;
      }
      r := Pass;
    }

    /** One turn of a pass of `extract_topology`: the host or router at `i`. */
    method ExtractNodeAt(t: Topology, all: seq<HostBase>, ghost views: seq<EntityView>, ghost specs: seq<NodeShape>,
                         ghost from: int, i: int, ghost ns: set<Node>)
      returns (r: Outcome, ghost grown: set<Node>)
      // Stated as equations so that the loop hands on the facts it holds whole, unchecked piece by piece.
      requires i < |all| && Extracting(t, all, views, specs, from, i, ns) == true
      requires Specced(lans, env, all, views, specs) == true
      modifies t`nodes, LanTargets(ns)`ports, LanTargets(ns)`nextPortIndex
      ensures r.Pass? ==> Extracting(t, all, views, specs, from, i + 1, grown) && fresh(grown - ns)
      ensures r.Fail? ==> r == NodesOutcome(views, lans, env)
    {
      r, grown := FileEntityAt(t, all, views, specs, i, ns);
    }

    /**
     * The host or router at `i`, seen as `views[i]`, goes into the topology after `all[..i]`:
     * its node, linked to the switches of its ports' LANs, filed under its id.
     */
    method FileEntityAt(t: Topology, all: seq<HostBase>, ghost views: seq<EntityView>, ghost specs: seq<NodeShape>,
                        i: int, ghost ns: set<Node>)
      returns (r: Outcome, ghost grown: set<Node>)
      requires 0 <= i < |all| == |views| && NodesExtracted(t, all, views, i, ns)
      requires Specced(lans, env, all, views, specs) && Filed(t, all, specs, i)
      requires views[i] == ViewFrom(all[i], all[i].template, if all[i].routeTable == null then [] else all[i].routeTable.entries)
      modifies t`nodes, LanTargets(ns)`ports, LanTargets(ns)`nextPortIndex
      ensures r.Pass? ==> NodesExtracted(t, all, views, i + 1, grown) && fresh(grown - ns) && Filed(t, all, specs, i + 1)
      ensures r.Fail? ==> r == NodesOutcome(views, lans, env)
    {
      NodeAtSteps(all, views, lans, env, i);
      var node;
      r, node := EntityNodeAt(t, all, views[i], specs, i, ns);
      grown := ns;
      if r.Pass? {
        grown := FileEntityNode(t, all, specs, i, node, ns);
        assert NodesOutcome(views[..i + 1], lans, env) == Pass;
        assert t.KeySet() == LanKeys(lans) + EntityIds(all[..i + 1]);
      }
    }

    /**
     * `EntityNode` for `all[i]`, seen as `view`: the new node is `specs[i]`, and what the
     * topology holds for the LANs and `all[..i]` stays as it was.
     */
    method EntityNodeAt(t: Topology, all: seq<HostBase>, ghost view: EntityView, ghost specs: seq<NodeShape>,
                        i: int, ghost ns: set<Node>)
      returns (r: Outcome, node: Node?)
      requires 0 <= i < |all| == |specs| && Filed(t, all, specs, i)
      requires view == ViewFrom(all[i], all[i].template, if all[i].routeTable == null then [] else all[i].routeTable.entries)
      requires specs[i] == EntitySpec(lans, all[i], view, env)
      requires LanKeys(lans) <= t.KeySet() && t.NodeSet() <= ns && AllLinked(ns) && t.IdKeyed()
      modifies LanTargets(ns)`ports, LanTargets(ns)`nextPortIndex
      ensures r == NodeOutcome(view, lans, env) && Filed(t, all, specs, i)
      ensures r.Pass? ==> node != null && fresh(node) && AllLinked(ns + {node}) && node.id == all[i].id
      ensures r.Pass? ==> FaceOf(node) == specs[i].face && PortFaces(node.ports) == specs[i].ports
    {
      EntityNodesApart(t, lans);
      r, node := EntityNode(t, all[i], view, ns);
      if r.Pass? {
        PortFacesOn(lans, node.ports, all[i].ports);
      }
      assert EntityNodes(t, lans) == old(EntityNodes(t, lans));
      assert forall n :: n in EntityNodes(t, lans) ==> n.ports == old(n.ports);
      assert PortsOf(EntityNodes(t, lans)) == old(PortsOf(EntityNodes(t, lans)));
      forall j | 0 <= j < i && LastAt(all, j, i)
        ensures EntityFiled(t, lans, all[j].id, specs[j])
      {
        assert old(EntityFiled(t, lans, all[j].id, specs[j]));
      }
    }

    /**
     * `add_node` for the node of `all[i]`, which is `specs[i]`: what the topology holds for
     * the LANs and `all[..i + 1]` follows from what it held for the LANs and `all[..i]`.
     */
    method FileEntityNode(t: Topology, all: seq<HostBase>, ghost specs: seq<NodeShape>, i: int, node: Node, ghost ns: set<Node>)
      returns (ghost grown: set<Node>)
      requires 0 <= i < |all| == |specs| && Filed(t, all, specs, i)
      requires t.NodeSet() <= ns && AllLinked(ns + {node}) && t.IdKeyed()
      requires node.id == all[i].id && FaceOf(node) == specs[i].face && PortFaces(node.ports) == specs[i].ports
      modifies t`nodes
      ensures t.KeySet() == old(t.KeySet()) + {node.id} && t.IdKeyed()
      ensures grown == ns + {node} && t.NodeSet() <= grown && AllLinked(grown)
      ensures Filed(t, all, specs, i + 1)
    {
      grown := FileNode(t, node, ns);
      forall l | l in Values(lans) && l.id !in EntityIds(all[..i + 1])
        ensures SwitchFiled(t, l)
      {
        EntityIdsStep(all, i);
        assert old(SwitchFiled(t, l));
      }
      forall j | 0 <= j < i + 1 && LastAt(all, j, i + 1)
        ensures EntityFiled(t, lans, all[j].id, specs[j])
      {
        if j < i {
          assert all[j].id != all[i].id && LastAt(all, j, i);
          assert old(EntityFiled(t, lans, all[j].id, specs[j]));
        }
      }
    }

    /**
     * `extract_topology`'s first pass: a switch node for every LAN, filed under the LAN's id.
     * The topology then holds exactly the LANs' ids, and its nodes have no ports.
     */
    method AddLanNodes(t: Topology) returns (ghost ns: set<Node>)
      requires LanIdsOnce() && t.nodes == []
      modifies t`nodes
      ensures t.KeySet() == LanKeys(lans) && t.NodeSet() <= ns && AllLinked(ns) && fresh(ns) && t.IdKeyed()
      ensures forall l :: l in Values(lans) ==> SwitchFiled(t, l)
    {
      var ls := Values(lans);
      ghost var keys := Keys(lans);
      ns := {};
      var i := 0;
      while i < |ls|
        invariant 0 <= i <= |ls| && fresh(ns) && LansFiled(t, ls, keys, i, ns)
      {
        assert keys[i] !in keys[..i] && keys[i] == ls[i].id;
        assert forall m :: 0 <= m < i ==> keys[..i][m] == ls[m].id;
        ns := AddLanAt(t, ls, keys, i, ns);
        i := i + 1;
      }
      FullPrefix(keys);
    }

    /** One turn of the first pass: the LAN `ls[i]`, whose id no LAN before it has. */
    static method AddLanAt(t: Topology, ls: seq<Lan>, ghost keys: seq<string>, i: int, ghost ns: set<Node>)
      returns (ghost grown: set<Node>)
      requires i < |ls| && LansFiled(t, ls, keys, i, ns) && keys[i] == ls[i].id
      requires forall m :: 0 <= m < i ==> ls[m].id != ls[i].id
      modifies t`nodes
      ensures LansFiled(t, ls, keys, i + 1, grown) && fresh(grown - ns)
    {
      grown := AddLanNode(t, ls, i, ns);
      PrefixSnoc(keys, i);
    }

    /**
     * One turn of `extract_topology`'s first pass: the switch node of the LAN `ls[i]`, filed
     * under its id, which none of the LANs before it has.
     */
    static method AddLanNode(t: Topology, ls: seq<Lan>, i: int, ghost ns: set<Node>) returns (ghost grown: set<Node>)
      requires 0 <= i < |ls| && t.NodeSet() <= ns && AllLinked(ns)
      requires forall m :: 0 <= m < i ==> ls[m].id != ls[i].id && SwitchFiled(t, ls[m])
      modifies t`nodes
      ensures t.KeySet() == old(t.KeySet()) + {ls[i].id} && t.NodeSet() <= grown && AllLinked(grown) && fresh(grown - ns)
      ensures forall id :: id != ls[i].id ==> t.QueryNode(id) == old(t.QueryNode(id))
      ensures forall m :: 0 <= m <= i ==> SwitchFiled(t, ls[m])
      ensures old(t.IdKeyed()) ==> t.IdKeyed()
    {
      var node := ls[i].ToNode();
      AllLinkedAdd(ns, node);
      grown := FileNode(t, node, ns);
    }

    /** How `extract_topology` starts: a new topology holding a switch node for every LAN. */
    method StartTopology(all: seq<HostBase>, ghost views: seq<EntityView>, ghost specs: seq<NodeShape>)
      returns (t: Topology, ghost ns: set<Node>)
      requires Keyed() && Viewed(all, views, 0) && |specs| == |all|
      ensures fresh(t) && fresh(ns) && Viewed(all, views, 0) && NodesExtracted(t, all, views, 0, ns) && Filed(t, all, specs, 0)
    {
      t := new Topology();
      KeyedLanIdsOnce();
      ns := AddLanNodes(t);
      forall j | 0 <= j < |all|
        ensures views[j] == ViewFrom(all[j], all[j].template, if all[j].routeTable == null then [] else all[j].routeTable.entries)
      {
        assert old(views[j] == ViewFrom(all[j], all[j].template, if all[j].routeTable == null then [] else all[j].routeTable.entries));
      }
      assert all[..0] == [] && views[..0] == [];
    }

    /** The hosts and then the routers, in the order `extract_topology` files them. */
    ghost function Entities(): seq<HostBase>
      reads this`hosts, this`routers
    {
      Values(hosts) + Values(routers)
    }

    /**
     * `extract_topology`: a new topology with a switch node for every LAN, then a node for
     * every host and then every router, each linked to the switches of its ports' LANs. It
     * fails with the first host's or router's failure; otherwise the topology holds a node
     * under every LAN's, host's and router's id, every port of every node lies on a link, and
     * under each id the node filed last: a LAN's switch node, or the node `EntitySpec` gives.
     */
    method ExtractTopology() returns (r: Result<Topology>)
      requires Keyed()
      ensures r.Ok? <==> NodesOutcome(old(Views(Values(hosts) + Values(routers))), lans, env) == Pass
      ensures r.Err? ==> r.error == NodesOutcome(old(Views(Values(hosts) + Values(routers))), lans, env).error
      ensures r.Ok? ==> fresh(r.value) && fresh(r.value.NodeSet()) && r.value.WellLinked()
      ensures r.Ok? ==> r.value.KeySet() == LanKeys(lans) + EntityIds(Values(hosts) + Values(routers)) && r.value.IdKeyed()
      ensures r.Ok? ==> Filed(r.value, Entities(), Specs(lans, env, Entities(), old(Views(Entities()))), |Entities()|)
    {
      var all := Values(hosts) + Values(routers);
      ghost var views := Views(all);
      var out, t := BuildTopology(all, views, |hosts|);
      if out.Fail? {
        return Err(out.error);
      }
      return Ok(t);
    }

    /**
     * The body of `extract_topology` for the hosts `all[..mid]` and routers `all[mid..]`, seen
     * as `views`: it ends as `NodesOutcome` says, and a topology built without failure is new,
     * holds the LANs' and entities' ids, has every port on a link, and holds the last node
     * filed under each id.
     */
    method BuildTopology(all: seq<HostBase>, ghost views: seq<EntityView>, mid: int) returns (r: Outcome, t: Topology)
      requires Keyed() && 0 <= mid <= |all| && Viewed(all, views, 0)
      ensures r == NodesOutcome(views, lans, env)
      ensures r.Pass? ==> fresh(t) && fresh(t.NodeSet()) && t.WellLinked() && t.KeySet() == LanKeys(lans) + EntityIds(all)
      ensures r.Pass? ==> t.IdKeyed() && Filed(t, all, Specs(lans, env, all, views), |all|)
    {
      ghost var specs := Specs(lans, env, all, views);
      ghost var ns;
      t, ns := StartTopology(all, views, specs);
      ghost var grown;
      r, grown := ExtractPasses(t, all, views, specs, mid, ns);
      if r.Pass? {
        assert fresh(grown);
        FullPrefix(all);
        AllLinkedSub(t.NodeSet(), grown);
      }
    }

    /** `extract_topology`'s passes over the hosts, `all[..mid]`, and then the routers. */
    method ExtractPasses(t: Topology, all: seq<HostBase>, ghost views: seq<EntityView>, ghost specs: seq<NodeShape>,
                         mid: int, ghost ns: set<Node>)
      returns (r: Outcome, ghost grown: set<Node>)
      requires 0 <= mid <= |all| && Extracting(t, all, views, specs, 0, 0, ns) && Specced(lans, env, all, views, specs)
      modifies t`nodes, LanTargets(ns)`ports, LanTargets(ns)`nextPortIndex
      ensures r.Pass? ==> Extracting(t, all, views, specs, mid, |all|, grown) && fresh(grown - ns)
      ensures r == NodesOutcome(views, lans, env)
    {
      r, grown := ExtractNodes(t, all, views, specs, 0, mid, ns);
      if r.Pass? {
        assert Viewed(all, views, mid);
        ghost var first := grown;
        r, grown := ExtractNodes(t, all, views, specs, mid, |all|, grown);
        assert r.Pass? ==> grown - ns <= (grown - first) + (first - ns);
      }
      FullPrefix(views);
    }
  }
}

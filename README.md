# scene-builder core, modelled in Dafny

scene-builder compiles a declarative scene description into a network topology and exports
it as the `topo` XML document of an emulation platform. A scene holds hosts, routers, LANs,
node templates and an environment block. This project models the compiler's core and proves
properties of the model:

- **the transformer** (`scbr/lang/parser.py`, module `Parser`). Each grammar rule receives
  its already-transformed children and builds a LAN, host, router, template, environment,
  port, route table or option value. The `scene` rule registers everything in a `Scene` and
  adjusts it. Children are the datatype `Child`. The rules that loop over their children are
  methods of the class `SceneTransformer`, proved against folds (`HostFrom`, `RouterFrom`,
  `LanFrom`, `TemplateFrom`, `EnvFrom`, `DictFrom`, `FileFrom`). Lemmas over those folds state
  what the source promises: the last alias wins, ports keep their order, an unknown element
  is refused, and so on.
- **the scene** (`scbr/scene.py`, module `Scene`). `add_entity` files each entity into one of
  four insertion-ordered tables. `adjust` binds template ids, adding role defaults, and joins
  nodes to the LANs their ports name. `extract_topology` applies the role policy and links
  every in-LAN port to its LAN's switch node. `Scene`, `HostBase`, `Lan`, `NodePort` and
  `RouteTable` are classes, and their methods update fields in place.
- **the topology and its exporter** (`scbr/topo.py`, module `Topo`). Nodes hand out ports
  numbered 1, 2, 3, … from a counter. `link_to_node` joins two new ports by a link.
  `Option.guess_type` tags values. `fill_options` and `export` build the `topo` element tree,
  modelled as a datatype rather than XML text.
- **the prefix-length table** (`scbr/utils.py`, module `Utils`). Every entry of
  `length_to_mask_table` is proved to be the dotted quad of its prefix mask.

Shared modules:

- `OrderedDict`: Python's insertion-ordered `dict` as a sequence of entries. Assigning to an
  existing key keeps its position.
- `Ipv4`: addresses as 32-bit naturals, networks, prefix masks, and the dotted-quad and
  decimal text forms Python's `str` writes.
- `Wrappers`: `Maybe`, `Result` and `Outcome`. A Python exception is an `Err` or `Fail`
  carrying the exception's kind (`KeyError`, `AttributeError`, `IndexError`, `ValueError`, or
  a raised `Exception` with its message).

Four behaviours of the code are easy to miss. The model keeps the first three as written and
departs from the fourth:

- `adjust` binds only ports that name a LAN (`scbr/scene.py:48-52`). It never resolves the
  peer of a port-to-port line (`to_port`, `scbr/scene.py:263`).
- `link_to_node` makes a new link on every call (`scbr/topo.py:64-68`). Links are not
  deduplicated.
- A port with no LAN makes `handle_port` fail. Reading `node_port.in_lan.lan_id` raises an
  `AttributeError` when `in_lan` is `None` (`scbr/scene.py:83`).
- A node shares its entity's option dict when that dict is non-empty (`scbr/topo.py:44`).
  So the first `extract_topology` leaves its routes and settings in the host or router, and
  a second one starts from them. The model gives each node a copy (see Left out).

## Model

| member | source | states |
|---|---|---|
| OrderedDict.Keys | scbr/scene.py:55-58 | the keys of a dict are its entries' keys, one per entry, in insertion order |
| OrderedDict.Values | scbr/scene.py:55-58 | `values()` lists the entries' values, one per entry, in insertion order |
| OrderedDict.GetSomeIffKey | scbr/scene.py:91 | `k in d` holds exactly when a lookup of `k` finds a value |
| OrderedDict.GetFinds | scbr/scene.py:92 | the value a lookup finds is the value of an entry with that key |
| OrderedDict.Set | scbr/scene.py:28 | after `d[k] = v` a lookup of `k` gives `v`, and every other key looks up as before |
| OrderedDict.SetKeys | scbr/scene.py:28 | `d[k] = v` keeps the key order and appends `k` only when it is new |
| OrderedDict.SetDistinct | scbr/scene.py:28 | assignment never makes a key occur twice |
| OrderedDict.GetDistinctAt | scbr/scene.py:62 | in a dict without repeated keys, each entry's key looks up to that entry's value |
| OrderedDict.SetTwice | scbr/scene.py:28 | assigning a key twice gives the dict that the second assignment alone would give |
| OrderedDict.SetEntries | scbr/scene.py:28 | after `d[k] = v` every entry is the new entry or an old one |
| Ipv4.DecShape | scbr/topo.py:171 | `str(n)` of a natural is a non-empty run of digits, with one to three digits below 1000 |
| Ipv4.LeadingDigits | scbr/topo.py:14 | the count of leading ASCII digits '0'-'9' of a text, which is how far a `\d` run of the pattern reaches on such text |
| Ipv4.LeadingDigitsExtend | scbr/topo.py:14 | appending text never shortens a run of leading digits, and leaves a run followed by a non-digit unchanged |
| Ipv4.DigitGroupsExtend | scbr/topo.py:118 | `re.match` accepts a prefix, so text appended after a match of the digit groups keeps it a match |
| Ipv4.MatchesIpPatternExtend | scbr/topo.py:118 | a text that `IP_PATTERN.match` accepts stays accepted whatever follows it |
| Ipv4.DottedQuadMatches | scbr/topo.py:14 | the dotted-quad text of every address matches `IP_PATTERN` |
| Ipv4.NonDigitStartNoMatch | scbr/topo.py:118-121 | a text that is empty or starts with a non-digit never matches `IP_PATTERN` |
| Utils.MaskTableRow | scbr/utils.py:19-53 | entry `i` of the literal pairs the decimal text of its prefix length with the dotted quad of the mask of that many leading one bits |
| Utils.MaskTableDistinct | scbr/utils.py:19-53 | no key of the table occurs twice |
| Utils.MaskTableKeys | scbr/utils.py:19-53 | the table's keys are exactly the texts "0" to "32", each once |
| Utils.MaskTableLookup | scbr/utils.py:19-53 | looking up the text of `k` gives the dotted quad of the mask with `k` leading one bits (so '0' gives 0.0.0.0, '24' gives 255.255.255.0 and '32' gives 255.255.255.255) |
| Utils.MaskOctets | scbr/utils.py:20-52 | every mask octet is 0, 128, 192, 224, 240, 248, 252, 254 or 255, and every octet after one that is not 255 is 0 |
| Utils.PrefixMaskIncreasing | scbr/utils.py:19-53 | a longer prefix has a strictly larger mask |
| Utils.NetPrefixLenToMask | scbr/utils.py:56-57 | the stub returns `None` for every argument |
| Topo.GuessType | scbr/topo.py:111-121 | numbers are "number" and nothing else is; address objects are "ip"; any other value is "ip" exactly when its text starts with a match of `IP_PATTERN`, and "string" otherwise |
| Topo.GuessTypeNetwork | scbr/topo.py:111-121 | a network value is tagged "ip" through its text |
| Topo.GuessTypeAddressText | scbr/topo.py:111-121 | the text of an address is tagged "ip", like the address |
| Topo.GuessTypeTextExtend | scbr/topo.py:118 | a text tagged "ip" stays "ip" whatever is appended, since the match is a prefix match |
| Topo.GuessTypeNonDigitText | scbr/topo.py:116-121 | a text that does not start with a digit is a "string" |
| Topo.MakeOption | scbr/topo.py:103-109 | an option keeps its value and unit, keeps a non-empty subtype, and otherwise takes the guessed subtype |
| Topo.DefaultPhysic | scbr/topo.py:48-54 | `cpuCount` is 2 (unit 个) and `ram` is 2048 MB exactly when the OS is "windows", and 1 and 1024 MB otherwise; no other key changes |
| Topo.WithoutControlNic | scbr/topo.py:70-71 | `_noControlNic` becomes the string option "true"; no other key changes |
| Topo.RouteItem | scbr/topo.py:79-83 | a route is a dict of `targetNete` (the network address, "ip"), `networkLength` (the prefix length, "number") and `nicIp` (the gateway, "ip"), in that order |
| Topo.AppendRoute | scbr/topo.py:73-83 | `add_route_entry` succeeds exactly when "route_list" is absent or a list; the list then holds the old routes and one new route, no other key changes, and a non-list has no `append` |
| Topo.AppendRouteKeepsRoutes | scbr/topo.py:73-83 | each call appends exactly one route and keeps the earlier ones in order |
| Topo.IpOptions | scbr/topo.py:94-98 | `config_ip` sets exactly `ip`, `netmask`, `defaultGateway` and `dns`, all with subtype "ip" |
| Topo.AllLinkedAdd | scbr/topo.py:36-46 | a new node without ports joins a set of nodes whose ports all lie on links |
| Topo.AllLinkedSub | scbr/topo.py:56-68 | a subset of nodes whose ports lie on links keeps that property |
| Topo.Topology.constructor | scbr/topo.py:24-25 | a new topology holds no nodes |
| Topo.Topology.AddNode | scbr/topo.py:27-28 | the node is filed under its id, replacing any node with that id, and every other id looks up as before |
| Topo.Topology.QueryNode | scbr/topo.py:30-31 | the node filed under the id, or a `KeyError` exactly when the id is not a key |
| Topo.Topology.QueryNodeId | scbr/topo.py:27-31 | in a topology whose nodes are all filed under their own ids, the node a lookup finds has the id looked up |
| Topo.Node.constructor | scbr/topo.py:36-46 | a node has the given id, name, category name, template id and options, emulation "vsphere", empty image and OS, no ports, and a port counter of 1 |
| Topo.Node.UseDefaultPhysic | scbr/topo.py:48-54 | the options become `DefaultPhysic` of the old ones for the node's OS; ports, counter and appearance are unchanged |
| Topo.Node.AddPort | scbr/topo.py:56-62 | the new unlinked port gets the counter's current value as its index and is appended to the ports, and the counter moves on by one, so ports stay numbered 1, 2, 3, … in creation order |
| Topo.Node.LinkToNode | scbr/topo.py:64-68 | exactly one new port on each node (two on a node linked to itself), both on the same new link, which has them as its ends; the earlier ports are kept and the numbering stays contiguous |
| Topo.Node.RemoveControlNic | scbr/topo.py:70-71 | the options become `WithoutControlNic` of the old ones; nothing else changes |
| Topo.Node.AddRouteEntry | scbr/topo.py:73-83 | the options become `AppendRoute` of the old ones, or stay as they were with the `append` error |
| Topo.Port.constructor | scbr/topo.py:88-92 | a new port has its node and index, no options and no link |
| Topo.Port.ConfigIp | scbr/topo.py:94-98 | the options become `IpOptions` of the old ones |
| Topo.Link.constructor | scbr/topo.py:126-132 | a link has its two ports as ends, and both ports refer back to it |
| Topo.Link.AdjacentPort | scbr/topo.py:134-140 | the first end gives the second, the second end gives the first, and any other port is refused |
| Topo.Link.AdjacentPortInvolution | scbr/topo.py:134-140 | going to the other end and back returns the starting port |
| Topo.OptionAttrs | scbr/topo.py:195-198 | writing an option sets `value`, `type` and `unit` and keeps every other attribute |
| Topo.FillOptions | scbr/topo.py:180-200 | filling succeeds exactly for options and dicts of acceptable entries; an option writes its attributes and keeps the children; a dict keeps the attributes and the existing children and appends, after them, exactly the `config` elements `EntryConfigs` gives for its entries; a bare list or any other value raises its own message |
| Topo.EntryConfigs | scbr/topo.py:181-192 | a dict's entries fill without error exactly when each entry (each item of a list entry) can be filled, and then give one `config` element per plain entry and one per item of a list entry |
| Topo.EntryElements | scbr/topo.py:182-192 | one entry fills exactly when its value (or every item of its list) can be filled, and gives one element per item of a list, else one |
| Topo.EntryElementsAt | scbr/topo.py:181-192 | the elements of entry `i` are the dict's elements from place `ConfigCount(es[..i])` on, so the entries' elements follow the entries' order |
| Topo.EntryConfigsAt | scbr/topo.py:181-192 | a plain entry `i` becomes the `config` element named after its key and filled with its value; item `j` of a list entry fills the `config` element named after the key and numbered `j`; both sit at place `ConfigCount(es[..i])` (+ `j`) |
| Topo.EntryConfigsItemAt | scbr/topo.py:183-188 | the element for item `j` of a list entry is a `config` with `name` = the key and `index` = the decimal text of `j` |
| Topo.EntryConfigsTagged | scbr/topo.py:181-192 | every element a dict's entries become is a `config` element |
| Topo.ItemConfigs | scbr/topo.py:183-188 | item `j` of a list entry, counted from `index`, fills the `config` element numbered `index + j` under the key's name, and the list is accepted exactly when each item is |
| Topo.ItemConfigNamed | scbr/topo.py:184-188 | that element is a `config` with `name` = the key and `index` = the decimal text of `j` |
| Topo.InterfaceAttrs | scbr/topo.py:169-174 | an interface carries its port's index, the peer node's name as `toNode` and the peer's index as `toPort` |
| Topo.InterfaceElement | scbr/topo.py:168-175 | a port with no link raises `AttributeError`; otherwise the `interface` element carries the port's number and the peer's node name and number, and its children are exactly the `config` elements of the port's options |
| Topo.Collect | scbr/topo.py:168-175 | the port loop's outcome over per-port results: all values in order exactly when every result succeeded, else an error |
| Topo.CollectErrorPersists | scbr/topo.py:168-175 | once a prefix of the per-port results has failed, the loop's outcome is that prefix's error |
| Topo.InterfaceResults | scbr/topo.py:169-175 | one result per port, in port order, each the port's `interface` element or its failure |
| Topo.InterfaceElements | scbr/topo.py:168-175 | the interfaces of the ports, in port order, exactly when each port has one |
| Topo.InterfaceElementsErrorPersists | scbr/topo.py:168-175 | the first port that fails decides the error of the whole loop |
| Topo.NodeElement | scbr/topo.py:157-175 | succeeds exactly when the node's options and every port's interface can be written; the `node` element has the node's attributes, then the `config` elements of its options, then one `interface` element per port in port order |
| Topo.ExportInterfaces | scbr/topo.py:168-175 | the exporter's port loop yields exactly `InterfaceElements` of the ports: every interface in port order, or the first port's error |
| Topo.ExportNode | scbr/topo.py:157-175 | the exporter's loop body builds exactly `NodeElement` of the node |
| Topo.Export | scbr/topo.py:153-177 | a `topo` element of version 2.0 with one `node` element per node in the topology's order, or the error of the first node whose element fails, every earlier node's element having succeeded |
| Scene.RoleNamed | scbr/scene.py:8-14 | `NodeRole[name]` finds the role whose member name is `name`, and a `KeyError` exactly when no role has that name |
| Scene.RoleNamedInverse | scbr/scene.py:8-14 | every role is found under its own name |
| Scene.DefaultTemplate | scbr/scene.py:117-134 | a default template is in category Host, starts as (windows, vsphere, computer image) and takes each role's overrides; a plain HOST takes none |
| Scene.RouteTable.constructor | scbr/scene.py:145-146 | a table holds the given entries |
| Scene.RouteTable.AddEntry | scbr/scene.py:148-149 | one entry is appended |
| Scene.RouteTable.Merge | scbr/scene.py:151-152 | the other table's entries are appended, without dedup |
| Scene.EnvironmentRoutes | scbr/scene.py:173-175 | one route per external network, in order, each through the control gateway |
| Scene.RoleRoutes | scbr/scene.py:172-177 | corrected form of the environment routes: every attacker gets one route per external network when there is a gateway, and any other node gets none |
| Scene.SpentRoutes | scbr/lang/parser.py:240 | the routes each node gets as written, one list per node, with the networks in a one-shot iterator that the first attacker with a gateway drains (the lemmas below state what it gives) |
| Scene.SpentRoutesOnce | scbr/lang/parser.py:239-240 | with the networks in a one-shot iterator, at most one node gets routes from the environment |
| Scene.SpentRoutesAgree | scbr/scene.py:172-175 | up to and including the first attacker, the iterator gives what a list gives |
| Scene.SecondAttackerUnrouted | scbr/lang/parser.py:240 | two attackers and one external network: as written the second gets no route, and a list routes both |
| Scene.MakeIpWithMask | scbr/scene.py:230-233 | the address with a network of the same prefix length that contains it |
| Scene.NodePort.constructor | scbr/scene.py:260-263 | a port sets `in_lan` only for a LAN line and `to_port` only for a port-to-port line, never both, and is bound to no LAN |
| Scene.RouteItems | scbr/scene.py:202-204 | one route dict per route entry, in order |
| Scene.AppendRoutesOk | scbr/scene.py:202-204 | adding routes succeeds exactly when there is none to add or "route_list" is a list or absent; otherwise it fails for want of `append` |
| Scene.AppendRoutesRoutes | scbr/scene.py:202-204 | "route_list" then holds the old routes followed by the new ones, in order |
| Scene.AppendRoutesKeeps | scbr/scene.py:202-204 | adding routes changes no key but "route_list" |
| Scene.AppendRoutesErrorPersists | scbr/scene.py:203-204 | an error part-way through is the error of the whole loop |
| Scene.PolicyOptionsRoutes | scbr/scene.py:172-177 | the role policy fails only when an attacker has routes to add to a non-list "route_list", and it adds exactly the environment's routes |
| Scene.NodeOptionsOk | scbr/scene.py:165-180 | building a node's options fails, for want of `append`, exactly when some route is due and "route_list" is not a list |
| Scene.NodeOptionsSettings | scbr/scene.py:165-180 | exactly the non-attackers get `_noControlNic` = "true", CPU and memory follow the OS, and every other option but "route_list" is the entity's |
| Scene.NodeOptionsRoutes | scbr/scene.py:165-204 | "route_list" holds the entity's routes, then the policy's routes, then the router table's, in order |
| Scene.HostBase.Host | scbr/scene.py:156-163 | a host has the id, role, name, template id, ports, options, DNS flag and LAN the parser set, no bound template and no route table |
| Scene.HostBase.Router | scbr/scene.py:193-195 | a router has role ROUTER, its route table, no LAN of its own, not a DNS server, and no bound template |
| Scene.HostBase.ToNode | scbr/scene.py:165-180 | a new host node with the entity's id, name and template id; the template's emulation, OS and image exactly when a template id is set (an `AttributeError` when none is bound); options as `NodeOptions` gives them, or its error |
| Scene.HostBase.ApplyRolePolicy | scbr/scene.py:172-177 | an attacker's node gets the environment's routes (none without a gateway) and any other node `_noControlNic`; ports and appearance are unchanged |
| Scene.HostBase.FillRouteTable | scbr/scene.py:202-204 | the node gets every route of the router's table, in order, or the `append` error |
| Scene.Lan.constructor | scbr/scene.py:209-214 | a LAN has its id, name and network and no hosts |
| Scene.Lan.AddHost | scbr/scene.py:216-218 | the host is appended and marked as in this LAN with no address; nothing else about it changes (no port is added) |
| Scene.Lan.ToNode | scbr/scene.py:220-225 | a switch node with the LAN's id and name, template id "/switch", empty OS and emulation, the switch image and no options |
| Scene.BindTemplate | scbr/scene.py:40-45 | a set template id becomes known, an unknown one gets the default template for the node's role, and no known template is replaced |
| Scene.BindTemplatesKeeps | scbr/scene.py:38-45 | binding never replaces a known template |
| Scene.BindTemplatesBinds | scbr/scene.py:38-45 | after binding, every template id in use is known |
| Scene.BindTemplatesAdds | scbr/scene.py:38-45 | a template that binding adds is the default for the role of a node using its id, and an id no node uses is not added |
| Scene.BindTemplatesIdle | scbr/scene.py:38-45 | when every template id in use is known, binding changes nothing |
| Scene.JoinedGrows | scbr/scene.py:48-52 | joining only appends: earlier hosts stay first, and each new host was brought in by a join naming the LAN and was not there already, so no host is listed twice |
| Scene.JoinedContains | scbr/scene.py:48-52 | every node that joins through an id naming the LAN ends up among its hosts |
| Scene.JoinedIdle | scbr/scene.py:51-52 | when every joining node is already a host, joining changes nothing |
| Scene.JoinsContain | scbr/scene.py:48-52 | each port that names a LAN gives a join of its node |
| Scene.JoinsFrom | scbr/scene.py:48-52 | each join comes from a port, naming that LAN, of one of the nodes |
| Scene.JoinsOutcome | scbr/scene.py:48-50 | the lookups `self.lans[...]` of a run of joins succeed exactly when every id is a key; otherwise the result is the `KeyError` of the first id that is not, all earlier ids being keys |
| Scene.JoinsOutcomeConcat | scbr/scene.py:48-50 | two runs of lookups in a row fail as the first run fails when it does, and otherwise end as the second run ends |
| Scene.PortJoinsOutcomeStep | scbr/scene.py:48-50 | one more port: the failure so far if there is one, else that port's own lookup |
| Scene.PortJoinsOutcomePersists | scbr/scene.py:48-50 | once the lookups of a node's first ports fail, that failure is the outcome of all its ports |
| Scene.JoinsOutcomeStep | scbr/scene.py:39-50 | one more node: the failure so far if there is one, else that node's own lookups |
| Scene.JoinsOutcomePersists | scbr/scene.py:39-50 | once the lookups of the first nodes fail, that failure is the outcome of all the nodes |
| Scene.PortJoinsKnown | scbr/scene.py:48-50 | when every port of a prefix that names a LAN names a known one, the prefix's lookups succeed |
| Scene.PortJoinsFirstMissing | scbr/scene.py:48-50 | a port naming an unknown LAN, after ports that name only known ones, decides the node's lookups: the `KeyError` of its id |
| Scene.JoinsKnown | scbr/scene.py:39-50 | when every LAN port of the first nodes names a known LAN, their lookups succeed |
| Scene.JoinsOutcomeKnown | scbr/scene.py:39-50 | the lookups over all the nodes succeed exactly when every port that names a LAN names a known one |
| Scene.JoinsFirstMissing | scbr/scene.py:39-50 | the first node whose lookups fail, after nodes whose LAN ports name only known LANs, decides the lookups of all the nodes |
| Scene.AdjustIdempotent | scbr/scene.py:38-52 | a second `adjust` binds no new template and adds no host to any LAN |
| Scene.PortsOutcomeFails | scbr/scene.py:78-80 | once a port fails, `handle_ports` fails with that port's error |
| Scene.PortsOutcomeKeys | scbr/scene.py:82-84 | ids the topology holds beyond the LANs' make no difference to `handle_ports` |
| Scene.NodesOutcomeFails | scbr/scene.py:66-74 | once a host or router fails, the extraction fails with its error |
| Scene.NodeAtSteps | scbr/scene.py:66-74 | after entities that passed, the next one's outcome is the outcome so far, and its failure is the extraction's |
| Scene.AttachedOn | scbr/scene.py:82-88 | in a topology whose nodes are filed under their own ids, a port attached for a node port is linked to a node with that port's LAN id and carries the options of its address |
| Scene.PortFacesOn | scbr/scene.py:78-88 | ports made one for one for the entity's ports are, as values, the ports `PortSpecs` gives for them |
| Scene.Scene.constructor | scbr/scene.py:19-24 | a new scene has empty tables and an empty environment |
| Scene.Scene.AddEntity | scbr/scene.py:26-36 | a host, router, LAN or template is filed under its id in its own table, replacing an entry with that id, and the other tables are unchanged; any other entity is refused |
| Scene.Scene.FindTemplate | scbr/scene.py:90-94 | the template filed under the id, found exactly when the id is a key |
| Scene.Scene.BindNodeTemplate | scbr/scene.py:40-45 | a node with a template id holds the scene's template of that id, and a node without one keeps its template; the frame lets only that node's template change, and only when it has a template id |
| Scene.Scene.JoinPortLan | scbr/scene.py:49-52 | a port naming a LAN is bound to the scene's LAN of that id (a `KeyError` when there is none), which gains the node unless it lists it already; a port that names no LAN passes and keeps its `lan` |
| Scene.Scene.JoinLans | scbr/scene.py:48-52 | every port of the node in order: the outcome is the lookups' outcome, so it fails with the `KeyError` of the first port that names an unknown LAN, and succeeds exactly when every LAN port names a known LAN; on success each LAN port is bound and each LAN's hosts are its old hosts followed by its joins; a port that names no LAN keeps its `lan` |
| Scene.Scene.JoinPortAt | scbr/scene.py:48-52 | one turn of the port loop fails, with the `KeyError` of the port's LAN id, exactly when the port names an unknown LAN; otherwise every port so far stays bound and every LAN's hosts stay equal to its joins |
| Scene.Scene.JoinPorts | scbr/scene.py:48-52 | the port loop ends with the lookups' outcome; a failure names a port whose LAN is unknown; on success every port is bound and every LAN's hosts are its joins |
| Scene.Scene.BindTemplateAt | scbr/scene.py:40-45 | the template half of the loop body keeps every node so far bound |
| Scene.Scene.JoinLansAt | scbr/scene.py:47-52 | the LAN half of the loop body keeps every port so far bound and every LAN's hosts equal to its joins |
| Scene.Scene.AdjustNode | scbr/scene.py:39-52 | the loop body for one node: its template, then its ports' LANs; it ends with that node's lookups' outcome |
| Scene.Scene.AdjustedAll | scbr/scene.py:38-52 | after the last node, the templates are bound for all uses and each LAN's hosts are its joins |
| Scene.Scene.AdjustedPorts | scbr/scene.py:47-52 | every port that names a LAN names a known one, is bound to it, and its node is among its hosts |
| Scene.Scene.Adjust | scbr/scene.py:38-52 | succeeds exactly when every port's LAN exists; otherwise it fails with the `KeyError` of the first port, in `node_list` order and then port order, that names an unknown LAN; a node without a template id keeps its template and a port that names no LAN keeps its `lan`; on success the template table is the old one with every node's use bound in `node_list` order, each LAN's hosts are its old hosts followed by its new joiners, each once, and every node is bound to its template and every port to its LAN |
| Scene.Scene.AdjustNodes | scbr/scene.py:39-52 | the loop over `node_list` ends with the lookups' outcome over all the nodes, in node order and then port order, so a failure is the `KeyError` of the first missing LAN |
| Scene.Scene.LinkNodes | scbr/scene.py:86 | one new port on the node and one on the switch, joined by a new link; every earlier port keeps its link |
| Scene.Scene.LinkToSwitch | scbr/scene.py:86-88 | the node's new port is linked to a new port on the switch; it gets the address and the LAN's netmask only when an address is given, and an address in a LAN without a network fails |
| Scene.Scene.HandlePort | scbr/scene.py:82-88 | a port into no LAN fails with an `AttributeError` for `lan_id`, an unknown LAN id is a `KeyError`, an address in a LAN without a network fails for want of `netmask`; once the LAN is found the node gains one port linked to the LAN's switch, configured with the address and the LAN's netmask |
| Scene.Scene.HandlePorts | scbr/scene.py:78-80 | each port in turn, stopping at the first failure, ending as `PortsOutcome` says; a node outside the topology keeps its earlier ports and gains, after them, one port per declared port, each linked to the node under that port's LAN id and carrying that port's address options |
| Scene.Scene.HandlePortAt | scbr/scene.py:79-80 | one turn of that loop keeps what it has established |
| Scene.Scene.EntityNode | scbr/scene.py:66-68 | `to_node` then `handle_ports` end as `NodeOutcome` says of the entity; on success the new node is the entity's `to_node` node (id, name, template id, emulation, os, image and options) and its ports are, in order, one per declared port, linked to the node under its LAN's id and configured with its address |
| Scene.Scene.AttachPorts | scbr/scene.py:68 | `handle_ports` for a new node without ports: it ends as `PortsOutcome` says, and on success the node's ports are, in order, the ones made for the entity's ports |
| Scene.Scene.EntityToNode | scbr/scene.py:67 | `to_node` of a host or router fails exactly as `NodeOutcome` does before any port, and otherwise gives a fresh, well-formed node without ports whose id, name, template id, emulation, os, image and options are those `to_node` computes |
| Scene.Scene.FileNode | scbr/scene.py:69 | `add_node` files the node under its id, leaving the earlier nodes filed and every node of the grown set on its links |
| Scene.Scene.ExtractNodes | scbr/scene.py:66-74 | the pass over the hosts (or the routers) ends as `NodesOutcome` says; on success the topology holds the LANs' and the passed entities' ids, and under each id the last node filed there: a LAN's switch node, or the node `EntitySpec` gives for the entity |
| Scene.Scene.ExtractNodeAt | scbr/scene.py:66-74 | one turn of that pass keeps what the pass has established for one more entity |
| Scene.Scene.FileEntityAt | scbr/scene.py:66-69 | one host or router becomes its node, linked to its LANs' switches and filed under its id; a failure is the extraction's failure |
| Scene.Scene.EntityNodeAt | scbr/scene.py:66-68 | the entity's new node is the one `EntitySpec` gives, with its ports, and what the topology holds for the LANs and the earlier entities is untouched |
| Scene.Scene.FileEntityNode | scbr/scene.py:69 | `add_node` for the entity's node: its id joins the topology, the node is filed under it, and every other id keeps the switch node or entity node filed last |
| Scene.Scene.AddLanNodes | scbr/scene.py:62-64 | a switch node for every LAN: the topology holds exactly the LANs' ids, and under each LAN's id that LAN's switch node (`Lan.to_node`), its ports all on links |
| Scene.Scene.AddLanAt | scbr/scene.py:62-64 | one turn of that loop files the next LAN and keeps the earlier LANs' switch nodes |
| Scene.Scene.AddLanNode | scbr/scene.py:62-64 | one LAN's switch node filed under the LAN's id; the id joins the keys, every other id looks up as before, and the earlier LANs' switch nodes stay filed |
| Scene.Scene.StartTopology | scbr/scene.py:61-64 | a new topology holding exactly the LANs' ids, with each LAN's switch node under its id |
| Scene.Scene.ExtractTopology | scbr/scene.py:60-76 | succeeds exactly when every host and then every router passes, else with the first failure; the new topology then holds exactly the LANs', hosts' and routers' ids, every port lies on a link, and under each id the node filed last: a LAN's switch node, or the host's or router's `to_node` node with one port per declared port, linked to the node under its LAN's id and carrying its address options |
| Scene.Scene.BuildTopology | scbr/scene.py:60-76 | the LANs, then the hosts, then the routers: it ends as `NodesOutcome` says, and a topology built without failure holds the same ids and nodes as `ExtractTopology` states |
| Scene.Scene.ExtractPasses | scbr/scene.py:66-74 | the pass over the hosts and then the pass over the routers end as `NodesOutcome` says of both together, and keep what each pass establishes |
| Parser.AddressOf | scbr/lang/parser.py:160-161 | `ip_address` succeeds exactly when the text reads as an address |
| Parser.StrictNetwork | scbr/lang/parser.py:158 | a strict network has clear host bits; a prefixed text is accepted exactly when its host bits are clear, and a bare address is a /32 network |
| Parser.IpWithMaskOf | scbr/scene.py:230-233 | `IpWithMask` needs an address with a prefix length; it keeps the address and puts it in the non-strict network of that prefix length |
| Parser.ExtractStr | scbr/lang/parser.py:287-288 | the text without its first and last character |
| Parser.ExtractStrQuoted | scbr/lang/parser.py:287-288 | stripping the quotes of a quoted text gives back the text |
| Parser.ParseRole | scbr/lang/parser.py:18-19 | the role whose name is the upper-cased text, or a `KeyError` exactly when no role has that name |
| Parser.Upper | scbr/lang/parser.py:19 | upper-casing keeps the length and upper-cases each character |
| Parser.UpperIdempotent | scbr/lang/parser.py:19 | upper-casing twice is upper-casing once |
| Parser.ParseRoleAnyCase | scbr/lang/parser.py:18-19 | each role's name, and the same name in lower case, parses to the role |
| Parser.ParseRoleCaseBlind | scbr/lang/parser.py:18-19 | texts that upper-case alike parse alike |
| Parser.AliasOf | scbr/lang/parser.py:169-170 | `alias` is the quote-stripped second child, or an `IndexError` without one |
| Parser.TemplateLineOf | scbr/lang/parser.py:172-173 | `template_line` is the quote-stripped second child, or an `IndexError` without one |
| Parser.NetLineOf | scbr/lang/parser.py:157-158 | `ipv4_net_line` is the second child's network, with clear host bits |
| Parser.AddrLineOf | scbr/lang/parser.py:160-161 | `ipv4_addr_line` is the second child's address, exactly when it reads as one |
| Parser.NodePortIpOf | scbr/lang/parser.py:207-208 | `node_port_ip` is the first child as an address with its network |
| Parser.HostInLanOf | scbr/lang/parser.py:163-167 | the LAN id is the second child's text, and an address comes with exactly three children |
| Parser.PortToPortOf | scbr/lang/parser.py:185-202 | a first `IPV4_NET` token sets `self_ip` and shifts the rest by one; the peer id follows; then a name sets `peer_port_name` or an address sets `peer_ip`; `port_name` is never set |
| Parser.RouteEntryOf | scbr/lang/parser.py:229-230 | a strict network through a gateway address, exactly when both read |
| Parser.ControlNetGatewayOf | scbr/lang/parser.py:242-243 | the gateway is the first child's address |
| Parser.Networks | scbr/lang/parser.py:240 | one strict network per child, in order, or a failure when some child is not one |
| Parser.ExternalNetOf | scbr/lang/parser.py:239-240 | `external_net` holds those networks |
| Parser.GenericOptionOf | scbr/lang/parser.py:245-246 | the second child's text names the option and the third child is its value |
| Parser.LeafValueKinds | scbr/lang/parser.py:248-260 | SIGNED_NUMBER gives a number option, ESCAPED_STRING a quote-stripped string, IPV4_ADDR an address and IPV4_NET a network, each with its guessed subtype and no unit; any other kind raises |
| Parser.LeafValueQuoted | scbr/lang/parser.py:253-254 | a quoted token gives the option of the text without its quotes |
| Parser.ListValueOf | scbr/lang/parser.py:262-263 | a list with one item per child |
| Parser.ListValueConcat | scbr/lang/parser.py:262-263 | the items keep the children's order |
| Parser.DictEntryOf | scbr/lang/parser.py:271-276 | the key is the first token, quote-stripped when it is a string, and the value is the second child |
| Parser.DictFromLookup | scbr/lang/parser.py:265-269 | each key gets the value of its last entry, so a later entry overwrites an earlier one |
| Parser.DictFromDistinct | scbr/lang/parser.py:265-269 | the dict never repeats a key |
| Parser.DictFromOk | scbr/lang/parser.py:265-269 | the dict is built exactly when every child is an entry |
| Parser.TemplateFromAttrs | scbr/lang/parser.py:210-223 | os, emulation and image are each the last attribute tree's, or stay at the defaults; the id and category never change |
| Parser.TemplateFromOk | scbr/lang/parser.py:212-221 | the template is built exactly when every tree is a known attribute tree; children that are not trees are ignored |
| Parser.EnvFromLast | scbr/lang/parser.py:232-237 | the external networks and the gateway are the last ones declared, or stay unset |
| Parser.EnvFromOk | scbr/lang/parser.py:232-237 | the environment is built exactly when no child is a generic option, which would need the environment's missing `options` |
| Parser.PortHead | scbr/lang/parser.py:175-179 | a port needs two children, and it is named exactly when the second is a token |
| Parser.PortIpLast | scbr/lang/parser.py:180-182 | a port into a LAN takes the last address given as its text; no other target changes |
| Parser.PortIpOk | scbr/lang/parser.py:180-182 | an address fails exactly on a port that goes into no LAN |
| Parser.RouteEntries | scbr/lang/parser.py:225-227 | the table's entries are the children, in order, exactly when each is a route entry |
| Parser.HostHead | scbr/lang/parser.py:113-115 | the role is parsed from the first child's text and the id is the second's; it fails when either is missing or the role does not parse, and with no children at all it is an `IndexError` |
| Parser.HostFromFields | scbr/lang/parser.py:116-134 | the last alias, template id, DNS flag and LAN line win; the ports are those of the port lines and LAN lines, in order |
| Parser.HostFromOptions | scbr/lang/parser.py:131-132 | each option key gets the value of the last generic option for it |
| Parser.HostFromOk | scbr/lang/parser.py:116-134 | a host is built exactly when every child is accepted: trees of other kinds are ignored, and unknown elements and unreadable trees fail |
| Parser.RouterFromFields | scbr/lang/parser.py:139-154 | the last alias and template id win, ports keep their order, route tables are merged in order, and the router joins no LAN itself |
| Parser.RouterFromOk | scbr/lang/parser.py:139-154 | a router is built exactly when every child is accepted; a LAN line is never accepted |
| Parser.LanFromFields | scbr/lang/parser.py:102-110 | the last alias and network win, and the hosts join in order |
| Parser.LanFromOk | scbr/lang/parser.py:102-110 | a LAN is built exactly when every child is a network, an alias or a host that is not a router |
| Parser.FileFromOk | scbr/lang/parser.py:88-96 | filing succeeds exactly when every child is an environment or an entity `add_entity` accepts |
| Parser.FileHostsKeeps | scbr/lang/parser.py:95-96 | adding a LAN's hosts leaves the LANs, templates and environment as they were |
| Parser.FileFromEnv | scbr/lang/parser.py:89-90 | the scene's environment is the last one among the children |
| Parser.FileFromKeyed | scbr/lang/parser.py:88-96 | filing keeps every entity under its own id |
| Parser.FileFromKeys | scbr/lang/parser.py:88-96 | filing loses no id and leaves every child entity, and every host of a LAN child, filed under its id |
| Parser.SceneTransformer.constructor | scbr/lang/parser.py:84-85 | the given scene, or a new empty one |
| Parser.SceneTransformer.DictValueRule | scbr/lang/parser.py:265-269 | the loop stores each entry in turn, as `DictValueOf` |
| Parser.SceneTransformer.TemplateRule | scbr/lang/parser.py:210-223 | the loop sets each attribute in turn, as `TemplateOf` |
| Parser.SceneTransformer.EnvRule | scbr/lang/parser.py:232-237 | the loop configures each option in turn, as `EnvOf` |
| Parser.SceneTransformer.PortRule | scbr/lang/parser.py:175-183 | a new port with the head's name and target, and the addresses written into its LAN line, or `PortOf`'s error |
| Parser.SceneTransformer.RouteTableRule | scbr/lang/parser.py:225-227 | a new table holding the entries in order, or the error of a child that is no entry |
| Parser.SceneTransformer.HostChild | scbr/lang/parser.py:117-134 | one child sets what `HostStep` says, and a LAN line also makes a new port into that LAN |
| Parser.SceneTransformer.HostRule | scbr/lang/parser.py:113-135 | a new host as `HostOf` describes, with its ports, or its error |
| Parser.SceneTransformer.RouterChild | scbr/lang/parser.py:140-154 | one child sets what `RouterStep` says, merging a route table into the router's own |
| Parser.SceneTransformer.MergeTable | scbr/lang/parser.py:146-147 | the merged table's entries follow the router's own |
| Parser.SceneTransformer.RouterRule | scbr/lang/parser.py:137-155 | a new router as `RouterOf` describes, whose new table holds the merged tables' entries in order, or its error |
| Parser.SceneTransformer.LanRule | scbr/lang/parser.py:100-111 | a new LAN as `LanOf` describes; its hosts join it in order and each is marked as in it |
| Parser.SceneTransformer.AddLanHosts | scbr/lang/parser.py:94-96 | each host of the LAN is added to the scene in turn |
| Parser.SceneTransformer.FileChildAt | scbr/lang/parser.py:89-96 | one child filed as `FileChild` says, or its error |
| Parser.SceneTransformer.FileChildren | scbr/lang/parser.py:88-96 | the loop files each child in turn, as `FileFrom` says, stopping at the first refused one |
| Parser.SceneTransformer.SceneRule | scbr/lang/parser.py:87-98 | a refused child fails the rule; otherwise the scene holds the filed routers, hosts, LANs and environment, and is adjusted: it succeeds exactly when every port's LAN exists, fails with the `KeyError` of the first missing LAN in `node_list` order and then port order, and on success the templates are bound and every node and port is bound; a node without a template id keeps its template and a port that names no LAN keeps its `lan` |

## Findings

| source | as written | input that shows it | evidently intended | confidence | as-written member | corrected member |
|---|---|---|---|---|---|---|
| scbr/lang/parser.py:240 | `external_net` stores `map(...)`, a one-shot iterator. `to_node` (scbr/scene.py:174) loops over it once per attacker, so the first attacker consumes it | two attacker hosts, one external network and a control gateway: the second attacker's node gets no route | every attacker is routed to every external network, as a list would give | high (not executed) | Scene.SpentRoutes, with Scene.SpentRoutesOnce and Scene.SecondAttackerUnrouted | Scene.RoleRoutes, with Scene.SpentRoutesAgree |

The rest of the model uses the corrected behaviour. The environment's networks are a `seq`,
and every attacker node gets `PolicyRoutes`, which is `RoleRoutes` for one node.

## Left out

- Lark and file I/O. The grammar, the parser and `parse_scene` are not part of this model,
  and neither is reading files. The rules' inputs are `Child` sequences. `parse_scene`'s
  second `adjust` is covered by `Scene.AdjustIdempotent`.
- The `ipaddress` library. A token carries what its text reads as (`Reading`); the parsing
  itself is foreign. `strict=True` is modelled as the host-bit check. IPv6 is not modelled.
- XML text and `pretty_xml`. The model stops at the `Element` tree.
- `auto_str` is string representation only.
- Link ids are random (`uuid4`), so links carry no id.
- The `flag` rule and `FlagOption`. They use `Flag` and `FlagType`, which `scbr/scene.py`
  does not define, and a `flags` attribute that `HostBase` does not have.
- `node_port_id` wraps a token in `EntityName`. The model keeps only the token's text.
- `NodeTemplate.validate` does nothing, so it is not modelled.
- Parser.Upper: upper-cases ASCII letters only. Python's `str.upper` also maps other letters.
- Ipv4.LeadingDigits: counts only the ASCII digits '0'-'9'. On a `str`, Python's `\d` also
  matches every other Unicode decimal digit, such as the fullwidth '１'.
- Ipv4.NonDigitStartNoMatch: "digit" means an ASCII digit. In the source a text that starts
  with another Unicode decimal digit can match `IP_PATTERN`: "１.２.３.４" does.
- Topo.GuessType: a text written with non-ASCII decimal digits is tagged "string" by the
  model. The source tags "１.２.３.４" as "ip", because `\d` matches those digits.
- Topo.GuessTypeNonDigitText: a text that starts with a non-ASCII decimal digit is a "string"
  in the model but can be "ip" in the source, for the same reason.
- Scene.Scene.ExtractTopology: does not describe the ports of a host's or router's node whose
  id is also a LAN's id. Later ports of that LAN are linked to whatever node holds the id, so
  such a node can gain ports that are not its own.
- Scene.Scene.ExtractTopology: requires that every entity is filed under its own id
  (`Keyed`). `add_entity` keeps this, as `Scene.Scene.AddEntity` and `Parser.FileFromKeyed`
  prove.
- Parser.ExternalNetOf: reads the networks at once, so an unreadable network fails the
  `external_net` rule. As written, the lazy `map` would raise only when an attacker's node is
  built (see Findings).
- Parser.RouteEntryOf and Parser.SceneTransformer.RouteTableRule: a route entry's network
  and gateway are read when the entry is built, as in the source. The model does not capture
  that the source's `RouteTable(matches)` keeps the children list itself.
- Parser.SceneTransformer.HostRule: does not state that the host's ports are new objects.
  They are the declared ports, plus one new port for each LAN line.
- Parser.SceneTransformer.LanRule: states the hosts' `in_lan` marks only when the rule
  succeeds. Marks made before an unknown element raises are not described.
- Parser.SceneTransformer.SceneRule: states nothing about the scene after a refused child.
  The entities filed before it stay in the scene.
- Parser.IpWithMaskOf: states that the network contains the address. It does not state that
  the network's host bits are clear.
- Entity options other than generic ones: `control_net_gateway` and `external_net` on a host
  or router set attributes that nothing reads, so only generic options change the node.
- Hosts and routers are built by collecting a draft and constructing the object at the end.
  The source sets the fields of a new object one child at a time. The resulting object is
  the same.
- Scene.HostBase.ToNode: the node gets a copy of the entity's options. In the source the node
  and the entity share a non-empty dict (`scbr/topo.py:44`), so a second `extract_topology`
  would see the first run's routes and settings in the entity.
- Port-to-port peers: `adjust` does not resolve them and `handle_port` does not link them, in
  the source or in the model.

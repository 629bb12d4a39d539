/**
 * The scene-file transformer: the parser hands each grammar rule the rule's children, with
 * every sub-rule already transformed, and the rule's method builds the value it stands for,
 * down to the `Scene` the `scene` rule registers everything in.
 */
module Parser {
  import opened Wrappers
  import opened OrderedDict
  import opened Ipv4
  import opened Topo
  import opened Scene

  // ---- what a rule receives ----

  /** An address written with a prefix length, `a.b.c.d/k`, with its host bits as written. */
  datatype Prefixed = Prefixed(address: Address, prefixLen: PrefixLength)

  /**
   * What `int(text)` and the `ipaddress` library read from a token's text: a number, a bare
   * address, or an address with a prefix length; `None` where the reader raises `ValueError`.
   */
  datatype Reading = Reading(number: Maybe<int>, address: Maybe<Address>, prefixed: Maybe<Prefixed>)

  /** A lexer token: the name of its terminal (`type`), its text (`value`), and what the text reads as. */
  datatype Token = Token(kind: string, text: string, reading: Reading)

  /** The options whose `config` sets something on the entity they are declared in. */
  datatype EntityOption =
    | ControlNetGateway(ip: Address)
    | ExternalNet(nets: seq<Network>)
    | GenericOption(key: string, value: OptValue)

  /**
   * A child a rule receives: a token, a sub-tree no method transformed, or what a sub-rule's
   * method returned.
   */
  datatype Child =
    | TokenChild(token: Token)
    | TreeChild(data: string, children: seq<Child>)
    | AliasChild(alias: string)
    | TemplateOptionChild(templateId: string)
    | HostInLanChild(hostInLan: HostInLan)
    | PortChild(port: NodePort)
    | PortToPortChild(toPort: PortToPort)
    | EntityNameChild(name: string)
    | IpWithMaskChild(ipWithMask: IpWithMask)
    | NetworkChild(network: Network)
    | AddressChild(address: Address)
    | NodeChild(node: HostBase)
    | LanChild(lan: Lan)
    | TemplateChild(template: NodeTemplate)
    | EnvChild(env: Environment)
    | RouteTableChild(table: RouteTable)
    | RouteEntryChild(routeEntry: RouteEntry)
    | OptionChild(option: EntityOption)
    | ValueChild(value: OptValue)
    | DictEntryChild(dictEntry: Entry<string, OptValue>)

  /** `child.value` where text is expected: a token's text or an alias's value. The grammar puts no other child here, and the model refuses any other. */
  function ValueText(c: Child): Result<string> {
    match c
    case TokenChild(t) => Ok(t.text)
    case AliasChild(a) => Ok(a)
    case _ => Err(AttributeError("value"))
  }

  /** `child.type`: only tokens have one. */
  function TokenKind(c: Child): Result<string> {
    if c.TokenChild? then Ok(c.token.kind) else Err(AttributeError("type"))
  }

  /** A child as an option value: what `leaf_value`, `list_value` and `dict_value` built, or any other object. */
  function ChildValue(c: Child): OptValue {
    if c.ValueChild? then c.value else Other
  }

  // ---- reading token text ----

  /** `ipaddress.ip_address(text)`. */
  function AddressOf(t: Token): (r: Result<Address>)
    ensures r.Ok? <==> t.reading.address.Some?
  {
    if t.reading.address.Some? then Ok(t.reading.address.value) else Err(ValueError(t.text))
  }

  /**
   * `ipaddress.ip_network(text)` (`strict=True`): a bare address is a /32 network, and a
   * network whose host bits are not all zero is refused.
   */
  function StrictNetwork(t: Token): (r: Result<Network>)
    ensures r.Ok? ==> HostBitsClear(r.value)
    ensures t.reading.prefixed.Some? ==>
      var p := t.reading.prefixed.value;
      (r.Ok? <==> HostBitsClear(Network(p.address, p.prefixLen))) &&
      (r.Ok? ==> r.value == Network(p.address, p.prefixLen))
    ensures t.reading.prefixed.None? ==> (r.Ok? <==> t.reading.address.Some?)
  {
    if t.reading.prefixed.Some? then
      var n := Network(t.reading.prefixed.value.address, t.reading.prefixed.value.prefixLen);
      if HostBitsClear(n) then Ok(n) else Err(ValueError(t.text))
    else if t.reading.address.Some? then
      HostSizeZero();
      Ok(Network(t.reading.address.value, 32))
    else Err(ValueError(t.text))
  }

  /** A /32 network has one address, so no host bits. */
  lemma HostSizeZero()
    ensures HostSize(32) == 1
  {
    Pow2sShape();
  }

  /**
   * `IpWithMask(text)`: the text must be an address and a prefix length; the network is the
   * address with its host bits cleared (`strict=False`).
   */
  function IpWithMaskOf(t: Token): (r: Result<IpWithMask>)
    ensures r.Ok? <==> t.reading.prefixed.Some?
    ensures r.Ok? ==> r.value.ip == t.reading.prefixed.value.address
    ensures r.Ok? ==> r.value.net.prefixLen == t.reading.prefixed.value.prefixLen
    ensures r.Ok? ==> r.value.net.address <= r.value.ip < r.value.net.address + HostSize(r.value.net.prefixLen)
  {
    if t.reading.prefixed.Some? then
      var p := t.reading.prefixed.value;
      Ok(MakeIpWithMask(p.address, p.prefixLen))
    else Err(ValueError(t.text))
  }

  // ---- `_extract_str` and `parse_role` ----

  /** `_extract_str`: the text of a token without its first and last character, its quotes. */
  function ExtractStr(c: Child): (r: Result<string>)
    ensures r.Ok? <==> ValueText(c).Ok?
    ensures r.Ok? ==> var s := ValueText(c).value;
      |r.value| == (if |s| < 2 then 0 else |s| - 2) && forall i :: 0 <= i < |r.value| ==> r.value[i] == s[i + 1]
  {
    match ValueText(c)
    case Err(e) => Err(e)
    case Ok(s) => Ok(if |s| < 2 then "" else s[1..|s| - 1])
  }

  /** Stripping the quotes of a quoted text gives back the text. */
  lemma ExtractStrQuoted(kind: string, s: string, reading: Reading)
    ensures ExtractStr(TokenChild(Token(kind, "\"" + s + "\"", reading))) == Ok(s)
  {
    var q := "\"" + s + "\"";
    assert q[1..|q| - 1] == s;
  }

  /** `str.upper()` on one character: ASCII letters only. */
  function UpperChar(c: char): char {
    if 'a' <= c <= 'z' then (c as int - 32) as char else c
  }

  function Upper(s: string): (r: string)
    ensures |r| == |s| && forall i :: 0 <= i < |s| ==> r[i] == UpperChar(s[i])
  {
    if s == [] then [] else [UpperChar(s[0])] + Upper(s[1..])
  }

  /** ASCII lower-casing. The parser never lower-cases; `Lower` only names the lower-case
      spelling of a role that `ParseRoleAnyCase` feeds to `ParseRole`. */
  function LowerChar(c: char): char {
    if 'A' <= c <= 'Z' then (c as int + 32) as char else c
  }

  function Lower(s: string): (r: string)
    ensures |r| == |s| && forall i :: 0 <= i < |s| ==> r[i] == LowerChar(s[i])
  {
    if s == [] then [] else [LowerChar(s[0])] + Lower(s[1..])
  }

  /** `parse_role`: the role whose member name is the upper-cased text; an unknown one is a `KeyError`. */
  function ParseRole(text: string): (r: Result<NodeRole>)
    ensures r.Ok? ==> RoleName(r.value) == Upper(text)
    ensures r.Err? ==> r.error == KeyError(Upper(text)) && forall role :: RoleName(role) != Upper(text)
  {
    RoleNamed(Upper(text))
  }

  /** Upper-casing twice is upper-casing once. */
  lemma UpperIdempotent(s: string)
    ensures Upper(Upper(s)) == Upper(s)
  {
    forall i | 0 <= i < |s|
      ensures Upper(Upper(s))[i] == Upper(s)[i]
    {
      var c := s[i];
      if 'a' <= c <= 'z' {
        assert 'A' <= UpperChar(c) <= 'Z';
      }
    }
  }

  predicate IsUpperWord(s: string) {
    forall i :: 0 <= i < |s| ==> 'A' <= s[i] <= 'Z'
  }

  /** Upper-casing leaves an upper-case word alone, and undoes lower-casing it. */
  lemma UpperOfUpperWord(s: string)
    requires IsUpperWord(s)
    ensures Upper(s) == s && Upper(Lower(s)) == s
  {
    assert Upper(s) == s;
    assert forall i :: 0 <= i < |s| ==> Upper(Lower(s))[i] == s[i];
  }

  lemma RoleNamesUpper(role: NodeRole)
    ensures IsUpperWord(RoleName(role))
  {
    match role
    case SWITCH => assert RoleName(role) == ['S', 'W', 'I', 'T', 'C', 'H'];
    case HOST => assert RoleName(role) == ['H', 'O', 'S', 'T'];
    case SERVER => assert RoleName(role) == ['S', 'E', 'R', 'V', 'E', 'R'];
    case ATTACKER => assert RoleName(role) == ['A', 'T', 'T', 'A', 'C', 'K', 'E', 'R'];
    case TERMINAL => assert RoleName(role) == ['T', 'E', 'R', 'M', 'I', 'N', 'A', 'L'];
    case ROUTER => assert RoleName(role) == ['R', 'O', 'U', 'T', 'E', 'R'];
  }

  /** A role keyword is found whatever its case: the role name, and the same in lower case, parse to the role. */
  lemma ParseRoleAnyCase(role: NodeRole)
    ensures ParseRole(RoleName(role)) == Ok(role)
    ensures ParseRole(Lower(RoleName(role))) == Ok(role)
  {
    RoleNamesUpper(role);
    UpperOfUpperWord(RoleName(role));
    RoleNamedInverse(role);
  }

  /** Texts that upper-case alike parse alike. */
  lemma ParseRoleCaseBlind(text: string)
    ensures ParseRole(Upper(text)) == ParseRole(text)
  {
    UpperIdempotent(text);
  }

  // ---- leaf rules ----

  /** `alias`: the quoted text of the second child. */
  function AliasOf(cs: seq<Child>): (r: Result<Child>)
    ensures |cs| < 2 ==> r == Err(IndexError)
    ensures |cs| >= 2 ==> (r.Ok? <==> ExtractStr(cs[1]).Ok?)
    ensures r.Ok? ==> r.value == AliasChild(ExtractStr(cs[1]).value)
  {
    if |cs| < 2 then Err(IndexError)
    else match ExtractStr(cs[1])
      case Err(e) => Err(e)
      case Ok(s) => Ok(AliasChild(s))
  }

  /** `template_line`: the quoted template id of the second child. */
  function TemplateLineOf(cs: seq<Child>): (r: Result<Child>)
    ensures |cs| < 2 ==> r == Err(IndexError)
    ensures |cs| >= 2 ==> (r.Ok? <==> ExtractStr(cs[1]).Ok?)
    ensures r.Ok? ==> r.value == TemplateOptionChild(ExtractStr(cs[1]).value)
  {
    if |cs| < 2 then Err(IndexError)
    else match ExtractStr(cs[1])
      case Err(e) => Err(e)
      case Ok(s) => Ok(TemplateOptionChild(s))
  }

  /** `ipv4_net_line`: the network of the second child, host bits clear. */
  function NetLineOf(cs: seq<Child>): (r: Result<Child>)
    ensures r.Ok? ==> |cs| >= 2 && cs[1].TokenChild? && r.value.NetworkChild? && HostBitsClear(r.value.network)
  {
    if |cs| < 2 then Err(IndexError)
    else if !cs[1].TokenChild? then Err(AttributeError("value"))
    else match StrictNetwork(cs[1].token)
      case Err(e) => Err(e)
      case Ok(n) => Ok(NetworkChild(n))
  }

  /** `ipv4_addr_line`: the address of the second child. */
  function AddrLineOf(cs: seq<Child>): (r: Result<Child>)
    ensures r.Ok? <==> |cs| >= 2 && cs[1].TokenChild? && cs[1].token.reading.address.Some?
    ensures r.Ok? ==> r == Ok(AddressChild(cs[1].token.reading.address.value))
  {
    if |cs| < 2 then Err(IndexError)
    else if !cs[1].TokenChild? then Err(AttributeError("value"))
    else match AddressOf(cs[1].token)
      case Err(e) => Err(e)
      case Ok(a) => Ok(AddressChild(a))
  }

  /** `node_port_ip`: the first child as an address with its network. */
  function NodePortIpOf(cs: seq<Child>): (r: Result<Child>)
    ensures r.Ok? <==> |cs| >= 1 && cs[0].TokenChild? && cs[0].token.reading.prefixed.Some?
    ensures r.Ok? ==> r.value.IpWithMaskChild? && r.value.ipWithMask.ip == cs[0].token.reading.prefixed.value.address
  {
    if |cs| < 1 then Err(IndexError)
    else if !cs[0].TokenChild? then Err(AttributeError("split"))
    else match IpWithMaskOf(cs[0].token)
      case Err(e) => Err(e)
      case Ok(m) => Ok(IpWithMaskChild(m))
  }

  /**
   * `host_in_lan`: the LAN id is the second child's text; the address is the third's when
   * there are exactly three children, and absent otherwise.
   */
  function HostInLanOf(cs: seq<Child>): (r: Result<Child>)
    ensures |cs| < 2 ==> r == Err(IndexError)
    ensures r.Ok? ==> r.value.HostInLanChild? && ValueText(cs[1]) == Ok(r.value.hostInLan.lanId)
    ensures r.Ok? ==> (r.value.hostInLan.ip.Some? <==> |cs| == 3)
    ensures r.Ok? && |cs| == 3 ==> r.value.hostInLan.ip.Some? && ValueText(cs[2]) == Ok(r.value.hostInLan.ip.value)
    ensures |cs| >= 2 && |cs| != 3 ==> (r.Ok? <==> ValueText(cs[1]).Ok?)
    ensures |cs| == 3 ==> (r.Ok? <==> ValueText(cs[1]).Ok? && ValueText(cs[2]).Ok?)
  {
    if |cs| < 2 then Err(IndexError)
    else match ValueText(cs[1])
      case Err(e) => Err(e)
      case Ok(id) =>
        if |cs| == 3 then
          match ValueText(cs[2])
          case Err(e) => Err(e)
          case Ok(ip) => Ok(HostInLanChild(HostInLan(id, Some(ip))))
        else Ok(HostInLanChild(HostInLan(id, None)))
  }

  /**
   * `port_to_port`: a first token of kind `IPV4_NET` is this end's address and shifts the
   * rest by one; then comes the peer node's id, then the peer's port name or address (any
   * other child there is ignored). The port name itself is never set.
   */
  function PortToPortOf(cs: seq<Child>): (r: Result<Child>)
    ensures r.Ok? ==> |cs| >= 2 && cs[0].TokenChild? && r.value.PortToPortChild?
    ensures r.Ok? ==> var base := if cs[0].token.kind == Ipv4Net then 1 else 0;
      var p := r.value.toPort;
      |cs| >= base + 3 &&
      ValueText(cs[base + 1]) == Ok(p.nodeId) && p.portName == None &&
      (p.selfIp.Some? <==> base == 1) &&
      (base == 1 ==> p.selfIp.Some? && IpWithMaskOf(cs[0].token) == Ok(p.selfIp.value)) &&
      p.peerPortName == (if cs[base + 2].EntityNameChild? then Some(cs[base + 2].name) else None) &&
      p.peerIp == (if cs[base + 2].IpWithMaskChild? then Some(cs[base + 2].ipWithMask) else None)
    ensures |cs| >= 1 && !cs[0].TokenChild? ==> r == Err(AttributeError("type"))
  {
    if |cs| < 1 then Err(IndexError)
    else if !cs[0].TokenChild? then Err(AttributeError("type"))
    else
      var base := if cs[0].token.kind == Ipv4Net then 1 else 0;
      var selfIp: Result<Maybe<IpWithMask>> :=
        if base == 1 then
          match IpWithMaskOf(cs[0].token)
          case Err(e) => Err(e)
          case Ok(m) => Ok(Some(m))
        else Ok(None);
      if selfIp.Err? then Err(selfIp.error)
      else if |cs| < base + 2 then Err(IndexError)
      else match ValueText(cs[base + 1])
        case Err(e) => Err(e)
        case Ok(id) =>
          if |cs| < base + 3 then Err(IndexError)
          else
            var m := cs[base + 2];
            var p := NewPortToPort(id).(selfIp := selfIp.value);
            Ok(PortToPortChild(
              if m.EntityNameChild? then p.(peerPortName := Some(m.name))
              else if m.IpWithMaskChild? then p.(peerIp := Some(m.ipWithMask))
              else p))
  }

  /** `route_entry`: a network (host bits clear) through a gateway. */
  function RouteEntryOf(cs: seq<Child>): (r: Result<Child>)
    ensures r.Ok? <==> (|cs| >= 2 && cs[0].TokenChild? && cs[1].TokenChild? &&
                        StrictNetwork(cs[0].token).Ok? && AddressOf(cs[1].token).Ok?)
    ensures r.Ok? ==> r.value == RouteEntryChild(RouteEntry(StrictNetwork(cs[0].token).value, AddressOf(cs[1].token).value))
  {
    if |cs| < 1 then Err(IndexError)
    else if !cs[0].TokenChild? then Err(AttributeError("value"))
    else match StrictNetwork(cs[0].token)
      case Err(e) => Err(e)
      case Ok(n) =>
        if |cs| < 2 then Err(IndexError)
        else if !cs[1].TokenChild? then Err(AttributeError("value"))
        else match AddressOf(cs[1].token)
          case Err(e) => Err(e)
          case Ok(a) => Ok(RouteEntryChild(RouteEntry(n, a)))
  }

  /** `control_net_gateway`: the gateway address of the first child. */
  function ControlNetGatewayOf(cs: seq<Child>): (r: Result<Child>)
    ensures r.Ok? <==> |cs| >= 1 && cs[0].TokenChild? && cs[0].token.reading.address.Some?
    ensures r.Ok? ==> r.value == OptionChild(ControlNetGateway(cs[0].token.reading.address.value))
  {
    if |cs| < 1 then Err(IndexError)
    else if !cs[0].TokenChild? then Err(AttributeError("value"))
    else match AddressOf(cs[0].token)
      case Err(e) => Err(e)
      case Ok(a) => Ok(OptionChild(ControlNetGateway(a)))
  }

  /** The networks of `cs`, each with its host bits clear; the first child that is not one fails. */
  function Networks(cs: seq<Child>): (r: Result<seq<Network>>)
    ensures r.Ok? ==> |r.value| == |cs|
    ensures r.Ok? <==> forall i :: 0 <= i < |cs| ==> cs[i].TokenChild? && StrictNetwork(cs[i].token).Ok?
    ensures r.Ok? ==> forall i :: 0 <= i < |cs| ==> r.value[i] == StrictNetwork(cs[i].token).value
  {
    if cs == [] then Ok([])
    else
      var last := cs[|cs| - 1];
      match Networks(cs[..|cs| - 1])
      case Err(e) => Err(e)
      case Ok(ns) =>
        if !last.TokenChild? then Err(AttributeError("value"))
        else match StrictNetwork(last.token)
          case Err(e) => Err(e)
          case Ok(n) => Ok(ns + [n])
  }

  /** `external_net`: the list of networks, one per child, in order (read at once; see README). */
  function ExternalNetOf(cs: seq<Child>): (r: Result<Child>)
    ensures r.Ok? <==> Networks(cs).Ok?
    ensures r.Ok? ==> r.value == OptionChild(ExternalNet(Networks(cs).value))
  {
    match Networks(cs)
    case Err(e) => Err(e)
    case Ok(ns) => Ok(OptionChild(ExternalNet(ns)))
  }

  /** `generic_option`: the second child's text names the option, the third child is its value. */
  function GenericOptionOf(cs: seq<Child>): (r: Result<Child>)
    ensures r.Ok? <==> |cs| >= 3 && ValueText(cs[1]).Ok?
    ensures r.Ok? ==> r.value == OptionChild(GenericOption(ValueText(cs[1]).value, ChildValue(cs[2])))
  {
    if |cs| < 2 then Err(IndexError)
    else match ValueText(cs[1])
      case Err(e) => Err(e)
      case Ok(key) => if |cs| < 3 then Err(IndexError) else Ok(OptionChild(GenericOption(key, ChildValue(cs[2]))))
  }

  const SignedNumber := "SIGNED_NUMBER"
  const EscapedString := "ESCAPED_STRING"
  const Ipv4Addr := "IPV4_ADDR"
  const Ipv4Net := "IPV4_NET"

  /**
   * `leaf_value`: a number, a quoted string, an address or a network token becomes an
   * `Option` of that value with its guessed subtype; a token of any other kind is refused.
   */
  function LeafValueOf(cs: seq<Child>): (r: Result<Child>)
  {
    if |cs| < 1 then Err(IndexError)
    else if !cs[0].TokenChild? then Err(AttributeError("type"))
    else
      var t := cs[0].token;
      var v: Result<Scalar> :=
        if t.kind == SignedNumber then
          if t.reading.number.Some? then Ok(Num(t.reading.number.value)) else Err(ValueError(t.text))
        else if t.kind == EscapedString then
          Ok(Text(ExtractStr(cs[0]).value))
        else if t.kind == Ipv4Addr then
          match AddressOf(t)
          case Err(e) => Err(e)
          case Ok(a) => Ok(Addr(a))
        else if t.kind == Ipv4Net then
          match StrictNetwork(t)
          case Err(e) => Err(e)
          case Ok(n) => Ok(Net(n))
        else Err(Raised("Unknown type"));
      match v
      case Err(e) => Err(e)
      case Ok(s) => Ok(ValueChild(Opt(MakeOption(s, "", ""))))
  }

  /**
   * What `leaf_value` makes of each kind of token: the value it reads, as an option with
   * the subtype guessed from that value and no unit; other kinds are refused.
   */
  lemma LeafValueKinds(t: Token)
    ensures var r := LeafValueOf([TokenChild(t)]);
      (r.Ok? ==> (r.value.ValueChild? && r.value.value.Opt? &&
                  r.value.value.option.unit == "" && r.value.value.option.subtype == GuessType(r.value.value.option.value))) &&
      (t.kind == SignedNumber ==>
        (r.Ok? <==> t.reading.number.Some?) && (r.Ok? ==> r.value.value.option == Option(Num(t.reading.number.value), "number", ""))) &&
      (t.kind == EscapedString ==> r.Ok? && r.value.value.option.value == Text(ExtractStr(TokenChild(t)).value)) &&
      (t.kind == Ipv4Addr ==>
        (r.Ok? <==> t.reading.address.Some?) && (r.Ok? ==> r.value.value.option == Option(Addr(t.reading.address.value), "ip", ""))) &&
      (t.kind == Ipv4Net ==>
        (r.Ok? <==> StrictNetwork(t).Ok?) && (r.Ok? ==> r.value.value.option == Option(Net(StrictNetwork(t).value), "ip", ""))) &&
      (t.kind !in {SignedNumber, EscapedString, Ipv4Addr, Ipv4Net} ==> r == Err(Raised("Unknown type")))
  {
    if t.kind == Ipv4Net && StrictNetwork(t).Ok? {
      GuessTypeNetwork(StrictNetwork(t).value);
    }
  }

  /** A quoted string token is the option holding the string without its quotes. */
  lemma LeafValueQuoted(s: string, reading: Reading)
    ensures LeafValueOf([TokenChild(Token(EscapedString, "\"" + s + "\"", reading))]) ==
      Ok(ValueChild(Opt(MakeOption(Text(s), "", ""))))
  {
    ExtractStrQuoted(EscapedString, s, reading);
  }

  /** `list_value`: the children, in order, as a list value. */
  function ListValueOf(cs: seq<Child>): (r: OptValue)
    ensures r.List? && |r.items| == |cs|
  {
    List(seq(|cs|, i requires 0 <= i < |cs| => ChildValue(cs[i])))
  }

  /** Splitting the children splits the list: the items keep the children's order. */
  lemma ListValueConcat(a: seq<Child>, b: seq<Child>)
    ensures ListValueOf(a + b).items == ListValueOf(a).items + ListValueOf(b).items
  {
    var l := ListValueOf(a + b).items;
    var r := ListValueOf(a).items + ListValueOf(b).items;
    forall i | 0 <= i < |l|
      ensures l[i] == r[i]
    {
      if i < |a| {
        assert (a + b)[i] == a[i];
      } else {
        assert (a + b)[i] == b[i - |a|];
      }
    }
  }

  /**
   * `dict_entry`: the first child is the key, without its quotes when it is a quoted string
   * (any other token is its own text as a key), and the second child is the value.
   */
  function DictEntryOf(cs: seq<Child>): (r: Result<Child>)
    ensures r.Ok? <==> |cs| >= 2 && cs[0].TokenChild?
    ensures r.Ok? ==> r.value.DictEntryChild? && r.value.dictEntry.value == ChildValue(cs[1])
    ensures r.Ok? ==> r.value.dictEntry.key == (if cs[0].token.kind == EscapedString then ExtractStr(cs[0]).value else cs[0].token.text)
  {
    if |cs| < 2 then Err(IndexError)
    else if !cs[0].TokenChild? then Err(AttributeError("type"))
    else
      var key := if cs[0].token.kind == EscapedString then ExtractStr(cs[0]).value else cs[0].token.text;
      Ok(DictEntryChild(Entry(key, ChildValue(cs[1]))))
  }

  // ---- the last of several settings ----

  /**
   * What the last child `pick` reads a value from gives, or `v` when none does: the value an
   * attribute ends up with when each such child assigns it in turn.
   */
  function LastOf<T>(cs: seq<Child>, pick: Child -> Maybe<T>, v: T): T
  {
    if cs == [] then v
    else match pick(cs[|cs| - 1])
      case Some(x) => x
      case None => LastOf(cs[..|cs| - 1], pick, v)
  }

  /** The value `m` holds, or `v` when it holds none. */
  function Otherwise<T>(m: Maybe<T>, v: T): T {
    if m.Some? then m.value else v
  }

  /** Read from the front, the first child's value, if any, is what the later children override. */
  lemma {:induction false} LastOfCons<T>(cs: seq<Child>, pick: Child -> Maybe<T>, v: T)
    requires cs != []
    ensures LastOf(cs, pick, v) == LastOf(cs[1..], pick, Otherwise(pick(cs[0]), v))
  {
    if |cs| > 1 {
      var init := cs[..|cs| - 1];
      assert init[1..] == cs[1..][..|cs[1..]| - 1];
      assert init[0] == cs[0];
      assert cs[1..][|cs[1..]| - 1] == cs[|cs| - 1];
      LastOfCons(init, pick, v);
    }
  }

  // ---- `dict_value` ----

  /** The dict after `d[m.key] = m.value` for each child `m` of `cs` in turn; a child that is no entry has no `key`. */
  function DictFrom(d: Options, cs: seq<Child>): Result<Options>
    decreases |cs|
  {
    if cs == [] then Ok(d)
    else if !cs[0].DictEntryChild? then Err(AttributeError("key"))
    else DictFrom(Set(d, cs[0].dictEntry.key, cs[0].dictEntry.value), cs[1..])
  }

  /** `dict_value`: the entries stored into a new dict, in order. */
  function DictValueOf(cs: seq<Child>): Result<Child> {
    match DictFrom([], cs)
    case Ok(d) => Ok(ValueChild(Dict(d)))
    case Err(e) => Err(e)
  }

  /** The value an entry for `key` stores. */
  function EntryFor(key: string): Child -> Maybe<Maybe<OptValue>> {
    (c: Child) => if c.DictEntryChild? && c.dictEntry.key == key then Some(Some(c.dictEntry.value)) else None
  }

  /** Each key ends up with the value of the last entry for it, and keeps its old value when there is none. */
  lemma {:induction false} DictFromLookup(d: Options, cs: seq<Child>, key: string)
    requires DictFrom(d, cs).Ok?
    ensures Get(DictFrom(d, cs).value, key) == LastOf(cs, EntryFor(key), Get(d, key))
    decreases |cs|
  {
    if cs != [] {
      var e := cs[0].dictEntry;
      DictFromLookup(Set(d, e.key, e.value), cs[1..], key);
      LastOfCons(cs, EntryFor(key), Get(d, key));
    }
  }

  /** Storing entries never repeats a key. */
  lemma {:induction false} DictFromDistinct(d: Options, cs: seq<Child>)
    requires Distinct(d) && DictFrom(d, cs).Ok?
    ensures Distinct(DictFrom(d, cs).value)
    decreases |cs|
  {
    if cs != [] {
      var e := cs[0].dictEntry;
      SetDistinct(d, e.key, e.value);
      DictFromDistinct(Set(d, e.key, e.value), cs[1..]);
    }
  }

  /** The dict is built exactly when every child is an entry. */
  lemma {:induction false} DictFromOk(d: Options, cs: seq<Child>)
    ensures DictFrom(d, cs).Ok? <==> forall i :: 0 <= i < |cs| ==> cs[i].DictEntryChild?
    decreases |cs|
  {
    if cs != [] && cs[0].DictEntryChild? {
      var e := cs[0].dictEntry;
      DictFromOk(Set(d, e.key, e.value), cs[1..]);
      assert forall i :: 1 <= i < |cs| ==> cs[i] == cs[1..][i - 1];
    }
  }

  // ---- `template` ----

  const OsAttr := "template_os_attr"
  const EmulationAttr := "template_emulation_attr"
  const ImageAttr := "template_image_attr"

  /** The text an attribute tree assigns: its first child's text, the image's without its quotes. */
  function AttrText(data: string, c: Child): Result<string> {
    if data == ImageAttr then ExtractStr(c) else ValueText(c)
  }

  /**
   * One child of `template`: an attribute tree sets its attribute, any other tree is an
   * unknown option, and children that are no tree are passed over.
   */
  function TemplateStep(t: NodeTemplate, c: Child): Result<NodeTemplate>
  {
    if !c.TreeChild? then Ok(t)
    else if c.data != OsAttr && c.data != EmulationAttr && c.data != ImageAttr then Err(Raised("unknown template option"))
    else if |c.children| == 0 then Err(IndexError)
    else match AttrText(c.data, c.children[0])
      case Err(e) => Err(e)
      case Ok(s) =>
        if c.data == OsAttr then Ok(t.(os := s))
        else if c.data == EmulationAttr then Ok(t.(emulation := s))
        else Ok(t.(image := s))
  }

  function TemplateFrom(t: NodeTemplate, cs: seq<Child>): Result<NodeTemplate>
    decreases |cs|
  {
    if cs == [] then Ok(t)
    else match TemplateStep(t, cs[0])
      case Err(e) => Err(e)
      case Ok(t1) => TemplateFrom(t1, cs[1..])
  }

  /** `template`: the new template named by the quoted second child, with the attributes of the rest. */
  function TemplateOf(cs: seq<Child>): Result<Child> {
    if |cs| < 2 then Err(IndexError)
    else match ExtractStr(cs[1])
      case Err(e) => Err(e)
      case Ok(id) =>
        match TemplateFrom(NewTemplate(id), cs[2..])
        case Err(e) => Err(e)
        case Ok(t) => Ok(TemplateChild(t))
  }

  /** What a readable tree labelled `data` assigns. */
  function AttrPick(data: string): Child -> Maybe<string> {
    (c: Child) => if c.TreeChild? && c.data == data && |c.children| > 0 && AttrText(data, c.children[0]).Ok?
      then Some(AttrText(data, c.children[0]).value) else None
  }

  /** A child `template` accepts: anything but a tree, or a known attribute tree with a readable value. */
  predicate TemplateAccepts(c: Child) {
    !c.TreeChild? ||
    ((c.data == OsAttr || c.data == EmulationAttr || c.data == ImageAttr) && |c.children| > 0 && AttrText(c.data, c.children[0]).Ok?)
  }

  /** Each attribute is the last tree's for it, or stays as it was; the id and category never change. */
  lemma {:induction false} TemplateFromAttrs(t: NodeTemplate, cs: seq<Child>)
    requires TemplateFrom(t, cs).Ok?
    ensures TemplateFrom(t, cs).value == t.(os := LastOf(cs, AttrPick(OsAttr), t.os),
                                           emulation := LastOf(cs, AttrPick(EmulationAttr), t.emulation),
                                           image := LastOf(cs, AttrPick(ImageAttr), t.image))
    decreases |cs|
  {
    if cs != [] {
      TemplateFromAttrs(TemplateStep(t, cs[0]).value, cs[1..]);
      LastOfCons(cs, AttrPick(OsAttr), t.os);
      LastOfCons(cs, AttrPick(EmulationAttr), t.emulation);
      LastOfCons(cs, AttrPick(ImageAttr), t.image);
    }
  }

  /** The template is built exactly when every child is one `template` accepts. */
  lemma {:induction false} TemplateFromOk(t: NodeTemplate, cs: seq<Child>)
    ensures TemplateFrom(t, cs).Ok? <==> forall i :: 0 <= i < |cs| ==> TemplateAccepts(cs[i])
    decreases |cs|
  {
    if cs != [] && TemplateStep(t, cs[0]).Ok? {
      TemplateFromOk(TemplateStep(t, cs[0]).value, cs[1..]);
      assert forall i :: 1 <= i < |cs| ==> cs[i] == cs[1..][i - 1];
    }
  }

  // ---- `env` ----

  /** One child of `env`: options configure the environment, which has no generic options; other children are passed over. */
  function EnvStep(env: Environment, c: Child): Result<Environment>
  {
    if !c.OptionChild? then Ok(env)
    else match c.option
      case ControlNetGateway(ip) => Ok(env.(controlNetGateway := Some(ip)))
      case ExternalNet(nets) => Ok(env.(externalNets := nets))
      case GenericOption(_, _) => Err(AttributeError("options"))
  }

  function EnvFrom(env: Environment, cs: seq<Child>): Result<Environment>
    decreases |cs|
  {
    if cs == [] then Ok(env)
    else match EnvStep(env, cs[0])
      case Err(e) => Err(e)
      case Ok(env1) => EnvFrom(env1, cs[1..])
  }

  /** `env`: a new environment configured by the options among the children. */
  function EnvOf(cs: seq<Child>): Result<Child> {
    match EnvFrom(EmptyEnvironment, cs)
    case Err(e) => Err(e)
    case Ok(env) => Ok(EnvChild(env))
  }

  function GatewayPick(c: Child): Maybe<Maybe<Address>> {
    if c.OptionChild? && c.option.ControlNetGateway? then Some(Some(c.option.ip)) else None
  }

  function NetsPick(c: Child): Maybe<seq<Network>> {
    if c.OptionChild? && c.option.ExternalNet? then Some(c.option.nets) else None
  }

  /** The gateway and the external networks are the last ones declared, or stay as they were. */
  lemma {:induction false} EnvFromLast(env: Environment, cs: seq<Child>)
    requires EnvFrom(env, cs).Ok?
    ensures EnvFrom(env, cs).value == Environment(LastOf(cs, NetsPick, env.externalNets), LastOf(cs, GatewayPick, env.controlNetGateway))
    decreases |cs|
  {
    if cs != [] {
      EnvFromLast(EnvStep(env, cs[0]).value, cs[1..]);
      LastOfCons(cs, NetsPick, env.externalNets);
      LastOfCons(cs, GatewayPick, env.controlNetGateway);
    }
  }

  /** The environment is built exactly when no child is a generic option. */
  lemma {:induction false} EnvFromOk(env: Environment, cs: seq<Child>)
    ensures EnvFrom(env, cs).Ok? <==> forall i :: 0 <= i < |cs| ==> !(cs[i].OptionChild? && cs[i].option.GenericOption?)
    decreases |cs|
  {
    if cs != [] && EnvStep(env, cs[0]).Ok? {
      EnvFromOk(EnvStep(env, cs[0]).value, cs[1..]);
      assert forall i :: 1 <= i < |cs| ==> cs[i] == cs[1..][i - 1];
    }
  }

  // ---- `port` and `route_table` ----

  /** What `NodePort(x)` is given for the child `x`: a LAN line, a port-to-port line, or something else. */
  function TargetOf(c: Child): PortTarget {
    match c
    case HostInLanChild(h) => InLan(h)
    case PortToPortChild(p) => ToPort(p)
    case _ => NoTarget
  }

  /** What a port is built from: where it goes, and its name. */
  datatype PortShape = PortShape(target: PortTarget, name: Maybe<string>)

  /**
   * The head of `port`: a token second child names the port, and the third child, if any, is
   * where it goes; otherwise the second child is where it goes and the port has no name.
   */
  function PortHead(cs: seq<Child>): (r: Result<PortShape>)
    ensures r.Ok? <==> |cs| >= 2
    ensures r.Ok? ==> (r.value.name.Some? <==> cs[1].TokenChild?)
  {
    if |cs| < 2 then Err(IndexError)
    else if cs[1].TokenChild? then Ok(PortShape(if |cs| > 2 then TargetOf(cs[2]) else NoTarget, Some(cs[1].token.text)))
    else Ok(PortShape(TargetOf(cs[1]), None))
  }

  /** The port's target after each address among `cs` is written into its LAN line; a port into no LAN has no `in_lan.ip`. */
  function PortIpFrom(target: PortTarget, cs: seq<Child>): Result<PortTarget>
    decreases |cs|
  {
    if cs == [] then Ok(target)
    else if !cs[0].AddressChild? then PortIpFrom(target, cs[1..])
    else if !target.InLan? then Err(AttributeError("ip"))
    else PortIpFrom(InLan(target.inLan.(ip := Some(DottedQuad(cs[0].address)))), cs[1..])
  }

  /** `port`: the head, with the addresses among the children from the third on. */
  function PortOf(cs: seq<Child>): Result<PortShape> {
    match PortHead(cs)
    case Err(e) => Err(e)
    case Ok(head) =>
      match PortIpFrom(head.target, cs[2..])
      case Err(e) => Err(e)
      case Ok(target) => Ok(head.(target := target))
  }

  function AddressPick(c: Child): Maybe<Maybe<string>> {
    if c.AddressChild? then Some(Some(DottedQuad(c.address))) else None
  }

  /** A port into a LAN takes the last address given, written as a dotted quad; no other target changes. */
  lemma {:induction false} PortIpLast(target: PortTarget, cs: seq<Child>)
    requires PortIpFrom(target, cs).Ok?
    ensures PortIpFrom(target, cs).value ==
      if target.InLan? then InLan(target.inLan.(ip := LastOf(cs, AddressPick, target.inLan.ip))) else target
    decreases |cs|
  {
    if cs != [] {
      if target.InLan? {
        LastOfCons(cs, AddressPick, target.inLan.ip);
        if cs[0].AddressChild? {
          PortIpLast(InLan(target.inLan.(ip := Some(DottedQuad(cs[0].address)))), cs[1..]);
        } else {
          PortIpLast(target, cs[1..]);
        }
      } else {
        PortIpLast(target, cs[1..]);
      }
    }
  }

  /** An address fails exactly on a port that goes into no LAN. */
  lemma {:induction false} PortIpOk(target: PortTarget, cs: seq<Child>)
    ensures PortIpFrom(target, cs).Ok? <==> target.InLan? || forall i :: 0 <= i < |cs| ==> !cs[i].AddressChild?
    decreases |cs|
  {
    if cs != [] {
      assert forall i :: 1 <= i < |cs| ==> cs[i] == cs[1..][i - 1];
      if cs[0].AddressChild? {
        if target.InLan? {
          PortIpOk(InLan(target.inLan.(ip := Some(DottedQuad(cs[0].address)))), cs[1..]);
        }
      } else {
        PortIpOk(target, cs[1..]);
      }
    }
  }

  /** The port a shape describes: its name, and its LAN line or port-to-port line. */
  predicate PortShaped(p: NodePort, s: PortShape) {
    p.name == s.name &&
    p.inLan == (if s.target.InLan? then Some(s.target.inLan) else None) &&
    p.toPort == (if s.target.ToPort? then Some(s.target.toPort) else None)
  }

  /** The entries of `route_table`: its children, each a route entry, in order. */
  function RouteEntries(cs: seq<Child>): (r: Result<seq<RouteEntry>>)
    ensures r.Ok? <==> forall i :: 0 <= i < |cs| ==> cs[i].RouteEntryChild?
    ensures r.Ok? ==> |r.value| == |cs| && forall i :: 0 <= i < |cs| ==> r.value[i] == cs[i].routeEntry
  {
    if cs == [] then Ok([])
    else match RouteEntries(cs[..|cs| - 1])
      case Err(e) => Err(e)
      case Ok(es) =>
        if cs[|cs| - 1].RouteEntryChild? then Ok(es + [cs[|cs| - 1].routeEntry])
        else Err(AttributeError("target_net"))
  }

  // ---- `host` and `router` ----

  const GlobalDnsLine := "global_dns_line"
  const UseTemplateLine := "use_template"

  /** Where a port of a host or router comes from: a `port` line, or a `host_in_lan` line that makes one. */
  datatype PortSource = Declared(port: NodePort) | Joining(hostInLan: HostInLan)

  /** What the children of a host or router have set on it so far. */
  datatype NodeDraft = NodeDraft(name: string, templateId: string, sources: seq<PortSource>, options: Options,
                                 isGlobalDnsServer: bool, inLan: Maybe<HostInLan>, tables: seq<RouteTable>)

  /** `HostBase(id, role)`: named by its id, with no template id, ports, options or routes, not a DNS server, in no LAN. */
  function NewDraft(id: string): NodeDraft {
    NodeDraft(id, "", [], [], false, None, [])
  }

  /** `option.config(node)`: a generic option sets its key in the node's options; the others set attributes nothing reads. */
  function ConfigOptions(o: EntityOption, options: Options): Options {
    if o.GenericOption? then Set(options, o.key, o.value) else options
  }

  /** A `use_template` tree: the quoted template id of its second child. */
  function UseTemplate(d: NodeDraft, ch: seq<Child>): Result<NodeDraft> {
    if |ch| < 2 then Err(IndexError)
    else match ExtractStr(ch[1])
      case Err(e) => Err(e)
      case Ok(id) => Ok(d.(templateId := id))
  }

  /**
   * One child of `host`: an alias, a LAN line (which also makes a port into that LAN), a
   * template line, a port, a DNS-server or use-template tree (other trees are passed over) or
   * an option; anything else is an unknown element.
   */
  function HostStep(d: NodeDraft, c: Child): Result<NodeDraft> {
    match c
    case AliasChild(a) => Ok(d.(name := a))
    case HostInLanChild(h) => Ok(d.(inLan := Some(h), sources := d.sources + [Joining(h)]))
    case TemplateOptionChild(id) => Ok(d.(templateId := id))
    case PortChild(p) => Ok(d.(sources := d.sources + [Declared(p)]))
    case TreeChild(data, ch) =>
      if data == GlobalDnsLine then
        if |ch| == 0 then Err(IndexError)
        else match ValueText(ch[0])
          case Err(e) => Err(e)
          case Ok(v) => Ok(d.(isGlobalDnsServer := v == "true"))
      else if data == UseTemplateLine then UseTemplate(d, ch)
      else Ok(d)
    case OptionChild(o) => Ok(d.(options := ConfigOptions(o, d.options)))
    case _ => Err(Raised("Unknown element"))
  }

  function HostFrom(d: NodeDraft, cs: seq<Child>): Result<NodeDraft>
    decreases |cs|
  {
    if cs == [] then Ok(d)
    else match HostStep(d, cs[0])
      case Err(e) => Err(e)
      case Ok(d1) => HostFrom(d1, cs[1..])
  }

  /**
   * One child of `router`: as for a host, except that a route table is merged into the
   * router's and a LAN line is an unknown element. Of the trees only use-template ones are
   * read; any other tree, a DNS-server one included, is passed over.
   */
  function RouterStep(d: NodeDraft, c: Child): Result<NodeDraft> {
    match c
    case AliasChild(a) => Ok(d.(name := a))
    case TemplateOptionChild(id) => Ok(d.(templateId := id))
    case PortChild(p) => Ok(d.(sources := d.sources + [Declared(p)]))
    case RouteTableChild(t) => Ok(d.(tables := d.tables + [t]))
    case TreeChild(data, ch) => if data == UseTemplateLine then UseTemplate(d, ch) else Ok(d)
    case OptionChild(o) => Ok(d.(options := ConfigOptions(o, d.options)))
    case _ => Err(Raised("Unknown element"))
  }

  function RouterFrom(d: NodeDraft, cs: seq<Child>): Result<NodeDraft>
    decreases |cs|
  {
    if cs == [] then Ok(d)
    else match RouterStep(d, cs[0])
      case Err(e) => Err(e)
      case Ok(d1) => RouterFrom(d1, cs[1..])
  }

  /** The id and role a host or router is made with. */
  datatype NodeHead = NodeHead(id: string, role: NodeRole)

  /** What a `host` or `router` rule builds: its head and what its other children set. */
  datatype NodeSpec = NodeSpec(head: NodeHead, draft: NodeDraft)

  /**
   * The head of `host`: the role is the first child's text and the id the second's, read in
   * that order, and the role text must name a role in any case.
   */
  function HostHead(cs: seq<Child>): (r: Result<NodeHead>)
    ensures r.Ok? <==> |cs| >= 2 && ValueText(cs[0]).Ok? && ValueText(cs[1]).Ok? && ParseRole(ValueText(cs[0]).value).Ok?
    ensures r.Ok? ==> r.value == NodeHead(ValueText(cs[1]).value, ParseRole(ValueText(cs[0]).value).value)
    ensures |cs| == 0 ==> r == Err(IndexError)
  {
    if |cs| == 0 then Err(IndexError)
    else match ValueText(cs[0])
      case Err(e) => Err(e)
      case Ok(roleText) =>
        if |cs| == 1 then Err(IndexError)
        else match ValueText(cs[1])
          case Err(e) => Err(e)
          case Ok(id) =>
            match ParseRole(roleText)
            case Err(e) => Err(e)
            case Ok(role) => Ok(NodeHead(id, role))
  }

  /** `host`: the head, then every child from the third on. */
  function HostOf(cs: seq<Child>): Result<NodeSpec> {
    match HostHead(cs)
    case Err(e) => Err(e)
    case Ok(head) =>
      match HostFrom(NewDraft(head.id), cs[2..])
      case Err(e) => Err(e)
      case Ok(d) => Ok(NodeSpec(head, d))
  }

  /** `router`: a router with the second child's text as its id, then every child from the third on. */
  function RouterOf(cs: seq<Child>): Result<NodeSpec> {
    if |cs| < 2 then Err(IndexError)
    else match ValueText(cs[1])
      case Err(e) => Err(e)
      case Ok(id) =>
        match RouterFrom(NewDraft(id), cs[2..])
        case Err(e) => Err(e)
        case Ok(d) => Ok(NodeSpec(NodeHead(id, ROUTER), d))
  }

  /** The ports the children give a node, in order: each port line, and a new port for each LAN line. */
  function PortSources(cs: seq<Child>): seq<PortSource>
    decreases |cs|
  {
    if cs == [] then []
    else
      var s := match cs[0]
        case HostInLanChild(h) => [Joining(h)]
        case PortChild(p) => [Declared(p)]
        case _ => [];
      s + PortSources(cs[1..])
  }

  /** The route tables among the children, in order. */
  function RouteTables(cs: seq<Child>): seq<RouteTable>
    decreases |cs|
  {
    if cs == [] then []
    else (if cs[0].RouteTableChild? then [cs[0].table] else []) + RouteTables(cs[1..])
  }

  function AliasPick(c: Child): Maybe<string> {
    if c.AliasChild? then Some(c.alias) else None
  }

  /** A template line's id, or a readable use-template tree's. */
  function TemplateIdPick(c: Child): Maybe<string> {
    if c.TemplateOptionChild? then Some(c.templateId)
    else if c.TreeChild? && c.data == UseTemplateLine && |c.children| >= 2 && ExtractStr(c.children[1]).Ok?
    then Some(ExtractStr(c.children[1]).value)
    else None
  }

  /** A readable DNS-server tree: whether its text is `true`. */
  function DnsPick(c: Child): Maybe<bool> {
    if c.TreeChild? && c.data == GlobalDnsLine && |c.children| > 0 && ValueText(c.children[0]).Ok?
    then Some(ValueText(c.children[0]).value == "true")
    else None
  }

  function LanLinePick(c: Child): Maybe<Maybe<HostInLan>> {
    if c.HostInLanChild? then Some(Some(c.hostInLan)) else None
  }

  /** The value a generic option for `key` sets. */
  function OptionFor(key: string): Child -> Maybe<Maybe<OptValue>> {
    (c: Child) => if c.OptionChild? && c.option.GenericOption? && c.option.key == key then Some(Some(c.option.value)) else None
  }

  /** One child's share of `HostFromFields`. */
  lemma HostStepFields(d: NodeDraft, c: Child)
    requires HostStep(d, c).Ok?
    ensures var d1 := HostStep(d, c).value;
      d1.name == Otherwise(AliasPick(c), d.name) && d1.templateId == Otherwise(TemplateIdPick(c), d.templateId) &&
      d1.isGlobalDnsServer == Otherwise(DnsPick(c), d.isGlobalDnsServer) && d1.inLan == Otherwise(LanLinePick(c), d.inLan) &&
      d1.sources == d.sources + PortSources([c]) && d1.tables == d.tables
  {
  }

  /**
   * What a host's children set: the last alias, template id, DNS flag and LAN line win, the
   * ports are those of the port and LAN lines in order, and the route tables are untouched.
   */
  lemma {:induction false} HostFromFields(d: NodeDraft, cs: seq<Child>)
    requires HostFrom(d, cs).Ok?
    ensures var d' := HostFrom(d, cs).value;
      d'.name == LastOf(cs, AliasPick, d.name) && d'.templateId == LastOf(cs, TemplateIdPick, d.templateId) &&
      d'.isGlobalDnsServer == LastOf(cs, DnsPick, d.isGlobalDnsServer) && d'.inLan == LastOf(cs, LanLinePick, d.inLan) &&
      d'.sources == d.sources + PortSources(cs) && d'.tables == d.tables
    decreases |cs|
  {
    if cs != [] {
      var d1 := HostStep(d, cs[0]).value;
      HostStepFields(d, cs[0]);
      HostFromFields(d1, cs[1..]);
      LastOfCons(cs, AliasPick, d.name);
      LastOfCons(cs, TemplateIdPick, d.templateId);
      LastOfCons(cs, DnsPick, d.isGlobalDnsServer);
      LastOfCons(cs, LanLinePick, d.inLan);
      PortSourcesCons(cs);
    }
  }

  lemma PortSourcesCons(cs: seq<Child>)
    requires cs != []
    ensures PortSources(cs) == PortSources([cs[0]]) + PortSources(cs[1..])
  {
    assert [cs[0]][1..] == [];
  }

  /** Each option key of a host ends up with the value of the last generic option for it. */
  lemma {:induction false} HostFromOptions(d: NodeDraft, cs: seq<Child>, key: string)
    requires HostFrom(d, cs).Ok?
    ensures Get(HostFrom(d, cs).value.options, key) == LastOf(cs, OptionFor(key), Get(d.options, key))
    decreases |cs|
  {
    if cs != [] {
      HostFromOptions(HostStep(d, cs[0]).value, cs[1..], key);
      LastOfCons(cs, OptionFor(key), Get(d.options, key));
    }
  }

  /** A child `host` accepts: everything but unknown elements and unreadable DNS-server or use-template trees. */
  predicate HostAccepts(c: Child) {
    match c
    case AliasChild(_) => true
    case HostInLanChild(_) => true
    case TemplateOptionChild(_) => true
    case PortChild(_) => true
    case OptionChild(_) => true
    case TreeChild(data, ch) =>
      (data == GlobalDnsLine ==> |ch| > 0 && ValueText(ch[0]).Ok?) &&
      (data == UseTemplateLine ==> |ch| >= 2 && ExtractStr(ch[1]).Ok?)
    case _ => false
  }

  /** The host is built exactly when `host` accepts every child. */
  lemma {:induction false} HostFromOk(d: NodeDraft, cs: seq<Child>)
    ensures HostFrom(d, cs).Ok? <==> forall i :: 0 <= i < |cs| ==> HostAccepts(cs[i])
    decreases |cs|
  {
    if cs != [] && HostStep(d, cs[0]).Ok? {
      HostFromOk(HostStep(d, cs[0]).value, cs[1..]);
      assert forall i :: 1 <= i < |cs| ==> cs[i] == cs[1..][i - 1];
    }
  }

  /** One child's share of `RouterFromFields`. */
  lemma RouterStepFields(d: NodeDraft, c: Child)
    requires RouterStep(d, c).Ok?
    ensures var d1 := RouterStep(d, c).value;
      d1.name == Otherwise(AliasPick(c), d.name) && d1.templateId == Otherwise(TemplateIdPick(c), d.templateId) &&
      d1.isGlobalDnsServer == d.isGlobalDnsServer && d1.inLan == d.inLan &&
      d1.sources == d.sources + PortSources([c]) && d1.tables == d.tables + RouteTables([c])
  {
  }

  /**
   * What a router's children set: the last alias and template id win, the ports are the port
   * lines in order, the route tables are merged in order, and it joins no LAN itself.
   */
  lemma {:induction false} RouterFromFields(d: NodeDraft, cs: seq<Child>)
    requires RouterFrom(d, cs).Ok?
    ensures var d' := RouterFrom(d, cs).value;
      d'.name == LastOf(cs, AliasPick, d.name) && d'.templateId == LastOf(cs, TemplateIdPick, d.templateId) &&
      d'.isGlobalDnsServer == d.isGlobalDnsServer && d'.inLan == d.inLan &&
      d'.sources == d.sources + PortSources(cs) && d'.tables == d.tables + RouteTables(cs)
    decreases |cs|
  {
    if cs != [] {
      var d1 := RouterStep(d, cs[0]).value;
      RouterStepFields(d, cs[0]);
      RouterFromFields(d1, cs[1..]);
      LastOfCons(cs, AliasPick, d.name);
      LastOfCons(cs, TemplateIdPick, d.templateId);
      PortSourcesCons(cs);
      RouteTablesCons(cs);
    }
  }

  lemma RouteTablesCons(cs: seq<Child>)
    requires cs != []
    ensures RouteTables(cs) == RouteTables([cs[0]]) + RouteTables(cs[1..])
  {
    assert [cs[0]][1..] == [];
  }

  /** A child `router` accepts: an alias, template line, port, route table, option, or a readable tree. */
  predicate RouterAccepts(c: Child) {
    match c
    case AliasChild(_) => true
    case TemplateOptionChild(_) => true
    case PortChild(_) => true
    case RouteTableChild(_) => true
    case OptionChild(_) => true
    case TreeChild(data, ch) => data == UseTemplateLine ==> |ch| >= 2 && ExtractStr(ch[1]).Ok?
    case _ => false
  }

  /** The router is built exactly when `router` accepts every child; a LAN line is never accepted. */
  lemma {:induction false} RouterFromOk(d: NodeDraft, cs: seq<Child>)
    ensures RouterFrom(d, cs).Ok? <==> forall i :: 0 <= i < |cs| ==> RouterAccepts(cs[i])
    decreases |cs|
  {
    if cs != [] && RouterStep(d, cs[0]).Ok? {
      RouterFromOk(RouterStep(d, cs[0]).value, cs[1..]);
      assert forall i :: 1 <= i < |cs| ==> cs[i] == cs[1..][i - 1];
    }
  }

  /** The ports a node is built with for `sources`: the declared port itself, or a new unnamed port into the line's LAN. */
  predicate PortsFrom(ports: seq<NodePort>, sources: seq<PortSource>) {
    |ports| == |sources| &&
    forall k :: 0 <= k < |ports| ==>
      match sources[k]
      case Declared(p) => ports[k] == p
      case Joining(h) => ports[k].name == None && ports[k].inLan == Some(h) && ports[k].toPort == None
  }

  /** The host or router a spec describes, with no template bound yet. */
  predicate NodeBuilt(n: HostBase, s: NodeSpec)
    reads n`template, n`inLan
  {
    n.id == s.head.id && n.role == s.head.role && n.name == s.draft.name && n.templateId == s.draft.templateId &&
    PortsFrom(n.ports, s.draft.sources) && n.options == s.draft.options &&
    n.isGlobalDnsServer == s.draft.isGlobalDnsServer && n.inLan == s.draft.inLan && n.template == None
  }

  /** The entries of the route tables, table after table. */
  ghost function TablesEntries(ts: seq<RouteTable>): seq<RouteEntry>
    reads ts
    decreases |ts|
  {
    if ts == [] then [] else TablesEntries(ts[..|ts| - 1]) + ts[|ts| - 1].entries
  }

  lemma TablesEntriesSnoc(ts: seq<RouteTable>, t: RouteTable)
    ensures TablesEntries(ts + [t]) == TablesEntries(ts) + t.entries
  {
    assert (ts + [t])[..|ts|] == ts;
  }

  // ---- `lan` ----

  /** What the children of a LAN have set on it so far: its alias, network and hosts. */
  datatype LanDraft = LanDraft(name: string, net: Maybe<Network>, members: seq<HostBase>)

  /** One child of `lan`: a network, an alias or a host (not a router); anything else is an unknown element. */
  function LanStep(d: LanDraft, c: Child): Result<LanDraft> {
    match c
    case NetworkChild(n) => Ok(d.(net := Some(n)))
    case AliasChild(a) => Ok(d.(name := a))
    case NodeChild(h) => if h.IsRouter() then Err(Raised("Unknown element")) else Ok(d.(members := d.members + [h]))
    case _ => Err(Raised("Unknown element"))
  }

  function LanFrom(d: LanDraft, cs: seq<Child>): Result<LanDraft>
    decreases |cs|
  {
    if cs == [] then Ok(d)
    else match LanStep(d, cs[0])
      case Err(e) => Err(e)
      case Ok(d1) => LanFrom(d1, cs[1..])
  }

  /** What a `lan` rule builds: the LAN's id and what its other children set. */
  datatype LanSpec = LanSpec(id: string, draft: LanDraft)

  /** `lan`: a LAN with the second child's text as its id and name, then every child from the third on. */
  function LanOf(cs: seq<Child>): Result<LanSpec> {
    if |cs| < 2 then Err(IndexError)
    else match ValueText(cs[1])
      case Err(e) => Err(e)
      case Ok(id) =>
        match LanFrom(LanDraft(id, None, []), cs[2..])
        case Err(e) => Err(e)
        case Ok(d) => Ok(LanSpec(id, d))
  }

  /** The hosts among the children, in order. */
  function LanMembers(cs: seq<Child>): seq<HostBase>
    decreases |cs|
  {
    if cs == [] then []
    else (if cs[0].NodeChild? then [cs[0].node] else []) + LanMembers(cs[1..])
  }

  function NetPick(c: Child): Maybe<Maybe<Network>> {
    if c.NetworkChild? then Some(Some(c.network)) else None
  }

  /** What a LAN's children set: the last alias and network win, and the hosts join in order. */
  lemma {:induction false} LanFromFields(d: LanDraft, cs: seq<Child>)
    requires LanFrom(d, cs).Ok?
    ensures LanFrom(d, cs).value == LanDraft(LastOf(cs, AliasPick, d.name), LastOf(cs, NetPick, d.net), d.members + LanMembers(cs))
    decreases |cs|
  {
    if cs != [] {
      var d1 := LanStep(d, cs[0]).value;
      LanFromFields(d1, cs[1..]);
      LastOfCons(cs, AliasPick, d.name);
      LastOfCons(cs, NetPick, d.net);
      assert d1.members == d.members + LanMembers(cs[..1]);
    }
  }

  /** A child `lan` accepts: a network, an alias, or a host that is not a router. */
  predicate LanAccepts(c: Child) {
    c.NetworkChild? || c.AliasChild? || (c.NodeChild? && !c.node.IsRouter())
  }

  /** The LAN is built exactly when `lan` accepts every child. */
  lemma {:induction false} LanFromOk(d: LanDraft, cs: seq<Child>)
    ensures LanFrom(d, cs).Ok? <==> forall i :: 0 <= i < |cs| ==> LanAccepts(cs[i])
    decreases |cs|
  {
    if cs != [] && LanStep(d, cs[0]).Ok? {
      LanFromOk(LanStep(d, cs[0]).value, cs[1..]);
      assert forall i :: 1 <= i < |cs| ==> cs[i] == cs[1..][i - 1];
    }
  }

  /** The LAN a spec describes, before its hosts join. */
  predicate LanBuilt(l: Lan, s: LanSpec) {
    l.id == s.id && l.name == s.draft.name && l.net == s.draft.net
  }

  /** The hosts and routers among the children. */
  ghost function NodeChildren(cs: seq<Child>): set<HostBase> {
    set c | c in cs && c.NodeChild? :: c.node
  }

  // ---- `scene` ----

  /** A scene's tables: its routers, hosts, LANs and templates by id, and its environment. */
  datatype Tables = Tables(routers: seq<Entry<string, HostBase>>, hosts: seq<Entry<string, HostBase>>,
                           lans: seq<Entry<string, Lan>>, templates: seq<Entry<string, NodeTemplate>>, env: Environment)

  function TablesOf(s: Scene): Tables
    reads s`routers, s`hosts, s`lans, s`templates, s`env
  {
    Tables(s.routers, s.hosts, s.lans, s.templates, s.env)
  }

  /** A child as `add_entity` sees it. */
  function EntityOf(c: Child): Entity {
    match c
    case NodeChild(n) => NodeEntity(n)
    case LanChild(l) => LanEntity(l)
    case TemplateChild(t) => TemplateEntity(t)
    case _ => OtherEntity
  }

  /** `add_entity` for a host or router: filed under its id in the routers' or the hosts' table. */
  function FileNode(t: Tables, n: HostBase): Tables {
    if n.IsRouter() then t.(routers := Set(t.routers, n.id, n)) else t.(hosts := Set(t.hosts, n.id, n))
  }

  /** `add_entity`: each kind into its own table under its id; anything else is refused. */
  function FileEntity(t: Tables, e: Entity): Result<Tables> {
    match e
    case NodeEntity(n) => Ok(FileNode(t, n))
    case LanEntity(l) => Ok(t.(lans := Set(t.lans, l.id, l)))
    case TemplateEntity(tm) => Ok(t.(templates := Set(t.templates, tm.id, tm)))
    case OtherEntity => Err(Raised("unknown child type"))
  }

  /** The hosts of a LAN, each added in turn. */
  function FileHosts(t: Tables, hs: seq<HostBase>): Tables
    decreases |hs|
  {
    if hs == [] then t else FileHosts(FileNode(t, hs[0]), hs[1..])
  }

  /**
   * One child of `scene`: an environment replaces the scene's; anything else is added, a LAN
   * followed by its hosts `hs`.
   */
  function FileChild(t: Tables, c: Child, hs: seq<HostBase>): Result<Tables> {
    if c.EnvChild? then Ok(t.(env := c.env))
    else match FileEntity(t, EntityOf(c))
      case Err(e) => Err(e)
      case Ok(t1) => Ok(if c.LanChild? then FileHosts(t1, hs) else t1)
  }

  /** The hosts of each LAN child, and none for any other child. */
  function LanHostLists(cs: seq<Child>): (lists: seq<seq<HostBase>>)
    reads set c | c in cs && c.LanChild? :: c.lan
    ensures |lists| == |cs|
    ensures forall k :: 0 <= k < |cs| ==> lists[k] == if cs[k].LanChild? then cs[k].lan.hosts else []
  {
    seq(|cs|, k reads set c | c in cs && c.LanChild? :: c.lan
              requires 0 <= k < |cs| => if cs[k].LanChild? then cs[k].lan.hosts else [])
  }

  /**
   * The tables after each child of `scene` in turn, a LAN child with its host list from
   * `lists`, stopping at the first child that is refused.
   */
  function FileFrom(t: Tables, cs: seq<Child>, lists: seq<seq<HostBase>>): Result<Tables>
    requires |lists| == |cs|
    decreases |cs|
  {
    if cs == [] then Ok(t)
    else match FileChild(t, cs[0], lists[0])
      case Err(e) => Err(e)
      case Ok(t1) => FileFrom(t1, cs[1..], lists[1..])
  }

  /** What `scene` files into the tables `t`, the LANs holding their hosts as they do now. */
  function Filed(t: Tables, cs: seq<Child>): Result<Tables>
    reads set c | c in cs && c.LanChild? :: c.lan
  {
    FileFrom(t, cs, LanHostLists(cs))
  }

  /** The children `scene` accepts: environments and entities `add_entity` files. */
  predicate SceneAccepts(c: Child) {
    c.EnvChild? || c.NodeChild? || c.LanChild? || c.TemplateChild?
  }

  /** Filing succeeds exactly when `scene` accepts every child. */
  lemma {:induction false} FileFromOk(t: Tables, cs: seq<Child>, lists: seq<seq<HostBase>>)
    requires |lists| == |cs|
    ensures FileFrom(t, cs, lists).Ok? <==> forall i :: 0 <= i < |cs| ==> SceneAccepts(cs[i])
    decreases |cs|
  {
    if cs != [] && FileChild(t, cs[0], lists[0]).Ok? {
      FileFromOk(FileChild(t, cs[0], lists[0]).value, cs[1..], lists[1..]);
      assert forall i :: 1 <= i < |cs| ==> cs[i] == cs[1..][i - 1];
    }
  }

  /** Adding hosts leaves the LANs, templates and environment as they were. */
  lemma {:induction false} FileHostsKeeps(t: Tables, hs: seq<HostBase>)
    ensures FileHosts(t, hs).lans == t.lans && FileHosts(t, hs).templates == t.templates && FileHosts(t, hs).env == t.env
    decreases |hs|
  {
    if hs != [] {
      FileHostsKeeps(FileNode(t, hs[0]), hs[1..]);
    }
  }

  function EnvPick(c: Child): Maybe<Environment> {
    if c.EnvChild? then Some(c.env) else None
  }

  /** The scene's environment is the last one among the children, or stays as it was. */
  lemma {:induction false} FileFromEnv(t: Tables, cs: seq<Child>, lists: seq<seq<HostBase>>)
    requires |lists| == |cs| && FileFrom(t, cs, lists).Ok?
    ensures FileFrom(t, cs, lists).value.env == LastOf(cs, EnvPick, t.env)
    decreases |cs|
  {
    if cs != [] {
      var t1 := FileChild(t, cs[0], lists[0]).value;
      if cs[0].LanChild? {
        FileHostsKeeps(FileEntity(t, EntityOf(cs[0])).value, lists[0]);
      }
      assert t1.env == Otherwise(EnvPick(cs[0]), t.env);
      FileFromEnv(t1, cs[1..], lists[1..]);
      LastOfCons(cs, EnvPick, t.env);
    }
  }

  /** The tables file every LAN, host, router and template under its own id. */
  ghost predicate TablesKeyed(t: Tables) {
    (forall e :: e in t.lans ==> e.key == e.value.id) && (forall e :: e in t.hosts ==> e.key == e.value.id) &&
    (forall e :: e in t.routers ==> e.key == e.value.id) && (forall e :: e in t.templates ==> e.key == e.value.id)
  }

  lemma FileNodeKeyed(t: Tables, n: HostBase)
    requires TablesKeyed(t)
    ensures TablesKeyed(FileNode(t, n))
  {
    SetEntries(t.routers, n.id, n);
    SetEntries(t.hosts, n.id, n);
  }

  lemma {:induction false} FileHostsKeyed(t: Tables, hs: seq<HostBase>)
    requires TablesKeyed(t)
    ensures TablesKeyed(FileHosts(t, hs))
    decreases |hs|
  {
    if hs != [] {
      FileNodeKeyed(t, hs[0]);
      FileHostsKeyed(FileNode(t, hs[0]), hs[1..]);
    }
  }

  lemma FileChildKeyed(t: Tables, c: Child, hs: seq<HostBase>)
    requires TablesKeyed(t) && FileChild(t, c, hs).Ok?
    ensures TablesKeyed(FileChild(t, c, hs).value)
  {
    match c
    case NodeChild(n) => FileNodeKeyed(t, n);
    case LanChild(l) =>
      SetEntries(t.lans, l.id, l);
      FileHostsKeyed(t.(lans := Set(t.lans, l.id, l)), hs);
    case TemplateChild(tm) => SetEntries(t.templates, tm.id, tm);
    case _ =>
  }

  /** Filing keeps every entry under its own id, as `add_entity` files it. */
  lemma {:induction false} FileFromKeyed(t: Tables, cs: seq<Child>, lists: seq<seq<HostBase>>)
    requires |lists| == |cs| && TablesKeyed(t) && FileFrom(t, cs, lists).Ok?
    ensures TablesKeyed(FileFrom(t, cs, lists).value)
    decreases |cs|
  {
    if cs != [] {
      FileChildKeyed(t, cs[0], lists[0]);
      FileFromKeyed(FileChild(t, cs[0], lists[0]).value, cs[1..], lists[1..]);
    }
  }

  /** Every id of `t`'s tables is still one of `t'`'s. */
  ghost predicate KeysKept(t: Tables, t': Tables) {
    (forall k :: k in Keys(t.routers) ==> k in Keys(t'.routers)) && (forall k :: k in Keys(t.hosts) ==> k in Keys(t'.hosts)) &&
    (forall k :: k in Keys(t.lans) ==> k in Keys(t'.lans)) && (forall k :: k in Keys(t.templates) ==> k in Keys(t'.templates))
  }

  /** A host or router is filed under its id, in the routers' table if it is one. */
  ghost predicate NodeHeld(t: Tables, n: HostBase) {
    if n.IsRouter() then n.id in Keys(t.routers) else n.id in Keys(t.hosts)
  }

  lemma FileNodeKeys(t: Tables, n: HostBase)
    ensures KeysKept(t, FileNode(t, n)) && NodeHeld(FileNode(t, n), n)
  {
    SetKeys(t.routers, n.id, n);
    SetKeys(t.hosts, n.id, n);
  }

  lemma {:induction false} FileHostsKeys(t: Tables, hs: seq<HostBase>)
    ensures KeysKept(t, FileHosts(t, hs))
    ensures forall h :: h in hs ==> NodeHeld(FileHosts(t, hs), h)
    decreases |hs|
  {
    if hs != [] {
      var t1 := FileNode(t, hs[0]);
      FileNodeKeys(t, hs[0]);
      FileHostsKeys(t1, hs[1..]);
      assert forall h :: h in hs ==> h == hs[0] || h in hs[1..];
    }
  }

  /** What filing the child `c` leaves in the tables `t`. */
  ghost predicate ChildHeld(t: Tables, c: Child, hs: seq<HostBase>) {
    (c.NodeChild? ==> NodeHeld(t, c.node)) && (c.TemplateChild? ==> c.template.id in Keys(t.templates)) &&
    (c.LanChild? ==> c.lan.id in Keys(t.lans) && forall h :: h in hs ==> NodeHeld(t, h))
  }

  lemma FileChildKeys(t: Tables, c: Child, hs: seq<HostBase>)
    requires FileChild(t, c, hs).Ok?
    ensures KeysKept(t, FileChild(t, c, hs).value) && ChildHeld(FileChild(t, c, hs).value, c, hs)
  {
    var t' := FileChild(t, c, hs).value;
    match c
    case NodeChild(n) =>
      assert t' == FileNode(t, n);
      FileNodeKeys(t, n);
    case LanChild(l) =>
      assert t' == FileHosts(t.(lans := Set(t.lans, l.id, l)), hs);
      FileLanKeys(t, l, hs);
    case TemplateChild(tm) =>
      assert t' == t.(templates := Set(t.templates, tm.id, tm));
      SetKeys(t.templates, tm.id, tm);
    case EnvChild(env) =>
      assert t' == t.(env := env);
  }

  lemma FileLanKeys(t: Tables, l: Lan, hs: seq<HostBase>)
    ensures var t' := FileHosts(t.(lans := Set(t.lans, l.id, l)), hs);
      KeysKept(t, t') && l.id in Keys(t'.lans) && forall h :: h in hs ==> NodeHeld(t', h)
  {
    SetKeys(t.lans, l.id, l);
    var t1 := t.(lans := Set(t.lans, l.id, l));
    FileHostsKeys(t1, hs);
    FileHostsKeeps(t1, hs);
  }

  /**
   * Filing loses no id, and leaves every LAN, template, host and router among the children,
   * and every host of a LAN child, filed under its id.
   */
  lemma {:induction false} FileFromKeys(t: Tables, cs: seq<Child>, lists: seq<seq<HostBase>>)
    requires |lists| == |cs| && FileFrom(t, cs, lists).Ok?
    ensures KeysKept(t, FileFrom(t, cs, lists).value)
    ensures forall i :: 0 <= i < |cs| ==> ChildHeld(FileFrom(t, cs, lists).value, cs[i], lists[i])
    decreases |cs|
  {
    if cs != [] {
      var t1 := FileChild(t, cs[0], lists[0]).value;
      var t' := FileFrom(t, cs, lists).value;
      FileChildKeys(t, cs[0], lists[0]);
      FileFromKeys(t1, cs[1..], lists[1..]);
      assert ChildHeld(t', cs[0], lists[0]);
      forall i | 1 <= i < |cs|
        ensures ChildHeld(t', cs[i], lists[i])
      {
        assert cs[1..][i - 1] == cs[i] && lists[1..][i - 1] == lists[i];
      }
    }
  }

  /** The hosts and routers the tables list. */
  ghost function TablesNodes(t: Tables): set<HostBase> {
    set n | n in Values(t.routers) + Values(t.hosts)
  }

  ghost function TablesPorts(t: Tables): set<NodePort> {
    set n, p | n in TablesNodes(t) && p in n.ports :: p
  }

  ghost function TablesLans(t: Tables): set<Lan> {
    set e | e in t.lans :: e.value
  }

  /** The hosts and routers of the filed tables, none when filing fails. */
  ghost function FiledNodes(r: Result<Tables>): set<HostBase> {
    if r.Ok? then TablesNodes(r.value) else {}
  }

  ghost function FiledPorts(r: Result<Tables>): set<NodePort> {
    if r.Ok? then TablesPorts(r.value) else {}
  }

  ghost function FiledLans(r: Result<Tables>): set<Lan> {
    if r.Ok? then TablesLans(r.value) else {}
  }

  /** A scene holding the tables has exactly their nodes, ports and LANs. */
  lemma ScenesTables(s: Scene, t: Tables)
    requires TablesOf(s) == t
    ensures s.Nodes() == TablesNodes(t) && s.Ports() == TablesPorts(t) && s.LanSet() == TablesLans(t)
  {
  }

  // ---- the transformer ----

  /** The transformer: one method per grammar rule that builds something, and the scene it fills. */
  class SceneTransformer {
    /** The scene the `scene` rule registers everything in. */
    const scene: Scene

    /** A transformer filling the given scene, or a new empty one when none is given. */
    constructor (scene: Scene?)
      ensures scene != null ==> this.scene == scene
      ensures scene == null ==> (fresh(this.scene) && this.scene.routers == [] && this.scene.hosts == [] &&
        this.scene.lans == [] && this.scene.templates == [] && this.scene.env == EmptyEnvironment)
    {
      if scene != null {
        this.scene := scene;
      } else {
        this.scene := new Scene();
      }
    }

    /** `dict_value`: each entry stored in turn into a new dict. */
    method DictValueRule(matches: seq<Child>) returns (r: Result<Child>)
      ensures r == DictValueOf(matches)
    {
      var d: Options := [];
      var i := 0;
      while i < |matches|
        invariant 0 <= i <= |matches|
        invariant DictFrom(d, matches[i..]) == DictFrom([], matches)
      {
        var m := matches[i];
        if !m.DictEntryChild? {
          return Err(AttributeError("key"));
        }
        d := Set(d, m.dictEntry.key, m.dictEntry.value);
        i := i + 1;
      }
      return Ok(ValueChild(Dict(d)));
    }

    /** `template`: a new template, then the attribute trees among the children from the third on. */
    method TemplateRule(matches: seq<Child>) returns (r: Result<Child>)
      ensures r == TemplateOf(matches)
    {
      if |matches| < 2 {
        return Err(IndexError);
      }
      var id := ExtractStr(matches[1]);
      if id.Err? {
        return Err(id.error);
      }
      var template := NewTemplate(id.value);
      var i := 2;
      while i < |matches|
        invariant 2 <= i <= |matches|
        invariant TemplateFrom(template, matches[i..]) == TemplateFrom(NewTemplate(id.value), matches[2..])
      {
        var option := matches[i];
        if option.TreeChild? {
          if option.data != OsAttr && option.data != EmulationAttr && option.data != ImageAttr {
            return Err(Raised("unknown template option"));
          }
          if |option.children| == 0 {
            return Err(IndexError);
          }
          var s := AttrText(option.data, option.children[0]);
          if s.Err? {
            return Err(s.error);
          }
          if option.data == OsAttr {
            template := template.(os := s.value);
          } else if option.data == EmulationAttr {
            template := template.(emulation := s.value);
          } else {
            template := template.(image := s.value);
          }
        }
        i := i + 1;
      }
      return Ok(TemplateChild(template));
    }

    /** `env`: a new environment, configured by each option among the children. */
    method EnvRule(matches: seq<Child>) returns (r: Result<Child>)
      ensures r == EnvOf(matches)
    {
      var env := EmptyEnvironment;
      var i := 0;
      while i < |matches|
        invariant 0 <= i <= |matches|
        invariant EnvFrom(env, matches[i..]) == EnvFrom(EmptyEnvironment, matches)
      {
        var option := matches[i];
        if option.OptionChild? {
          match option.option {
            case ControlNetGateway(ip) => env := env.(controlNetGateway := Some(ip));
            case ExternalNet(nets) => env := env.(externalNets := nets);
            case GenericOption(_, _) => return Err(AttributeError("options"));
          }
        }
        i := i + 1;
      }
      return Ok(EnvChild(env));
    }

    /** `port`: a new port as the head describes, with the addresses among the children from the third on. */
    method PortRule(matches: seq<Child>) returns (r: Result<Child>)
      ensures r.Ok? <==> PortOf(matches).Ok?
      ensures r.Err? ==> PortOf(matches) == Err(r.error)
      ensures r.Ok? ==> (r.value.PortChild? && fresh(r.value.port) && r.value.port.lan == null &&
        PortShaped(r.value.port, PortOf(matches).value))
    {
      var head := PortHead(matches);
      if head.Err? {
        return Err(head.error);
      }
      var target := head.value.target;
      var i := 2;
      while i < |matches|
        invariant 2 <= i <= |matches|
        invariant PortIpFrom(target, matches[i..]) == PortIpFrom(head.value.target, matches[2..])
      {
        var option := matches[i];
        if option.AddressChild? {
          if !target.InLan? {
            return Err(AttributeError("ip"));
          }
          target := InLan(target.inLan.(ip := Some(DottedQuad(option.address))));
        }
        i := i + 1;
      }
      var port := new NodePort(target, head.value.name);
      return Ok(PortChild(port));
    }

    /** `route_table`: a new table of the entries, in order. */
    method RouteTableRule(matches: seq<Child>) returns (r: Result<Child>)
      ensures r.Ok? <==> RouteEntries(matches).Ok?
      ensures r.Err? ==> RouteEntries(matches) == Err(r.error)
      ensures r.Ok? ==> r.value.RouteTableChild? && fresh(r.value.table) && r.value.table.entries == RouteEntries(matches).value
    {
      var entries := RouteEntries(matches);
      if entries.Err? {
        return Err(entries.error);
      }
      var table := new RouteTable(entries.value);
      return Ok(RouteTableChild(table));
    }

    /** One child of `host`: what it sets, and the new port a LAN line makes. */
    method HostChild(d: NodeDraft, ports: seq<NodePort>, option: Child) returns (r: Result<NodeDraft>, ports': seq<NodePort>)
      requires PortsFrom(ports, d.sources)
      ensures r == HostStep(d, option)
      ensures r.Ok? ==> PortsFrom(ports', r.value.sources)
    {
      ports' := ports;
      match option {
        case AliasChild(a) =>
          r := Ok(d.(name := a));
        case HostInLanChild(h) =>
          var port := new NodePort(InLan(h), None);
          r := Ok(d.(inLan := Some(h), sources := d.sources + [Joining(h)]));
          ports' := ports + [port];
        case TemplateOptionChild(id) =>
          r := Ok(d.(templateId := id));
        case PortChild(p) =>
          r := Ok(d.(sources := d.sources + [Declared(p)]));
          ports' := ports + [p];
        case TreeChild(data, ch) =>
          if data == GlobalDnsLine {
            if |ch| == 0 {
              return Err(IndexError), ports;
            }
            var v := ValueText(ch[0]);
            if v.Err? {
              return Err(v.error), ports;
            }
            r := Ok(d.(isGlobalDnsServer := v.value == "true"));
          } else if data == UseTemplateLine {
            r := UseTemplate(d, ch);
          } else {
            r := Ok(d);
          }
        case OptionChild(o) =>
          r := Ok(d.(options := ConfigOptions(o, d.options)));
        case _ =>
          r := Err(Raised("Unknown element"));
      }
    }

    /** `host`: a new host as the head describes, with what each later child sets. */
    method HostRule(matches: seq<Child>) returns (r: Result<Child>)
      ensures r.Ok? <==> HostOf(matches).Ok?
      ensures r.Err? ==> HostOf(matches) == Err(r.error)
      ensures r.Ok? ==> (r.value.NodeChild? && fresh(r.value.node) && !r.value.node.IsRouter() &&
        NodeBuilt(r.value.node, HostOf(matches).value))
    {
      var head := HostHead(matches);
      if head.Err? {
        return Err(head.error);
      }
      var d := NewDraft(head.value.id);
      var ports: seq<NodePort> := [];
      var i := 2;
      while i < |matches|
        invariant 2 <= i <= |matches|
        invariant HostFrom(d, matches[i..]) == HostFrom(NewDraft(head.value.id), matches[2..])
        invariant PortsFrom(ports, d.sources)
      {
        var next, grown := HostChild(d, ports, matches[i]);
        if next.Err? {
          return Err(next.error);
        }
        d, ports := next.value, grown;
        i := i + 1;
      }
      var host := new HostBase.Host(head.value.id, head.value.role, d.name, d.templateId, ports, d.options,
                                    d.isGlobalDnsServer, d.inLan);
      return Ok(NodeChild(host));
    }

    /** What a router built so far holds: its ports, its own route table with the merged entries, no LAN. */
    ghost predicate RouterSoFar(d: NodeDraft, ports: seq<NodePort>, table: RouteTable)
      reads table, d.tables
    {
      !d.isGlobalDnsServer && d.inLan == None && PortsFrom(ports, d.sources) &&
      table !in d.tables && table.entries == TablesEntries(d.tables)
    }

    /** One child of `router`: what it sets, and the table it merges into the router's own. */
    method RouterChild(d: NodeDraft, ports: seq<NodePort>, table: RouteTable, option: Child)
      returns (r: Result<NodeDraft>, ports': seq<NodePort>)
      requires RouterSoFar(d, ports, table)
      requires option.RouteTableChild? ==> option.table != table
      modifies table
      ensures r == RouterStep(d, option)
      ensures r.Ok? ==> RouterSoFar(r.value, ports', table)
    {
      ports' := ports;
      match option {
        case AliasChild(a) =>
          r := Ok(d.(name := a));
        case TemplateOptionChild(t) =>
          r := Ok(d.(templateId := t));
        case PortChild(p) =>
          r := Ok(d.(sources := d.sources + [Declared(p)]));
          ports' := ports + [p];
        case RouteTableChild(t) =>
          MergeTable(d, ports, table, t);
          r := Ok(d.(tables := d.tables + [t]));
        case TreeChild(data, ch) =>
          if data == UseTemplateLine {
            r := UseTemplate(d, ch);
          } else {
            r := Ok(d);
          }
        case OptionChild(o) =>
          r := Ok(d.(options := ConfigOptions(o, d.options)));
        case _ =>
          r := Err(Raised("Unknown element"));
      }
    }

    /** `router.route_table.merge(t)`: the table's entries follow the router's own. */
    method MergeTable(ghost d: NodeDraft, ghost ports: seq<NodePort>, table: RouteTable, t: RouteTable)
      requires RouterSoFar(d, ports, table) && t != table
      modifies table
      ensures RouterSoFar(d.(tables := d.tables + [t]), ports, table)
    {
      table.Merge(t);
      TablesEntriesSnoc(d.tables, t);
    }

    /** `router`: a new router with an empty route table, then what each later child sets or merges in. */
    method RouterRule(matches: seq<Child>) returns (r: Result<Child>)
      ensures r.Ok? <==> RouterOf(matches).Ok?
      ensures r.Err? ==> RouterOf(matches) == Err(r.error)
      ensures r.Ok? ==> (r.value.NodeChild? && fresh(r.value.node) && r.value.node.routeTable != null &&
        fresh(r.value.node.routeTable) && NodeBuilt(r.value.node, RouterOf(matches).value) &&
        r.value.node.routeTable.entries == TablesEntries(RouterOf(matches).value.draft.tables))
    {
      if |matches| < 2 {
        return Err(IndexError);
      }
      var id := ValueText(matches[1]);
      if id.Err? {
        return Err(id.error);
      }
      var d := NewDraft(id.value);
      var ports: seq<NodePort> := [];
      var table := new RouteTable([]);
      var i := 2;
      while i < |matches|
        invariant 2 <= i <= |matches|
        invariant RouterFrom(d, matches[i..]) == RouterFrom(NewDraft(id.value), matches[2..])
        invariant fresh(table) && RouterSoFar(d, ports, table)
      {
        var next, grown := RouterChild(d, ports, table, matches[i]);
        if next.Err? {
          return Err(next.error);
        }
        d, ports := next.value, grown;
        i := i + 1;
      }
      var router := new HostBase.Router(id.value, d.name, d.templateId, ports, d.options, table);
      return Ok(NodeChild(router));
    }

    /**
     * `lan`: a new LAN with what each later child sets; its hosts join it in order, each
     * marked as in this LAN.
     */
    method LanRule(matches: seq<Child>) returns (r: Result<Child>)
      modifies NodeChildren(matches)`inLan
      ensures r.Ok? <==> LanOf(matches).Ok?
      ensures r.Err? ==> LanOf(matches) == Err(r.error)
      ensures r.Ok? ==> (r.value.LanChild? && fresh(r.value.lan) && LanBuilt(r.value.lan, LanOf(matches).value) &&
        r.value.lan.hosts == LanOf(matches).value.draft.members)
      ensures r.Ok? ==> forall h :: h in r.value.lan.hosts ==> h.inLan == Some(HostInLan(r.value.lan.id, None))
    {
      if |matches| < 2 {
        return Err(IndexError);
      }
      var id := ValueText(matches[1]);
      if id.Err? {
        return Err(id.error);
      }
      var d := LanDraft(id.value, None, []);
      var i := 2;
      while i < |matches|
        invariant 2 <= i <= |matches|
        invariant LanFrom(d, matches[i..]) == LanFrom(LanDraft(id.value, None, []), matches[2..])
        invariant forall h :: h in d.members ==> h in NodeChildren(matches)
      {
        var option := matches[i];
        match option {
          case NetworkChild(n) =>
            d := d.(net := Some(n));
          case AliasChild(a) =>
            d := d.(name := a);
          case NodeChild(h) =>
            if h.IsRouter() {
              return Err(Raised("Unknown element"));
            }
            assert option in matches;
            d := d.(members := d.members + [h]);
          case _ =>
            return Err(Raised("Unknown element"));
        }
        i := i + 1;
      }
      var lan := new Lan(id.value, d.name, d.net);
      var j := 0;
      while j < |d.members|
        invariant 0 <= j <= |d.members|
        invariant lan.hosts == d.members[..j]
        invariant forall k :: 0 <= k < j ==> d.members[k].inLan == Some(HostInLan(lan.id, None))
      {
        lan.AddHost(d.members[j]);
        j := j + 1;
      }
      return Ok(LanChild(lan));
    }
    /** The hosts of a LAN, each added to the scene in turn. */
    method AddLanHosts(lan: Lan)
      modifies scene
      ensures TablesOf(scene) == FileHosts(old(TablesOf(scene)), lan.hosts)
    {
      var j := 0;
      while j < |lan.hosts|
        invariant 0 <= j <= |lan.hosts|
        invariant FileHosts(TablesOf(scene), lan.hosts[j..]) == FileHosts(old(TablesOf(scene)), lan.hosts)
      {
        var added := scene.AddEntity(NodeEntity(lan.hosts[j]));
        j := j + 1;
      }
    }

    /** One child of `scene` filed, a LAN's hosts being `hs`. */
    method FileChildAt(entity: Child, ghost hs: seq<HostBase>) returns (r: Outcome)
      requires entity.LanChild? ==> entity.lan.hosts == hs
      modifies scene
      ensures r.Fail? ==> FileChild(old(TablesOf(scene)), entity, hs) == Err(r.error)
      ensures r.Pass? ==> FileChild(old(TablesOf(scene)), entity, hs) == Ok(TablesOf(scene))
    {
      if entity.EnvChild? {
        scene.env := entity.env;
      } else {
        var added := scene.AddEntity(EntityOf(entity));
        if added.Fail? {
          return Fail(added.error);
        }
        if entity.LanChild? {
          AddLanHosts(entity.lan);
        }
      }
      return Pass;
    }

    /** The loop of `scene`: each child filed in turn, a LAN's hosts as `lists` holds them. */
    method FileChildren(matches: seq<Child>, ghost lists: seq<seq<HostBase>>) returns (r: Outcome)
      requires lists == LanHostLists(matches)
      modifies scene
      ensures r.Fail? ==> FileFrom(old(TablesOf(scene)), matches, lists) == Err(r.error)
      ensures r.Pass? ==> FileFrom(old(TablesOf(scene)), matches, lists) == Ok(TablesOf(scene))
    {
      ghost var target := FileFrom(TablesOf(scene), matches, lists);
      var i := 0;
      while i < |matches|
        invariant 0 <= i <= |matches|
        invariant FileFrom(TablesOf(scene), matches[i..], lists[i..]) == target
        invariant forall k :: i <= k < |matches| && matches[k].LanChild? ==> matches[k].lan.hosts == lists[k]
      {
        r := FileChildAt(matches[i], lists[i]);
        if r.Fail? {
          return;
        }
        i := i + 1;
      }
      return Pass;
    }

    /**
     * `scene`: each environment replaces the scene's, every other child is added as an entity
     * (a LAN followed by its hosts), and the scene is adjusted; a missing LAN fails the adjustment.
     */
    method SceneRule(matches: seq<Child>) returns (r: Result<Scene>)
      modifies scene, FiledNodes(Filed(TablesOf(scene), matches))`template,
        FiledPorts(Filed(TablesOf(scene), matches))`lan, FiledLans(Filed(TablesOf(scene), matches))`hosts
      ensures old(Filed(TablesOf(scene), matches)).Err? ==> r == Err(old(Filed(TablesOf(scene), matches)).error)
      ensures old(Filed(TablesOf(scene), matches)).Ok? ==>
        var t := old(Filed(TablesOf(scene), matches)).value;
        scene.routers == t.routers && scene.hosts == t.hosts && scene.lans == t.lans && scene.env == t.env &&
        (r.Ok? <==> LansKnown(scene.NodeList(), scene.lans)) &&
        (r.Err? ==> JoinsOutcome(Joins(scene.NodeList(), PortLists(scene.NodeList())), scene.lans) == Fail(r.error)) &&
        (r.Ok? ==> r.value == scene && scene.templates == BindTemplates(t.templates, TemplateUses(scene.NodeList())) && scene.Adjusted())
      ensures forall n: HostBase :: old(allocated(n)) && n.templateId == "" ==> n.template == old(n.template)
      ensures forall p: NodePort :: old(allocated(p)) && p.inLan.None? ==> p.lan == old(p.lan)
    {
      ghost var filed := Filed(TablesOf(scene), matches);
      var filing := FileChildren(matches, LanHostLists(matches));
      if filing.Fail? {
        return Err(filing.error);
      }
      ScenesTables(scene, filed.value);
      var adjusted := scene.Adjust();
      if adjusted.Fail? {
        return Err(adjusted.error);
      }
      return Ok(scene);
    }
  }
}

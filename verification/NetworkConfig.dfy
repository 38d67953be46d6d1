/** The saved network configuration: its types, its validation, and its layout on file. */
module NetworkConfig {
  import opened Wrappers

  datatype StaticConfig = StaticConfig(ipv4Address: string, gateway: Option<string>, mtu: nat,
                                       ipv6Addresses: seq<string>, ipv6Gateway: Option<string>, ipv6Auto: bool)

  datatype IpConfig = IpDhcp | IpStatic(cfg: StaticConfig)

  datatype BondingMode = Lacp | ActiveBackup | BalanceRr

  datatype InterfaceType =
    | Dhcp
    | Static(cfg: StaticConfig)
    | Vlan(parent: string, vlanId: nat, ip: IpConfig)
    | Bond(mode: BondingMode, slaves: seq<string>, ip: IpConfig)

  datatype InterfaceConfig = InterfaceConfig(name: string, config: InterfaceType)
  datatype DnsConfig = DnsConfig(nameservers: seq<string>, searchDomains: seq<string>)
  datatype RouteConfig = RouteConfig(destination: string, gateway: string, metric: Option<nat>)

  datatype Config = Config(interfaces: seq<InterfaceConfig>, dns: Option<DnsConfig>, routes: seq<RouteConfig>)

  // ----- Bonding modes -----

  function AsStr(m: BondingMode): string {
    match m
    case Lacp => "802.3ad"
    case ActiveBackup => "active-backup"
    case BalanceRr => "balance-rr"
  }

  function ParseMode(s: string): Option<BondingMode> {
    if s == "802.3ad" then Some(Lacp)
    else if s == "active-backup" then Some(ActiveBackup)
    else if s == "balance-rr" then Some(BalanceRr)
    else None
  }

  /** Parsing accepts exactly the printed names, and each only as the mode it prints. */
  lemma ParsePrintMode(m: BondingMode, s: string)
    ensures ParseMode(s) == Some(m) <==> s == AsStr(m)
  {
    assert |AsStr(Lacp)| == 7 && |AsStr(ActiveBackup)| == 13 && |AsStr(BalanceRr)| == 10;
  }

  // ----- Validation -----

  /** Address parsing stays uninterpreted. */
  datatype Syntax = Syntax(cidr4: string -> bool, cidr6: string -> bool, ip4: string -> bool, ip6: string -> bool)

  /** The bytes a name takes in UTF-8, which is what its length counts. */
  function Utf8Length(s: string): nat {
    if s == "" then 0 else Utf8Length(s[..|s| - 1]) + Utf8Width(s[|s| - 1])
  }

  function Utf8Width(c: char): nat {
    var code := c as int;
    if code < 0x80 then 1 else if code < 0x800 then 2 else if code < 0x1_0000 then 3 else 4
  }

  predicate ValidStatic(x: Syntax, c: StaticConfig) {
    && (c.ipv4Address != "" || c.ipv6Addresses != [] || c.ipv6Auto)
    && (c.ipv4Address != "" ==> x.cidr4(c.ipv4Address) && (c.gateway.Some? ==> x.ip4(c.gateway.value)))
    && (forall i | 0 <= i < |c.ipv6Addresses| :: x.cidr6(c.ipv6Addresses[i]))
    && (c.ipv6Gateway.Some? ==> x.ip6(c.ipv6Gateway.value))
    && 68 <= c.mtu <= 9000
  }

  predicate ValidIp(x: Syntax, ip: IpConfig) {
    ip.IpStatic? ==> ValidStatic(x, ip.cfg)
  }

  predicate ValidInterface(x: Syntax, i: InterfaceConfig) {
    && 0 < Utf8Length(i.name) <= 15
    && match i.config
       case Dhcp => true
       case Static(cfg) => ValidStatic(x, cfg)
       case Vlan(parent, vlanId, ip) => 1 <= vlanId <= 4094 && parent != "" && ValidIp(x, ip)
       case Bond(_, slaves, ip) => slaves != [] && ValidIp(x, ip)
  }

  predicate ValidDns(x: Syntax, d: DnsConfig) {
    d.nameservers != [] && forall i | 0 <= i < |d.nameservers| :: x.ip4(d.nameservers[i]) || x.ip6(d.nameservers[i])
  }

  predicate ValidRoute(x: Syntax, r: RouteConfig) {
    (x.cidr4(r.destination) || x.cidr6(r.destination)) && (x.ip4(r.gateway) || x.ip6(r.gateway))
  }

  predicate DistinctNames(q: seq<InterfaceConfig>) {
    forall i, j | 0 <= i < j < |q| :: q[i].name != q[j].name
  }

  predicate Valid(x: Syntax, c: Config) {
    && (forall i | 0 <= i < |c.interfaces| :: ValidInterface(x, c.interfaces[i]))
    && (c.dns.Some? ==> ValidDns(x, c.dns.value))
    && (forall i | 0 <= i < |c.routes| :: ValidRoute(x, c.routes[i]))
    && DistinctNames(c.interfaces)
  }

  datatype ConfigError =
    | InvalidIpAddress(address: string)
    | InvalidCidr(cidr: string)
    | InvalidInterfaceName(name: string)
    | InvalidVlanId(id: nat)
    | NoAddress
    | InvalidMtu(mtu: nat)
    | NoSlaves
    | NoNameservers
    | DuplicateName(name: string)

  /** The first element that does not pass, if there is one. */
  function FirstFailing<T>(q: seq<T>, passes: T -> bool): (r: Option<T>)
    ensures r.None? <==> forall i | 0 <= i < |q| :: passes(q[i])
    ensures r.Some? ==> exists i | 0 <= i < |q| :: q[i] == r.value && !passes(q[i]) && AllPass(q[..i], passes)
  {
    if q == [] then None
    else if !passes(q[0]) then Some(q[0])
    else
      var rest := FirstFailing(q[1..], passes);
      assert rest.Some? ==>
        forall i | 0 <= i < |q| - 1 && AllPass(q[1..][..i], passes) :: AllPass(q[..i + 1], passes) by {
        assert forall i | 0 <= i < |q| - 1 :: q[..i + 1] == [q[0]] + q[1..][..i];
      }
      assert rest.Some? ==>
        exists i | 1 <= i < |q| :: q[i] == rest.value && !passes(q[i]) && AllPass(q[..i], passes) by {
        if rest.Some? {
          var i :| 0 <= i < |q| - 1 && q[1..][i] == rest.value && !passes(q[1..][i]) && AllPass(q[1..][..i], passes);
          assert q[i + 1] == rest.value && AllPass(q[..i + 1], passes);
        }
      }
      rest
  }

  predicate AllPass<T>(q: seq<T>, passes: T -> bool) {
    forall i | 0 <= i < |q| :: passes(q[i])
  }

  /** Which error each part of a configuration is rejected with; None accepts it. */
  function StaticError(x: Syntax, c: StaticConfig): (e: Option<ConfigError>)
    ensures e.None? <==> ValidStatic(x, c)
  {
    if c.ipv4Address == "" && c.ipv6Addresses == [] && !c.ipv6Auto then Some(NoAddress)
    else if c.ipv4Address != "" && !x.cidr4(c.ipv4Address) then Some(InvalidCidr(c.ipv4Address))
    else if c.ipv4Address != "" && c.gateway.Some? && !x.ip4(c.gateway.value)
    then Some(InvalidIpAddress(c.gateway.value))
    else
      match FirstFailing(c.ipv6Addresses, x.cidr6)
      case Some(address) => Some(InvalidCidr(address))
      case None =>
        if c.ipv6Gateway.Some? && !x.ip6(c.ipv6Gateway.value) then Some(InvalidIpAddress(c.ipv6Gateway.value))
        else if c.mtu < 68 || c.mtu > 9000 then Some(InvalidMtu(c.mtu))
        else None
  }

  function IpError(x: Syntax, ip: IpConfig): (e: Option<ConfigError>)
    ensures e.None? <==> ValidIp(x, ip)
  {
    if ip.IpStatic? then StaticError(x, ip.cfg) else None
  }

  function InterfaceError(x: Syntax, i: InterfaceConfig): (e: Option<ConfigError>)
    ensures e.None? <==> ValidInterface(x, i)
  {
    if Utf8Length(i.name) == 0 || Utf8Length(i.name) > 15 then Some(InvalidInterfaceName(i.name))
    else
      match i.config
      case Dhcp => None
      case Static(cfg) => StaticError(x, cfg)
      case Vlan(parent, vlanId, ip) =>
        if vlanId < 1 || vlanId > 4094 then Some(InvalidVlanId(vlanId))
        else if parent == "" then Some(InvalidInterfaceName(parent))
        else IpError(x, ip)
      case Bond(_, slaves, ip) => if slaves == [] then Some(NoSlaves) else IpError(x, ip)
  }

  function DnsError(x: Syntax, d: DnsConfig): (e: Option<ConfigError>)
    ensures e.None? <==> ValidDns(x, d)
  {
    if d.nameservers == [] then Some(NoNameservers)
    else
      match FirstFailing(d.nameservers, (a: string) => x.ip4(a) || x.ip6(a))
      case Some(address) => Some(InvalidIpAddress(address))
      case None => None
  }

  function RouteError(x: Syntax, r: RouteConfig): (e: Option<ConfigError>)
    ensures e.None? <==> ValidRoute(x, r)
  {
    if !x.cidr4(r.destination) && !x.cidr6(r.destination) then Some(InvalidCidr(r.destination))
    else if !x.ip4(r.gateway) && !x.ip6(r.gateway) then Some(InvalidIpAddress(r.gateway))
    else None
  }

  // Which error, on raw fields. Every later one is reported only if none before it is there.

  lemma StaticErrors(x: Syntax, c: StaticConfig)
    ensures var e := StaticError(x, c);
            var noAddress := c.ipv4Address == "" && |c.ipv6Addresses| == 0 && !c.ipv6Auto;
            var badCidr4 := c.ipv4Address != "" && !x.cidr4(c.ipv4Address);
            var badGateway := c.ipv4Address != "" && c.gateway.Some? && !x.ip4(c.gateway.value);
            var badCidr6 := exists i | 0 <= i < |c.ipv6Addresses| :: !x.cidr6(c.ipv6Addresses[i]);
            var badGateway6 := c.ipv6Gateway.Some? && !x.ip6(c.ipv6Gateway.value);
      && (noAddress ==> e == Some(NoAddress))
      && (!noAddress && badCidr4 ==> e == Some(InvalidCidr(c.ipv4Address)))
      && (!badCidr4 && badGateway ==> e == Some(InvalidIpAddress(c.gateway.value)))
      && (!noAddress && !badCidr4 && !badGateway && badCidr6 ==>
            exists i | 0 <= i < |c.ipv6Addresses| ::
              e == Some(InvalidCidr(c.ipv6Addresses[i])) && !x.cidr6(c.ipv6Addresses[i]))
      && (!noAddress && !badCidr4 && !badGateway && !badCidr6 && badGateway6 ==>
            e == Some(InvalidIpAddress(c.ipv6Gateway.value)))
      && (!noAddress && !badCidr4 && !badGateway && !badCidr6 && !badGateway6 ==>
            e == if 68 <= c.mtu <= 9000 then None else Some(InvalidMtu(c.mtu)))
  {
  }

  lemma InterfaceErrors(x: Syntax, i: InterfaceConfig)
    ensures i.name == "" || Utf8Length(i.name) > 15 ==> InterfaceError(x, i) == Some(InvalidInterfaceName(i.name))
    ensures i.name != "" && Utf8Length(i.name) <= 15 ==>
              var ofIp := (ip: IpConfig) => if ip == IpDhcp then None else StaticError(x, ip.cfg);
              InterfaceError(x, i) == match i.config
                case Dhcp => None
                case Static(cfg) => StaticError(x, cfg)
                case Vlan(parent, vlanId, ip) =>
                  if !(1 <= vlanId <= 4094) then Some(InvalidVlanId(vlanId))
                  else if parent == "" then Some(InvalidInterfaceName(""))
                  else ofIp(ip)
                case Bond(_, slaves, ip) => if |slaves| == 0 then Some(NoSlaves) else ofIp(ip)
  {
    Utf8LengthBounds(i.name);
  }

  lemma DnsAndRouteErrors(x: Syntax, d: DnsConfig, r: RouteConfig)
    ensures |d.nameservers| == 0 ==> DnsError(x, d) == Some(NoNameservers)
    ensures |d.nameservers| > 0 ==>
              match DnsError(x, d)
              case None => forall i | 0 <= i < |d.nameservers| :: x.ip4(d.nameservers[i]) || x.ip6(d.nameservers[i])
              case Some(e) =>
                exists i | 0 <= i < |d.nameservers| ::
                  e == InvalidIpAddress(d.nameservers[i]) && !x.ip4(d.nameservers[i]) && !x.ip6(d.nameservers[i])
    ensures !x.cidr4(r.destination) && !x.cidr6(r.destination) ==> RouteError(x, r) == Some(InvalidCidr(r.destination))
    ensures x.cidr4(r.destination) || x.cidr6(r.destination) ==>
              RouteError(x, r)
              == if x.ip4(r.gateway) || x.ip6(r.gateway) then None else Some(InvalidIpAddress(r.gateway))
  {
  }

  /** The length of a name counts the bytes of its characters: one up to U+007F, two to U+07FF, three to U+FFFF. */
  lemma {:induction false} Utf8LengthAdds(a: string, b: string)
    ensures Utf8Length(a + b) == Utf8Length(a) + Utf8Length(b)
  {
    if b == "" {
      assert a + b == a;
    } else {
      var n := |b| - 1;
      Utf8LengthAdds(a, b[..n]);
      assert (a + b)[..|a + b| - 1] == a + b[..n];
    }
  }

  lemma Utf8LengthOf(c: char)
    ensures Utf8Length([c])
            == if c <= '\U{7F}' then 1 else if c <= '\U{7FF}' then 2 else if c <= '\U{FFFF}' then 3 else 4
  {
    assert [c][..0] == "";
  }

  lemma {:induction false} Utf8LengthBounds(s: string)
    ensures |s| <= Utf8Length(s) <= 4 * |s|
  {
    if s != "" {
      Utf8LengthBounds(s[..|s| - 1]);
    }
  }

  /** Accepted is what has an error in no interface, in no route and not in its DNS part, and no name twice. */
  lemma AcceptedIff(x: Syntax, c: Config)
    ensures Valid(x, c) <==>
              && (forall i | 0 <= i < |c.interfaces| :: InterfaceError(x, c.interfaces[i]) == None)
              && (c.dns != None ==> DnsError(x, c.dns.value) == None)
              && (forall i | 0 <= i < |c.routes| :: RouteError(x, c.routes[i]) == None)
              && (forall i, j | 0 <= i < |c.interfaces| && 0 <= j < |c.interfaces| && i != j ::
                    c.interfaces[i].name != c.interfaces[j].name)
  {
  }

  /** All interfaces before the `i`-th pass, and this one is rejected with `e`. */
  predicate FailsAtInterface(x: Syntax, c: Config, i: nat, e: ConfigError) {
    i < |c.interfaces| && (forall k | 0 <= k < i :: ValidInterface(x, c.interfaces[k]))
    && InterfaceError(x, c.interfaces[i]) == Some(e)
  }

  predicate InterfacesPass(x: Syntax, c: Config) {
    forall i | 0 <= i < |c.interfaces| :: ValidInterface(x, c.interfaces[i])
  }

  predicate FailsAtRoute(x: Syntax, c: Config, i: nat, e: ConfigError) {
    && InterfacesPass(x, c) && (c.dns.Some? ==> ValidDns(x, c.dns.value))
    && i < |c.routes| && (forall k | 0 <= k < i :: ValidRoute(x, c.routes[k]))
    && RouteError(x, c.routes[i]) == Some(e)
  }

  /** The first interface whose name an earlier one has, in a configuration that is otherwise valid. */
  predicate FailsAtName(x: Syntax, c: Config, i: nat, e: ConfigError) {
    && InterfacesPass(x, c) && (c.dns.Some? ==> ValidDns(x, c.dns.value))
    && (forall k | 0 <= k < |c.routes| :: ValidRoute(x, c.routes[k]))
    && i < |c.interfaces| && DistinctNames(c.interfaces[..i])
    && (exists k | 0 <= k < i :: c.interfaces[k].name == c.interfaces[i].name)
    && e == DuplicateName(c.interfaces[i].name)
  }

  /** `e` is the error of the first part that fails: interfaces, then DNS, then routes, then duplicate names. */
  predicate IsFirstError(x: Syntax, c: Config, e: ConfigError) {
    || (exists i | 0 <= i < |c.interfaces| :: FailsAtInterface(x, c, i, e))
    || (InterfacesPass(x, c) && c.dns.Some? && DnsError(x, c.dns.value) == Some(e))
    || (exists i | 0 <= i < |c.routes| :: FailsAtRoute(x, c, i, e))
    || (exists i | 0 <= i < |c.interfaces| :: FailsAtName(x, c, i, e))
  }

  /** `NetworkConfig::validate`, with the set of names seen so far. */
  method Validate(x: Syntax, c: Config) returns (r: Result<(), ConfigError>)
    ensures r.Ok? <==> Valid(x, c)
    ensures r.Err? ==> IsFirstError(x, c, r.error)
  {
    for i := 0 to |c.interfaces|
      invariant forall k | 0 <= k < i :: ValidInterface(x, c.interfaces[k])
    {
      var e := InterfaceError(x, c.interfaces[i]);
      if e.Some? {
        assert FailsAtInterface(x, c, i, e.value);
        return Err(e.value);
      }
    }
    if c.dns.Some? {
      var e := DnsError(x, c.dns.value);
      if e.Some? {
        return Err(e.value);
      }
    }
    for i := 0 to |c.routes|
      invariant forall k | 0 <= k < i :: ValidRoute(x, c.routes[k])
    {
      var e := RouteError(x, c.routes[i]);
      if e.Some? {
        assert FailsAtRoute(x, c, i, e.value);
        return Err(e.value);
      }
    }
    var names: set<string> := {};
    for i := 0 to |c.interfaces|
      invariant forall s :: s in names <==> exists k | 0 <= k < i :: c.interfaces[k].name == s
      invariant DistinctNames(c.interfaces[..i])
    {
      if c.interfaces[i].name in names {
        assert FailsAtName(x, c, i, DuplicateName(c.interfaces[i].name));
        return Err(DuplicateName(c.interfaces[i].name));
      }
      names := names + {c.interfaces[i].name};
    }
    assert c.interfaces[..|c.interfaces|] == c.interfaces;
    r := Ok(());
  }

  // ----- The file -----

  /** The keys of the saved objects; one constructor per JSON name. */
  datatype Key =
    | Name | Type | IpType | Ipv4Address | Gateway | Mtu | Ipv6Addresses | Ipv6Gateway | Ipv6Auto
    | Parent | VlanId | Mode | Slaves | Nameservers | SearchDomains | Destination | Metric
    | Interfaces | Dns | Routes

  datatype Json = Bool(b: bool) | Num(n: nat) | Str(s: string) | Arr(items: seq<Json>) | Obj(fields: map<Key, Json>)

  type Fields = map<Key, Json>

  function Field(k: Key, v: Option<Json>): Fields {
    if v.Some? then map[k := v.value] else map[]
  }

  function MapStr(o: Option<string>): Option<Json> {
    if o.Some? then Some(Str(o.value)) else None
  }

  function StrArr(q: seq<string>): Json { Arr(seq(|q|, i requires 0 <= i < |q| => Str(q[i]))) }

  function EncodeStatic(c: StaticConfig): Fields {
    map[Ipv4Address := Str(c.ipv4Address), Mtu := Num(c.mtu), Ipv6Auto := Bool(c.ipv6Auto)]
    + Field(Gateway, MapStr(c.gateway))
    + Field(Ipv6Addresses, if c.ipv6Addresses == [] then None else Some(StrArr(c.ipv6Addresses)))
    + Field(Ipv6Gateway, MapStr(c.ipv6Gateway))
  }

  function EncodeIp(ip: IpConfig): Fields {
    match ip
    case IpDhcp => map[IpType := Str("dhcp")]
    case IpStatic(cfg) => map[IpType := Str("static")] + EncodeStatic(cfg)
  }

  function EncodeInterface(i: InterfaceConfig): Fields {
    map[Name := Str(i.name)] +
    match i.config
    case Dhcp => map[Type := Str("dhcp")]
    case Static(cfg) => map[Type := Str("static")] + EncodeStatic(cfg)
    case Vlan(parent, vlanId, ip) =>
      map[Type := Str("vlan"), Parent := Str(parent), VlanId := Num(vlanId)] + EncodeIp(ip)
    case Bond(mode, slaves, ip) =>
      map[Type := Str("bond"), Mode := Str(AsStr(mode)), Slaves := StrArr(slaves)] + EncodeIp(ip)
  }

  function EncodeDns(d: DnsConfig): Fields {
    map[Nameservers := StrArr(d.nameservers), SearchDomains := StrArr(d.searchDomains)]
  }

  function EncodeRoute(r: RouteConfig): Fields {
    map[Destination := Str(r.destination), Gateway := Str(r.gateway)]
    + Field(Metric, if r.metric.Some? then Some(Num(r.metric.value)) else None)
  }

  function EncodeInterfaces(q: seq<InterfaceConfig>): seq<Json> {
    seq(|q|, i requires 0 <= i < |q| => Obj(EncodeInterface(q[i])))
  }

  function EncodeRoutes(q: seq<RouteConfig>): seq<Json> {
    seq(|q|, i requires 0 <= i < |q| => Obj(EncodeRoute(q[i])))
  }

  function Encode(c: Config): Json {
    Obj(map[Interfaces := Arr(EncodeInterfaces(c.interfaces)), Routes := Arr(EncodeRoutes(c.routes))]
        + Field(Dns, if c.dns.Some? then Some(Obj(EncodeDns(c.dns.value))) else None))
  }

  // Decoding: a missing field takes its default if it has one, a field of the wrong type is an error.

  function GetStr(m: Fields, k: Key): Option<string> {
    if k in m && m[k].Str? then Some(m[k].s) else None
  }

  function GetNum(m: Fields, k: Key): Option<nat> {
    if k in m && m[k].Num? then Some(m[k].n) else None
  }

  function DecodeStrs(items: seq<Json>): Option<seq<string>> {
    if forall i | 0 <= i < |items| :: items[i].Str? then Some(seq(|items|, i requires 0 <= i < |items| => items[i].s))
    else None
  }

  function GetStrs(m: Fields, k: Key): Option<seq<string>> {
    if k in m && m[k].Arr? then DecodeStrs(m[k].items) else None
  }

  function DecodeStatic(m: Fields): Option<StaticConfig> {
    var ipv4 := if Ipv4Address in m then GetStr(m, Ipv4Address) else Some("");
    var mtu := if Mtu in m then GetNum(m, Mtu) else Some(1500);
    var ipv6 := if Ipv6Addresses in m then GetStrs(m, Ipv6Addresses) else Some([]);
    var auto := if Ipv6Auto in m then (if m[Ipv6Auto].Bool? then Some(m[Ipv6Auto].b) else None) else Some(false);
    if ipv4.None? || mtu.None? || ipv6.None? || auto.None?
       || (Gateway in m && !m[Gateway].Str?) || (Ipv6Gateway in m && !m[Ipv6Gateway].Str?)
    then None
    else Some(StaticConfig(ipv4.value, GetStr(m, Gateway), mtu.value, ipv6.value, GetStr(m, Ipv6Gateway), auto.value))
  }

  function DecodeIp(m: Fields): Option<IpConfig> {
    match GetStr(m, IpType)
    case None => None
    case Some(t) =>
      if t == "dhcp" then Some(IpDhcp)
      else if t == "static" then
        var cfg := DecodeStatic(m);
        if cfg.Some? then Some(IpStatic(cfg.value)) else None
      else None
  }

  function DecodeType(m: Fields): Option<InterfaceType> {
    match GetStr(m, Type)
    case None => None
    case Some(t) =>
      if t == "dhcp" then Some(Dhcp)
      else if t == "static" then
        var cfg := DecodeStatic(m);
        if cfg.Some? then Some(Static(cfg.value)) else None
      else if t == "vlan" then
        var parent, vlanId, ip := GetStr(m, Parent), GetNum(m, VlanId), DecodeIp(m);
        if parent.Some? && vlanId.Some? && ip.Some? then Some(Vlan(parent.value, vlanId.value, ip.value)) else None
      else if t == "bond" then
        var name, slaves, ip := GetStr(m, Mode), GetStrs(m, Slaves), DecodeIp(m);
        if name.Some? && ParseMode(name.value).Some? && slaves.Some? && ip.Some?
        then Some(Bond(ParseMode(name.value).value, slaves.value, ip.value)) else None
      else None
  }

  function DecodeInterface(j: Json): Option<InterfaceConfig> {
    if !j.Obj? then None
    else
      var name, t := GetStr(j.fields, Name), DecodeType(j.fields);
      if name.Some? && t.Some? then Some(InterfaceConfig(name.value, t.value)) else None
  }

  function DecodeDns(j: Json): Option<DnsConfig> {
    if !j.Obj? then None
    else
      var servers := GetStrs(j.fields, Nameservers);
      var domains := if SearchDomains in j.fields then GetStrs(j.fields, SearchDomains) else Some([]);
      if servers.Some? && domains.Some? then Some(DnsConfig(servers.value, domains.value)) else None
  }

  function DecodeRoute(j: Json): Option<RouteConfig> {
    if !j.Obj? || (Metric in j.fields && !j.fields[Metric].Num?) then None
    else
      var destination, gateway := GetStr(j.fields, Destination), GetStr(j.fields, Gateway);
      if destination.Some? && gateway.Some?
      then Some(RouteConfig(destination.value, gateway.value, GetNum(j.fields, Metric))) else None
  }

  function DecodeAll<T>(items: seq<Json>, decode: Json -> Option<T>): Option<seq<T>> {
    if items == [] then Some([])
    else
      var first, rest := decode(items[0]), DecodeAll(items[1..], decode);
      if first.Some? && rest.Some? then Some([first.value] + rest.value) else None
  }

  function GetAll<T>(m: Fields, k: Key, decode: Json -> Option<T>): Option<seq<T>> {
    if k !in m then Some([]) else if m[k].Arr? then DecodeAll(m[k].items, decode) else None
  }

  function Decode(j: Json): Option<Config> {
    if !j.Obj? then None
    else
      var interfaces := GetAll(j.fields, Interfaces, DecodeInterface);
      var routes := GetAll(j.fields, Routes, DecodeRoute);
      var dns := if Dns in j.fields then DecodeDns(j.fields[Dns]) else None;
      if interfaces.None? || routes.None? || (Dns in j.fields && dns.None?) then None
      else Some(Config(interfaces.value, dns, routes.value))
  }

  // ----- The layout, and what a file may leave out -----

  /** The fields of a static configuration; the optional ones are left out when they are empty. */
  predicate StaticLayout(f: Fields, c: StaticConfig) {
    && Lookup(f, Ipv4Address) == Some(Str(c.ipv4Address)) && Lookup(f, Mtu) == Some(Num(c.mtu))
    && Lookup(f, Ipv6Auto) == Some(Bool(c.ipv6Auto))
    && Lookup(f, Gateway) == (if c.gateway.Some? then Some(Str(c.gateway.value)) else None)
    && Lookup(f, Ipv6Gateway) == (if c.ipv6Gateway.Some? then Some(Str(c.ipv6Gateway.value)) else None)
    && Lookup(f, Ipv6Addresses) == (if |c.ipv6Addresses| == 0 then None else Some(StrArr(c.ipv6Addresses)))
  }

  lemma IpLayout(ip: IpConfig)
    ensures Lookup(EncodeIp(ip), IpType) == Some(Str(if ip == IpDhcp then "dhcp" else "static"))
    ensures ip.IpStatic? ==> StaticLayout(EncodeIp(ip), ip.cfg)
  {
    IpFields(ip);
    if ip.IpStatic? {
      StaticFields(ip.cfg);
    }
  }

  /**
   Everything of an interface is at one level: its name, its `type`, and beside them the fields of that type and,
   for the types that carry one, the `ip_type` and fields of its IP configuration.
   */
  lemma PlainLayout(name: string, cfg: StaticConfig)
    ensures EncodeInterface(InterfaceConfig(name, Dhcp)) == map[Name := Str(name), Type := Str("dhcp")]
    ensures var f := EncodeInterface(InterfaceConfig(name, Static(cfg)));
      Lookup(f, Name) == Some(Str(name)) && Lookup(f, Type) == Some(Str("static")) && StaticLayout(f, cfg)
  {
    StaticFields(cfg);
  }

  lemma VlanLayout(name: string, parent: string, vlanId: nat, ip: IpConfig)
    ensures var f := EncodeInterface(InterfaceConfig(name, Vlan(parent, vlanId, ip)));
      && Lookup(f, Name) == Some(Str(name)) && Lookup(f, Type) == Some(Str("vlan"))
      && Lookup(f, Parent) == Some(Str(parent)) && Lookup(f, VlanId) == Some(Num(vlanId))
      && Lookup(f, IpType) == Some(Str(if ip == IpDhcp then "dhcp" else "static"))
      && (ip.IpStatic? ==> StaticLayout(f, ip.cfg))
  {
    VlanEncoding(name, parent, vlanId, ip);
    VlanKeysAreForeign(name, parent, vlanId);
    IpFields(ip);
    IpLayout(ip);
    Merge(VlanKeys(name, parent, vlanId), EncodeIp(ip));
  }

  lemma BondLayout(name: string, mode: BondingMode, slaves: seq<string>, ip: IpConfig)
    ensures var f := EncodeInterface(InterfaceConfig(name, Bond(mode, slaves, ip)));
      && Lookup(f, Name) == Some(Str(name)) && Lookup(f, Type) == Some(Str("bond"))
      && Lookup(f, Mode) == Some(Str(match mode
           case Lacp => "802.3ad" case ActiveBackup => "active-backup" case BalanceRr => "balance-rr"))
      && Lookup(f, Slaves) == Some(StrArr(slaves))
      && Lookup(f, IpType) == Some(Str(if ip == IpDhcp then "dhcp" else "static"))
      && (ip.IpStatic? ==> StaticLayout(f, ip.cfg))
  {
    BondEncoding(name, mode, slaves, ip);
    BondKeysAreForeign(name, AsStr(mode), StrArr(slaves));
    IpFields(ip);
    IpLayout(ip);
    Merge(BondKeys(name, AsStr(mode), StrArr(slaves)), EncodeIp(ip));
  }

  lemma RestOfLayout(c: Config, d: DnsConfig, r: RouteConfig)
    ensures var f := Encode(c);
      && f.Obj? && Lookup(f.fields, Interfaces) == Some(Arr(EncodeInterfaces(c.interfaces)))
      && Lookup(f.fields, Routes) == Some(Arr(EncodeRoutes(c.routes)))
      && Lookup(f.fields, Dns) == if c.dns == None then None else Some(Obj(EncodeDns(c.dns.value)))
    ensures var f := EncodeDns(d);
      Lookup(f, Nameservers) == Some(StrArr(d.nameservers)) && Lookup(f, SearchDomains) == Some(StrArr(d.searchDomains))
    ensures var f := EncodeRoute(r);
      && Lookup(f, Destination) == Some(Str(r.destination)) && Lookup(f, Gateway) == Some(Str(r.gateway))
      && Lookup(f, Metric) == if r.metric == None then None else Some(Num(r.metric.value))
  {
  }

  /** A static configuration may leave out any field: no addresses, no gateways, an MTU of 1500. */
  lemma StaticDefaults(f: Fields, k: Key, v: Json)
    requires k in {Ipv4Address, Gateway, Mtu, Ipv6Addresses, Ipv6Gateway, Ipv6Auto} && k in f && DecodeStatic(f).Some?
    ensures DecodeStatic(map[]) == Some(StaticConfig("", None, 1500, [], None, false))
    ensures var c := DecodeStatic(f).value;
      DecodeStatic(f - {k}) == Some(match k
        case Ipv4Address => c.(ipv4Address := "")
        case Gateway => c.(gateway := None)
        case Mtu => c.(mtu := 1500)
        case Ipv6Addresses => c.(ipv6Addresses := [])
        case Ipv6Gateway => c.(ipv6Gateway := None)
        case _ => c.(ipv6Auto := false))
  {
  }

  /** A field of the wrong kind is an error, not a default. */
  lemma StaticWrongKinds(f: Fields)
    ensures Ipv4Address in f && !f[Ipv4Address].Str? ==> DecodeStatic(f) == None
    ensures Gateway in f && !f[Gateway].Str? ==> DecodeStatic(f) == None
    ensures Mtu in f && !f[Mtu].Num? ==> DecodeStatic(f) == None
    ensures Ipv6Addresses in f && !f[Ipv6Addresses].Arr? ==> DecodeStatic(f) == None
    ensures Ipv6Gateway in f && !f[Ipv6Gateway].Str? ==> DecodeStatic(f) == None
    ensures Ipv6Auto in f && !f[Ipv6Auto].Bool? ==> DecodeStatic(f) == None
  {
  }

  predicate NoIpType(f: Fields) {
    IpType !in f || (f[IpType] != Str("dhcp") && f[IpType] != Str("static"))
  }

  /** So is a missing field that has no default, and an unknown tag. */
  lemma RequiredFields(f: Fields)
    ensures Name !in f || !f[Name].Str? || Type !in f || !f[Type].Str? ==> DecodeInterface(Obj(f)) == None
    ensures Type in f && f[Type].Str? && f[Type].s !in {"dhcp", "static", "vlan", "bond"} ==> DecodeType(f) == None
    ensures Type in f && f[Type] == Str("vlan") && !(Parent in f && f[Parent].Str? && VlanId in f && f[VlanId].Num?) ==>
              DecodeType(f) == None
    ensures Type in f && f[Type] == Str("bond") && !(Mode in f && f[Mode].Str? && Slaves in f && f[Slaves].Arr?) ==>
              DecodeType(f) == None
    ensures Type in f && (f[Type] == Str("vlan") || f[Type] == Str("bond")) && NoIpType(f) ==> DecodeType(f) == None
    ensures !(Nameservers in f && f[Nameservers].Arr?) ==> DecodeDns(Obj(f)) == None
    ensures !(Destination in f && f[Destination].Str? && Gateway in f && f[Gateway].Str?) ==>
              DecodeRoute(Obj(f)) == None
    ensures Metric in f && !f[Metric].Num? ==> DecodeRoute(Obj(f)) == None
  {
  }

  /** Interfaces, routes, DNS, its search domains and a route's metric may be missing. */
  lemma OptionalParts(d: DnsConfig, r: RouteConfig)
    ensures Decode(Obj(map[])) == Some(Config([], None, []))
    ensures DecodeDns(Obj(map[Nameservers := StrArr(d.nameservers)])) == Some(DnsConfig(d.nameservers, []))
    ensures DecodeRoute(Obj(map[Destination := Str(r.destination), Gateway := Str(r.gateway)]))
            == Some(RouteConfig(r.destination, r.gateway, None))
  {
    StrsRoundTrip(d.nameservers);
  }

  // ----- Round trip -----

  lemma StrsRoundTrip(q: seq<string>)
    ensures DecodeStrs(StrArr(q).items) == Some(q)
  {
    var items := StrArr(q).items;
    assert forall i | 0 <= i < |items| :: items[i] == Str(q[i]);
    assert DecodeStrs(items).value == q;
  }

  function Lookup(m: Fields, k: Key): Option<Json> { if k in m then Some(m[k]) else None }

  /** The two objects agree on every key of a static configuration. */
  predicate SameStatic(m: Fields, f: Fields) {
    && Lookup(m, Ipv4Address) == Lookup(f, Ipv4Address) && Lookup(m, Gateway) == Lookup(f, Gateway)
    && Lookup(m, Mtu) == Lookup(f, Mtu) && Lookup(m, Ipv6Addresses) == Lookup(f, Ipv6Addresses)
    && Lookup(m, Ipv6Gateway) == Lookup(f, Ipv6Gateway) && Lookup(m, Ipv6Auto) == Lookup(f, Ipv6Auto)
  }

  lemma StaticFields(c: StaticConfig)
    ensures var f := EncodeStatic(c);
      && Lookup(f, Ipv4Address) == Some(Str(c.ipv4Address)) && Lookup(f, Gateway) == MapStr(c.gateway)
      && Lookup(f, Mtu) == Some(Num(c.mtu)) && Lookup(f, Ipv6Gateway) == MapStr(c.ipv6Gateway)
      && Lookup(f, Ipv6Addresses) == (if c.ipv6Addresses == [] then None else Some(StrArr(c.ipv6Addresses)))
      && Lookup(f, Ipv6Auto) == Some(Bool(c.ipv6Auto))
      && forall k | k in f :: k in {Ipv4Address, Gateway, Mtu, Ipv6Addresses, Ipv6Gateway, Ipv6Auto}
  {
  }

  /** The static fields decode to the configuration from any object they were merged into. */
  lemma StaticRoundTrip(m: Fields, c: StaticConfig)
    requires SameStatic(m, EncodeStatic(c))
    ensures DecodeStatic(m) == Some(c)
  {
    StaticFields(c);
    StrsRoundTrip(c.ipv6Addresses);
  }

  lemma IpRoundTrip(m: Fields, ip: IpConfig)
    requires Lookup(m, IpType) == Lookup(EncodeIp(ip), IpType)
    requires ip.IpStatic? ==> SameStatic(m, EncodeStatic(ip.cfg))
    ensures DecodeIp(m) == Some(ip)
  {
    if ip.IpStatic? {
      StaticFields(ip.cfg);
      StaticRoundTrip(m, ip.cfg);
    }
  }

  /** None of these keys belongs to an address configuration. */
  predicate IsForeign(k: Key) { k.Name? || k.Type? || k.Parent? || k.VlanId? || k.Mode? || k.Slaves? }

  predicate Foreign(base: Fields) {
    forall k | k in base :: IsForeign(k)
  }

  lemma IpFields(ip: IpConfig)
    ensures var f := EncodeIp(ip);
      && IpType in f
      && (ip.IpStatic? ==> SameStatic(f, EncodeStatic(ip.cfg)))
      && forall k | k in f :: !IsForeign(k)
  {
    if ip.IpStatic? {
      StaticFields(ip.cfg);
    }
  }

  /** Merging onto foreign keys changes no lookup of an address key and hides no foreign one. */
  lemma Merge(base: Fields, f: Fields)
    requires Foreign(base) && forall k | k in f :: !IsForeign(k)
    ensures forall k :: Lookup(base + f, k) == if IsForeign(k) then Lookup(base, k) else Lookup(f, k)
  {
  }

  /** Merged onto foreign keys, an address configuration decodes to itself. */
  lemma IpMerged(base: Fields, ip: IpConfig)
    requires Foreign(base)
    ensures DecodeIp(base + EncodeIp(ip)) == Some(ip)
    ensures forall k | IsForeign(k) :: Lookup(base + EncodeIp(ip), k) == Lookup(base, k)
  {
    IpFields(ip);
    Merge(base, EncodeIp(ip));
    assert ip.IpStatic? ==> SameStatic(base + EncodeIp(ip), EncodeIp(ip));
    IpRoundTrip(base + EncodeIp(ip), ip);
  }

  lemma PlusAssociative(a: Fields, b: Fields, c: Fields)
    ensures a + (b + c) == (a + b) + c
  {
  }

  lemma StaticInterfaceRoundTrip(name: string, cfg: StaticConfig)
    ensures DecodeInterface(Obj(EncodeInterface(InterfaceConfig(name, Static(cfg)))))
            == Some(InterfaceConfig(name, Static(cfg)))
  {
    var m := EncodeInterface(InterfaceConfig(name, Static(cfg)));
    StaticFields(cfg);
    assert Lookup(m, Name) == Some(Str(name)) && Lookup(m, Type) == Some(Str("static"));
    StaticRoundTrip(m, cfg);
  }

  lemma VlanDecodes(m: Fields, name: string, parent: string, vlanId: nat, ip: IpConfig)
    requires Lookup(m, Name) == Some(Str(name)) && Lookup(m, Type) == Some(Str("vlan"))
    requires Lookup(m, Parent) == Some(Str(parent)) && Lookup(m, VlanId) == Some(Num(vlanId)) && DecodeIp(m) == Some(ip)
    ensures DecodeInterface(Obj(m)) == Some(InterfaceConfig(name, Vlan(parent, vlanId, ip)))
  {
  }

  function VlanKeys(name: string, parent: string, vlanId: nat): Fields {
    map[Name := Str(name)] + map[Type := Str("vlan"), Parent := Str(parent), VlanId := Num(vlanId)]
  }

  lemma VlanKeysAreForeign(name: string, parent: string, vlanId: nat)
    ensures var base := VlanKeys(name, parent, vlanId);
      && Foreign(base) && Lookup(base, Name) == Some(Str(name)) && Lookup(base, Type) == Some(Str("vlan"))
      && Lookup(base, Parent) == Some(Str(parent)) && Lookup(base, VlanId) == Some(Num(vlanId))
  {
  }

  lemma VlanEncoding(name: string, parent: string, vlanId: nat, ip: IpConfig)
    ensures EncodeInterface(InterfaceConfig(name, Vlan(parent, vlanId, ip)))
            == VlanKeys(name, parent, vlanId) + EncodeIp(ip)
  {
    PlusAssociative(map[Name := Str(name)], map[Type := Str("vlan"), Parent := Str(parent), VlanId := Num(vlanId)],
                    EncodeIp(ip));
  }

  lemma VlanRoundTrip(name: string, parent: string, vlanId: nat, ip: IpConfig)
    ensures DecodeInterface(Obj(EncodeInterface(InterfaceConfig(name, Vlan(parent, vlanId, ip)))))
            == Some(InterfaceConfig(name, Vlan(parent, vlanId, ip)))
  {
    VlanEncoding(name, parent, vlanId, ip);
    var base := VlanKeys(name, parent, vlanId);
    VlanKeysAreForeign(name, parent, vlanId);
    IpMerged(base, ip);
    VlanDecodes(base + EncodeIp(ip), name, parent, vlanId, ip);
  }

  lemma BondDecodes(m: Fields, name: string, mode: BondingMode, slaves: seq<string>, ip: IpConfig)
    requires Lookup(m, Name) == Some(Str(name)) && Lookup(m, Type) == Some(Str("bond"))
    requires Lookup(m, Mode) == Some(Str(AsStr(mode))) && Lookup(m, Slaves) == Some(StrArr(slaves))
    requires DecodeIp(m) == Some(ip)
    ensures DecodeInterface(Obj(m)) == Some(InterfaceConfig(name, Bond(mode, slaves, ip)))
  {
    ParsePrintMode(mode, AsStr(mode));
    StrsRoundTrip(slaves);
  }

  function BondKeys(name: string, modeName: string, slaves: Json): Fields {
    map[Name := Str(name)] + map[Type := Str("bond"), Mode := Str(modeName), Slaves := slaves]
  }

  lemma BondKeysAreForeign(name: string, modeName: string, slaves: Json)
    ensures var base := BondKeys(name, modeName, slaves);
      && Foreign(base) && Lookup(base, Name) == Some(Str(name)) && Lookup(base, Type) == Some(Str("bond"))
      && Lookup(base, Mode) == Some(Str(modeName)) && Lookup(base, Slaves) == Some(slaves)
  {
  }

  lemma BondEncoding(name: string, mode: BondingMode, slaves: seq<string>, ip: IpConfig)
    ensures EncodeInterface(InterfaceConfig(name, Bond(mode, slaves, ip)))
            == BondKeys(name, AsStr(mode), StrArr(slaves)) + EncodeIp(ip)
  {
    PlusAssociative(map[Name := Str(name)],
                    map[Type := Str("bond"), Mode := Str(AsStr(mode)), Slaves := StrArr(slaves)],
                    EncodeIp(ip));
  }

  lemma BondRoundTrip(name: string, mode: BondingMode, slaves: seq<string>, ip: IpConfig)
    ensures DecodeInterface(Obj(EncodeInterface(InterfaceConfig(name, Bond(mode, slaves, ip)))))
            == Some(InterfaceConfig(name, Bond(mode, slaves, ip)))
  {
    BondEncoding(name, mode, slaves, ip);
    var base := BondKeys(name, AsStr(mode), StrArr(slaves));
    BondKeysAreForeign(name, AsStr(mode), StrArr(slaves));
    IpMerged(base, ip);
    BondDecodes(base + EncodeIp(ip), name, mode, slaves, ip);
  }

  lemma InterfaceRoundTrip(i: InterfaceConfig)
    ensures DecodeInterface(Obj(EncodeInterface(i))) == Some(i)
  {
    match i.config
    case Dhcp =>
      var m := EncodeInterface(i);
      assert Lookup(m, Name) == Some(Str(i.name)) && Lookup(m, Type) == Some(Str("dhcp"));
    case Static(cfg) => StaticInterfaceRoundTrip(i.name, cfg);
    case Vlan(parent, vlanId, ip) => VlanRoundTrip(i.name, parent, vlanId, ip);
    case Bond(mode, slaves, ip) => BondRoundTrip(i.name, mode, slaves, ip);
  }

  lemma RouteRoundTrip(r: RouteConfig)
    ensures DecodeRoute(Obj(EncodeRoute(r))) == Some(r)
  {
    var m := EncodeRoute(r);
    assert m[Destination] == Str(r.destination) && m[Gateway] == Str(r.gateway);
    assert Metric in m <==> r.metric.Some?;
  }

  lemma {:induction false} AllRoundTrip<T>(items: seq<Json>, decode: Json -> Option<T>, values: seq<T>)
    requires |items| == |values| && forall i | 0 <= i < |items| :: decode(items[i]) == Some(values[i])
    ensures DecodeAll(items, decode) == Some(values)
  {
    if items != [] {
      AllRoundTrip(items[1..], decode, values[1..]);
      assert values == [values[0]] + values[1..];
    }
  }

  lemma InterfacesRoundTrip(q: seq<InterfaceConfig>)
    ensures DecodeAll(EncodeInterfaces(q), DecodeInterface) == Some(q)
  {
    forall i | 0 <= i < |q| ensures DecodeInterface(EncodeInterfaces(q)[i]) == Some(q[i]) {
      InterfaceRoundTrip(q[i]);
    }
    AllRoundTrip(EncodeInterfaces(q), DecodeInterface, q);
  }

  lemma RoutesRoundTrip(q: seq<RouteConfig>)
    ensures DecodeAll(EncodeRoutes(q), DecodeRoute) == Some(q)
  {
    forall i | 0 <= i < |q| ensures DecodeRoute(EncodeRoutes(q)[i]) == Some(q[i]) {
      RouteRoundTrip(q[i]);
    }
    AllRoundTrip(EncodeRoutes(q), DecodeRoute, q);
  }

  lemma DnsRoundTrip(d: DnsConfig)
    ensures DecodeDns(Obj(EncodeDns(d))) == Some(d)
  {
    StrsRoundTrip(d.nameservers);
    StrsRoundTrip(d.searchDomains);
  }

  /** What is saved is what is loaded: the flattened, tagged file decodes to the configuration it came from. */
  lemma FileRoundTrip(c: Config)
    ensures Decode(Encode(c)) == Some(c)
  {
    InterfacesRoundTrip(c.interfaces);
    RoutesRoundTrip(c.routes);
    if c.dns.Some? {
      DnsRoundTrip(c.dns.value);
    }
  }
}

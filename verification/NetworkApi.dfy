/** The network RPCs: a request becomes a saved configuration, and a configuration becomes a response. */
module NetworkApi {
  import opened Wrappers
  import opened NetworkConfig

  // The messages. Protocol buffers have no absent scalars: "" and 0 mean "not given".
  datatype ProtoStatic = ProtoStatic(ipv4Address: string, gateway: string, mtu: nat, ipv6Addresses: seq<string>,
                                     ipv6Gateway: string, ipv6Auto: bool)
  datatype ProtoIp = ProtoDhcp(enabled: bool) | ProtoStaticIp(cfg: ProtoStatic)
  datatype ProtoType =
    | DhcpMsg(enabled: bool)
    | StaticMsg(cfg: ProtoStatic)
    | VlanMsg(parent: string, vlanId: nat, ip: Option<ProtoIp>)
    | BondMsg(mode: string, slaves: seq<string>, ip: Option<ProtoIp>)
  datatype ProtoInterface = ProtoInterface(name: string, config: Option<ProtoType>)
  datatype ProtoRoute = ProtoRoute(destination: string, gateway: string, metric: nat)
  datatype ProtoNetwork = ProtoNetwork(interfaces: seq<ProtoInterface>, dns: Option<DnsConfig>, routes: seq<ProtoRoute>)

  // ----- Request to configuration -----

  function NonEmpty(s: string): Option<string> { if s == "" then None else Some(s) }

  function ToStatic(p: ProtoStatic): StaticConfig {
    StaticConfig(p.ipv4Address, NonEmpty(p.gateway), if p.mtu == 0 then 1500 else p.mtu, p.ipv6Addresses,
                 NonEmpty(p.ipv6Gateway), p.ipv6Auto)
  }

  function ToIp(p: Option<ProtoIp>): IpConfig {
    match p
    case Some(ProtoStaticIp(cfg)) => IpStatic(ToStatic(cfg))
    case _ => IpDhcp
  }

  function ToType(p: Option<ProtoType>): Option<InterfaceType> {
    match p
    case None => None
    case Some(DhcpMsg(_)) => Some(Dhcp)
    case Some(StaticMsg(cfg)) => Some(Static(ToStatic(cfg)))
    case Some(VlanMsg(parent, vlanId, ip)) => Some(Vlan(parent, vlanId, ToIp(ip)))
    case Some(BondMsg(mode, slaves, ip)) =>
      var m := ParseMode(mode);
      if m.None? then None else Some(Bond(m.value, slaves, ToIp(ip)))
  }

  function ToRoute(p: ProtoRoute): RouteConfig {
    RouteConfig(p.destination, p.gateway, if p.metric == 0 then None else Some(p.metric))
  }

  predicate Convertible(req: ProtoNetwork) {
    forall i | 0 <= i < |req.interfaces| :: ToType(req.interfaces[i].config).Some?
  }

  function ToConfig(req: ProtoNetwork): Config
    requires Convertible(req)
  {
    Config(
      seq(|req.interfaces|, i requires 0 <= i < |req.interfaces| =>
        InterfaceConfig(req.interfaces[i].name, ToType(req.interfaces[i].config).value)),
      req.dns,
      seq(|req.routes|, i requires 0 <= i < |req.routes| => ToRoute(req.routes[i])))
  }

  predicate Accepted(x: Syntax, req: ProtoNetwork) {
    Convertible(req) && Valid(x, ToConfig(req))
  }

  /**
   The conversion on raw fields: "" stands for no gateway, 0 for an MTU of 1500 and for no metric, no IP
   configuration for DHCP; an interface without a type, or a bond with an unknown mode, is refused.
   */
  lemma Conversion(p: ProtoStatic, r: ProtoRoute, t: ProtoType)
    ensures var c := ToStatic(p);
      && c.ipv4Address == p.ipv4Address && c.ipv6Addresses == p.ipv6Addresses && c.ipv6Auto == p.ipv6Auto
      && c.gateway == (if p.gateway == "" then None else Some(p.gateway))
      && c.ipv6Gateway == (if p.ipv6Gateway == "" then None else Some(p.ipv6Gateway))
      && c.mtu == (if p.mtu == 0 then 1500 else p.mtu)
    ensures ToRoute(r) == RouteConfig(r.destination, r.gateway, if r.metric == 0 then None else Some(r.metric))
    ensures ToIp(None) == ToIp(Some(ProtoDhcp(false))) == ToIp(Some(ProtoDhcp(true))) == IpDhcp
    ensures ToIp(Some(ProtoStaticIp(p))) == IpStatic(ToStatic(p))
    ensures ToType(None) == None
    ensures t.DhcpMsg? ==> ToType(Some(t)) == Some(Dhcp)
    ensures t.StaticMsg? ==> ToType(Some(t)) == Some(Static(ToStatic(t.cfg)))
    ensures t.VlanMsg? ==> ToType(Some(t)) == Some(Vlan(t.parent, t.vlanId, ToIp(t.ip)))
    ensures t.BondMsg? ==>
              && (t.mode == "802.3ad" ==> ToType(Some(t)) == Some(Bond(Lacp, t.slaves, ToIp(t.ip))))
              && (t.mode == "active-backup" ==> ToType(Some(t)) == Some(Bond(ActiveBackup, t.slaves, ToIp(t.ip))))
              && (t.mode == "balance-rr" ==> ToType(Some(t)) == Some(Bond(BalanceRr, t.slaves, ToIp(t.ip))))
              && (t.mode !in {"802.3ad", "active-backup", "balance-rr"} ==> ToType(Some(t)) == None)
  {
  }

  // ----- Configuration to response -----

  function FromStatic(c: StaticConfig): ProtoStatic {
    ProtoStatic(c.ipv4Address, c.gateway.UnwrapOr(""), c.mtu, c.ipv6Addresses, c.ipv6Gateway.UnwrapOr(""), c.ipv6Auto)
  }

  function FromIp(ip: IpConfig): ProtoIp {
    match ip
    case IpDhcp => ProtoDhcp(true)
    case IpStatic(cfg) => ProtoStaticIp(FromStatic(cfg))
  }

  function FromType(t: InterfaceType): ProtoType {
    match t
    case Dhcp => DhcpMsg(true)
    case Static(cfg) => StaticMsg(FromStatic(cfg))
    case Vlan(parent, vlanId, ip) => VlanMsg(parent, vlanId, Some(FromIp(ip)))
    case Bond(mode, slaves, ip) => BondMsg(AsStr(mode), slaves, Some(FromIp(ip)))
  }

  function FromConfig(c: Config): ProtoNetwork {
    ProtoNetwork(
      seq(|c.interfaces|, i requires 0 <= i < |c.interfaces| =>
        ProtoInterface(c.interfaces[i].name, Some(FromType(c.interfaces[i].config)))),
      c.dns,
      seq(|c.routes|, i requires 0 <= i < |c.routes| =>
        ProtoRoute(c.routes[i].destination, c.routes[i].gateway, c.routes[i].metric.UnwrapOr(0))))
  }

  // ----- Filling in the defaults -----

  function FillStatic(p: ProtoStatic): ProtoStatic { p.(mtu := if p.mtu == 0 then 1500 else p.mtu) }

  function FillIp(p: Option<ProtoIp>): Option<ProtoIp> {
    match p
    case Some(ProtoStaticIp(cfg)) => Some(ProtoStaticIp(FillStatic(cfg)))
    case _ => Some(ProtoDhcp(true))
  }

  function FillType(p: ProtoType): ProtoType {
    match p
    case DhcpMsg(_) => DhcpMsg(true)
    case StaticMsg(cfg) => StaticMsg(FillStatic(cfg))
    case VlanMsg(parent, vlanId, ip) => VlanMsg(parent, vlanId, FillIp(ip))
    case BondMsg(mode, slaves, ip) => BondMsg(mode, slaves, FillIp(ip))
  }

  function MapType(p: Option<ProtoType>): Option<ProtoType> {
    if p.Some? then Some(FillType(p.value)) else None
  }

  /** The request with every default written out. */
  function Fill(req: ProtoNetwork): ProtoNetwork {
    req.(interfaces := seq(|req.interfaces|, i requires 0 <= i < |req.interfaces| =>
      req.interfaces[i].(config := MapType(req.interfaces[i].config))))
  }

  /** The defaults: an MTU of 1500, DHCP where no IP configuration is given, DHCP always enabled; nothing else. */
  lemma Defaults(p: ProtoStatic, t: ProtoType, req: ProtoNetwork, i: nat)
    requires i < |req.interfaces|
    ensures FillStatic(p) == p.(mtu := if p.mtu == 0 then 1500 else p.mtu)
    ensures FillIp(None) == FillIp(Some(ProtoDhcp(false))) == FillIp(Some(ProtoDhcp(true))) == Some(ProtoDhcp(true))
    ensures FillIp(Some(ProtoStaticIp(p))) == Some(ProtoStaticIp(FillStatic(p)))
    ensures FillType(t) == match t
              case DhcpMsg(_) => DhcpMsg(true)
              case StaticMsg(cfg) => StaticMsg(FillStatic(cfg))
              case VlanMsg(parent, id, ip) => VlanMsg(parent, id, FillIp(ip))
              case BondMsg(mode, slaves, ip) => BondMsg(mode, slaves, FillIp(ip))
    ensures var full := Fill(req);
      && full.dns == req.dns && full.routes == req.routes && |full.interfaces| == |req.interfaces|
      && full.interfaces[i].name == req.interfaces[i].name
      && full.interfaces[i].config == if req.interfaces[i].config == None then None
                                      else Some(FillType(req.interfaces[i].config.value))
  {
  }

  lemma TypeReadBack(p: ProtoType)
    requires ToType(Some(p)).Some?
    ensures FromType(ToType(Some(p)).value) == FillType(p)
    ensures ToType(Some(FillType(p))) == ToType(Some(p)) && FillType(FillType(p)) == FillType(p)
  {
    if p.BondMsg? {
      ParsePrintMode(ParseMode(p.mode).value, p.mode);
    }
  }

  /** Reading the configuration back gives the request with its defaults filled in, and nothing else changed. */
  lemma ReadBack(req: ProtoNetwork)
    requires Convertible(req)
    ensures FromConfig(ToConfig(req)) == Fill(req)
  {
    forall i | 0 <= i < |req.interfaces| ensures FromConfig(ToConfig(req)).interfaces[i] == Fill(req).interfaces[i] {
      TypeReadBack(req.interfaces[i].config.value);
    }
  }

  /** Filling in twice is filling in once, and a filled-in request is accepted as, and means, the same. */
  lemma FillIsIdempotent(x: Syntax, req: ProtoNetwork)
    requires Convertible(req)
    ensures Fill(Fill(req)) == Fill(req)
    ensures Convertible(Fill(req)) && ToConfig(Fill(req)) == ToConfig(req)
    ensures Accepted(x, Fill(req)) <==> Accepted(x, req)
  {
    forall i | 0 <= i < |req.interfaces|
      ensures ToType(Fill(req).interfaces[i].config) == ToType(req.interfaces[i].config)
      ensures Fill(Fill(req)).interfaces[i] == Fill(req).interfaces[i]
    {
      TypeReadBack(req.interfaces[i].config.value);
    }
    assert ToConfig(Fill(req)).interfaces == ToConfig(req).interfaces;
    assert ToConfig(Fill(req)).routes == ToConfig(req).routes;
    assert Fill(Fill(req)).interfaces == Fill(req).interfaces;
  }

  // ----- The RPCs -----

  class NetworkStore {
    var saved: Option<Json>

    constructor ()
      ensures saved == None
    {
      saved := None;
    }

    method Convert(req: ProtoNetwork) returns (r: Option<Config>)
      ensures r == if Convertible(req) then Some(ToConfig(req)) else None
    {
      var interfaces: seq<InterfaceConfig> := [];
      for i := 0 to |req.interfaces|
        invariant |interfaces| == i
        invariant forall k | 0 <= k < i :: ToType(req.interfaces[k].config).Some?
        invariant forall k | 0 <= k < i ::
                    interfaces[k] == InterfaceConfig(req.interfaces[k].name, ToType(req.interfaces[k].config).value)
      {
        var t := ToType(req.interfaces[i].config);
        if t.None? {
          return None;
        }
        interfaces := interfaces + [InterfaceConfig(req.interfaces[i].name, t.value)];
      }
      var routes: seq<RouteConfig> := [];
      for i := 0 to |req.routes|
        invariant |routes| == i
        invariant forall k | 0 <= k < i :: routes[k] == ToRoute(req.routes[k])
      {
        routes := routes + [ToRoute(req.routes[i])];
      }
      assert interfaces == ToConfig(req).interfaces && routes == ToConfig(req).routes;
      r := Some(Config(interfaces, req.dns, routes));
    }

    method ConfigureNetwork(x: Syntax, req: ProtoNetwork, writeOk: bool) returns (ok: bool)
      modifies this
      ensures ok <==> Accepted(x, req) && writeOk
      ensures saved == if ok then Some(Encode(ToConfig(req))) else old(saved)
    {
      ok := false;
      var config := Convert(req);
      if config.None? {
        return;
      }
      var valid := Validate(x, config.value);
      if valid.Ok? && writeOk {
        saved := Some(Encode(config.value));
        ok := true;
      }
    }

    /** A missing, unreadable or invalid file gives the empty configuration. */
    method GetNetworkConfig(x: Syntax) returns (response: ProtoNetwork)
      ensures response ==
              if saved.Some? && Decode(saved.value).Some? && Valid(x, Decode(saved.value).value)
              then FromConfig(Decode(saved.value).value) else ProtoNetwork([], None, [])
    {
      response := ProtoNetwork([], None, []);
      if saved.Some? {
        var config := Decode(saved.value);
        if config.Some? {
          var valid := Validate(x, config.value);
          if valid.Ok? {
            response := FromConfig(config.value);
          }
        }
      }
    }

    /** The round trip through the file: an accepted request reads back with its defaults filled in. */
    method ConfigureThenGet(x: Syntax, req: ProtoNetwork) returns (response: ProtoNetwork)
      requires Accepted(x, req)
      modifies this
      ensures response == Fill(req)
    {
      var _ := ConfigureNetwork(x, req, true);
      FileRoundTrip(ToConfig(req));
      ReadBack(req);
      response := GetNetworkConfig(x);
    }
  }
}

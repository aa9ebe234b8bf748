/** `publicHost`, `clientHost` and `coreLocalNetwork` of netjs_new.js: each host
    is built by a fixed sequence of the guarded lookup steps, and the local
    network is the public host, the client host and the NAT chain, in that
    order. The callbacks run one after another, so each pipeline is a
    sequential composition. */
module Topology {
  import opened Common
  import opened Hosts
  import opened Tracing
  import opened Nats

  /** What `publicHost` is told: the public IPv4 address (`None` when the
      promise rejects), the reverse DNS names and the geo answer. */
  datatype PublicAnswers = PublicAnswers(publicIp: Option<string>, names: Option<seq<string>>,
                                         geo: Option<GeoAnswer>)

  /** The active interface as the `network` package reports it. */
  datatype Interface = Interface(macAddress: string, kind: string, ipAddress: string)

  /** What `clientHost` is told: the active interface (`None` on an error) and
      the answers of its geo, vendor and reverse DNS lookups. */
  datatype ClientAnswers = ClientAnswers(iface: Option<Interface>, geo: Option<GeoAnswer>,
                                         vendor: VendorAnswer, names: Option<seq<string>>)

  const PublicRoles: seq<string> := ["public"]
  const ClientRoles: seq<string> := ["client"]

  /** The host `publicHost` hands to its callback. It always has the public
      role, even when the public ip cannot be obtained; on success its ip is
      that address and it is public. It never gets a name (the name lookup
      acts only on hosts that have a name and no ip), and it gets geo exactly
      when the address and the geo answer are both there. */
  function PublicHostValue(a: PublicAnswers): (r: HostValue)
    ensures r.roles == PublicRoles
    ensures r.name == "" && r.mac == "" && r.vendor == "" && r.interfaceType == "" && r.hop.None?
    ensures a.publicIp.None? ==> r == Blank.(roles := PublicRoles)
    ensures a.publicIp.Some? ==> r.ip == a.publicIp.value && r.isPublic
    ensures r.geo.Some? <==> a.publicIp.Some? && a.geo.Some?
    ensures r.geo.Some? ==> r.geo.value == GeoFrom(a.geo.value)
  {
    var h := Blank.(roles := PublicRoles);
    match a.publicIp
    case None => h
    case Some(pubip) => GeoStep(NameStep(h.(ip := pubip, isPublic := true), a.names), a.geo)
  }

  /** The host `clientHost` hands to its callback: the client role always;
      with an interface, its mac, lower-cased type and ip, and `isPublic` as
      the `ip` package says. Geo only for a public client, a vendor only from
      a 200 answer for a non-empty mac, and never a name. */
  function ClientHostValue(a: ClientAnswers, lib: IpLib): (r: HostValue)
    ensures r.roles == ClientRoles && r.name == "" && r.hop.None?
    ensures a.iface.None? ==> r == Blank.(roles := ClientRoles)
    ensures a.iface.Some? ==> var i := a.iface.value;
      && r.ip == i.ipAddress && r.mac == i.macAddress
      && r.interfaceType == AsciiLower(i.kind) && r.isPublic == lib.isPublic(i.ipAddress)
    ensures r.geo.Some? <==> a.iface.Some? && lib.isPublic(a.iface.value.ipAddress) && a.geo.Some?
    ensures r.geo.Some? ==> r.geo.value == GeoFrom(a.geo.value)
    ensures r.vendor == (if a.iface.Some? && a.iface.value.macAddress != "" && a.vendor.Response?
                            && a.vendor.statusCode == 200 then a.vendor.body else "")
  {
    var h := Blank.(roles := ClientRoles);
    match a.iface
    case None => h
    case Some(i) =>
      var h1 := h.(mac := i.macAddress, interfaceType := AsciiLower(i.kind), ip := i.ipAddress,
                   isPublic := lib.isPublic(i.ipAddress));
      NameStep(VendorStep(GeoStep(h1, a.geo), a.vendor), a.names)
  }

  /** The list `coreLocalNetwork` hands to its callback. */
  function CoreLocalNetworkValue(pa: PublicAnswers, ca: ClientAnswers, na: NatAnswers, lib: IpLib): (r: seq<HostValue>)
    ensures |r| == 2 + FirstPublic(HopRecords(na.feed, lib))
    ensures r[0] == PublicHostValue(pa) && r[1] == ClientHostValue(ca, lib)
  {
    [PublicHostValue(pa), ClientHostValue(ca, lib)] + ClassifyNats(HopRecords(na.feed, lib), na.arp, na.vendor, na.names)
  }

  /** The local network is the public host, then the client host, then the NAT
      chain innermost first; every host in it has at least one role. */
  lemma CoreLocalNetworkShape(pa: PublicAnswers, ca: ClientAnswers, na: NatAnswers, lib: IpLib)
    ensures var r := CoreLocalNetworkValue(pa, ca, na, lib);
      var chain := ClassifyNats(HopRecords(na.feed, lib), na.arp, na.vendor, na.names);
      && |r| == 2 + |chain|
      && r[0].roles == PublicRoles && r[1].roles == ClientRoles
      && r[2..] == chain
      && (forall i :: 0 <= i < |r| ==> r[i].roles != [])
  {
    var r := CoreLocalNetworkValue(pa, ca, na, lib);
    var chain := ClassifyNats(HopRecords(na.feed, lib), na.arp, na.vendor, na.names);
    ChainRoles(HopRecords(na.feed, lib), na.arp, na.vendor, na.names);
    assert r[2..] == chain;
    forall i | 2 <= i < |r|
      ensures r[i].roles != []
    {
      assert r[i] == chain[i - 2];
      if i - 2 < |chain| - 1 {
        assert chain[i - 2].roles == NatRoles;
      } else {
        assert chain[i - 2].roles == NatRoles + ["gateway"];
      }
    }
  }

  /** `publicHost(cb)`: a new host tagged public; on a public address, the
      name lookup and then the geo lookup. */
  method PublicHost(a: PublicAnswers) returns (hst: Host)
    ensures fresh(hst)
    ensures hst.Value() == PublicHostValue(a)
  {
    hst := new Host();
    hst.roles := PublicRoles;
    match a.publicIp {
      case None =>
      case Some(pubip) =>
        hst.ip := pubip;
        hst.isPublic := true;
        HostNameLookup(hst, a.names);
        HostGeoLookup(hst, a.geo);
    }
  }

  /** `clientHost(cb)`: a new host tagged client; on an interface, its fields,
      then the geo, vendor and name lookups in that order. */
  method ClientHost(a: ClientAnswers, lib: IpLib) returns (hst: Host)
    ensures fresh(hst)
    ensures hst.Value() == ClientHostValue(a, lib)
  {
    hst := new Host();
    hst.roles := ClientRoles;
    match a.iface {
      case None =>
      case Some(i) =>
        hst.mac := i.macAddress;
        hst.interfaceType := AsciiLower(i.kind);
        hst.ip := i.ipAddress;
        hst.isPublic := lib.isPublic(hst.ip);
        HostGeoLookup(hst, a.geo);
        HostVendorLookup(hst, a.vendor);
        HostNameLookup(hst, a.names);
    }
  }

  /** The first two pushes of `coreLocalNetwork`: the public host, then the
      client host. */
  method FrontHosts(pa: PublicAnswers, ca: ClientAnswers, lib: IpLib) returns (hsts: seq<Host>)
    ensures forall h | h in hsts :: fresh(h)
    ensures Values(hsts) == [PublicHostValue(pa), ClientHostValue(ca, lib)]
  {
    hsts := [];
    var pub := PublicHost(pa);
    hsts := hsts + [pub];
    var client := ClientHost(ca, lib);
    hsts := hsts + [client];
  }

  /** `coreLocalNetwork(cb)`: push the public host, the client host, then the
      NAT chain. */
  method CoreLocalNetwork(pa: PublicAnswers, ca: ClientAnswers, na: NatAnswers, lib: IpLib)
    returns (hsts: seq<Host>)
    ensures forall h | h in hsts :: fresh(h)
    ensures Values(hsts) == CoreLocalNetworkValue(pa, ca, na, lib)
  {
    hsts := FrontHosts(pa, ca, lib);
    var nts := DiscoverNats(na, lib);
    ValuesConcat(hsts, nts);
    hsts := hsts + nts;
  }
}

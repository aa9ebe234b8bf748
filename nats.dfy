/** The `nats` function of netjs_new.js: the hops before the first public hop
    of a traceroute towards 8.8.8.8 become the NAT chain, innermost first. */
module Nats {
  import opened Common
  import opened Hosts
  import opened Tracing

  /** The address `nats` traces towards. */
  const Anchor := "8.8.8.8"

  /** The roles every chain entry is given, replacing whatever it had. */
  const NatRoles: seq<string> := ["nat", "router"]

  /** The index at which the scan of the hop list stops: the first public hop,
      or the length of the list when no hop is public. */
  function FirstPublic(hops: seq<HostValue>): (k: nat)
    ensures k <= |hops|
    ensures forall i :: 0 <= i < k ==> !hops[i].isPublic
    ensures k < |hops| ==> hops[k].isPublic
  {
    if hops == [] || hops[0].isPublic then 0 else 1 + FirstPublic(hops[1..])
  }

  /** One pass of the loop body on a non-public hop: roles overwritten, the
      latency, ttl and err_msg fields deleted. */
  function AsNat(h: HostValue): (r: HostValue)
    ensures r.roles == NatRoles && r.hop.None?
    ensures r.(roles := h.roles, hop := h.hop) == h
  {
    h.(roles := NatRoles, hop := None)
  }

  /** What the loop leaves in `nts`. */
  function NatPrefix(hops: seq<HostValue>): (nts: seq<HostValue>)
    ensures |nts| == FirstPublic(hops) <= |hops|
    ensures forall i :: 0 <= i < |nts| ==> !hops[i].isPublic && nts[i] == AsNat(hops[i])
  {
    seq(FirstPublic(hops), i requires 0 <= i < FirstPublic(hops) => AsNat(hops[i]))
  }

  /** `nts[nts.length - 1].roles.push("gateway")` when the chain is non-empty. */
  function MarkGateway(nts: seq<HostValue>): (r: seq<HostValue>)
    ensures |r| == |nts|
    ensures forall i :: 0 <= i < |nts| - 1 ==> r[i] == nts[i]
    ensures |nts| > 0 ==> r[|nts| - 1] == nts[|nts| - 1].(roles := nts[|nts| - 1].roles + ["gateway"])
  {
    if nts == [] then nts
    else nts[|nts| - 1 := nts[|nts| - 1].(roles := nts[|nts| - 1].roles + ["gateway"])]
  }

  /** The ARP answer is written only when it is a string (`None` otherwise). */
  function MacStep(h: HostValue, arp: Option<string>): (r: HostValue)
    ensures r == h.(mac := r.mac)
    ensures arp.Some? ==> r.mac == arp.value
    ensures arp.None? ==> r == h
  {
    match arp
    case None => h
    case Some(mac) => h.(mac := mac)
  }

  /** MAC, then vendor, then name, on the innermost entry only. */
  function EnrichInnermost(nts: seq<HostValue>, arp: Option<string>, vendor: VendorAnswer,
                           names: Option<seq<string>>): (r: seq<HostValue>)
    ensures |r| == |nts|
    ensures forall i :: 0 < i < |nts| ==> r[i] == nts[i]
  {
    if nts == [] then nts
    else nts[0 := NameStep(VendorStep(MacStep(nts[0], arp), vendor), names)]
  }

  /** The whole callback of `nats` on the hop list it is given. */
  function ClassifyNats(hops: seq<HostValue>, arp: Option<string>, vendor: VendorAnswer,
                        names: Option<seq<string>>): (r: seq<HostValue>)
    ensures |r| == FirstPublic(hops)
  {
    EnrichInnermost(MarkGateway(NatPrefix(hops)), arp, vendor, names)
  }

  /** Marking the gateway and enriching the innermost entry keep the length of
      the chain and, entry by entry, the address, publicity, interface type and
      geo. */
  lemma FinishingKeepsAddressing(nts: seq<HostValue>, arp: Option<string>, vendor: VendorAnswer,
                                 names: Option<seq<string>>)
    ensures var r := EnrichInnermost(MarkGateway(nts), arp, vendor, names);
      && |r| == |nts|
      && (forall i :: 0 <= i < |r| ==> r[i].ip == nts[i].ip && r[i].isPublic == nts[i].isPublic
                                       && r[i].interfaceType == nts[i].interfaceType && r[i].geo == nts[i].geo)
  {
    var m := MarkGateway(nts);
    assert |m| == |nts| && forall i :: 0 <= i < |m| ==> m[i] == nts[i].(roles := m[i].roles);
    if m != [] {
      var e := NameStep(VendorStep(MacStep(m[0], arp), vendor), names);
      assert e == m[0].(mac := e.mac, vendor := e.vendor, name := e.name);
    }
  }

  /** The chain is exactly the hops before the first public hop, in order:
      its length is the index of the first public hop (the whole list when
      there is none), and each entry keeps its address, publicity, interface
      type and geo, so a hop whose address was blanked is kept, not skipped. */
  lemma ChainIsPrefixBeforeFirstPublic(hops: seq<HostValue>, arp: Option<string>, vendor: VendorAnswer,
                                       names: Option<seq<string>>)
    ensures var r := ClassifyNats(hops, arp, vendor, names);
      && |r| <= |hops|
      && (forall i :: 0 <= i < |r| ==> !hops[i].isPublic && r[i].ip == hops[i].ip && !r[i].isPublic
                                       && r[i].interfaceType == hops[i].interfaceType && r[i].geo == hops[i].geo)
      && (|r| < |hops| ==> hops[|r|].isPublic)
  {
    var p := NatPrefix(hops);
    FinishingKeepsAddressing(p, arp, vendor, names);
    assert |p| == FirstPublic(hops);
    assert forall i :: 0 <= i < |p| ==> p[i] == AsNat(hops[i]);
  }

  /** Every entry's roles are overwritten to nat and router and its hop fields
      are gone; the outermost entry alone also has gateway. */
  lemma ChainRoles(hops: seq<HostValue>, arp: Option<string>, vendor: VendorAnswer, names: Option<seq<string>>)
    ensures var r := ClassifyNats(hops, arp, vendor, names);
      && (forall i :: 0 <= i < |r| - 1 ==> r[i].roles == NatRoles)
      && (|r| > 0 ==> r[|r| - 1].roles == NatRoles + ["gateway"])
      && (forall i :: 0 <= i < |r| ==> r[i].hop.None?)
  {
  }

  /** The chain is empty exactly when there are no hops or the first is public. */
  lemma EmptyChainIffFirstHopPublic(hops: seq<HostValue>, arp: Option<string>, vendor: VendorAnswer,
                                    names: Option<seq<string>>)
    ensures ClassifyNats(hops, arp, vendor, names) == [] <==> hops == [] || hops[0].isPublic
  {
  }

  /** When no hop is public at all, every hop is in the chain and the last one
      is still tagged gateway: the internet boundary is not checked. */
  lemma GatewayWithoutPublicHop(hops: seq<HostValue>, arp: Option<string>, vendor: VendorAnswer,
                                names: Option<seq<string>>)
    requires hops != []
    requires forall i :: 0 <= i < |hops| ==> !hops[i].isPublic
    ensures var r := ClassifyNats(hops, arp, vendor, names);
      |r| == |hops| && r[|r| - 1].roles == NatRoles + ["gateway"]
  {
  }

  /** Only the innermost entry is enriched: it may receive the ARP MAC (kept
      as it was when ARP gives no string), a vendor and a name; every other
      entry keeps its mac, vendor and name. */
  lemma OnlyInnermostEnriched(hops: seq<HostValue>, arp: Option<string>, vendor: VendorAnswer,
                              names: Option<seq<string>>)
    ensures var r := ClassifyNats(hops, arp, vendor, names);
      && (forall i :: 0 < i < |r| ==> r[i].mac == hops[i].mac && r[i].vendor == hops[i].vendor
                                      && r[i].name == hops[i].name)
      && (|r| > 0 ==> r[0].mac == (if arp.Some? then arp.value else hops[0].mac))
  {
  }

  /** For hops built by the traceroute feed: no entry ever receives a name
      (the name lookup acts only on hosts that already have one), only the
      innermost entry can have a MAC or a vendor, its MAC is the ARP string
      when there is one, and its vendor is set only for a non-empty MAC and
      a 200 response. Every entry's ip is an IPv4 literal or empty. */
  lemma TraceChainEnrichment(feed: seq<ProbeEvent>, lib: IpLib, arp: Option<string>, vendor: VendorAnswer,
                             names: Option<seq<string>>)
    ensures var r := ClassifyNats(HopRecords(feed, lib), arp, vendor, names);
      && (forall i :: 0 <= i < |r| ==> r[i].name == "" && (r[i].ip == "" || lib.isV4Format(r[i].ip)))
      && (forall i :: 0 < i < |r| ==> r[i].mac == "" && r[i].vendor == "")
      && (|r| > 0 ==> r[0].mac == (if arp.Some? then arp.value else ""))
      && (|r| > 0 ==> r[0].vendor == (if arp.Some? && arp.value != "" && vendor.Response?
                                          && vendor.statusCode == 200 then vendor.body else ""))
  {
    var hops := HopRecords(feed, lib);
    var r := ClassifyNats(hops, arp, vendor, names);
    ChainIsPrefixBeforeFirstPublic(hops, arp, vendor, names);
    OnlyInnermostEnriched(hops, arp, vendor, names);
    forall i | 0 <= i < |r|
      ensures r[i].name == "" && (r[i].ip == "" || lib.isV4Format(r[i].ip))
    {
      assert hops[i] == HopRecord(feed[i], lib);
    }
    forall i | 0 < i < |r|
      ensures r[i].mac == "" && r[i].vendor == ""
    {
      assert hops[i] == HopRecord(feed[i], lib);
    }
    if |r| > 0 {
      assert hops[0] == HopRecord(feed[0], lib);
      var m := MarkGateway(NatPrefix(hops))[0];
      assert m.mac == "" && m.vendor == "";
    }
  }

  /** The loop body of `nats` on a private hop: overwrite its roles and delete
      its hop fields. */
  method TagAsNat(h: Host)
    modifies h
    ensures h.Value() == AsNat(old(h.Value()))
  {
    h.roles := NatRoles;
    h.hop := None;
  }

  /** The loop of `nats`: walk the hops up to the first public one, tag each
      as a NAT and push it into the chain. */
  method TagNatPrefix(hops: seq<Host>) returns (nts: seq<Host>)
    requires Distinct(hops)
    modifies set h | h in hops
    ensures nts == hops[..FirstPublic(old(Values(hops)))]
    ensures Values(nts) == NatPrefix(old(Values(hops)))
    ensures forall j :: |nts| <= j < |hops| ==> hops[j].Value() == old(hops[j].Value())
  {
    ghost var before := Values(hops);
    nts := [];
    var i := 0;
    while i < |hops|
      invariant 0 <= i <= |hops|
      invariant forall j :: 0 <= j < i ==> !before[j].isPublic
      invariant nts == hops[..i]
      invariant forall j :: 0 <= j < i ==> hops[j].Value() == AsNat(before[j])
      invariant forall j :: i <= j < |hops| ==> hops[j].Value() == before[j]
    {
      if hops[i].isPublic {
        break;
      }
      assert forall j :: 0 <= j < |hops| && j != i ==> hops[j] != hops[i];
      TagAsNat(hops[i]);
      nts := nts + [hops[i]];
      i := i + 1;
    }
    assert i == |hops| || before[i].isPublic;
    assert i == FirstPublic(before);
    assert Values(nts) == NatPrefix(before);
  }

  /** Add "gateway" to the outermost entry of a non-empty chain. */
  method MarkOutermost(nts: seq<Host>)
    requires Distinct(nts)
    modifies set h | h in nts
    ensures Values(nts) == MarkGateway(old(Values(nts)))
  {
    if |nts| > 0 {
      var last := nts[|nts| - 1];
      last.roles := last.roles + ["gateway"];
      assert Values(nts) == MarkGateway(old(Values(nts)));
    }
  }

  /** ARP, vendor and name lookups on the innermost entry of a non-empty chain. */
  method EnrichInnermostHost(nts: seq<Host>, arp: Option<string>, vendor: VendorAnswer,
                             names: Option<seq<string>>)
    requires Distinct(nts)
    modifies set h | h in nts
    ensures Values(nts) == EnrichInnermost(old(Values(nts)), arp, vendor, names)
  {
    if |nts| > 0 {
      var inner := nts[0];
      match arp {
        case None =>
        case Some(mac) => inner.mac := mac;
      }
      HostVendorLookup(inner, vendor);
      HostNameLookup(inner, names);
      assert Values(nts) == EnrichInnermost(old(Values(nts)), arp, vendor, names);
    }
  }

  /** The traceroute callback of `nats` on the hop objects it receives. */
  method ClassifyNatChain(hops: seq<Host>, arp: Option<string>, vendor: VendorAnswer,
                          names: Option<seq<string>>) returns (nts: seq<Host>)
    requires Distinct(hops)
    modifies set h | h in hops
    ensures nts == hops[..FirstPublic(old(Values(hops)))]
    ensures Values(nts) == ClassifyNats(old(Values(hops)), arp, vendor, names)
    ensures forall j :: |nts| <= j < |hops| ==> hops[j].Value() == old(hops[j].Value())
  {
    ghost var before := Values(hops);
    nts := TagNatPrefix(hops);
    ghost var tagged := Values(nts);
    assert tagged == NatPrefix(before);
    assert forall j :: |nts| <= j < |hops| ==> hops[j] !in nts;
    MarkOutermost(nts);
    ghost var marked := Values(nts);
    assert marked == MarkGateway(tagged);
    EnrichInnermostHost(nts, arp, vendor, names);
    assert Values(nts) == EnrichInnermost(marked, arp, vendor, names);
  }

  /** The answers `nats` receives: the DNS answer for the destination (never
      asked for, the destination having no name), the traceroute feed, ARP,
      the vendor request and the reverse DNS lookup of the innermost entry. */
  datatype NatAnswers = NatAnswers(destIp: Option<string>, feed: seq<ProbeEvent>, arp: Option<string>,
                                   vendor: VendorAnswer, names: Option<seq<string>>)

  /** The start of `nats(cb)`: a host for the anchor address, traced. */
  method TraceAnchor(answers: NatAnswers, lib: IpLib) returns (hops: seq<Host>)
    ensures forall h | h in hops :: fresh(h)
    ensures Distinct(hops)
    ensures Values(hops) == HopRecords(answers.feed, lib)
  {
    var h := new Host();
    h.ip := Anchor;
    hops := Traceroute(h, answers.destIp, answers.feed, lib);
  }

  /** `nats(cb)`: traceroute towards the anchor, then classify its hops. */
  method DiscoverNats(answers: NatAnswers, lib: IpLib) returns (nts: seq<Host>)
    ensures forall h | h in nts :: fresh(h)
    ensures Values(nts) == ClassifyNats(HopRecords(answers.feed, lib), answers.arp, answers.vendor, answers.names)
  {
    var hops := TraceAnchor(answers, lib);
    nts := ClassifyNatChain(hops, answers.arp, answers.vendor, answers.names);
    assert forall h | h in nts :: h in hops;
  }
}

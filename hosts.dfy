/** The host record of netjs_new.js and the guarded enrichment steps that fill
    it in place. Each lookup helper is a pure step on a `HostValue` (what the
    helper does to the record, given the collaborator's answer) and a method
    that applies that step to a `Host` object. */
module Hosts {
  import opened Common

  /** The seven-field geo object; `lat` and `lon` are carried, never computed on. */
  datatype Geo = Geo(city: string, state: string, country: string, zip: string,
                     lat: real, lon: real, org: string)

  /** What the geo-IP service answers on success. */
  datatype GeoAnswer = GeoAnswer(city: string, regionCode: string, country: string,
                                 postal: string, latitude: real, longitude: real, org: string)

  /** The three extra fields a traceroute hop host carries. */
  datatype HopExtras = HopExtras(latency: int, ttl: int, errMsg: string)

  /** Outcome of the vendor HTTP request: a transport error or a response. */
  datatype VendorAnswer = RequestError | Response(statusCode: int, body: string)

  /** The whole state of a host object. `geo == None` is the empty `{}` object;
      `hop == None` means the hop fields are absent (never added, or deleted). */
  datatype HostValue = HostValue(
    name: string, ip: string, mac: string, vendor: string, interfaceType: string,
    isPublic: bool, roles: seq<string>, geo: Option<Geo>, hop: Option<HopExtras>)

  /** The record `newHost()` returns. */
  const Blank := HostValue("", "", "", "", "", false, [], None, None)

  class Host {
    var name: string
    var ip: string
    var mac: string
    var vendor: string
    var interfaceType: string
    var isPublic: bool
    var roles: seq<string>
    var geo: Option<Geo>
    var hop: Option<HopExtras>

    function Value(): HostValue
      reads this
    {
      HostValue(name, ip, mac, vendor, interfaceType, isPublic, roles, geo, hop)
    }

    /** `newHost()`: every string empty, not public, no roles, empty geo. */
    constructor ()
      ensures Value() == Blank
    {
      name, ip, mac, vendor, interfaceType := "", "", "", "", "";
      isPublic := false;
      roles := [];
      geo := None;
      hop := None;
    }
  }

  /** The state of a sequence of host objects, element by element. */
  function Values(hs: seq<Host>): (vs: seq<HostValue>)
    reads set h | h in hs
    ensures |vs| == |hs|
    ensures forall i :: 0 <= i < |hs| ==> vs[i] == hs[i].Value()
  {
    seq(|hs|, i reads set h | h in hs requires 0 <= i < |hs| => hs[i].Value())
  }

  /** The state of a concatenation is the concatenation of the states. */
  lemma ValuesConcat(a: seq<Host>, b: seq<Host>)
    ensures Values(a + b) == Values(a) + Values(b)
  {
    assert |Values(a + b)| == |Values(a) + Values(b)|;
    forall i | 0 <= i < |a + b|
      ensures Values(a + b)[i] == (Values(a) + Values(b))[i]
    {
      if i < |a| {
        assert (a + b)[i] == a[i];
      } else {
        assert (a + b)[i] == b[i - |a|];
      }
    }
  }

  /** No host object occurs twice (each was made by its own `newHost()`). */
  predicate Distinct(hs: seq<Host>) {
    forall i, j :: 0 <= i < j < |hs| ==> hs[i] != hs[j]
  }

  /** `newHostGeo()`: all seven fields present, strings empty, coordinates zero. */
  function NewHostGeo(): (g: Geo)
    ensures g.city == g.state == g.country == g.zip == g.org == ""
  {
    Geo("", "", "", "", 0.0, 0.0, "")
  }

  /** A fresh geo object overwritten field by field from the service answer. */
  function GeoFrom(a: GeoAnswer): (g: Geo)
    ensures g.city == a.city && g.state == a.regionCode && g.country == a.country
    ensures g.zip == a.postal && g.lat == a.latitude && g.lon == a.longitude && g.org == a.org
  {
    NewHostGeo().(city := a.city, state := a.regionCode, country := a.country,
                  zip := a.postal, lat := a.latitude, lon := a.longitude, org := a.org)
  }

  /** The guard both `hostNameLookup` and `hostIpLookup` test: a name and no ip. */
  predicate HasNameNoIp(h: HostValue) {
    |h.name| > 0 && |h.ip| == 0
  }

  /** `hostNameLookup` given the reverse-DNS host names (`None` when the
      callback's argument is not an array). Only `name` can change, only when
      the host has a name and no ip, and then to the first name found. A host
      with an empty name is never given one. */
  function NameStep(h: HostValue, names: Option<seq<string>>): (r: HostValue)
    ensures r == h.(name := r.name)
    ensures r != h ==> HasNameNoIp(h)
    ensures h.name == "" ==> r == h
    ensures HasNameNoIp(h) && names.Some? && |names.value| > 0 ==> r.name == names.value[0]
    ensures names.None? || names == Some([]) ==> r == h
  {
    if HasNameNoIp(h) && names.Some? && |names.value| > 0 then h.(name := names.value[0]) else h
  }

  /** `hostIpLookup` given the DNS answer (`None` on a lookup error). Only `ip`
      can change, and only when the host has a name and no ip. */
  function IpStep(h: HostValue, answer: Option<string>): (r: HostValue)
    ensures r == h.(ip := r.ip)
    ensures !HasNameNoIp(h) || answer.None? ==> r == h
    ensures HasNameNoIp(h) && answer.Some? ==> r.ip == answer.value
  {
    if HasNameNoIp(h) && answer.Some? then h.(ip := answer.value) else h
  }

  /** `hostGeoLookup` given the geo service answer (`None` on an error). The host
      is unchanged when its geo is already filled, when it is not public, or
      when the lookup fails; otherwise geo holds all seven fields of the answer
      and nothing else changes. */
  function GeoStep(h: HostValue, answer: Option<GeoAnswer>): (r: HostValue)
    ensures h.geo.Some? || !h.isPublic || answer.None? ==> r == h
    ensures h.geo.None? && h.isPublic && answer.Some? ==> r == h.(geo := Some(GeoFrom(answer.value)))
  {
    if h.geo.Some? then h
    else if !h.isPublic then h
    else match answer
      case None => h
      case Some(a) => h.(geo := Some(GeoFrom(a)))
  }

  /** The condition under which `hostVendorLookup` writes the vendor. */
  predicate VendorApplies(h: HostValue, answer: VendorAnswer) {
    |h.mac| > 0 && |h.vendor| == 0 && answer.Response? && answer.statusCode == 200
  }

  /** `hostVendorLookup` given the HTTP outcome. Only `vendor` can change; it
      becomes the response body exactly when there is a mac, no vendor yet and
      a 200 response. Any other case leaves the host as it was. */
  function VendorStep(h: HostValue, answer: VendorAnswer): (r: HostValue)
    ensures r == h.(vendor := r.vendor)
    ensures VendorApplies(h, answer) ==> r.vendor == answer.body
    ensures !VendorApplies(h, answer) ==> r == h
  {
    if |h.mac| > 0 && |h.vendor| == 0 then
      match answer
      case RequestError => h
      case Response(status, body) => if status == 200 then h.(vendor := body) else h
    else h
  }

  /** Repeating a lookup with the same answer changes nothing more: the field
      it fills either closes its own guard or is rewritten with the same value. */
  lemma LookupStepsIdempotent(h: HostValue, names: Option<seq<string>>, ipAnswer: Option<string>,
                              geo: Option<GeoAnswer>, vendor: VendorAnswer)
    ensures NameStep(NameStep(h, names), names) == NameStep(h, names)
    ensures IpStep(IpStep(h, ipAnswer), ipAnswer) == IpStep(h, ipAnswer)
    ensures GeoStep(GeoStep(h, geo), geo) == GeoStep(h, geo)
    ensures VendorStep(VendorStep(h, vendor), vendor) == VendorStep(h, vendor)
  {
  }

  method HostNameLookup(hst: Host, names: Option<seq<string>>)
    modifies hst
    ensures hst.Value() == NameStep(old(hst.Value()), names)
  {
    if |hst.name| > 0 && |hst.ip| == 0 {
      if names.Some? && |names.value| > 0 {
        hst.name := names.value[0];
      }
    }
  }

  method HostIpLookup(hst: Host, answer: Option<string>)
    modifies hst
    ensures hst.Value() == IpStep(old(hst.Value()), answer)
  {
    if |hst.name| > 0 && |hst.ip| == 0 {
      match answer {
        case None =>
        case Some(hostIp) => hst.ip := hostIp;
      }
    }
  }

  method HostGeoLookup(hst: Host, answer: Option<GeoAnswer>)
    modifies hst
    ensures hst.Value() == GeoStep(old(hst.Value()), answer)
  {
    if hst.geo.Some? {
    } else if !hst.isPublic {
    } else {
      match answer {
        case None =>
        case Some(a) =>
          var g := NewHostGeo();
          g := g.(city := a.city);
          g := g.(state := a.regionCode);
          g := g.(country := a.country);
          g := g.(zip := a.postal);
          g := g.(lat := a.latitude);
          g := g.(lon := a.longitude);
          g := g.(org := a.org);
          hst.geo := Some(g);
      }
    }
  }

  method HostVendorLookup(hst: Host, answer: VendorAnswer)
    modifies hst
    ensures hst.Value() == VendorStep(old(hst.Value()), answer)
  {
    if |hst.mac| > 0 && |hst.vendor| == 0 {
      match answer {
        case RequestError =>
        case Response(status, body) =>
          if status == 200 {
            hst.vendor := body;
          }
      }
    }
  }
}

/** The `traceroute` function of netjs_new.js: one host record per feed event
    of the probe session, in feed order. The probe session itself is not part
    of this model; its events are the input `feed`. */
module Tracing {
  import opened Common
  import opened Hosts

  /** An error handed to the feed callback: whether it is a TimeExceededError,
      its `source` address, its `message` and its `toString()` text. */
  datatype TraceError = TraceError(timeExceeded: bool, source: string, message: string, text: string)

  /** The arguments of one feed callback: `(error, target, ttl, sent, rcvd)`,
      timestamps in milliseconds. */
  datatype ProbeEvent = ProbeEvent(error: Option<TraceError>, target: string, ttl: int, sent: int, rcvd: int)

  /** The address a hop reports: the target without an error, the error's
      source with one. */
  function HopAddress(e: ProbeEvent): (a: string)
    ensures e.error.None? ==> a == e.target
    ensures e.error.Some? ==> a == e.error.value.source
  {
    match e.error
    case None => e.target
    case Some(err) => err.source
  }

  /** The hop's error text: empty without an error or for a TimeExceededError,
      otherwise the message, or `toString()` when the message is empty. */
  function HopErrorMessage(err: Option<TraceError>): (m: string)
    ensures m != "" ==> err.Some? && !err.value.timeExceeded
    ensures err.None? || err.value.timeExceeded ==> m == ""
    ensures err.Some? && !err.value.timeExceeded && err.value.message != "" ==> m == err.value.message
    ensures err.Some? && !err.value.timeExceeded && err.value.message == "" ==> m == err.value.text
  {
    match err
    case None => ""
    case Some(e) =>
      if e.timeExceeded then ""
      else if e.message == "" then e.text
      else e.message
  }

  /** The host record the feed callback pushes for one event. Its ip is the
      reported address when that is an IPv4 literal and empty otherwise; only
      an IPv4 address can be public; latency is `rcvd - sent`; every other
      field is as `newHost()` left it. */
  function HopRecord(e: ProbeEvent, lib: IpLib): (r: HostValue)
    ensures r.ip == "" || (lib.isV4Format(r.ip) && r.ip == HopAddress(e))
    ensures lib.isV4Format(HopAddress(e)) ==> r.ip == HopAddress(e) && r.isPublic == lib.isPublic(r.ip)
    ensures !lib.isV4Format(HopAddress(e)) ==> r.ip == "" && !r.isPublic
    ensures r.hop == Some(HopExtras(e.rcvd - e.sent, e.ttl, HopErrorMessage(e.error)))
    ensures r.(ip := "", isPublic := false, hop := None) == Blank
  {
    var addr := HopAddress(e);
    var v4 := lib.isV4Format(addr);
    Blank.(ip := if v4 then addr else "",
           isPublic := v4 && lib.isPublic(addr),
           hop := Some(HopExtras(e.rcvd - e.sent, e.ttl, HopErrorMessage(e.error))))
  }

  /** The hop records of a whole feed, in feed order. */
  function HopRecords(feed: seq<ProbeEvent>, lib: IpLib): (rs: seq<HostValue>)
    ensures |rs| == |feed|
    ensures forall i :: 0 <= i < |feed| ==> rs[i] == HopRecord(feed[i], lib)
  {
    seq(|feed|, i requires 0 <= i < |feed| => HopRecord(feed[i], lib))
  }

  /** The body of the feed callback: a fresh host built from one event. */
  method NewHopHost(e: ProbeEvent, lib: IpLib) returns (hopHst: Host)
    ensures fresh(hopHst)
    ensures hopHst.Value() == HopRecord(e, lib)
  {
    hopHst := new Host();
    hopHst.ip := e.target;
    var errMsg := "";
    if e.error.Some? {
      hopHst.ip := e.error.value.source;
      if !e.error.value.timeExceeded {
        errMsg := e.error.value.message;
        if errMsg == "" {
          errMsg := e.error.value.text;
        }
      }
    }
    var latency := e.rcvd - e.sent;
    if lib.isV4Format(hopHst.ip) {
      hopHst.isPublic := lib.isPublic(hopHst.ip);
    } else {
      hopHst.ip := "";
    }
    hopHst.hop := Some(HopExtras(latency, e.ttl, errMsg));
  }

  /** `traceroute(destHst, cb)`: the ip lookup on the destination, then one
      fresh host per feed event, appended in feed order. */
  method Traceroute(destHst: Host, ipAnswer: Option<string>, feed: seq<ProbeEvent>, lib: IpLib)
    returns (hops: seq<Host>)
    modifies destHst
    ensures destHst.Value() == IpStep(old(destHst.Value()), ipAnswer)
    ensures forall h | h in hops :: fresh(h)
    ensures Distinct(hops)
    ensures Values(hops) == HopRecords(feed, lib)
  {
    HostIpLookup(destHst, ipAnswer);
    hops := [];
    var i := 0;
    while i < |feed|
      invariant 0 <= i <= |feed|
      invariant |hops| == i
      invariant forall h | h in hops :: fresh(h)
      invariant Distinct(hops)
      invariant forall j :: 0 <= j < i ==> hops[j].Value() == HopRecord(feed[j], lib)
      invariant destHst.Value() == IpStep(old(destHst.Value()), ipAnswer)
    {
      var hopHst := NewHopHost(feed[i], lib);
      hops := hops + [hopHst];
      i := i + 1;
    }
    assert Values(hops) == HopRecords(feed, lib);
  }
}

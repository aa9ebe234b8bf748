/** The `traceroute(host, ip)` function of net.js. Its `ip` parameter (a
    string, "" by default) hides the `ip` package, so the IPv4 test in the feed
    callback calls a method a string does not have and throws a TypeError
    before the hop is pushed. The result object is therefore never given a
    hop, and its `targetIP` is the host argument, not the ip argument. The
    probe session is not part of this model: its feed events and the error of
    its done callback are inputs. */
module NetTrace {
  import opened Common
  import opened Tracing

  /** A hop object as net.js would push it. */
  datatype NetHop = NetHop(host: string, ip: string, isPublic: bool, ttl: int, ms: int, errMsg: string)

  /** The `trInfo` object the promise resolves to. */
  datatype TrInfo = TrInfo(targetHost: string, targetIP: string, packetSize: int, hops: seq<NetHop>)

  /** What the feed callback has computed when the IPv4 test throws: the hop
      address, the latency and the error text. */
  datatype FeedDraft = FeedDraft(hopIp: string, ms: int, errMsg: string)

  /** How a call of `traceroute` ends: the promise resolves or rejects, or the
      first feed callback throws a TypeError out of the probe session. */
  datatype TraceOutcome = Resolved(info: TrInfo) | Rejected(error: string) | ThrownInFeed(draft: FeedDraft)

  /** The packet size of the probe session and of `trInfo`. */
  const TracePacketSize := 64

  /** The initial `trInfo`: both target fields are the host. */
  function InitialTrInfo(host: string, ip: string): (t: TrInfo)
    ensures t.targetHost == host && t.targetIP == host
    ensures t.packetSize == TracePacketSize && t.hops == []
  {
    TrInfo(host, host, TracePacketSize, [])
  }

  /** The values the feed callback computes from one event before its IPv4
      test. */
  function Draft(e: ProbeEvent): (d: FeedDraft)
    ensures d.hopIp == (if e.error.None? then e.target else e.error.value.source)
    ensures d.ms == e.rcvd - e.sent
    ensures d.errMsg != "" ==> e.error.Some? && !e.error.value.timeExceeded
    ensures e.error.Some? && !e.error.value.timeExceeded ==>
      d.errMsg == (if e.error.value.message == "" then e.error.value.text else e.error.value.message)
  {
    FeedDraft(HopAddress(e), e.rcvd - e.sent, HopErrorMessage(e.error))
  }

  /** The latency and the error text net.js computes for an event are those
      netjs_new.js records for it, and so is the address whenever it passes
      the IPv4 test there. This holds by construction, `Draft` and `HopRecord`
      being built from the same `HopAddress` and `HopErrorMessage`; what ties
      net.js's own code to them is `Traceroute` below, whose imperative feed
      body is proved to compute `Draft`. */
  lemma DraftAgreesWithHopRecord(e: ProbeEvent, lib: IpLib)
    ensures var d := Draft(e); var r := HopRecord(e, lib);
      && r.hop.Some? && d.ms == r.hop.value.latency && d.errMsg == r.hop.value.errMsg
      && (lib.isV4Format(d.hopIp) ==> r.ip == d.hopIp)
      && (d.errMsg != "" ==> e.error.Some? && !e.error.value.timeExceeded)
  {
  }

  /** `traceroute(host, ip)` of net.js: with no feed event the done callback
      settles the promise, resolving to the initial `trInfo` (no hops) or
      rejecting with its error; the first feed event instead throws, having
      computed its draft. No outcome ever carries a hop. */
  method Traceroute(host: string, ip: string, feed: seq<ProbeEvent>, doneError: Option<string>)
    returns (outcome: TraceOutcome)
    ensures feed != [] ==> outcome == ThrownInFeed(Draft(feed[0]))
    ensures feed == [] && doneError.Some? ==> outcome == Rejected(doneError.value)
    ensures feed == [] && doneError.None? ==> outcome == Resolved(InitialTrInfo(host, ip))
    ensures outcome.Resolved? ==> outcome.info.hops == [] && outcome.info.targetIP == host
  {
    var trInfo := TrInfo(host, host, TracePacketSize, []);
    if |feed| > 0 {
      var e := feed[0];
      var hopIp := e.target;
      var errMsg := "";
      if e.error.Some? {
        hopIp := e.error.value.source;
        if !e.error.value.timeExceeded {
          errMsg := e.error.value.message;
          if errMsg == "" {
            errMsg := e.error.value.text;
          }
        }
      }
      var ms := e.rcvd - e.sent;
      // `ip.isV4Format(hopIp)` on the string parameter: a TypeError.
      outcome := ThrownInFeed(FeedDraft(hopIp, ms, errMsg));
    } else if doneError.Some? {
      outcome := Rejected(doneError.value);
    } else {
      outcome := Resolved(trInfo);
    }
  }
}

/** Ping sampling in net.js: the probe loop of `doPings`, the target object of
    `doPingsDNS`, and the option handling of `pingsPromise` and `pingPromise`.
    The probe session is not part of this model: `probe(k)` is what the k-th
    `pingHost` call (counting from 0) reports, and `LookupAnswer` is what the
    DNS lookup reports. Timestamps are integers (milliseconds). */
module Pings {
  import opened Common

  /** What one `pingHost` callback receives: the send and receive times, or an
      error. */
  datatype ProbeOutcome = Reply(sent: int, rcvd: int) | Failed(error: string)

  /** One `{start, return}` pair of `pings`. */
  datatype Sample = Sample(start: int, returned: int)

  /** The packet size both ping modules fix. */
  const PacketSize := 64

  /** The options object `doPings` reads: host, ip and the raw `numPings`
      option (`None` when its `typeof` is not 'number'). */
  datatype PingTarget = PingTarget(host: string, ip: string, numPings: Option<int>)

  /** The results object `doPings` hands to its callback. */
  datatype PingResults = PingResults(numPings: int, packetSize: int, host: string, ip: string,
                                     pings: seq<Sample>)

  /** The continuation test `cnt < options.numPings`: it compares against the
      raw option itself, and against a value that is not a number (undefined,
      null) it is false. */
  predicate Continues(cnt: int, numPings: Option<int>)
    ensures cnt >= 1 ==> (Continues(cnt, numPings) <==> cnt < ProbesWanted(numPings))
  {
    numPings.Some? && cnt < numPings.value
  }

  /** How many probes a run in which every probe replies sends: at least one,
      since the first probe is sent before any test, and `n` for an option
      `n >= 1`. */
  function ProbesWanted(numPings: Option<int>): (w: nat)
    ensures w >= 1
    ensures numPings.Some? && numPings.value >= 1 ==> w == numPings.value
    ensures numPings.None? || numPings.value < 1 ==> w == 1
  {
    match numPings
    case None => 1
    case Some(n) => if n > 1 then n else 1
  }

  /** `err` and `pings` are what a run of the probe loop that sends up to
      `wanted` probes ends with: one sample per reply, in probe order, taken
      from probes 0, 1, ...; either `wanted` samples and no error, or fewer
      samples followed by the first failed probe, whose error is reported. */
  ghost predicate IsRunOf(probe: nat -> ProbeOutcome, wanted: nat, err: Option<string>, pings: seq<Sample>) {
    && |pings| <= wanted
    && (forall k :: 0 <= k < |pings| ==> probe(k).Reply? && pings[k] == Sample(probe(k).sent, probe(k).rcvd))
    && (err.None? ==> |pings| == wanted)
    && (err.Some? ==> |pings| < wanted && probe(|pings|) == Failed(err.value))
  }

  /** The recursive `pa` closure of `doPings` as a loop: send a probe; on an
      error stop and report it with the samples gathered so far; on a reply
      record one sample, count it, and go on while `cnt < options.numPings`. */
  method CollectSamples(probe: nat -> ProbeOutcome, numPings: Option<int>)
    returns (err: Option<string>, pings: seq<Sample>)
    ensures IsRunOf(probe, ProbesWanted(numPings), err, pings)
  {
    var wanted := ProbesWanted(numPings);
    err := None;
    pings := [];
    var cnt := 0;
    var more := true;
    while more
      invariant 0 <= cnt <= wanted
      invariant |pings| == cnt
      invariant forall k :: 0 <= k < cnt ==> probe(k).Reply? && pings[k] == Sample(probe(k).sent, probe(k).rcvd)
      invariant more ==> err.None? && cnt < wanted
      invariant !more && err.None? ==> cnt == wanted
      invariant err.Some? ==> cnt < wanted && probe(cnt) == Failed(err.value)
      decreases wanted - cnt, more
    {
      match probe(cnt) {
        case Failed(e) =>
          err := Some(e);
          more := false;
        case Reply(sent, rcvd) =>
          pings := pings + [Sample(sent, rcvd)];
          cnt := cnt + 1;
          more := Continues(cnt, numPings);
      }
    }
  }

  /** A run is determined by the probe outcomes: two runs of the same length
      bound report the same error and the same samples. */
  lemma RunIsDetermined(probe: nat -> ProbeOutcome, wanted: nat, err1: Option<string>, pings1: seq<Sample>,
                        err2: Option<string>, pings2: seq<Sample>)
    requires IsRunOf(probe, wanted, err1, pings1)
    requires IsRunOf(probe, wanted, err2, pings2)
    ensures err1 == err2 && pings1 == pings2
  {
    assert |pings1| == |pings2|;
  }

  /** When every probe replies, the run has exactly `wanted` samples and no
      error; an error means some probe below `wanted` failed. */
  lemma RepliesDecideOutcome(probe: nat -> ProbeOutcome, wanted: nat, err: Option<string>, pings: seq<Sample>)
    requires IsRunOf(probe, wanted, err, pings)
    ensures err.None? <==> forall k :: 0 <= k < wanted ==> probe(k).Reply?
    ensures err.None? ==> |pings| == wanted
  {
    if err.Some? {
      assert !probe(|pings|).Reply?;
    }
  }

  /** net.js normalisation: `numPings` is taken from the option only when that
      is a number greater than 0, and is 1 otherwise. */
  function NumPingsField(numPings: Option<int>): (n: int)
    ensures n >= 1
    ensures numPings.Some? && numPings.value > 0 ==> n == numPings.value
    ensures numPings.None? || numPings.value <= 0 ==> n == 1
  {
    if numPings.Some? && numPings.value > 0 then numPings.value else 1
  }

  /** For an integer option, the count net.js reports is the number of probes
      an all-reply run sends. */
  lemma ReportedCountIsProbeCount(numPings: Option<int>)
    ensures NumPingsField(numPings) == ProbesWanted(numPings)
  {
  }

  /** `doPings(options, cb)` of net.js. */
  method DoPings(options: PingTarget, probe: nat -> ProbeOutcome) returns (err: Option<string>, results: PingResults)
    ensures results.numPings == NumPingsField(options.numPings) && results.packetSize == PacketSize
    ensures results.host == options.host && results.ip == options.ip
    ensures IsRunOf(probe, ProbesWanted(options.numPings), err, results.pings)
  {
    var n := 1;
    if options.numPings.Some? {
      if options.numPings.value > 0 {
        n := options.numPings.value;
      }
    }
    var pings;
    err, pings := CollectSamples(probe, options.numPings);
    results := PingResults(n, PacketSize, options.host, options.ip, pings);
  }

  /** The options `doPingsDNS` is given: the address (`None` when it is not a
      string) and the raw `numPings`. */
  datatype PingsRequest = PingsRequest(address: Option<string>, numPings: Option<int>)

  /** What `dns.lookup` reports: an error or none, and the address (`None`
      when it is not a string). */
  datatype LookupAnswer = LookupAnswer(error: Option<string>, address: Option<string>)

  /** The object `doPingsDNS` builds: host is the address when that is a
      string and empty otherwise; ip is the resolved address, or the host
      when that is empty; `numPings` is passed through untouched. */
  function ResolveTarget(options: PingsRequest, lookup: LookupAnswer): (t: PingTarget)
    ensures t.host == (if options.address.Some? then options.address.value else "")
    ensures t.numPings == options.numPings
    ensures lookup.address.Some? && lookup.address.value != "" ==> t.ip == lookup.address.value
    ensures lookup.address.None? || lookup.address.value == "" ==> t.ip == t.host
  {
    var host := if options.address.Some? then options.address.value else "";
    var ip := if lookup.address.Some? then lookup.address.value else "";
    PingTarget(host, if ip == "" then host else ip, options.numPings)
  }

  /** The second argument of the `doPingsDNS` callback: the target object when
      the lookup failed and nothing was probed, the ping results otherwise. */
  datatype Report = Unresolved(target: PingTarget) | Probed(results: PingResults)

  /** `doPingsDNS(options, cb)` of net.js: a lookup error is reported with the
      target object and no probe is sent; otherwise the target is pinged. */
  method DoPingsDNS(options: PingsRequest, lookup: LookupAnswer, probe: nat -> ProbeOutcome)
    returns (err: Option<string>, report: Report)
    ensures lookup.error.Some? ==> err == lookup.error && report == Unresolved(ResolveTarget(options, lookup))
    ensures lookup.error.None? ==> report.Probed?
    ensures report.Probed? ==> var t := ResolveTarget(options, lookup); var r := report.results;
      && r.host == t.host && r.ip == t.ip && r.packetSize == PacketSize
      && r.numPings == NumPingsField(options.numPings)
      && IsRunOf(probe, ProbesWanted(options.numPings), err, r.pings)
  {
    var target := ResolveTarget(options, lookup);
    if lookup.error.Some? {
      err := lookup.error;
      report := Unresolved(target);
    } else {
      var results;
      err, results := DoPings(target, probe);
      report := Probed(results);
    }
  }

  /** `pingsPromise` option handling: the address defaults to "" unless it is
      a string, and `numPings` to 1 unless it is a number greater than 0. */
  function NormalisePingsOptions(o: PingsRequest): (r: PingsRequest)
    ensures r.address.Some? && r.numPings.Some? && r.numPings.value >= 1
    ensures r.address.value == (if o.address.Some? then o.address.value else "")
    ensures r.numPings.value == (if o.numPings.Some? && o.numPings.value > 0 then o.numPings.value else 1)
  {
    PingsRequest(Some(if o.address.Some? then o.address.value else ""),
                 Some(if o.numPings.Some? && o.numPings.value > 0 then o.numPings.value else 1))
  }

  /** A settled promise. */
  datatype Settled<T> = Resolved(value: T) | Rejected(error: string)

  /** `pingsPromise(pingsOptions)`: it resolves only when the lookup succeeds
      and every one of the requested probes replies, with exactly that many
      samples; any error rejects, and the samples gathered before a probe
      error are lost. */
  method PingsPromise(pingsOptions: PingsRequest, lookup: LookupAnswer, probe: nat -> ProbeOutcome)
    returns (s: Settled<PingResults>)
    ensures var n := NormalisePingsOptions(pingsOptions).numPings.value;
      s.Resolved? <==> lookup.error.None? && forall k :: 0 <= k < n ==> probe(k).Reply?
    ensures s.Resolved? ==> var o := NormalisePingsOptions(pingsOptions); var n := o.numPings.value;
      && |s.value.pings| == n && s.value.numPings == n && s.value.host == o.address.value
      && (forall k :: 0 <= k < n ==> s.value.pings[k] == Sample(probe(k).sent, probe(k).rcvd))
    ensures s.Resolved? ==> var t := ResolveTarget(NormalisePingsOptions(pingsOptions), lookup);
      s.value.host == t.host && s.value.ip == t.ip && s.value.packetSize == PacketSize
    ensures lookup.error.Some? ==> s == Rejected(lookup.error.value)
    ensures lookup.error.None? && s.Rejected? ==> var n := NormalisePingsOptions(pingsOptions).numPings.value;
      exists k :: 0 <= k < n && probe(k) == Failed(s.error) && forall j :: 0 <= j < k ==> probe(j).Reply?
  {
    var o := NormalisePingsOptions(pingsOptions);
    var err, report := DoPingsDNS(o, lookup, probe);
    if lookup.error.None? {
      RepliesDecideOutcome(probe, ProbesWanted(o.numPings), err, report.results.pings);
    }
    match err {
      case Some(e) => s := Rejected(e);
      case None => s := Resolved(report.results);
    }
  }

  /** `pingPromise(pingAddress)`: only the address is passed on, so `numPings`
      is undefined and a resolved result holds exactly one sample. */
  method PingPromise(pingAddress: Option<string>, lookup: LookupAnswer, probe: nat -> ProbeOutcome)
    returns (s: Settled<PingResults>)
    ensures s.Resolved? <==> lookup.error.None? && probe(0).Reply?
    ensures s.Resolved? ==> s.value.numPings == 1 && s.value.pings == [Sample(probe(0).sent, probe(0).rcvd)]
    ensures s.Resolved? ==> var t := ResolveTarget(PingsRequest(pingAddress, None), lookup);
      s.value.host == t.host && s.value.ip == t.ip && s.value.packetSize == PacketSize
    ensures lookup.error.Some? ==> s == Rejected(lookup.error.value)
    ensures lookup.error.None? && probe(0).Failed? ==> s == Rejected(probe(0).error)
  {
    var err, report := DoPingsDNS(PingsRequest(pingAddress, None), lookup, probe);
    if lookup.error.None? {
      RepliesDecideOutcome(probe, 1, err, report.results.pings);
    }
    match err {
      case Some(e) => s := Rejected(e);
      case None => s := Resolved(report.results);
    }
  }
}

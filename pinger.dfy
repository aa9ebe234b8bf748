/** pinger.js: the same probe loop and target object as net.js, but with the
    `numPings` normalisation test inverted, and a single-ping wrapper that
    passes only the address. */
module Pinger {
  import opened Common
  import opened Pings

  /** pinger.js normalisation: the option replaces the default 1 only when it
      is a number LESS than 1, so the reported count is never above 1. */
  function InvertedNumPingsField(numPings: Option<int>): (n: int)
    ensures n <= 1
    ensures numPings.Some? && numPings.value < 1 ==> n == numPings.value
    ensures numPings.None? || numPings.value >= 1 ==> n == 1
  {
    if numPings.Some? && numPings.value < 1 then numPings.value else 1
  }

  /** The reported count agrees with the number of probes an all-reply run
      sends only when the option is missing or exactly 1. */
  lemma InvertedCountMisreports(numPings: Option<int>)
    ensures InvertedNumPingsField(numPings) == ProbesWanted(numPings) <==> numPings.None? || numPings.value == 1
  {
  }

  /** `doPings(options, cb)` of pinger.js: the loop still runs on the raw
      option, so it sends `n` probes for `n >= 1` while reporting 1. */
  method DoPings(options: PingTarget, probe: nat -> ProbeOutcome) returns (err: Option<string>, results: PingResults)
    ensures results.numPings == InvertedNumPingsField(options.numPings) && results.packetSize == PacketSize
    ensures results.host == options.host && results.ip == options.ip
    ensures IsRunOf(probe, ProbesWanted(options.numPings), err, results.pings)
  {
    var n := 1;
    if options.numPings.Some? {
      if options.numPings.value < 1 {
        n := options.numPings.value;
      }
    }
    var pings;
    err, pings := CollectSamples(probe, options.numPings);
    results := PingResults(n, PacketSize, options.host, options.ip, pings);
  }

  /** `doPingsDNS(options, cb)` of pinger.js (also exported as `pings`): a
      lookup error is reported with the target object and nothing is probed;
      otherwise the target is pinged by this module's `doPings`. */
  method DoPingsDNS(options: PingsRequest, lookup: LookupAnswer, probe: nat -> ProbeOutcome)
    returns (err: Option<string>, report: Report)
    ensures lookup.error.Some? ==> err == lookup.error && report == Unresolved(ResolveTarget(options, lookup))
    ensures lookup.error.None? ==> report.Probed?
    ensures report.Probed? ==> var t := ResolveTarget(options, lookup); var r := report.results;
      && r.host == t.host && r.ip == t.ip && r.packetSize == PacketSize
      && r.numPings == InvertedNumPingsField(options.numPings)
      && IsRunOf(probe, ProbesWanted(options.numPings), err, r.pings)
  {
    var target := ResolveTarget(options, lookup);
    if lookup.error.Some? {
      err := lookup.error;
      report := Unresolved(target);
    } else {
      var results;
      err, results := DoPings(target, probe);
      report := Probed(results);
    }
  }

  /** The exported `ping(address, cb)`: only the address is passed, so the
      first probe is the only one: its reply gives exactly one sample, its
      error is reported with no sample. */
  method Ping(address: Option<string>, lookup: LookupAnswer, probe: nat -> ProbeOutcome)
    returns (err: Option<string>, report: Report)
    ensures lookup.error.Some? ==> err == lookup.error && report == Unresolved(ResolveTarget(PingsRequest(address, None), lookup))
    ensures report.Probed? ==> report.results.numPings == 1 && |report.results.pings| <= 1
    ensures report.Probed? ==> var t := ResolveTarget(PingsRequest(address, None), lookup);
      report.results.host == t.host && report.results.ip == t.ip && report.results.packetSize == PacketSize
    ensures lookup.error.None? && probe(0).Reply? ==>
      err.None? && report.Probed? && report.results.pings == [Sample(probe(0).sent, probe(0).rcvd)]
    ensures lookup.error.None? && probe(0).Failed? ==>
      err == Some(probe(0).error) && report.Probed? && report.results.pings == []
  {
    err, report := DoPingsDNS(PingsRequest(address, None), lookup, probe);
    if report.Probed? {
      RepliesDecideOutcome(probe, 1, err, report.results.pings);
    }
  }
}

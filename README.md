# netjs: a Dafny model of its host discovery, traceroute and ping core

netjs is a Node.js library. It describes the network a client sits on. It
builds host records (name, ip, mac, vendor, interface type, publicity, roles,
geo). It fills them with guarded lookups. It finds the NAT chain on the way
to the internet with a traceroute. It also pings hosts and checks HTTP
destinations for liveness. This project models that core in Dafny and proves
what each piece delivers. It covers these files:

- `netjs_new.js`:
  - the host record and its four lookup helpers;
  - the traceroute feed that turns probe events into hop hosts;
  - the `nats` classifier;
  - `publicHost`, `clientHost` and `coreLocalNetwork`.
- `net.js`:
  - the ping sampling loop and its option handling;
  - `pingsPromise` and `pingPromise`;
  - `httpCheck` and `httpChecks`;
  - the older `traceroute`.
- `pinger.js`: the stand-alone ping module, which has the same loop but an
  inverted option check.

Everything outside the process is an input to the model: DNS, geo-IP,
the MAC-vendor HTTP API, ARP, the active interface, the public-ip service,
ICMP probe sessions and HTTP requests. Each answer is given as a value
(`Option`, `VendorAnswer`, `HttpAnswer`, a probe oracle `nat -> ProbeOutcome`,
a traceroute feed `seq<ProbeEvent>`). The `ip` package's `isV4Format` and
`isPublic` are uninterpreted functions passed in as `IpLib`. Callbacks run one
after another, so each pipeline is modelled as a sequential composition.

Host objects are updated in place, so they are a class `Hosts.Host`. Each
lookup helper is a module-level method that takes a `Host` and updates it.
Each such method is proved to leave the host in the state a pure step
function gives on its `HostValue` snapshot. What a lookup does is stated in the
`ensures` clauses of those step functions, with a few lemmas relating them.
The probe loop, shared by net.js and pinger.js, is the single method
`Pings.CollectSamples`, whose loop invariants prove it meets the predicate
`IsRunOf`.

Behaviours the model keeps exactly as the code has them:

- `hostNameLookup` runs only when the host already HAS a name and has no ip
  (netjs_new.js:99), although its comment says a populated name skips the
  lookup. No host built by the core ever receives a name.
- In `nats`, a hop whose address is not IPv4 has its ip blanked. It is not
  public, so it stays in the chain. When no hop is public, the last hop is
  still tagged "gateway".
- `pinger.js` replaces the reported `numPings` only when the option is below
  1 (pinger.js:21). The loop still sends `n` probes for an option `n >= 1`,
  but the count reported is 1.
- `pingsPromise` rejects on the first probe error. The samples gathered
  before it are lost.
- In the `net.js` `traceroute`, the parameter `ip` hides the `ip` package.
  The first feed call therefore throws a TypeError before pushing its hop,
  and `targetIP` is set to the host argument. The resolved object never
  carries a hop.

## Model

| member | source | states |
|---|---|---|
| `Common.AsciiLower` | netjs_new.js:245 | lower-casing keeps the length, maps exactly the letters A-Z to a-z, and leaves no letter A-Z in the result |
| `Common.AsciiLowerIdempotent` | netjs_new.js:245 | lower-casing twice is lower-casing once |
| `Hosts.Host.constructor` | netjs_new.js:26-75 | a new host has all strings empty, is not public, has no roles, an empty geo and no hop fields |
| `Hosts.NewHostGeo` | netjs_new.js:77-87 | the geo object has all text fields empty |
| `Hosts.GeoFrom` | netjs_new.js:133-140 | each of the seven geo fields is taken from its counterpart in the service answer (region_code to state, postal to zip) |
| `Hosts.NameStep` | netjs_new.js:98-116 | only the name can change; it changes only when the host has a name and no ip, and then to the first reverse-DNS name; a host without a name never gets one; no names or an empty list leave it unchanged |
| `Hosts.IpStep` | netjs_new.js:186-199 | only the ip can change, only for a host with a name and no ip, and then to the looked-up address; a lookup error leaves the host unchanged |
| `Hosts.GeoStep` | netjs_new.js:123-145 | a host with geo already, a private host, or a failed lookup is unchanged; otherwise only geo changes, to the seven fields of the answer |
| `Hosts.VendorStep` | netjs_new.js:161-178 | only the vendor can change; it becomes the body exactly for a non-empty mac, an empty vendor and a 200 response |
| `Hosts.LookupStepsIdempotent` | netjs_new.js:98-199 | repeating any of the four lookups with the same answer changes nothing more |
| `Hosts.HostNameLookup` | netjs_new.js:98-116 | the host object ends in the state the name step gives |
| `Hosts.HostIpLookup` | netjs_new.js:186-199 | the host object ends in the state the ip step gives |
| `Hosts.HostGeoLookup` | netjs_new.js:123-145 | the host object ends in the state the geo step gives |
| `Hosts.HostVendorLookup` | netjs_new.js:161-178 | the host object ends in the state the vendor step gives |
| `Tracing.HopAddress` | netjs_new.js:420-425 | the hop address is the target without an error and the error's source with one |
| `Tracing.HopErrorMessage` | netjs_new.js:423-435 | the error text is non-empty only for an error that is not a TimeExceededError; it is the message, or the error's string form when the message is empty |
| `Tracing.HopRecord` | netjs_new.js:417-451 | the hop ip is the address when it is IPv4 and empty otherwise; only an IPv4 address can be public; latency is rcvd - sent, with the ttl and error text; every other field is as a new host has it |
| `Tracing.HopRecords` | netjs_new.js:417-453 | one hop record per feed event, in feed order |
| `Tracing.NewHopHost` | netjs_new.js:417-451 | the feed callback builds a fresh host whose state is the hop record of its event |
| `Tracing.Traceroute` | netjs_new.js:397-464 | the destination gets the ip lookup; the result is one fresh, distinct host per feed event whose states are the hop records in feed order |
| `Nats.FirstPublic` | netjs_new.js:280-283 | the scan stops at the first public hop: every earlier hop is private, and the stop index is the length when none is public |
| `Nats.AsNat` | netjs_new.js:293-298 | a hop taken into the chain gets the roles nat and router and loses its hop fields; nothing else changes |
| `Nats.NatPrefix` | netjs_new.js:280-301 | the loop's chain has one entry per hop before the first public hop, each private and retagged as a NAT |
| `Nats.MarkGateway` | netjs_new.js:304-307 | the chain keeps its length; every entry but the last is unchanged, and the last gets gateway appended to its roles |
| `Nats.MacStep` | netjs_new.js:315-321 | only the mac can change; an ARP string replaces it, and no string leaves the host unchanged |
| `Nats.EnrichInnermost` | netjs_new.js:315-335 | the enrichment keeps the chain's length and every entry but the first |
| `Nats.ClassifyNats` | netjs_new.js:274-339 | the callback's chain is as long as the index of the first public hop |
| `Nats.FinishingKeepsAddressing` | netjs_new.js:304-335 | marking the gateway and enriching the innermost entry keep the chain's length and each entry's ip, publicity, interface type and geo |
| `Nats.ChainIsPrefixBeforeFirstPublic` | netjs_new.js:277-301 | the chain is the hops before the first public hop, in order; each keeps its ip, interface type and geo, and is private; the hop after the chain, if any, is public |
| `Nats.ChainRoles` | netjs_new.js:293-307 | every entry's roles become nat and router and its hop fields are deleted; the outermost entry also has gateway |
| `Nats.EmptyChainIffFirstHopPublic` | netjs_new.js:280-338 | the chain is empty exactly when there are no hops or the first hop is public |
| `Nats.GatewayWithoutPublicHop` | netjs_new.js:280-307 | with no public hop, every hop is in the chain and the last one is still tagged gateway |
| `Nats.OnlyInnermostEnriched` | netjs_new.js:309-335 | only the innermost entry can get a mac, a vendor or a name; its mac is the ARP string when ARP gives one |
| `Nats.TraceChainEnrichment` | netjs_new.js:270-340 | for traced hops, no entry is ever named; every ip is IPv4 or empty; the innermost mac is the ARP string or empty, and its vendor is set only for a non-empty mac and a 200 answer |
| `Nats.TagAsNat` | netjs_new.js:293-298 | a private hop's roles become nat and router and its hop fields are deleted; nothing else changes |
| `Nats.TagNatPrefix` | netjs_new.js:280-301 | the loop returns the hop objects before the first public one, retagged as NATs with hop fields removed, and leaves the later hops untouched |
| `Nats.MarkOutermost` | netjs_new.js:304-307 | gateway is appended to the roles of the last entry of a non-empty chain |
| `Nats.EnrichInnermostHost` | netjs_new.js:315-335 | the ARP, vendor and name lookups act on the innermost entry only |
| `Nats.ClassifyNatChain` | netjs_new.js:274-339 | the traceroute callback leaves the chain in the classified state, and the hops past it untouched |
| `Nats.TraceAnchor` | netjs_new.js:271-274 | the trace towards 8.8.8.8 yields fresh, distinct hop hosts with the hop records of the feed |
| `Nats.DiscoverNats` | netjs_new.js:270-340 | the chain handed to the callback is the classification of the traced hop records |
| `Topology.PublicHostValue` | netjs_new.js:208-232 | the public host always has the public role; with an address it is that ip and public; it never gets a name, mac, vendor or interface type; it gets geo exactly when the address and the geo answer are both present |
| `Topology.ClientHostValue` | netjs_new.js:236-265 | the client host always has the client role and never a name; with an interface, it has its mac, its lower-cased type, its ip and publicity from the ip package; geo only when public; vendor only from a 200 answer for a non-empty mac |
| `Topology.CoreLocalNetworkShape` | netjs_new.js:361-380 | the network is the public host, then the client host, then the NAT chain, and every host in it has a role |
| `Topology.CoreLocalNetworkValue` | netjs_new.js:366-376 | the network holds the public host, the client host, then one entry per hop before the first public hop |
| `Topology.PublicHost` | netjs_new.js:208-232 | the built host is fresh and in the public-host state |
| `Topology.ClientHost` | netjs_new.js:236-265 | the built host is fresh and in the client-host state |
| `Topology.FrontHosts` | netjs_new.js:366-371 | the first two pushes are a fresh public host and a fresh client host, in those states |
| `Topology.CoreLocalNetwork` | netjs_new.js:361-380 | the hosts handed to the callback are fresh and in the core-network state |
| `Pings.ProbesWanted` | net.js:52-70 | a run in which every probe replies sends at least one probe, and exactly n for an option n >= 1 |
| `Pings.Continues` | net.js:60 | after at least one reply, the raw test `cnt < options.numPings` goes on exactly while fewer probes than an all-reply run sends have replied |
| `Pings.CollectSamples` | net.js:52-70 | one sample per reply, in probe order; either the sample count is exactly the wanted count and there is no error, or it is fewer and the error is that of the first failed probe |
| `Pings.RunIsDetermined` | net.js:52-70 | the probe outcomes decide the error and the samples of a run |
| `Pings.RepliesDecideOutcome` | net.js:55-65 | a run ends without error exactly when every probe up to the wanted count replies |
| `Pings.NumPingsField` | net.js:33-39 | the reported count is the option when it is a number greater than 0, and 1 otherwise |
| `Pings.ReportedCountIsProbeCount` | net.js:33-60 | in net.js the count reported equals the number of probes a run with all replies sends |
| `Pings.DoPings` | net.js:21-71 | the results carry the target's host and ip, packet size 64, the normalised count and the samples of the run |
| `Pings.ResolveTarget` | net.js:79-96 | host is the address when it is a string and empty otherwise; ip is the resolved address, or the host when that is empty; numPings passes through |
| `Pings.DoPingsDNS` | net.js:75-104 | a lookup error reports the target object and sends no probe; otherwise the resolved target is pinged |
| `Pings.NormalisePingsOptions` | net.js:107-120 | the address defaults to empty unless it is a string, and numPings to 1 unless it is a number greater than 0 |
| `Pings.PingsPromise` | net.js:106-133 | the promise resolves exactly when the lookup succeeds and all n probes reply, with n samples, the normalised address as host, the resolved ip (or the host) as ip and packet size 64; otherwise it rejects with the lookup error or the first probe error |
| `Pings.PingPromise` | net.js:138-154 | the promise resolves exactly when the lookup succeeds and the first probe replies, with that one sample, the address as host, the resolved ip (or the host) as ip and packet size 64 |
| `Pinger.InvertedNumPingsField` | pinger.js:18-24 | the reported count is the option only when it is a number below 1, and 1 otherwise, so it is never above 1 |
| `Pinger.InvertedCountMisreports` | pinger.js:18-45 | the reported count equals the number of probes a run with all replies sends exactly when the option is missing or 1 |
| `Pinger.DoPings` | pinger.js:6-56 | the same run of probes as net.js, reported with the inverted count |
| `Pinger.DoPingsDNS` | pinger.js:67-96 | a lookup error reports the target object with no probe; otherwise the resolved target is pinged by this module's loop |
| `Pinger.Ping` | pinger.js:103-109 | only the address is passed: a reply to the first probe gives exactly one sample, and an error gives none; probed results carry the address as host, the resolved ip (or the host) as ip and packet size 64 |
| `HttpChecks.HttpCheck` | net.js:339-360 | `httpCheck` resolves to the destination exactly for status 200, and to the empty string for any other status or an error |
| `HttpChecks.KeepNonEmpty` | net.js:373-379 | the filter is no longer than its input and holds only non-empty strings |
| `HttpChecks.KeepNonEmptyContents` | net.js:373-379 | the filter keeps every non-empty string of its input with its multiplicity and drops every empty one |
| `HttpChecks.KeepNonEmptyAppend` | net.js:373-379 | filtering a concatenation is the concatenation of the filtered parts, so input order is kept |
| `HttpChecks.CheckAll` | net.js:367-371 | one check result per destination, in input order |
| `HttpChecks.KeepReached` | net.js:373-382 | the callback's loop pushes exactly the non-empty check results, in order |
| `HttpChecks.HttpChecks` | net.js:364-387 | the result is the non-empty check results in input order |
| `HttpChecks.ReachedDestinations` | net.js:364-387 | a destination is in the result exactly when it is non-empty and a request for it answered 200; the result is no longer than the input |
| `NetTrace.InitialTrInfo` | net.js:399-404 | both target fields are the host argument, the packet size is 64 and there are no hops |
| `NetTrace.Draft` | net.js:425-441 | the feed's address is the target or the error's source; latency is rcvd - sent; the error text is non-empty only for an error that is not a TimeExceededError, and is then the message or its string form |
| `NetTrace.DraftAgreesWithHopRecord` | net.js:422-441 | the latency and error text net.js computes are those of the netjs_new.js hop record, and the error text is non-empty only for an error that is not a TimeExceededError |
| `NetTrace.Traceroute` | net.js:398-470 | the first feed event throws after computing its draft; with no feed event the promise resolves to the initial object or rejects with the done error; a resolved object never has a hop |

## Left out

- Network, DNS, ARP, geo-IP, HTTP and ICMP calls: their answers are inputs, because their code is not part of this model.
- The `ip` package: `isV4Format` and `isPublic` are uninterpreted arguments, because the package is not part of this model.
- Asynchrony and Promise orchestration (`Promise.all`, promise chains): each pipeline is a sequential composition of its callbacks, because the callbacks run one after another.
- The probe session's `'error'` event (netjs_new.js:412-414): it could make the traceroute call back early, possibly twice, and timing is not modelled.
- `hostVendorLookup` with neither an error nor a response (netjs_new.js:164-173): the callback is never called, so that pipeline would hang. The model treats the case as not arising.
- Hosts.HostVendorLookup: does not model the missing-response hang above.
- `numPings` values that are strings, objects, fractional numbers or `Infinity`: an option is an integer or absent (`None` for any non-number), because JavaScript coercion in `<` is out of scope and an unbounded integer cannot stand for `Infinity`. With `Infinity`, net.js reports `Infinity` as the count (net.js:36-37) and probes until the first error (net.js:60); `NaN` behaves as `None` does in the model (count 1, one probe).
- `doPingsDNS` copies `options.packetSize` into the target object (net.js:83, pinger.js:75). No caller sets it and `doPings` ignores it, so the field is not modelled.
- `toLowerCase` beyond ASCII letters: `Common.AsciiLower` maps only A-Z.
- Geo `lat`/`lon` are carried as `real` and never computed on.
- `gateway`, `clientInfo`, `networkInfo`, `localNodes` (net.js:161-322, 485-511): thin wrappers over collaborators. The empty `tracerouteDns` stub (net.js:474-476) has no behaviour.
- The design-level features of netjs: latency statistics, device merging, a rate-limited vendor queue, a role enumeration. They have no code in these files.
- Example scripts: they only print results.
- Nats.TagNatPrefix, Nats.MarkOutermost, Nats.EnrichInnermostHost, Nats.ClassifyNatChain: they require the hop objects to be distinct (`Distinct`); `Tracing.Traceroute` ensures this, because the feed creates a new host per hop. Aliasing between hop objects is not modelled.
- Nats.TraceAnchor: the DNS answer for the destination is taken but never used, since the anchor host has no name and the ip lookup skips it.
- NetTrace.Traceroute: models the `ip` argument as a string, the only thing callers in the repository pass, so the throw is certain. What the probe session does after an exception escapes from its feed callback is not modelled.

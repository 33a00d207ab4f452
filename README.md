# Platoon pub/sub over named data: a verified model

This project models the client programs and evaluation drivers of a
publish/subscribe evaluation over Named Data Networking. In the scenario,
platoons of vehicles ("units") talk through a UAV relay that moves between the
platoons' access points.

- **Participants** publish 16-byte position beacons and segmented voice
  messages. They run one of two sync engines, state-vector sync (SVS) or
  syncps. Every packet goes into the participant's in-memory store. Only
  segment 0 of a voice message is announced through the sync engine. A
  subscriber that receives segment 0 fetches segments 1 to the final block id
  with Interests, and the producer answers them from its store.
- **The SVS relay** caches every position publication, both the inner and the
  outer packet. It discovers producer sessions from the sync engine's
  missing-data reports and registers, once per session, the interest filters
  that let it serve that session's data.
- **The syncps client and relay** hand the engine two callbacks. The reply
  filter orders a reply as ours first, then the others, each group newest
  first. The expiry test reads a publication's time from its name.
- **The first, stand-alone SVS client** has the same shape as the participant,
  with observable differences (see "## Findings").
- **The two Python drivers** do four things:
  - map host names `unit_<p>_<u>` to participant prefixes;
  - build the topology;
  - start each host's program with a shell command;
  - move the UAV between access points by setting link loss rates. The
    wireless driver runs a fixed number of rounds and interrupts the clients
    once.

Modules, one file each:

| module | contents |
|---|---|
| `Wrappers` | `Option`, `Result` |
| `Text` | Python's `str.split`, `'sep'.join`, and decimal formatting of integers |
| `Ndn` | names with typed components, Data, Interest, name-URI parsing |
| `ContentStore` | the in-memory data store as a map from name to packet |
| `Transport` | the face as a log of actions, subscriptions, missing-data reports |
| `SvsClient` | the platoon ring table and the SVS client's subscriptions |
| `Syncps` | the syncps reply filter and expiry test, and the syncps relay |
| `Program` | the participant (`AbstractProgram` and its two subclasses) |
| `SvsUav` | the SVS relay |
| `Legacy` | the first SVS client |
| `Scenario` | the wired emulation driver |
| `EvalWifi` | the wireless evaluation driver |

Behaviours of the code that a reader of its comments and usage lines might
not expect, all of which the model follows:

- **Final block id.** Every voice segment carries the final block id, not only
  segment 0 (`svs-client/src/AbstractProgram.cpp:99`).
- **Position interval.** The participant's position interval is drawn from
  4500..5500 ms (`svs-client/src/AbstractProgram.h:33`), although the comment
  there says once per second.
- **Fetching.** Whether a publication is fetched depends on the subscription
  it arrives on, not on whether it carries a final block id. The voice
  subscription always fetches and the position subscriptions never do.
- **SIGINT.** SIGINT does not stop the publishing loops. `m_running` is never
  cleared, so the loops keep running, but every later publish returns at once.
  A second SIGINT exits the process.
- **Fetched segments.** Segments received in answer to a fetch are only
  printed (`svs-client/src/AbstractProgram.h:91-94`); they are not stored.

## Model

| member | source | states |
|---|---|---|
| Ndn.DropLast | svs-client/src/AbstractProgram.cpp:10 | appending the dropped component gives back the name; the empty name stays empty |
| Ndn.FromUri | svs-client/src/svs-client.cpp:117 | a URI parses to at most one component more than it has slashes, each a non-empty generic component without a slash |
| Ndn.FromUriFields | svs-client/src/svs-client.cpp:117 | a URI `/f1/.../fn/` of plain fields (non-empty, no `/`, `%` or `=`, not all periods) parses to exactly the n generic components f1..fn |
| ContentStore.Insert | svs-client/src/AbstractProgram.cpp:53 | the keys grow by exactly the packet's name; every other entry is unchanged; a store keyed by names stays so |
| ContentStore.Find | svs-client/src/AbstractProgram.h:115 | finds something iff the Interest's name is stored (a miss is None, never an error); what is found carries that name |
| ContentStore.FindAfterInsert | svs-client/src/AbstractProgram.cpp:53 | an insert followed by a find of the same name returns the inserted packet |
| ContentStore.InsertAllKeys | svs-client/src/AbstractProgram.cpp:84-102 | inserting a batch adds exactly the batch's names, keeps every other entry, and keeps the store keyed by names |
| ContentStore.InsertAllFind | svs-client/src/AbstractProgram.cpp:102 | after a batch of distinctly named packets is inserted, each of them is found under its own name |
| SvsClient.PlatoonId | svs-client/src/svs-client.cpp:50 | the platoon id exists iff the prefix has at least two components; a shorter prefix gives None, where the source's `get(1)` is undefined behaviour |
| SvsClient.Neighbours | svs-client/src/svs-client.cpp:52-64 | a platoon is never its own neighbour; a platoon has two distinct neighbours or, outside the table, none |
| SvsClient.PositionSubscriptions | svs-client/src/svs-client.cpp:66-79 | one logging subscription per listed platoon, in list order, on `/position/ndn/<platoon>` |
| SvsClient.NeighboursAreRing | svs-client/src/svs-client.cpp:52-64 | platoon i lists platoon i-1 and then platoon i+1, modulo four |
| SvsClient.NeighboursSymmetric | svs-client/src/svs-client.cpp:52-64 | q is a neighbour of p iff p is a neighbour of q |
| SvsClient.UnknownPlatoonAlone | svs-client/src/svs-client.cpp:49-64 | a platoon id outside the table subscribes to its own platoon only |
| SvsClient.KnownPlatoonThree | svs-client/src/svs-client.cpp:49-64 | a platoon in the table subscribes to three distinct platoons, itself first |
| Syncps.TimestampKey | svs-client/src/syncps-client.cpp:80-85 | the key is the last component when it is a timestamp, otherwise the third-from-last when that one is; failure iff neither is a timestamp |
| Syncps.InsertNewestSorted | svs-client/src/syncps-client.cpp:79-87 | inserting into a newest-first sequence keeps it newest first |
| Syncps.SortNewestFirst | svs-client/src/syncps-client.cpp:88-91 | the sort with the "newer than" comparator returns a permutation (same multiset) whose keys never increase |
| Syncps.FilterPubs | svs-client/src/syncps-client.cpp:71-96 | empty when none of the publications is ours; fails iff a group of two or more holds a publication without a key; otherwise ours then the others, each group a newest-first permutation, nothing dropped |
| Syncps.IsExpired | svs-client/src/syncps-client.cpp:98-107 | fails exactly when the publication has no time key; otherwise not expired iff its age lies strictly between -skew and lifetime+skew |
| Syncps.AgedOutStaysExpired | svs-client/src/syncps-client.cpp:98-107 | once aged out, a publication stays expired at every later time |
| Syncps.LiveWhenPublished | svs-client/src/syncps-client.cpp:98-107 | with a positive skew, a publication is live at its own timestamp |
| Syncps.SyncpsUav.constructor | svs-client/src/syncps-uav.cpp:35-55 | the syncps relay sets a 1000 ms sync interest lifetime and subscribes to nothing |
| Program.ParseClientArgs | svs-client/src/svs-client.cpp:110-119 | exit status 1 iff the argument count is not two; otherwise the prefix parsed as a name URI and the log file |
| Program.ToInt | svs-client/src/svs-client.cpp:85 | an integer stored in an `int`, such as the final block number: a 32-bit two's-complement value congruent to it modulo 2^32, equal to it when it already fits |
| Program.FetchCounterAtIntMax | svs-client/src/AbstractProgram.cpp:12 | as written, the `int` counter after k increments is 1+k stored in an `int`, so it never exceeds 2^31-1 and the guard `i <= finalBlockId` never fails at final block id 2^31-1; after 2^31-1 increments it is -2^31 |
| Program.FetchPlan | svs-client/src/AbstractProgram.cpp:9-23 | one Interest per segment 1..finalBlockId (none for a non-positive id), the k-th for segment k+1 of the same message, each allowing a longer name |
| Program.FetchPlanRequests | svs-client/src/AbstractProgram.cpp:9-23 | the fetch asks for segments 1..finalBlockId exactly, once each, never segment 0, none for a non-positive id; each Interest may be answered by a longer name and names the same message |
| Program.FetchedSegment | svs-client/src/AbstractProgram.cpp:12-17 | the k-th fetch Interest names segment k+1, and the producer's store answers it with that segment |
| Program.VoiceSegmentsDistinct | svs-client/src/AbstractProgram.cpp:84-94 | the segment names of one voice message are pairwise distinct |
| Program.FetchMatchesPublished | svs-client/src/AbstractProgram.cpp:71-114 | for a published message of voiceSize segments (any size below 2^31, so that the final block id is below the largest `int`; 12..20 included), the subscriber's fetch for segment 0 asks for exactly the names of segments 1..voiceSize-1, in order, and the producer's store answers each with that segment |
| Program.PublishedDataKeys | svs-client/src/syncps-client.cpp:80-85 | the syncps key of a position beacon and of every voice segment is its publish time |
| Program.VoiceSubscriptionCoversPlatoon | svs-client/src/svs-client.cpp:81-82 | a participant's voice subscription covers every segment published by any participant of its platoon |
| Program.PositionSubscriptionCovers | svs-client/src/svs-client.cpp:66-68 | the position data of a participant whose platoon is in the subscriber's list falls under one of the subscriber's position prefixes |
| Program.VoiceRound | svs-client/src/AbstractProgram.cpp:63-69 | one more voice message keeps the relation between the store, the published list and the messages published so far |
| Program.VoiceRoundsStep | svs-client/src/AbstractProgram.cpp:63-69 | one more round of the voice thread either publishes a message (before SIGINT) or changes nothing and reports size 0 (after it), and keeps the relation for the publishing rounds |
| Program.PositionRoundsStep | svs-client/src/AbstractProgram.cpp:25-31 | one more round of the position thread either stores and publishes the beacon of its clock reading (before SIGINT) or changes nothing (after it), and keeps the publishing rounds' beacons, in order |
| Program.Signals.constructor | svs-client/src/AbstractProgram.cpp:7 | the SIGINT flag starts lowered, and the process has not exited |
| Program.Signals.HandleSigInt | svs-client/src/AbstractProgram.h:68-74 | the flag is raised; the process exits iff the flag was already raised; an exited process always has the flag raised |
| Program.Program.constructor | svs-client/src/AbstractProgram.h:27-44 | the platoon prefix is the participant prefix minus its last component; one filter on `/voice` + participant serves the store |
| Program.Program.PublishData | svs-client/src/svs-client.cpp:96-98 | one packet handed to the sync engine, exactly once |
| Program.Program.FetchOutstandingVoiceSegments | svs-client/src/AbstractProgram.cpp:9-23 | the face log grows by exactly the Interests of the fetch plan, in order |
| Program.Program.PublishPositionData | svs-client/src/AbstractProgram.cpp:33-61 | after SIGINT nothing changes; otherwise the 16-byte beacon `/position`+participant+timestamp is stored and then published once |
| Program.Program.PublishVoiceData | svs-client/src/AbstractProgram.cpp:71-114 | after SIGINT nothing changes; otherwise 12..20 segments are drawn, all of them are stored, and only segment 0 is published |
| Program.Program.PositionDataPublishingLoop | svs-client/src/AbstractProgram.cpp:25-31 | with SIGINT delivered before a given round: every round draws a delay in 4500..5500 ms; exactly the rounds before the signal (none if it was already raised) store and publish their beacon, in order; the flag ends raised iff it was or the signal came during the run |
| Program.Program.VoiceDataPublishingLoop | svs-client/src/AbstractProgram.cpp:63-69 | with SIGINT delivered before a given round: every round draws a delay in 10000..60000 ms; exactly the rounds before the signal store all segments of a 12..20-segment message and publish its segment 0, in order; the later rounds report size 0 and change nothing |
| Program.Program.OnDataInterest | svs-client/src/AbstractProgram.h:113-119 | sends the stored packet on a hit and nothing on a miss |
| Program.Program.InstanciateSvs | svs-client/src/svs-client.cpp:35-94 | position subscriptions for the own platoon and its ring neighbours, then the voice subscription of the own platoon; on a prefix without a platoon id (undefined behaviour in the source) nothing is subscribed |
| Program.Program.InstanciateSyncps | svs-client/src/syncps-client.cpp:32-68 | a 1000 ms sync interest lifetime, a subscription to all position data and one to the own platoon's voice data |
| Program.Program.InstanciateSync | svs-client/src/AbstractProgram.h:46 | under SVS: the SVS subscriptions and an unchanged sync interest lifetime; under syncps: success, the 1000 ms lifetime and the two syncps subscriptions; a failure changes nothing |
| Program.Program.OnPublication | svs-client/src/svs-client.cpp:81-93 | the voice handler fetches segments 1..n of the received message, n being the final block number narrowed to `int`; the position handler only logs |
| Program.Program.OnMissingData | svs-client/src/svs-client.cpp:100-102 | the participant ignores missing-data reports |
| SvsUav.CoverAllMembers | svs-client/src/svs-uav.cpp:101-115 | a session is covered after a batch iff it was covered before or was reported |
| SvsUav.CoverAllNoDup | svs-client/src/svs-uav.cpp:104-113 | the covered list never holds a session twice |
| SvsUav.CoverAllCovered | svs-client/src/svs-uav.cpp:104-113 | a batch of already covered sessions changes nothing (idempotence) |
| SvsUav.CoverAllAppend | svs-client/src/svs-uav.cpp:101-115 | two batches in a row cover what their concatenation covers |
| SvsUav.RegisteredOnce | svs-client/src/svs-uav.cpp:101-115 | the newly covered sessions are distinct and are exactly the reported sessions not covered before, however often each is reported |
| SvsUav.DataFiltersDistinct | svs-client/src/svs-uav.cpp:86 | distinct sessions get distinct data filters |
| SvsUav.CoverNew | svs-client/src/svs-uav.cpp:110-112 | covering one new session and registering its filters keeps the discovery relation between the covered list and the face log |
| SvsUav.Relay.constructor | svs-client/src/svs-uav.cpp:36-81 | the relay runs under `/uav` with one caching subscription to all position data, an empty store and no filters |
| SvsUav.Relay.ListenToPrefix | svs-client/src/svs-uav.cpp:83-95 | registers session+sync prefix for data, then session+sync prefix+`MAPPING` for the mapping |
| SvsUav.Relay.OnMissingData | svs-client/src/svs-uav.cpp:101-115 | the covered list becomes the batch's cover; the log grows by the filters of exactly the newly covered sessions; the face's filters remain those of the covered list |
| SvsUav.Relay.OnPositionData | svs-client/src/svs-uav.cpp:76-79 | caches the inner packet and then the outer one |
| SvsUav.Relay.OnDataInterest | svs-client/src/svs-uav.cpp:128-135 | sends the stored packet on a hit and nothing on a miss |
| SvsUav.CachedPositionServed | svs-client/src/svs-uav.cpp:76-79 | after a position publication is cached, the relay serves its outer packet and, if named differently, its inner one |
| Legacy.ParseArgs | svs-client/svs-client.cpp:295-303 | exit status 1 iff the argument count is not one; otherwise sync prefix `/ndn/svs` and the given id |
| Legacy.LegacyFetchMissesFinalSegment | svs-client/svs-client.cpp:158-172 | as written, the fetch for a message of voiceSize segments asks for voiceSize-2 segments and never for the last one |
| Legacy.LegacySegmentNamesUnreachable | svs-client/svs-client.cpp:241-261 | as written, segment i is named with i+1 segment components, so no fetch Interest is a prefix of any segment name |
| Legacy.LegacyProgram.constructor | svs-client/svs-client.cpp:40-94 | logging subscription to all position data, fetching subscription to all voice data, filters on `/voice` and `/position` |
| Legacy.LegacyProgram.OnDataInterest | svs-client/svs-client.cpp:141-147 | answers nothing |
| Legacy.LegacyProgram.FetchOutstandingVoiceSegments | svs-client/svs-client.cpp:158-172 | the face log grows by the Interests for segments 1..finalBlockId-1 |
| Legacy.LegacyProgram.OnPublication | svs-client/svs-client.cpp:73-83 | the voice handler fetches with the received final block number narrowed to `int`; the position handler only logs |
| Legacy.LegacyProgram.PublishPositionData | svs-client/svs-client.cpp:189-216 | publishes `/position` + the id parsed as a name URI + the timestamp once, stores nothing |
| Legacy.LegacyProgram.PublishVoiceData | svs-client/svs-client.cpp:236-278 | 12..20 segments under `/voice` + the id parsed as a name URI + timestamp + version 0, segment i named with segments 0..i; only segment 0 is published, nothing is stored |
| Legacy.LegacyProgram.PositionDataPublishingLoop | svs-client/svs-client.cpp:177-184 | delays in 900..1100 ms; one beacon per round, in order, each named `/position` + the id's URI components + the round's time |
| Legacy.LegacyProgram.VoiceDataPublishingLoop | svs-client/svs-client.cpp:221-228 | delays in 10000..60000 ms; segment 0 of one message per round, in order, under `/voice` + the id's URI components + the round's time |
| Scenario.UnitnameToNamePrefix | pubsub-eval-scenario.py:68-77 | raises IndexError iff the name holds fewer than two `_`; otherwise a prefix `/ndn/platoon…/` ending in a slash |
| Scenario.UnitnameFields | pubsub-eval-scenario.py:68-77 | the mapping reads the second and third `_`-field and nothing else |
| Scenario.UnitnameOfHost | pubsub-eval-scenario.py:75-77 | host `unit_i_j` gets the prefix `/ndn/platoon<i>/unit<j>/` |
| Scenario.HostJoinsPlatoon | pubsub-eval-scenario.py:121 | the prefix given to host `unit_i_j` parses to `/ndn/platoon<i>/unit<j>`, whose platoon id is the ring table's `platoon<i>` |
| Scenario.UnitNameInjective | pubsub-eval-scenario.py:165 | distinct (platoon, unit) pairs give distinct host names |
| Scenario.ApNameInjective | pubsub-eval-scenario.py:161 | distinct platoons give distinct access-point names |
| Scenario.ApLossRate | pubsub-eval-scenario.py:93 | 10 % exactly for the chosen access point, 100 % for every other |
| Scenario.ConnectedAps | pubsub-eval-scenario.py:89-94 | exactly one access point is connected when the number names one, none otherwise |
| Scenario.Network.SetLinkLossTo | pubsub-eval-scenario.py:80-86 | both ends of every link between the two nodes get the loss rate; every other link is unchanged |
| Scenario.Network.ConnectToAp | pubsub-eval-scenario.py:89-94 | the UAV's link to the chosen access point gets 10 %, its other access-point links 100 %, other links unchanged |
| Scenario.ConnectedAgain | pubsub-eval-scenario.py:89-94 | a later connect overrides an earlier one on every UAV-to-access-point link |
| Scenario.BuiltUavLink | pubsub-eval-scenario.py:154-167 | in the built topology, link k joins the UAV and access point i iff k is i*6 |
| Scenario.ConnectedTopology | pubsub-eval-scenario.py:89-94 | `connect_to_ap` on the built topology gives the UAV's link to access point i the connected or disconnected rate and leaves every access-point-to-unit link without loss |
| Scenario.Network.Rotate | pubsub-eval-scenario.py:225-235 | connects to access point 0, then to 0,1,2,3,0,... for ten steps; the last connect decides the links |
| Scenario.UnitIndexes | pubsub-eval-scenario.py:160-167 | unit j of platoon i is host number 5i+j |
| Scenario.LinkIndexes | pubsub-eval-scenario.py:160-167 | the UAV link of platoon i is link 6i, and the link to its unit j is link 6i+1+j |
| Scenario.BuildTopology | pubsub-eval-scenario.py:154-167 | four access points `ap<i>`, the units and the links of every platoon, in the order they are added |
| EvalWifi.Executables | eval_wifi.py:55-66 | both executables are set iff the protocol is svs, syncps or ip |
| EvalWifi.BasenameOf | eval_wifi.py:244 | the process name of `dir/file` is `file` |
| EvalWifi.ProcessNames | eval_wifi.py:55-66 | the process names `pkill` and `killall` get for each protocol's client and relay |
| EvalWifi.GetLogPath | eval_wifi.py:75-76 | for a protocol without a slash, the log path is the main directory followed by the protocol and the run number as two more levels |
| EvalWifi.LogPathsDistinct | eval_wifi.py:75-76 | different runs of one protocol log to different directories |
| EvalWifi.ClientStartsAsParticipant | eval_wifi.py:125-135 | for svs and syncps, host `unit_i_j` starts a client whose argument check passes, with participant `/ndn/platoon<i>/unit<j>` of platoon `platoon<i>` and log file `<log>/unit_i_j.log` |
| EvalWifi.IpClientArguments | eval_wifi.py:130-132 | for ip, the daemon gets the node name, its log file, the port `:8333` and its store directory |
| EvalWifi.ClientCommand | eval_wifi.py:125-135 | fails iff the host name has fewer than two `_`, for every protocol; otherwise starts with the executable and ends in `&`, in the background |
| EvalWifi.UavCommand | eval_wifi.py:150-156 | starts with the relay executable and ends in `&`, in the background |
| EvalWifi.UavArguments | eval_wifi.py:150-156 | outside ip the relay gets no argument; under ip it gets the daemon's arguments and the `/uav` value is not used |
| EvalWifi.RoundLoop | eval_wifi.py:240-256 | 21 iterations, SIGINT to the clients after 8, then `killall` of client and relay; link index (k+2) mod 4 at iteration k; an unset executable ends the run with an error at the first command that names it |

## Left out

- Threads and time:
  - The event loop, the publishing threads and their joins are not modelled; each loop is modelled by its rounds over a given sequence of clock readings.
  - SIGINT is delivered between two rounds of a publishing loop. The publish methods read the flag only on entry, so a signal in the middle of a round has the same effect as one delivered before the next round. The two threads are modelled one at a time, each with its own signal round.
  - Sleeping, the status logging and the Python `sleep` calls are left out.
  - Timestamps and `system_clock::now()` are parameters.
- Randomness: every random draw is a nondeterministic choice within the distribution's bounds. Payload bytes are not modelled, only their length.
- Signing and security: SHA-256 signing, the HMAC key, the key chain and the security options are left out. They do not affect names or delivery.
- Logging: all logging and console output are left out (`log.hpp`, `initlogger`, `BOOST_LOG_TRIVIAL`, `std::cout`).
- The sync engines (SVS, syncps):
  - The engines' protocols, state vectors, publication delivery, the mapping provider behind `onMappingInterest`, and the relay fetcher's window size of 40 are left out. They are library code this model cannot see.
  - Publishing is an append to the participant's `published` list.
  - Delivery is the `OnPublication` and `OnMissingData` handlers, called with what the engine would hand over.
- Library constants: `syncps::maxPubLifetime` and `syncps::maxClockSkew` are parameters of `Syncps.IsExpired`.
- Face callbacks: the `onData`, `onNack`, `onTimeout` and `onRegisterFailed` callbacks only print. Registration always succeeds in the model.
- ContentStore.Find: lookup is by exact name. The memory data store's own matching is not part of this model, so an Interest with CanBePrefix is not matched against longer names.
- Program.Program.OnPublication: requires that the received packet carries a final block id. The source dereferences the optional without a check, so a packet without one is undefined behaviour there.
- Program.Program.OnPublication: a final block component that is not a number makes `toNumber()` throw in the source; the model's final block is always a number, so that exception is not modelled.
- Program.Program.FetchOutstandingVoiceSegments: the counter is an unbounded integer. At final block id 2^31-1 the source's `i++` overflows, which is undefined behaviour; compiled code loops forever there (see "## Findings"), while the model ends after 2^31-1 Interests.
- Program.ToInt: the narrowing of a value of 2^31 or more to `int` is implementation-defined before C++20; the model wraps modulo 2^32, as the usual compilers do.
- Legacy.LegacyProgram.OnPublication: the same requirement and the same missing `toNumber()` exception, for the same reasons.
- Ndn.FromUri: models `ndn::Name(uri)` only for plain fields. Percent-escapes, the typed `seg=`, `v=` and `t=` forms, the `ndn:` scheme, empty fields between two slashes and fields made only of periods are not decoded as ndn-cxx does.
- Program.ParseClientArgs: the prefix argument goes through `Ndn.FromUri`, so it is parsed as ndn-cxx does only when its fields are plain.
- SvsClient.PositionPrefix: builds `ndn::Name("/position/ndn/" + p)` as three generic components, which is what ndn-cxx gives for a plain platoon id p such as the table's; a p with a slash or an escape would parse differently.
- SvsClient.PlatoonId: on a prefix of fewer than two components the source reads past the end of the name (undefined behaviour); the model returns None.
- Program.Program.InstanciateSvs: on such a prefix the source has already created the sync engine before the undefined read; the model fails before any change.
- Syncps.TimestampKey: on a name of fewer than three components whose last component is not a timestamp, the source indexes before the name's start (undefined behaviour). The model reports the same error as for a non-timestamp component.
- Syncps.SortNewestFirst: among publications with equal keys, `std::sort` may return any order. The model fixes one of those orders.
- Program.Program.constructor: the source's derived constructors call `instanciateSync()` at the end. In the model the constructor and `InstanciateSync` are two calls.
- Relay leftovers: the SVS relay's `publishData` is never called and its `m_running` is never read, so neither is modelled. The same holds for the syncps relay's `m_running`, signing info and data store.
- Mininet, Mini-NDN and the machine: the topology objects, NFD start and `nfdc` commands, `AppManager`, status and report files, directory creation and `chown`, and `random.seed` are left out.
- Wireless driver: its wireless topology and mobility set-up is left out.
- pubsub-eval-scenario.py process control: the final `pkill` of the client and relay executables (`pubsub-eval-scenario.py:238-239`) is left out.
- Shared with the wireless driver:
  - `getLogPath`, the `PlatoonClient` command and the `UAVClient` command in `pubsub-eval-scenario.py` are written exactly like the wireless driver's non-ip branch. They are modelled once, by `EvalWifi.GetLogPath`, `EvalWifi.ClientCommand` and `EvalWifi.UavCommand`.
  - The wireless driver's `unitname_to_name_prefix` is identical to the scenario's and is modelled by `Scenario.UnitnameToNamePrefix`.
- EvalWifi.RoundLoop: records the link index the loop computes. The wireless driver never applies it to a link, and the model does not either.
- EvalWifi.ClientStartsAsParticipant: proved for every executable path without a space, not for the three literal paths.
- EvalWifi.IpClientArguments: the same, proved for every executable path without a space.
- EvalWifi.UavArguments: proved for every relay path and node name without a space.
- svs-client/test/IBFTest.cpp is not part of this model: it exercises a library data structure outside the core.

## Findings

| source | as written | input that shows it | evidently intended | confidence | as-written member | corrected member |
|---|---|---|---|---|---|---|
| svs-client/svs-client.cpp:161 | the fetch loop runs `i` from 1 while `i < finalBlockId` | a voice message of 12 segments: final block id 11, Interests for segments 1..10 only, segment 11 is never requested | segments 1..finalBlockId inclusive, as `svs-client/src/AbstractProgram.cpp:12` does | high; not executed | Legacy.LegacyFetchMissesFinalSegment | Program.FetchPlanRequests |
| svs-client/src/AbstractProgram.cpp:12 | `for (int i = 1; i <= finalBlockId; i++)` with an `int` counter | a received segment 0 whose final block number narrows to 2^31-1 (any value congruent to it modulo 2^32, chosen by the publisher): no `int` exceeds it, so the guard never fails, the counter overflows and the subscriber keeps expressing Interests | a loop that ends after finalBlockId Interests, e.g. with a wider counter or a bound check | medium; not executed | Program.FetchCounterAtIntMax | Program.Program.FetchOutstandingVoiceSegments |
| svs-client/svs-client.cpp:256 | `appendSegment(i)` on the one name shared by all iterations | segment 1 is named `.../v=0/seg=0/seg=1`; the fetch Interest `.../v=0/seg=1` is not a prefix of it, so no segment after 0 can be fetched | a fresh copy of the message name per segment, as `svs-client/src/AbstractProgram.cpp:93-94` does | high; not executed | Legacy.LegacySegmentNamesUnreachable | Program.FetchMatchesPublished |

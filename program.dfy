/**
 * The platoon participant (`AbstractProgram` and its two subclasses,
 * the state-vector-sync client and the syncps client). A participant
 * periodically publishes 16-byte position beacons and segmented voice
 * messages: every segment goes into its own data store, only segment 0 is
 * announced through the sync engine, and a subscriber that receives
 * segment 0 fetches segments 1 to the final block id with Interests.
 */
module Program {
  import opened Wrappers
  import opened Ndn
  import opened ContentStore
  import opened Transport
  import SvsClient
  import Syncps

  /**
   * The clients' command line: exactly two arguments, the participant prefix
   * (parsed as a name URI) and the log file; anything else exits with status 1.
   */
  function ParseClientArgs(argv: seq<string>): (r: Result<(Name, string), int>)
    ensures r.Failure? <==> |argv| != 3
    ensures r.Failure? ==> r.error == 1
    ensures r.Success? ==> r.value == (FromUri(argv[1]), argv[2])
  {
    if |argv| != 3 then Failure(1) else Success((FromUri(argv[1]), argv[2]))
  }

  /** Position interval draw, in ms: the integer bounds of 5000 * 0.9 and 5000 * 1.1. */
  const PositionIntervalMinMs := 4500
  const PositionIntervalMaxMs := 5500
  /** Voice interval draw, in ms. */
  const VoiceIntervalMinMs := 10000
  const VoiceIntervalMaxMs := 60000
  /** Number of segments of one voice message (also its per-segment content length). */
  const VoiceSizeMin := 12
  const VoiceSizeMax := 20
  /** Freshness period of every published packet, in ms. */
  const FreshnessMs := 1000
  /** Content length of a position beacon, in bytes. */
  const PositionContentSize := 16

  /**
   * An integer stored in a C++ `int`: narrowed to 32 bits, two's complement.
   * This is what happens to the `uint64_t` from `toNumber()` when a final
   * block number is stored, and to a counter incremented past 2^31 - 1.
   */
  function ToInt(n: int): (r: int)
    ensures -0x8000_0000 <= r < 0x8000_0000
    ensures (r - n) % 0x1_0000_0000 == 0
    ensures -0x8000_0000 <= n < 0x8000_0000 ==> r == n
  {
    var m := n % 0x1_0000_0000;
    if m < 0x8000_0000 then m else m - 0x1_0000_0000
  }

  /** Two integers equal modulo 2^32 are stored as the same `int`. */
  lemma ToIntCongruent(a: int, b: int)
    requires (a - b) % 0x1_0000_0000 == 0
    ensures ToInt(a) == ToInt(b)
  {
    var q := (a - b) / 0x1_0000_0000;
    assert a == b + q * 0x1_0000_0000;
    assert a % 0x1_0000_0000 == b % 0x1_0000_0000;
  }

  /** Incrementing a stored `int` and storing the result again is storing the incremented integer. */
  lemma ToIntStep(n: int)
    ensures ToInt(ToInt(n) + 1) == ToInt(n + 1)
  {
    var r := ToInt(n);
    assert (r + 1) - (n + 1) == r - n;
    ToIntCongruent(r + 1, n + 1);
  }

  /**
   * The source's fetch counter `int i` after k increments from 1, each
   * increment stored back into an `int` (the increment past 2^31 - 1 is
   * undefined behaviour in C++; it is taken to wrap, as compiled code does).
   */
  function FetchCounter(k: nat): (i: int)
    ensures -0x8000_0000 <= i < 0x8000_0000
  {
    if k == 0 then 1 else ToInt(FetchCounter(k - 1) + 1)
  }

  /** An integer that fits is stored unchanged. */
  lemma ToIntSmall(n: int)
    requires -0x8000_0000 <= n < 0x8000_0000
    ensures ToInt(n) == n
  {
  }

  /** One past the largest `int` is stored as the smallest. */
  lemma IntMaxWraps()
    ensures ToInt(0x7FFF_FFFF + 1) == -0x8000_0000
  {
  }

  /**
   * As written, the fetch loop `for (int i = 1; i <= finalBlockId; i++)`
   * never ends when the final block id is 2^31 - 1: every value the counter
   * takes passes the guard, and after 2^31 - 1 rounds it wraps to -2^31
   * and goes on.
   */
  lemma {:induction false} FetchCounterAtIntMax(k: nat)
    ensures FetchCounter(k) == ToInt(1 + k)
    ensures FetchCounter(k) <= ToInt(0x7FFF_FFFF)
    ensures k == 0x7FFF_FFFF ==> FetchCounter(k) == -0x8000_0000
  {
    if k > 0 {
      FetchCounterAtIntMax(k - 1);
      ToIntStep(k);
    }
    assert ToInt(0x7FFF_FFFF) == 0x7FFF_FFFF by {
      ToIntSmall(0x7FFF_FFFF);
    }
    IntMaxWraps();
  }


  /** `/position` ++ participant ++ timestamp. */
  function PositionName(participant: Name, now: int): Name
  {
    [Generic("position")] + participant + [Timestamp(now)]
  }

  function PositionData(participant: Name, now: int): Data
  {
    Data(PositionName(participant, now), PositionContentSize, FreshnessMs, None)
  }

  /** `/voice` ++ participant ++ timestamp ++ version 0: the name every segment extends. */
  function VoicePrefix(participant: Name, now: int): Name
  {
    [Generic("voice")] + participant + [Timestamp(now), Version(0)]
  }

  /** Segment `i` of a voice message of `voiceSize` segments. */
  function VoiceSegment(prefix: Name, i: nat, voiceSize: nat): Data
    requires i < voiceSize
  {
    Data(prefix + [Segment(i)], voiceSize, FreshnessMs, Some(voiceSize - 1))
  }

  /** All segments of one voice message, segment 0 first. */
  function VoiceSegments(prefix: Name, voiceSize: nat): seq<Data>
  {
    seq(voiceSize, i requires 0 <= i < voiceSize => VoiceSegment(prefix, i, voiceSize))
  }

  /**
   * The Interests issued for a received segment 0 named `name` with final
   * block id `finalBlockId`: segment i of the same message for i = 1..finalBlockId.
   */
  function FetchPlan(name: Name, finalBlockId: int): (r: seq<Interest>)
    ensures |r| == if finalBlockId <= 0 then 0 else finalBlockId
    ensures forall k :: 0 <= k < |r| ==>
      r[k].canBePrefix && DropLast(r[k].name) == DropLast(name) && RequestedSegment(r[k]) == k + 1
  {
    seq(if finalBlockId <= 0 then 0 else finalBlockId,
      k requires 0 <= k => Interest(DropLast(name) + [Segment(k + 1)], true))
  }

  /** The segment number an Interest asks for, or -1 when its name does not end in one. */
  function RequestedSegment(i: Interest): int
  {
    if |i.name| > 0 && i.name[|i.name| - 1].Segment? then i.name[|i.name| - 1].segmentNo else -1
  }

  function RequestedSegments(plan: seq<Interest>): set<int>
  {
    set k | 0 <= k < |plan| :: RequestedSegment(plan[k])
  }

  lemma FetchPlanStep(name: Name, finalBlockId: int)
    requires finalBlockId >= 1
    ensures FetchPlan(name, finalBlockId)
      == FetchPlan(name, finalBlockId - 1) + [Interest(DropLast(name) + [Segment(finalBlockId)], true)]
  {
  }

  lemma ExpressionsSnoc(interests: seq<Interest>, i: Interest)
    ensures Expressions(interests + [i]) == Expressions(interests) + [Expressed(i)]
  {
    assert (interests + [i])[..|interests|] == interests;
  }

  /** One more fetch Interest, for segment i, extends the log of the plan up to i - 1 to the log of the plan up to i. */
  lemma FetchLogStep(log: seq<Action>, name: Name, i: int)
    requires i >= 1
    ensures log + Expressions(FetchPlan(name, i - 1)) + [Expressed(Interest(DropLast(name) + [Segment(i)], true))]
      == log + Expressions(FetchPlan(name, i))
  {
    var next := Interest(DropLast(name) + [Segment(i)], true);
    var before := FetchPlan(name, i - 1);
    FetchPlanStep(name, i);
    ExpressionsSnoc(before, next);
    assert Expressions(FetchPlan(name, i)) == Expressions(before) + [Expressed(next)];
    assert log + Expressions(before) + [Expressed(next)] == log + (Expressions(before) + [Expressed(next)]);
  }

  /**
   * The fetch asks for exactly segments 1..finalBlockId (none when the final
   * block id is not positive), once each, never for segment 0; every Interest
   * may be answered by a longer name, and its name is the received name with
   * the segment component replaced.
   */
  lemma FetchPlanRequests(name: Name, finalBlockId: int)
    ensures |FetchPlan(name, finalBlockId)| == if finalBlockId <= 0 then 0 else finalBlockId
    ensures forall s :: s in RequestedSegments(FetchPlan(name, finalBlockId)) <==> 1 <= s <= finalBlockId
    ensures 0 !in RequestedSegments(FetchPlan(name, finalBlockId))
    ensures forall k :: 0 <= k < |FetchPlan(name, finalBlockId)| ==>
      && FetchPlan(name, finalBlockId)[k].canBePrefix
      && FetchPlan(name, finalBlockId)[k].name == DropLast(name) + [Segment(RequestedSegment(FetchPlan(name, finalBlockId)[k]))]
  {
    var plan := FetchPlan(name, finalBlockId);
    forall k | 0 <= k < |plan| ensures RequestedSegment(plan[k]) == k + 1 {
      assert plan[k].name[|plan[k].name| - 1] == Segment(k + 1);
    }
    forall s | 1 <= s <= finalBlockId ensures s in RequestedSegments(plan) {
      assert RequestedSegment(plan[s - 1]) == s;
    }
  }

  /** Segment names of one voice message are pairwise distinct. */
  lemma VoiceSegmentsDistinct(prefix: Name, voiceSize: nat)
    ensures DistinctNames(VoiceSegments(prefix, voiceSize))
  {
    var segs := VoiceSegments(prefix, voiceSize);
    forall i, j | 0 <= i < j < |segs| ensures segs[i].name != segs[j].name {
      assert segs[i].name[|prefix|] == Segment(i);
      assert segs[j].name[|prefix|] == Segment(j);
    }
  }

  /** The k-th fetch Interest for a message asks for segment k+1, which the store holds. */
  lemma FetchedSegment(store: Store, prefix: Name, voiceSize: nat, k: nat)
    requires k + 1 < voiceSize
    ensures var segs := VoiceSegments(prefix, voiceSize);
      && FetchPlan(prefix + [Segment(0)], voiceSize - 1)[k] == Interest(segs[k + 1].name, true)
      && Find(InsertAll(store, segs), Interest(segs[k + 1].name, true)) == Some(segs[k + 1])
  {
    var segs := VoiceSegments(prefix, voiceSize);
    assert DropLast(prefix + [Segment(0)]) == prefix;
    VoiceSegmentsDistinct(prefix, voiceSize);
    InsertAllFind(store, segs, k + 1, true);
  }

  /**
   * Publishing and fetching fit together: a subscriber that receives segment 0
   * of a voice message asks for exactly the names of segments 1..voiceSize-1,
   * in order, and the publisher's store answers each of them with that segment.
   * This holds whenever the final block id fits in an `int` and is below
   * 2^31 - 1, where the fetch counter would overflow; 11..19 are.
   */
  lemma FetchMatchesPublished(store: Store, prefix: Name, voiceSize: nat)
    requires 1 <= voiceSize < 0x8000_0000
    ensures var segs := VoiceSegments(prefix, voiceSize);
      var plan := FetchPlan(segs[0].name, ToInt(segs[0].finalBlock.value));
      && |plan| == voiceSize - 1
      && forall k :: 0 <= k < |plan| ==>
        && plan[k].name == segs[k + 1].name
        && Find(InsertAll(store, segs), plan[k]) == Some(segs[k + 1])
  {
    var segs := VoiceSegments(prefix, voiceSize);
    assert segs[0].name == prefix + [Segment(0)] && segs[0].finalBlock.value == voiceSize - 1;
    assert ToInt(segs[0].finalBlock.value) == voiceSize - 1;
    var plan := FetchPlan(prefix + [Segment(0)], voiceSize - 1);
    forall k | 0 <= k < |plan|
      ensures plan[k].name == segs[k + 1].name
      ensures Find(InsertAll(store, segs), plan[k]) == Some(segs[k + 1])
    {
      FetchedSegment(store, prefix, voiceSize, k);
    }
  }

  /** The time read by the syncps key rule is the publish time, for both kinds of data. */
  lemma PublishedDataKeys(participant: Name, now: int, i: nat, voiceSize: nat)
    requires i < voiceSize
    ensures Syncps.TimestampKey(PositionData(participant, now)) == Success(now)
    ensures Syncps.TimestampKey(VoiceSegment(VoicePrefix(participant, now), i, voiceSize)) == Success(now)
  {
    var n := VoiceSegment(VoicePrefix(participant, now), i, voiceSize).name;
    assert n[|n| - 3] == Timestamp(now);
  }

  /**
   * The voice subscription of a participant covers every segment published by
   * any participant of the same platoon (same prefix without the last component).
   */
  lemma VoiceSubscriptionCoversPlatoon(subscriber: Name, publisher: Name, now: int, i: nat, voiceSize: nat)
    requires |publisher| >= 1
    requires DropLast(subscriber) == DropLast(publisher)
    requires i < voiceSize
    ensures SvsClient.VoiceSubscription(DropLast(subscriber)).prefix
      <= VoiceSegment(VoicePrefix(publisher, now), i, voiceSize).name
  {
    assert publisher == DropLast(publisher) + [publisher[|publisher| - 1]];
  }

  /**
   * A participant `/ndn/<q>/...` whose platoon q is in a subscriber's list
   * publishes position data under one of that subscriber's position prefixes.
   */
  lemma PositionSubscriptionCovers(subscriberPlatoon: string, publisher: Name, now: int)
    requires |publisher| >= 2 && publisher[0] == Generic("ndn") && publisher[1].Generic?
    requires publisher[1].value in SvsClient.SubscribedPlatoons(subscriberPlatoon)
    ensures exists k :: (0 <= k < |SvsClient.SubscribedPlatoons(subscriberPlatoon)|
      && SvsClient.PositionSubscriptions(SvsClient.SubscribedPlatoons(subscriberPlatoon))[k].prefix
        <= PositionName(publisher, now))
  {
    var ps := SvsClient.SubscribedPlatoons(subscriberPlatoon);
    var k :| 0 <= k < |ps| && ps[k] == publisher[1].value;
    assert SvsClient.PositionPrefix(ps[k]) == PositionName(publisher, now)[..3];
    assert SvsClient.PositionSubscriptions(ps)[k].prefix <= PositionName(publisher, now);
  }

  /** Every element lies in [lo, hi]. */
  predicate AllWithin(xs: seq<int>, lo: int, hi: int)
  {
    forall j :: 0 <= j < |xs| ==> lo <= xs[j] <= hi
  }

  /** Position data published at the given clock readings, in order. */
  function PositionBatch(participant: Name, clock: seq<int>): seq<Data>
  {
    seq(|clock|, k requires 0 <= k < |clock| => PositionData(participant, clock[k]))
  }

  /**
   * The voice thread after the rounds of `done`: the first n of them
   * published their message, the rest reported size 0.
   */
  predicate VoiceRounds(store: Store, published: seq<Data>, store0: Store, published0: seq<Data>,
                        participant: Name, done: seq<int>, sizes: seq<nat>, n: nat)
  {
    && n <= |sizes| == |done|
    && (forall j :: n <= j < |sizes| ==> sizes[j] == 0)
    && VoiceProgress(store, published, store0, published0, participant, done[..n], sizes[..n])
  }

  /**
   * One more round of the voice thread: it publishes a message of size v
   * when it is still one of the publishing rounds, and otherwise changes
   * nothing and reports 0.
   */
  lemma VoiceRoundsStep(store1: Store, published1: seq<Data>, store2: Store, published2: seq<Data>,
                        store0: Store, published0: seq<Data>, participant: Name,
                        clock: seq<int>, sizes: seq<nat>, k: nat, n: nat, publishes: bool, v: nat)
    requires k < |clock|
    requires VoiceRounds(store1, published1, store0, published0, participant, clock[..k], sizes, n)
    requires publishes ==> n == k
    requires publishes ==>
      && VoiceSizeMin <= v <= VoiceSizeMax
      && store2 == InsertAll(store1, VoiceSegments(VoicePrefix(participant, clock[k]), v))
      && published2 == published1 + [VoiceSegment(VoicePrefix(participant, clock[k]), 0, v)]
    requires !publishes ==> v == 0 && store2 == store1 && published2 == published1
    ensures VoiceRounds(store2, published2, store0, published0, participant, clock[..k + 1], sizes + [v],
      if publishes then k + 1 else n)
  {
    if publishes {
      VoicePublishingRound(store1, published1, store0, published0, participant, clock, sizes, k, v);
    } else {
      VoiceIdleRound(store1, published1, store0, published0, participant, clock, sizes, k, n);
    }
  }

  /** A voice round that publishes extends the published rounds by one. */
  lemma VoicePublishingRound(store1: Store, published1: seq<Data>, store0: Store, published0: seq<Data>,
                             participant: Name, clock: seq<int>, sizes: seq<nat>, k: nat, v: nat)
    requires k < |clock|
    requires VoiceRounds(store1, published1, store0, published0, participant, clock[..k], sizes, k)
    requires VoiceSizeMin <= v <= VoiceSizeMax
    ensures VoiceRounds(InsertAll(store1, VoiceSegments(VoicePrefix(participant, clock[k]), v)),
      published1 + [VoiceSegment(VoicePrefix(participant, clock[k]), 0, v)],
      store0, published0, participant, clock[..k + 1], sizes + [v], k + 1)
  {
    var sizes' := sizes + [v];
    assert clock[..k][..k] == clock[..k] && sizes[..k] == sizes;
    VoiceRound(store1, published1, store0, published0, participant, clock[..k], sizes, clock[k], v);
    assert clock[..k + 1][..k + 1] == clock[..k] + [clock[k]];
    assert sizes'[..k + 1] == sizes';
  }

  /** A voice round after the signal changes nothing and reports size 0. */
  lemma VoiceIdleRound(store: Store, published: seq<Data>, store0: Store, published0: seq<Data>,
                       participant: Name, clock: seq<int>, sizes: seq<nat>, k: nat, n: nat)
    requires k < |clock|
    requires VoiceRounds(store, published, store0, published0, participant, clock[..k], sizes, n)
    ensures VoiceRounds(store, published, store0, published0, participant, clock[..k + 1], sizes + [0], n)
  {
    var sizes' := sizes + [0];
    assert clock[..k + 1][..n] == clock[..k][..n];
    assert sizes'[..n] == sizes[..n];
  }

  /**
   * The position thread after the rounds of `done`: the first n of them
   * published their beacon, in order, the rest did nothing.
   */
  predicate PositionRounds(store: Store, published: seq<Data>, store0: Store, published0: seq<Data>,
                           participant: Name, done: seq<int>, n: nat)
  {
    && n <= |done|
    && store == InsertAll(store0, PositionBatch(participant, done[..n]))
    && published == published0 + PositionBatch(participant, done[..n])
  }

  /**
   * One more round of the position thread: it publishes the beacon of
   * `clock[k]` when it is still one of the publishing rounds, and otherwise
   * changes nothing.
   */
  lemma PositionRoundsStep(store1: Store, published1: seq<Data>, store2: Store, published2: seq<Data>,
                           store0: Store, published0: seq<Data>, participant: Name,
                           clock: seq<int>, k: nat, n: nat, publishes: bool)
    requires k < |clock|
    requires PositionRounds(store1, published1, store0, published0, participant, clock[..k], n)
    requires publishes ==> n == k
    requires publishes ==>
      && store2 == Insert(store1, PositionData(participant, clock[k]))
      && published2 == published1 + [PositionData(participant, clock[k])]
    requires !publishes ==> store2 == store1 && published2 == published1
    ensures PositionRounds(store2, published2, store0, published0, participant, clock[..k + 1],
      if publishes then k + 1 else n)
  {
    if publishes {
      var batch := PositionBatch(participant, clock[..k + 1]);
      assert clock[..k][..k] == clock[..k] && clock[..k + 1][..k + 1] == clock[..k + 1];
      assert batch == PositionBatch(participant, clock[..k]) + [PositionData(participant, clock[k])];
      assert batch[..k] == PositionBatch(participant, clock[..k]);
    } else {
      assert clock[..k + 1][..n] == clock[..k][..n];
    }
  }

  /**
   * How many of `rounds` publishing rounds publish when SIGINT is delivered
   * just before round `sigintRound`: none when the flag was already raised.
   */
  function PublishingRounds(raised: bool, sigintRound: nat, rounds: nat): (n: nat)
    ensures n <= rounds
  {
    if raised then 0 else if sigintRound < rounds then sigintRound else rounds
  }

  /** Segment 0 of each voice message, in publishing order. */
  function VoiceHeads(participant: Name, clock: seq<int>, sizes: seq<nat>): seq<Data>
    requires |sizes| == |clock|
    requires forall k :: 0 <= k < |sizes| ==> sizes[k] >= 1
  {
    seq(|clock|, k requires 0 <= k < |clock| => VoiceSegment(VoicePrefix(participant, clock[k]), 0, sizes[k]))
  }

  /** Every segment of every voice message, message by message. */
  function VoiceBatch(participant: Name, clock: seq<int>, sizes: seq<nat>): seq<Data>
    requires |sizes| == |clock|
  {
    if clock == [] then []
    else
      var n := |clock| - 1;
      VoiceBatch(participant, clock[..n], sizes[..n]) + VoiceSegments(VoicePrefix(participant, clock[n]), sizes[n])
  }

  lemma VoiceBatchStep(participant: Name, clock: seq<int>, sizes: seq<nat>, t: int, n: nat)
    requires |sizes| == |clock|
    ensures VoiceBatch(participant, clock + [t], sizes + [n])
      == VoiceBatch(participant, clock, sizes) + VoiceSegments(VoicePrefix(participant, t), n)
  {
    assert (clock + [t])[..|clock|] == clock && (sizes + [n])[..|clock|] == sizes;
  }

  lemma VoiceHeadsStep(participant: Name, clock: seq<int>, sizes: seq<nat>, t: int, n: nat)
    requires |sizes| == |clock| && n >= 1
    requires forall k :: 0 <= k < |sizes| ==> sizes[k] >= 1
    ensures VoiceHeads(participant, clock + [t], sizes + [n])
      == VoiceHeads(participant, clock, sizes) + [VoiceSegment(VoicePrefix(participant, t), 0, n)]
  {
  }

  /**
   * The store and the published list after the voice messages at `done`
   * with `sizes` segments, starting from `store0` and `published0`.
   */
  predicate VoiceProgress(store: Store, published: seq<Data>, store0: Store, published0: seq<Data>,
                          participant: Name, done: seq<int>, sizes: seq<nat>)
  {
    && |sizes| == |done|
    && AllWithin(sizes, VoiceSizeMin, VoiceSizeMax)
    && store == InsertAll(store0, VoiceBatch(participant, done, sizes))
    && published == published0 + VoiceHeads(participant, done, sizes)
  }

  /** One more voice message keeps the progress relation. */
  lemma VoiceRound(store: Store, published: seq<Data>, store0: Store, published0: seq<Data>,
                   participant: Name, done: seq<int>, sizes: seq<nat>, t: int, n: nat)
    requires VoiceProgress(store, published, store0, published0, participant, done, sizes)
    requires VoiceSizeMin <= n <= VoiceSizeMax
    ensures VoiceProgress(InsertAll(store, VoiceSegments(VoicePrefix(participant, t), n)),
      published + [VoiceSegment(VoicePrefix(participant, t), 0, n)],
      store0, published0, participant, done + [t], sizes + [n])
  {
    assert AllWithin(sizes + [n], VoiceSizeMin, VoiceSizeMax) by {
      assert forall j :: 0 <= j < |sizes| ==> (sizes + [n])[j] == sizes[j];
    }
    assert published + [VoiceSegment(VoicePrefix(participant, t), 0, n)]
      == published0 + VoiceHeads(participant, done + [t], sizes + [n]) by {
      VoiceHeadsStep(participant, done, sizes, t, n);
    }
    assert InsertAll(store, VoiceSegments(VoicePrefix(participant, t), n))
      == InsertAll(store0, VoiceBatch(participant, done + [t], sizes + [n])) by {
      VoiceBatchStep(participant, done, sizes, t, n);
      InsertAllAppend(store0, VoiceBatch(participant, done, sizes), VoiceSegments(VoicePrefix(participant, t), n));
    }
  }

  lemma {:induction false} InsertAllAppend(s: Store, a: seq<Data>, b: seq<Data>)
    ensures InsertAll(s, a + b) == InsertAll(InsertAll(s, a), b)
  {
    if b == [] {
      assert a + b == a;
    } else {
      var n := |b| - 1;
      assert (a + b)[..|a + b| - 1] == a + b[..n];
      InsertAllAppend(s, a, b[..n]);
    }
  }

  /** The two sync engines a participant can run on. */
  datatype Backend = Svs | Syncps

  /**
   * The process-wide SIGINT flag and the handler that drives it: the first
   * signal raises the flag, a signal arriving while it is raised exits the
   * process with status 0.
   */
  class Signals {
    var receivedSigInt: bool
    var exited: bool

    /** The process only exits on a second signal, so an exit implies the flag. */
    ghost predicate Valid()
      reads this
    {
      exited ==> receivedSigInt
    }

    constructor ()
      ensures Valid()
      ensures !receivedSigInt && !exited
    {
      receivedSigInt := false;
      exited := false;
    }

    method HandleSigInt()
      requires Valid()
      modifies this
      ensures Valid()
      ensures receivedSigInt
      ensures exited <==> old(receivedSigInt) || old(exited)
    {
      if receivedSigInt {
        exited := true;
      } else {
        receivedSigInt := true;
      }
    }
  }

  class Program {
    const backend: Backend
    const signals: Signals
    const face: Face
    const syncPrefix: Name
    const participantPrefix: Name
    const platoonPrefix: Name
    var running: bool
    var store: Store
    var published: seq<Data>
    var subscriptions: seq<Subscription>
    var syncInterestLifetimeMs: Option<nat>

    /** The store is keyed by names, and nothing ever clears `running`. */
    ghost predicate Valid()
      reads this
    {
      WellFormed(store) && running
    }

    /**
     * Initialises the prefixes and registers the interest filter that serves
     * this participant's voice segments from the store.
     */
    constructor (backend: Backend, syncPrefix: Name, participantPrefix: Name, signals: Signals)
      ensures Valid() && fresh(face)
      ensures this.backend == backend && this.signals == signals
      ensures this.syncPrefix == syncPrefix && this.participantPrefix == participantPrefix
      ensures platoonPrefix == DropLast(participantPrefix)
      ensures store == map[] && published == [] && subscriptions == [] && syncInterestLifetimeMs == None
      ensures face.log == [FilterSet([Generic("voice")] + participantPrefix, ServeData)]
    {
      this.backend := backend;
      this.signals := signals;
      this.syncPrefix := syncPrefix;
      this.participantPrefix := participantPrefix;
      platoonPrefix := DropLast(participantPrefix);
      running := true;
      store := map[];
      published := [];
      subscriptions := [];
      syncInterestLifetimeMs := None;
      face := new Face();
      new;
      face.SetInterestFilter([Generic("voice")] + participantPrefix, ServeData);
    }

    /** Hands one packet to the sync engine: one publication, published once. */
    method PublishData(data: Data)
      modifies this`published
      ensures published == old(published) + [data]
    {
      published := published + [data];
    }

    /** Expresses one Interest per outstanding segment of the message `name` belongs to. */
    method FetchOutstandingVoiceSegments(name: Name, finalBlockId: int)
      modifies face
      ensures face.log == old(face.log) + Expressions(FetchPlan(name, finalBlockId))
    {
      var withoutSegmentNo := DropLast(name);
      var i := 1;
      while i <= finalBlockId
        invariant 1 <= i && (i <= finalBlockId + 1 || i == 1)
        invariant face.log == old(face.log) + Expressions(FetchPlan(name, i - 1))
      {
        var toFetch := withoutSegmentNo + [Segment(i)];
        face.ExpressInterest(Interest(toFetch, true));
        FetchLogStep(old(face.log), name, i);
        i := i + 1;
      }
      assert FetchPlan(name, i - 1) == FetchPlan(name, finalBlockId);
    }

    /**
     * Publishes one position beacon: unless SIGINT was received, the packet is
     * inserted into the store and then published once.
     */
    method PublishPositionData(now: int)
      requires Valid()
      modifies this`store, this`published
      ensures Valid()
      ensures signals.receivedSigInt ==> store == old(store) && published == old(published)
      ensures !signals.receivedSigInt ==>
        && store == Insert(old(store), PositionData(participantPrefix, now))
        && published == old(published) + [PositionData(participantPrefix, now)]
    {
      if signals.receivedSigInt {
        return;
      }
      var name := [Generic("position")] + participantPrefix + [Timestamp(now)];
      var data := Data(name, PositionContentSize, FreshnessMs, None);
      store := Insert(store, data);
      PublishData(data);
    }

    /**
     * Publishes one voice message: unless SIGINT was received, draws the
     * number of segments, inserts every segment into the store and publishes
     * segment 0 only. Returns the number drawn (0 when nothing was drawn).
     */
    method PublishVoiceData(now: int) returns (voiceSize: nat)
      requires Valid()
      modifies this`store, this`published
      ensures Valid()
      ensures signals.receivedSigInt ==> voiceSize == 0 && store == old(store) && published == old(published)
      ensures !signals.receivedSigInt ==>
        && VoiceSizeMin <= voiceSize <= VoiceSizeMax
        && store == InsertAll(old(store), VoiceSegments(VoicePrefix(participantPrefix, now), voiceSize))
        && published == old(published) + [VoiceSegment(VoicePrefix(participantPrefix, now), 0, voiceSize)]
    {
      if signals.receivedSigInt {
        return 0;
      }
      voiceSize :| VoiceSizeMin <= voiceSize <= VoiceSizeMax;
      var name := [Generic("voice")] + participantPrefix + [Timestamp(now)] + [Version(0)];
      assert name == VoicePrefix(participantPrefix, now);
      ghost var segs := VoiceSegments(name, voiceSize);
      for i := 0 to voiceSize
        invariant store == InsertAll(old(store), segs[..i])
        invariant i == 0 ==> published == old(published)
        invariant i > 0 ==> published == old(published) + [segs[0]]
      {
        var realName := name + [Segment(i)];
        var data := Data(realName, voiceSize, FreshnessMs, Some(voiceSize - 1));
        assert data == segs[i];
        InsertAllPrefixStep(old(store), segs, i);
        store := Insert(store, data);
        if i == 0 {
          PublishData(data);
        }
      }
      assert segs[..voiceSize] == segs;
      InsertAllKeys(old(store), segs);
    }

    /**
     * The first `|clock|` rounds of the position publishing thread: sleep for
     * a drawn delay, then publish at the clock reading `clock[k]`. The loop
     * condition `running` is never cleared, so every round runs. SIGINT is
     * delivered once, just before round `sigintRound` (not during these
     * rounds when `sigintRound >= |clock|`); the publish method reads the
     * flag only on entry, so a signal inside a round acts as one delivered
     * before the next. The rounds before the signal publish, the later ones
     * do nothing.
     */
    method PositionDataPublishingLoop(clock: seq<int>, sigintRound: nat) returns (delays: seq<int>)
      requires Valid() && signals.Valid()
      modifies this`store, this`published, signals
      ensures Valid() && signals.Valid()
      ensures |delays| == |clock|
      ensures AllWithin(delays, PositionIntervalMinMs, PositionIntervalMaxMs)
      ensures signals.receivedSigInt <==> old(signals.receivedSigInt) || sigintRound < |clock|
      ensures PositionRounds(store, published, old(store), old(published), participantPrefix, clock,
        PublishingRounds(old(signals.receivedSigInt), sigintRound, |clock|))
    {
      delays := [];
      ghost var s0, p0, raised0 := store, published, signals.receivedSigInt;
      var k := 0;
      while running && k < |clock|
        invariant Valid() && signals.Valid()
        invariant 0 <= k <= |clock| && |delays| == k
        invariant AllWithin(delays, PositionIntervalMinMs, PositionIntervalMaxMs)
        invariant signals.receivedSigInt <==> raised0 || sigintRound < k
        invariant PositionRounds(store, published, s0, p0, participantPrefix, clock[..k], PublishingRounds(raised0, sigintRound, k))
      {
        if k == sigintRound {
          signals.HandleSigInt();
        }
        var delay :| PositionIntervalMinMs <= delay <= PositionIntervalMaxMs;
        ghost var store1, published1 := store, published;
        PublishPositionData(clock[k]);
        ghost var n := PublishingRounds(raised0, sigintRound, k);
        assert PublishingRounds(raised0, sigintRound, k + 1) == if signals.receivedSigInt then n else k + 1;
        PositionRoundsStep(store1, published1, store, published, s0, p0, participantPrefix, clock, k,
          n, !signals.receivedSigInt);
        delays := delays + [delay];
        k := k + 1;
      }
      assert clock[..k] == clock;
    }

    /**
     * The first `|clock|` rounds of the voice publishing thread: sleep for a
     * drawn delay, then publish one voice message at `clock[k]`. SIGINT is
     * delivered just before round `sigintRound`, as for the position thread;
     * the rounds after it draw no size and report 0.
     */
    method VoiceDataPublishingLoop(clock: seq<int>, sigintRound: nat) returns (delays: seq<int>, sizes: seq<nat>)
      requires Valid() && signals.Valid()
      modifies this`store, this`published, signals
      ensures Valid() && signals.Valid()
      ensures |delays| == |clock| && |sizes| == |clock|
      ensures AllWithin(delays, VoiceIntervalMinMs, VoiceIntervalMaxMs)
      ensures signals.receivedSigInt <==> old(signals.receivedSigInt) || sigintRound < |clock|
      ensures VoiceRounds(store, published, old(store), old(published), participantPrefix, clock, sizes,
        PublishingRounds(old(signals.receivedSigInt), sigintRound, |clock|))
    {
      delays, sizes := [], [];
      ghost var s0, p0, raised0 := store, published, signals.receivedSigInt;
      var k := 0;
      while running && k < |clock|
        invariant Valid() && signals.Valid()
        invariant 0 <= k <= |clock| && |delays| == k && |sizes| == k
        invariant AllWithin(delays, VoiceIntervalMinMs, VoiceIntervalMaxMs)
        invariant signals.receivedSigInt <==> raised0 || sigintRound < k
        invariant VoiceRounds(store, published, s0, p0, participantPrefix, clock[..k], sizes, PublishingRounds(raised0, sigintRound, k))
      {
        if k == sigintRound {
          signals.HandleSigInt();
        }
        var delay :| VoiceIntervalMinMs <= delay <= VoiceIntervalMaxMs;
        ghost var store1, published1 := store, published;
        var voiceSize := PublishVoiceData(clock[k]);
        ghost var n := PublishingRounds(raised0, sigintRound, k);
        assert PublishingRounds(raised0, sigintRound, k + 1) == if signals.receivedSigInt then n else k + 1;
        VoiceRoundsStep(store1, published1, store, published, s0, p0, participantPrefix, clock, sizes, k,
          n, !signals.receivedSigInt, voiceSize);
        delays, sizes := delays + [delay], sizes + [voiceSize];
        k := k + 1;
      }
      assert clock[..k] == clock;
    }

    /** Answers an Interest for voice data from the store; a miss sends nothing. */
    method OnDataInterest(interest: Interest)
      modifies face
      ensures Find(store, interest).Some? ==> face.log == old(face.log) + [Sent(Find(store, interest).value)]
      ensures Find(store, interest).None? ==> face.log == old(face.log)
    {
      var data := Find(store, interest);
      if data.Some? {
        face.Put(data.value);
      }
    }

    /**
     * The state-vector-sync client's subscriptions: position data of its own
     * platoon and of its ring neighbours, one subscription each, then the
     * voice data of its own platoon. On a participant prefix of fewer than
     * two components the source's platoon-id read is undefined behaviour;
     * the model stops there cleanly and subscribes to nothing.
     */
    method InstanciateSvs() returns (ok: bool)
      modifies this`subscriptions
      ensures ok <==> SvsClient.PlatoonId(participantPrefix).Some?
      ensures !ok ==> subscriptions == old(subscriptions)
      ensures ok ==> (subscriptions == old(subscriptions)
        + SvsClient.PositionSubscriptions(SvsClient.SubscribedPlatoons(SvsClient.PlatoonId(participantPrefix).value))
        + [SvsClient.VoiceSubscription(platoonPrefix)])
    {
      var id := SvsClient.PlatoonId(participantPrefix);
      if id.None? {
        return false;
      }
      var p := id.value;
      var platoons := [p];
      if p == "platoon0" {
        platoons := platoons + ["platoon3", "platoon1"];
      } else if p == "platoon1" {
        platoons := platoons + ["platoon0", "platoon2"];
      } else if p == "platoon2" {
        platoons := platoons + ["platoon1", "platoon3"];
      } else if p == "platoon3" {
        platoons := platoons + ["platoon2", "platoon0"];
      }
      assert platoons == SvsClient.SubscribedPlatoons(p);
      for k := 0 to |platoons|
        invariant subscriptions == old(subscriptions) + SvsClient.PositionSubscriptions(platoons[..k])
      {
        subscriptions := subscriptions + [Subscription(SvsClient.PositionPrefix(platoons[k]), LogOnly)];
        assert platoons[..k + 1][..k] == platoons[..k];
      }
      assert platoons[..|platoons|] == platoons;
      subscriptions := subscriptions + [Subscription([Generic("voice")] + platoonPrefix, FetchSegments)];
      return true;
    }

    /**
     * The syncps client's subscriptions: all position data, and the voice data
     * of its own platoon; the sync interest lifetime is set to one second.
     */
    method InstanciateSyncps()
      modifies this`subscriptions, this`syncInterestLifetimeMs
      ensures syncInterestLifetimeMs == Some(Syncps.SyncInterestLifetimeMs)
      ensures subscriptions == old(subscriptions)
        + [Subscription([Generic("position")], LogOnly), Subscription([Generic("voice")] + platoonPrefix, FetchSegments)]
    {
      syncInterestLifetimeMs := Some(Syncps.SyncInterestLifetimeMs);
      subscriptions := subscriptions + [Subscription([Generic("position")], LogOnly)];
      subscriptions := subscriptions + [Subscription([Generic("voice")] + platoonPrefix, FetchSegments)];
    }

    /** Runs the subscription set-up of the participant's sync engine. */
    method InstanciateSync() returns (ok: bool)
      modifies this`subscriptions, this`syncInterestLifetimeMs
      ensures backend.Svs? ==> (ok <==> SvsClient.PlatoonId(participantPrefix).Some?)
      ensures backend.Svs? && ok ==> (subscriptions == old(subscriptions)
        + SvsClient.PositionSubscriptions(SvsClient.SubscribedPlatoons(SvsClient.PlatoonId(participantPrefix).value))
        + [SvsClient.VoiceSubscription(platoonPrefix)])
      ensures backend.Svs? ==> syncInterestLifetimeMs == old(syncInterestLifetimeMs)
      ensures backend.Syncps? ==> ok && syncInterestLifetimeMs == Some(Syncps.SyncInterestLifetimeMs)
      ensures backend.Syncps? ==> (subscriptions == old(subscriptions)
        + [Subscription([Generic("position")], LogOnly), Subscription([Generic("voice")] + platoonPrefix, FetchSegments)])
      ensures !ok ==> subscriptions == old(subscriptions)
    {
      if backend.Svs? {
        ok := InstanciateSvs();
      } else {
        InstanciateSyncps();
        ok := true;
      }
    }

    /**
     * Delivery of a publication to a subscription handler: the voice handler
     * passes the name and the final block id, narrowed to `int`, to the
     * fetcher; the position handler only logs.
     */
    method OnPublication(sub: Subscription, data: Data)
      requires sub.handler.FetchSegments? ==> data.finalBlock.Some?
      modifies face
      ensures sub.handler.FetchSegments? ==>
        face.log == old(face.log) + Expressions(FetchPlan(data.name, ToInt(data.finalBlock.value)))
      ensures !sub.handler.FetchSegments? ==> face.log == old(face.log)
    {
      if sub.handler.FetchSegments? {
        var segments := ToInt(data.finalBlock.value);
        FetchOutstandingVoiceSegments(data.name, segments);
      }
    }

    /** The state-vector-sync client ignores missing-data notifications. */
    method OnMissingData(batch: seq<MissingDataInfo>)
      ensures unchanged(this, face, signals)
    {
    }
  }
}

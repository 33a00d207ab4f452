/**
 * The first, stand-alone version of the state-vector-sync client
 * (`svs-client/svs-client.cpp`). It has the publisher and fetcher shape of
 * the participant, with different observable behaviour: it stores nothing
 * and answers no Interest, it fetches segments 1..F-1 only, and its voice
 * segment names accumulate one segment component per loop iteration.
 */
module Legacy {
  import opened Wrappers
  import opened Ndn
  import opened Transport
  import Program

  /** Position interval draw, in ms: the integer bounds of 1000 * 0.9 and 1000 * 1.1. */
  const PositionIntervalMinMs := 900
  const PositionIntervalMaxMs := 1100

  datatype Options = Options(prefix: string, id: string)

  /**
   * The command line: exactly one argument, the participant id, is accepted;
   * anything else is refused with exit status 1.
   */
  function ParseArgs(argv: seq<string>): (r: Result<Options, int>)
    ensures r.Failure? <==> |argv| != 2
    ensures r.Failure? ==> r.error == 1
    ensures r.Success? ==> r.value == Options("/ndn/svs", argv[1])
  {
    if |argv| != 2 then Failure(1) else Success(Options("/ndn/svs", argv[1]))
  }

  /**
   * `/voice` ++ id ++ timestamp ++ version 0: the name the voice loop starts
   * from. The id string is appended as a name, so it is parsed as a URI.
   */
  function LegacyVoicePrefix(id: string, now: int): Name
  {
    [Generic("voice")] + FromUri(id) + [Timestamp(now), Version(0)]
  }

  /** Segment components 0..n-1, in order. */
  function SegmentRun(n: nat): (r: Name)
    ensures |r| == n
    ensures forall k :: 0 <= k < n ==> r[k] == Segment(k)
  {
    seq(n, k requires 0 <= k < n => Segment(k))
  }

  /** The name the source gives segment i: the prefix followed by segments 0..i. */
  function LegacySegmentName(prefix: Name, i: nat): Name
  {
    prefix + SegmentRun(i + 1)
  }

  function LegacySegment(prefix: Name, i: nat, voiceSize: nat): Data
    requires i < voiceSize
  {
    Data(LegacySegmentName(prefix, i), voiceSize, Program.FreshnessMs, Some(voiceSize - 1))
  }

  /** `/position` ++ id ++ timestamp, the id parsed as a URI. */
  function LegacyPositionData(id: string, now: int): Data
  {
    Data([Generic("position")] + FromUri(id) + [Timestamp(now)], Program.PositionContentSize, Program.FreshnessMs, None)
  }

  /**
   * As written, the fetch for a received segment 0 with final block id
   * voiceSize-1 asks for voiceSize-2 segments and never for the last one.
   */
  lemma LegacyFetchMissesFinalSegment(name: Name, voiceSize: nat)
    requires voiceSize >= 2
    ensures |Program.FetchPlan(name, voiceSize - 1 - 1)| == voiceSize - 2
    ensures voiceSize - 1 !in Program.RequestedSegments(Program.FetchPlan(name, voiceSize - 1 - 1))
  {
    Program.FetchPlanRequests(name, voiceSize - 2);
  }

  /**
   * As written, segment i >= 1 is named with i+1 segment components, so no
   * fetch Interest (received name minus its last component, plus one segment
   * number >= 1) is a prefix of any segment's name: not even prefix matching
   * could answer it.
   */
  lemma LegacySegmentNamesUnreachable(prefix: Name, i: nat, s: nat)
    requires s >= 1
    ensures DropLast(LegacySegmentName(prefix, 0)) == prefix
    ensures !(prefix + [Segment(s)] <= LegacySegmentName(prefix, i))
    ensures i >= 1 ==> LegacySegmentName(prefix, i) != prefix + [Segment(i)]
  {
    assert LegacySegmentName(prefix, i)[|prefix|] == Segment(0);
    assert (prefix + [Segment(s)])[|prefix|] == Segment(s);
    assert |LegacySegmentName(prefix, i)| == |prefix| + i + 1;
  }

  class LegacyProgram {
    const options: Options
    const face: Face
    var running: bool
    var published: seq<Data>
    var subscriptions: seq<Subscription>

    /**
     * Subscribes to all position data (logging) and all voice data
     * (fetching), and registers filters on `/voice` and `/position`.
     */
    constructor (options: Options)
      ensures this.options == options && running && published == [] && fresh(face)
      ensures subscriptions == [Subscription([Generic("position")], LogOnly), Subscription([Generic("voice")], FetchSegments)]
      ensures face.log == [FilterSet([Generic("voice")], ServeData), FilterSet([Generic("position")], ServeData)]
    {
      this.options := options;
      running := true;
      published := [];
      subscriptions := [Subscription([Generic("position")], LogOnly), Subscription([Generic("voice")], FetchSegments)];
      face := new Face();
      new;
      face.SetInterestFilter([Generic("voice")], ServeData);
      face.SetInterestFilter([Generic("position")], ServeData);
    }

    /** The Interest handler does nothing: the store lookup is disabled in this version. */
    method OnDataInterest(interest: Interest)
      ensures unchanged(face)
    {
    }

    /** Expresses Interests for segments 1..finalBlockId-1 only. */
    method FetchOutstandingVoiceSegments(name: Name, finalBlockId: int)
      modifies face
      ensures face.log == old(face.log) + Expressions(Program.FetchPlan(name, finalBlockId - 1))
    {
      var withoutSegmentNo := DropLast(name);
      var i := 1;
      while i < finalBlockId
        invariant 1 <= i && (i <= finalBlockId || i == 1)
        invariant face.log == old(face.log) + Expressions(Program.FetchPlan(name, i - 1))
      {
        var toFetch := withoutSegmentNo + [Segment(i)];
        face.ExpressInterest(Interest(toFetch, true));
        Program.FetchLogStep(old(face.log), name, i);
        i := i + 1;
      }
      assert Program.FetchPlan(name, i - 1) == Program.FetchPlan(name, finalBlockId - 1);
    }

    /** The voice subscription handler passes the final block id, narrowed to `int`, to the fetcher. */
    method OnPublication(sub: Subscription, data: Data)
      requires sub.handler.FetchSegments? ==> data.finalBlock.Some?
      modifies face
      ensures sub.handler.FetchSegments? ==>
        face.log == old(face.log) + Expressions(Program.FetchPlan(data.name, Program.ToInt(data.finalBlock.value) - 1))
      ensures !sub.handler.FetchSegments? ==> face.log == old(face.log)
    {
      if sub.handler.FetchSegments? {
        var segments := Program.ToInt(data.finalBlock.value);
        FetchOutstandingVoiceSegments(data.name, segments);
      }
    }

    /** Publishes one position beacon, without storing it. */
    method PublishPositionData(now: int)
      modifies this`published
      ensures published == old(published) + [LegacyPositionData(options.id, now)]
    {
      var name := [Generic("position")];
      name := name + FromUri(options.id);
      name := name + [Timestamp(now)];
      assert name == LegacyPositionData(options.id, now).name;
      var data := Data(name, Program.PositionContentSize, Program.FreshnessMs, None);
      published := published + [data];
    }

    /**
     * Builds one voice message: every iteration appends a segment component
     * to the same name, so the packets are those of `LegacySegment`; only
     * the first is published and none is stored.
     */
    method PublishVoiceData(now: int) returns (voiceSize: nat, segments: seq<Data>)
      modifies this`published
      ensures Program.VoiceSizeMin <= voiceSize <= Program.VoiceSizeMax
      ensures |segments| == voiceSize
      ensures forall i :: 0 <= i < voiceSize ==> segments[i] == LegacySegment(LegacyVoicePrefix(options.id, now), i, voiceSize)
      ensures published == old(published) + [segments[0]]
    {
      voiceSize :| Program.VoiceSizeMin <= voiceSize <= Program.VoiceSizeMax;
      var prefix := LegacyVoicePrefix(options.id, now);
      var name := [Generic("voice")];
      name := name + FromUri(options.id);
      name := name + [Timestamp(now)];
      name := name + [Version(0)];
      assert name == prefix;
      segments := [];
      for i := 0 to voiceSize
        invariant name == prefix + SegmentRun(i)
        invariant |segments| == i
        invariant forall k :: 0 <= k < i ==> segments[k] == LegacySegment(prefix, k, voiceSize)
        invariant published == old(published) + (if i == 0 then [] else [segments[0]])
      {
        name := name + [Segment(i)];
        assert SegmentRun(i + 1) == SegmentRun(i) + [Segment(i)];
        var data := Data(name, voiceSize, Program.FreshnessMs, Some(voiceSize - 1));
        segments := segments + [data];
        if i == 0 {
          published := published + [data];
        }
      }
    }

    /** The first `|clock|` rounds of the position thread; `running` is never cleared. */
    method PositionDataPublishingLoop(clock: seq<int>) returns (delays: seq<int>)
      requires running
      modifies this`published
      ensures |delays| == |clock|
      ensures Program.AllWithin(delays, PositionIntervalMinMs, PositionIntervalMaxMs)
      ensures |published| == |old(published)| + |clock|
      ensures published[..|old(published)|] == old(published)
      ensures forall k :: 0 <= k < |clock| ==> published[|old(published)| + k] == LegacyPositionData(options.id, clock[k])
    {
      delays := [];
      var k := 0;
      while running && k < |clock|
        invariant running
        invariant 0 <= k <= |clock| && |delays| == k
        invariant Program.AllWithin(delays, PositionIntervalMinMs, PositionIntervalMaxMs)
        invariant |published| == |old(published)| + k
        invariant published[..|old(published)|] == old(published)
        invariant forall j :: 0 <= j < k ==> published[|old(published)| + j] == LegacyPositionData(options.id, clock[j])
      {
        var delay :| PositionIntervalMinMs <= delay <= PositionIntervalMaxMs;
        PublishPositionData(clock[k]);
        delays := delays + [delay];
        k := k + 1;
      }
    }

    /** The first `|clock|` rounds of the voice thread; `running` is never cleared. */
    method VoiceDataPublishingLoop(clock: seq<int>) returns (delays: seq<int>, sizes: seq<nat>)
      requires running
      modifies this`published
      ensures |delays| == |clock| && |sizes| == |clock|
      ensures Program.AllWithin(delays, Program.VoiceIntervalMinMs, Program.VoiceIntervalMaxMs)
      ensures Program.AllWithin(sizes, Program.VoiceSizeMin, Program.VoiceSizeMax)
      ensures |published| == |old(published)| + |clock|
      ensures published[..|old(published)|] == old(published)
      ensures forall k :: 0 <= k < |clock| ==>
        published[|old(published)| + k] == LegacySegment(LegacyVoicePrefix(options.id, clock[k]), 0, sizes[k])
    {
      delays, sizes := [], [];
      var k := 0;
      while running && k < |clock|
        invariant running
        invariant 0 <= k <= |clock| && |delays| == k && |sizes| == k
        invariant Program.AllWithin(delays, Program.VoiceIntervalMinMs, Program.VoiceIntervalMaxMs)
        invariant Program.AllWithin(sizes, Program.VoiceSizeMin, Program.VoiceSizeMax)
        invariant |published| == |old(published)| + k
        invariant published[..|old(published)|] == old(published)
        invariant forall j :: 0 <= j < k ==>
          published[|old(published)| + j] == LegacySegment(LegacyVoicePrefix(options.id, clock[j]), 0, sizes[j])
      {
        var delay :| Program.VoiceIntervalMinMs <= delay <= Program.VoiceIntervalMaxMs;
        var voiceSize, _ := PublishVoiceData(clock[k]);
        delays, sizes := delays + [delay], sizes + [voiceSize];
        k := k + 1;
      }
    }
  }
}

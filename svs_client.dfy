/**
 * The subscription topology of the state-vector-sync client: platoons form
 * a ring of four, and each participant listens to the position data of its
 * own platoon and of the two platoons next to it on the ring.
 */
module SvsClient {
  import opened Wrappers
  import opened Text
  import opened Ndn
  import opened Transport

  /** Number of platoons in the ring table. */
  const RingSize := 4

  /** The platoon id string of platoon `i`, as the table spells it. */
  function PlatoonName(i: nat): string
  {
    "platoon" + NatToString(i)
  }

  /**
   * The platoon id of a participant: the URI of component 1 of its prefix
   * (`/ndn/platoon0/unit1` gives "platoon0"). On a shorter prefix the
   * source's unchecked `get(1)` reads past the end of the name, which C++
   * leaves undefined; the model returns None there instead.
   */
  function PlatoonId(participant: Name): (r: Option<string>)
    ensures r.Some? <==> |participant| >= 2
  {
    if |participant| < 2 then None else Some(ComponentUri(participant[1]))
  }

  /** The two ring neighbours of a platoon, in the order the table lists them. */
  function Neighbours(p: string): (r: seq<string>)
    ensures p !in r
    ensures |r| == 0 || (|r| == 2 && r[0] != r[1])
  {
    if p == "platoon0" then ["platoon3", "platoon1"]
    else if p == "platoon1" then ["platoon0", "platoon2"]
    else if p == "platoon2" then ["platoon1", "platoon3"]
    else if p == "platoon3" then ["platoon2", "platoon0"]
    else []
  }

  /** The platoons whose position data a participant of platoon `p` subscribes to. */
  function SubscribedPlatoons(p: string): seq<string>
  {
    [p] + Neighbours(p)
  }

  /** `ndn::Name("/position/ndn/" + p)` for a plain platoon id p: the position prefix of one platoon. */
  function PositionPrefix(p: string): Name
  {
    [Generic("position"), Generic("ndn"), Generic(p)]
  }

  /** One logging subscription per platoon, in list order. */
  function PositionSubscriptions(platoons: seq<string>): (subs: seq<Subscription>)
    ensures |subs| == |platoons|
    ensures forall k :: 0 <= k < |platoons| ==> subs[k] == Subscription(PositionPrefix(platoons[k]), LogOnly)
  {
    if platoons == [] then []
    else
      var last := platoons[|platoons| - 1];
      PositionSubscriptions(platoons[..|platoons| - 1]) + [Subscription(PositionPrefix(last), LogOnly)]
  }

  /** `/voice` followed by the platoon prefix: the voice data of the own platoon. */
  function VoiceSubscription(platoonPrefix: Name): Subscription
  {
    Subscription([Generic("voice")] + platoonPrefix, FetchSegments)
  }

  lemma PlatoonNames()
    ensures PlatoonName(0) == "platoon0" && PlatoonName(1) == "platoon1"
    ensures PlatoonName(2) == "platoon2" && PlatoonName(3) == "platoon3"
  {
  }

  /** The table is the ring: platoon i lists i-1 and then i+1, modulo four. */
  lemma NeighboursAreRing(i: nat)
    requires i < RingSize
    ensures Neighbours(PlatoonName(i))
      == [PlatoonName((i + RingSize - 1) % RingSize), PlatoonName((i + 1) % RingSize)]
  {
    PlatoonNames();
  }

  /** The neighbour relation is symmetric. */
  lemma NeighboursSymmetric(p: string, q: string)
    ensures q in Neighbours(p) <==> p in Neighbours(q)
  {
  }

  /** A platoon id outside the table subscribes to itself only. */
  lemma UnknownPlatoonAlone(p: string)
    requires forall i :: 0 <= i < RingSize ==> p != PlatoonName(i)
    ensures SubscribedPlatoons(p) == [p]
  {
    PlatoonNames();
    assert p != PlatoonName(0) && p != PlatoonName(1) && p != PlatoonName(2) && p != PlatoonName(3);
  }

  /** A platoon in the table subscribes to three distinct platoons, itself first. */
  lemma KnownPlatoonThree(i: nat)
    requires i < RingSize
    ensures |SubscribedPlatoons(PlatoonName(i))| == 3
    ensures SubscribedPlatoons(PlatoonName(i))[0] == PlatoonName(i)
    ensures forall a, b :: 0 <= a < b < 3 ==> SubscribedPlatoons(PlatoonName(i))[a] != SubscribedPlatoons(PlatoonName(i))[b]
  {
    PlatoonNames();
  }
}

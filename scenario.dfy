/**
 * The wired emulation driver: a UAV linked to one access point per platoon,
 * each access point linked to the units of its platoon. The driver maps host
 * names to the participants' NDN prefixes, and it moves the UAV between
 * platoons by making one UAV-to-AP link lossy-but-usable and the others
 * fully lossy.
 */
module Scenario {
  import opened Wrappers
  import opened Text
  import opened Ndn
  import SvsClient

  const Platoons := 4
  const NodesPerPlatoon := 5
  /** Loss rates, in percent, of a disconnected and of the connected UAV-to-AP link. */
  const LossRateDisconnected := 100
  const LossRateConnected := 10
  /** Number of hand-overs per run. */
  const RotationSteps := 10

  /** Python's IndexError: the host name has fewer than three '_'-separated fields. */
  datatype IndexError = IndexError

  /**
   * `unit_{p}_{u}` to the participant prefix `/ndn/platoon{p}/unit{u}/`. The
   * first field is not checked, and fields after the third are ignored.
   */
  function UnitnameToNamePrefix(nodename: string): (r: Result<string, IndexError>)
    ensures r.Failure? <==> Count(nodename, '_') < 2
    ensures r.Success? ==> |r.value| > 15 && r.value[..12] == "/ndn/platoon" && r.value[|r.value| - 1] == '/'
  {
    SplitLength(nodename, '_');
    var fields := Split(nodename, '_');
    if |fields| < 3 then Failure(IndexError)
    else Success("/ndn/platoon" + fields[1] + "/unit" + fields[2] + "/")
  }

  function ApName(i: nat): string
  {
    "ap" + NatToString(i)
  }

  function UnitName(i: nat, j: nat): string
  {
    "unit_" + NatToString(i) + "_" + NatToString(j)
  }

  /** For '_'-free fields, the mapping reads the second and third field and nothing else. */
  lemma UnitnameFields(fields: seq<string>)
    requires |fields| >= 3
    requires forall i :: 0 <= i < |fields| ==> '_' !in fields[i]
    ensures UnitnameToNamePrefix(Join(fields, '_')) == Success("/ndn/platoon" + fields[1] + "/unit" + fields[2] + "/")
  {
    SplitJoin(fields, '_');
  }

  lemma UnitNameJoin(i: nat, j: nat)
    ensures Join(["unit", NatToString(i), NatToString(j)], '_') == UnitName(i, j)
  {
    var fields := ["unit", NatToString(i), NatToString(j)];
    assert Join(fields[1..], '_') == NatToString(i) + "_" + NatToString(j);
  }

  /** The host `unit_i_j` of the topology gets the prefix `/ndn/platoon<i>/unit<j>/`. */
  lemma UnitnameOfHost(i: nat, j: nat)
    ensures UnitnameToNamePrefix(UnitName(i, j))
      == Success("/ndn/platoon" + NatToString(i) + "/unit" + NatToString(j) + "/")
  {
    UnitNameJoin(i, j);
    UnitnameFields(["unit", NatToString(i), NatToString(j)]);
  }

  /** The three-field URI `/a/b/c/` written with Join. */
  lemma UriOfThree(a: string, b: string, c: string)
    ensures "/" + Join([a, b, c], '/') + "/" == "/" + a + "/" + b + "/" + c + "/"
  {
    assert Join([a, b, c][1..], '/') == b + "/" + c;
  }

  /** `/ndn/<p>/<u>/` parses to three generic components when p and u are plain. */
  lemma ThreeComponentUri(p: string, u: string)
    requires PlainField(p) && PlainField(u)
    ensures FromUri("/ndn/" + p + "/" + u + "/") == [Generic("ndn"), Generic(p), Generic(u)]
  {
    var fields := ["ndn", p, u];
    assert "ndn"[0] != '.';
    UriOfThree("ndn", p, u);
    assert "/ndn/" + p + "/" + u + "/" == "/" + "ndn" + "/" + p + "/" + u + "/";
    FromUriFields(fields);
    var parsed := seq(|fields|, k requires 0 <= k < |fields| => Generic(fields[k]));
    assert parsed == [Generic("ndn"), Generic(p), Generic(u)];
  }

  /** The prefix string of unit j of platoon i parses to three generic components. */
  lemma ParticipantName(i: nat, j: nat)
    ensures FromUri("/ndn/platoon" + NatToString(i) + "/unit" + NatToString(j) + "/")
      == [Generic("ndn"), Generic("platoon" + NatToString(i)), Generic("unit" + NatToString(j))]
  {
    var p, u := "platoon" + NatToString(i), "unit" + NatToString(j);
    assert "/ndn/platoon" + NatToString(i) + "/unit" + NatToString(j) + "/" == "/ndn/" + p + "/" + u + "/";
    assert "platoon"[0] != '.' && "unit"[0] != '.';
    PlainWordNumber("platoon", i);
    PlainWordNumber("unit", j);
    ThreeComponentUri(p, u);
  }

  /** A plain word followed by a decimal number is still a plain field. */
  lemma PlainWordNumber(word: string, n: nat)
    requires PlainField(word)
    ensures PlainField(word + NatToString(n))
  {
    var f := word + NatToString(n);
    var k :| 0 <= k < |word| && word[k] != '.';
    assert f[k] != '.';
    assert forall m :: |word| <= m < |f| ==> f[m] == NatToString(n)[m - |word|];
  }

  /**
   * The prefix handed to the participant of host `unit_i_j` parses to the
   * three-component name `/ndn/platoon<i>/unit<j>`, whose platoon id is
   * `platoon<i>` and whose platoon prefix is `/ndn/platoon<i>`: the drivers'
   * host numbering and the clients' ring table speak of the same platoons.
   */
  lemma HostJoinsPlatoon(i: nat, j: nat)
    ensures var prefix := UnitnameToNamePrefix(UnitName(i, j));
      && prefix.Success?
      && FromUri(prefix.value) == [Generic("ndn"), Generic(SvsClient.PlatoonName(i)), Generic("unit" + NatToString(j))]
      && SvsClient.PlatoonId(FromUri(prefix.value)) == Some(SvsClient.PlatoonName(i))
      && DropLast(FromUri(prefix.value)) == [Generic("ndn"), Generic(SvsClient.PlatoonName(i))]
  {
    UnitnameOfHost(i, j);
    ParticipantName(i, j);
  }

  /** Distinct (platoon, unit) pairs give distinct host names. */
  lemma UnitNameInjective(i: nat, j: nat, i': nat, j': nat)
    requires UnitName(i, j) == UnitName(i', j')
    ensures i == i' && j == j'
  {
    var fields, fields' := ["unit", NatToString(i), NatToString(j)], ["unit", NatToString(i'), NatToString(j')];
    UnitNameJoin(i, j);
    UnitNameJoin(i', j');
    SplitJoin(fields, '_');
    SplitJoin(fields', '_');
    NatToStringInjective(i, i');
    NatToStringInjective(j, j');
  }

  lemma ApNameInjective(i: nat, j: nat)
    requires ApName(i) == ApName(j)
    ensures i == j
  {
    assert NatToString(i) == ApName(i)[2..];
    NatToStringInjective(i, j);
  }

  /** The loss rate `connect_to_ap(ap)` gives the link from the UAV to AP i. */
  function ApLossRate(i: int, apNumber: int): (r: int)
    ensures r == LossRateConnected <==> i == apNumber
    ensures r == LossRateDisconnected <==> i != apNumber
  {
    if i == apNumber then LossRateConnected else LossRateDisconnected
  }

  /** Exactly one AP is connected when `apNumber` names one, none otherwise. */
  lemma ConnectedAps(apNumber: int)
    ensures (set i | 0 <= i < Platoons && ApLossRate(i, apNumber) == LossRateConnected)
      == if 0 <= apNumber < Platoons then {apNumber} else {}
  {
  }

  /** A link with the loss rate configured on each of its two ends. */
  datatype Link = Link(a: string, b: string, lossA: int, lossB: int)

  predicate Between(l: Link, x: string, y: string)
  {
    (l.a == x && l.b == y) || (l.a == y && l.b == x)
  }

  predicate UavApLink(l: Link, i: nat)
  {
    Between(l, "uav", ApName(i))
  }

  /** A link that joins the UAV to none of the platoons' APs. */
  predicate OtherLink(l: Link)
  {
    forall i :: 0 <= i < Platoons ==> !UavApLink(l, i)
  }

  predicate SameEnds(before: seq<Link>, after: seq<Link>)
  {
    |after| == |before| && forall k :: 0 <= k < |before| ==> after[k].a == before[k].a && after[k].b == before[k].b
  }

  /**
   * The links after `connect_to_ap(apNumber)`: both ends of the UAV's link
   * to AP i carry `ApLossRate(i, apNumber)`, every other link is untouched.
   */
  ghost predicate ConnectedTo(before: seq<Link>, after: seq<Link>, apNumber: int)
  {
    && SameEnds(before, after)
    && (forall k, i :: 0 <= k < |before| && 0 <= i < Platoons && UavApLink(before[k], i) ==>
         after[k].lossA == ApLossRate(i, apNumber) && after[k].lossB == ApLossRate(i, apNumber))
    && (forall k :: 0 <= k < |before| && OtherLink(before[k]) ==> after[k] == before[k])
  }

  class Network {
    var links: seq<Link>

    constructor (links: seq<Link>)
      ensures this.links == links
    {
      this.links := links;
    }

    /** Sets `lossRate` on both ends of every link between `x` and `y`; other links are untouched. */
    method SetLinkLossTo(x: string, y: string, lossRate: int)
      modifies this
      ensures SameEnds(old(links), links)
      ensures forall k :: 0 <= k < |links| && Between(old(links)[k], x, y) ==>
        links[k].lossA == lossRate && links[k].lossB == lossRate
      ensures forall k :: 0 <= k < |links| && !Between(old(links)[k], x, y) ==> links[k] == old(links)[k]
    {
      for k := 0 to |links|
        invariant SameEnds(old(links), links)
        invariant forall m :: 0 <= m < k && Between(old(links)[m], x, y) ==>
          links[m].lossA == lossRate && links[m].lossB == lossRate
        invariant forall m :: 0 <= m < |links| && (k <= m || !Between(old(links)[m], x, y)) ==> links[m] == old(links)[m]
      {
        if Between(links[k], x, y) {
          links := links[k := links[k].(lossA := lossRate, lossB := lossRate)];
        }
      }
    }

    /** Makes the UAV's link to AP `apNumber` the connected one and every other UAV-to-AP link disconnected. */
    method ConnectToAp(apNumber: int)
      modifies this
      ensures ConnectedTo(old(links), links, apNumber)
    {
      for i := 0 to Platoons
        invariant SameEnds(old(links), links)
        invariant forall k, j :: 0 <= k < |links| && 0 <= j < i && UavApLink(old(links)[k], j) ==>
          links[k].lossA == ApLossRate(j, apNumber) && links[k].lossB == ApLossRate(j, apNumber)
        invariant forall k :: 0 <= k < |links| && (forall j :: 0 <= j < i ==> !UavApLink(old(links)[k], j)) ==>
          links[k] == old(links)[k]
      {
        var lossRate := if i == apNumber then LossRateConnected else LossRateDisconnected;
        ghost var before := links;
        SetLinkLossTo("uav", ApName(i), lossRate);
        assert forall k :: 0 <= k < |links| ==> (UavApLink(before[k], i) <==> UavApLink(old(links)[k], i));
        forall k, j | 0 <= k < |links| && 0 <= j < i && UavApLink(old(links)[k], j)
          ensures !Between(before[k], "uav", ApName(i))
        {
          if ApName(i) == ApName(j) {
            ApNameInjective(i, j);
          }
        }
      }
    }

    /**
     * The hand-over loop of one run: the UAV first connects to AP 0, then to
     * `current_link` for ten steps, with `current_link` starting at 0 and
     * advancing by one modulo the number of platoons.
     */
    method Rotate() returns (schedule: seq<int>, currentLink: int)
      modifies this
      ensures |schedule| == RotationSteps + 1 && schedule[0] == 0
      ensures forall k :: 1 <= k <= RotationSteps ==> schedule[k] == (k - 1) % Platoons
      ensures forall k :: 0 <= k < |schedule| ==> 0 <= schedule[k] < Platoons
      ensures currentLink == RotationSteps % Platoons
      ensures ConnectedTo(old(links), links, schedule[RotationSteps])
    {
      ConnectToAp(0);
      schedule := [0];
      currentLink := 0;
      for i := 0 to RotationSteps
        invariant |schedule| == i + 1 && schedule[0] == 0
        invariant forall k :: 1 <= k <= i ==> schedule[k] == (k - 1) % Platoons
        invariant forall k :: 0 <= k < |schedule| ==> 0 <= schedule[k] < Platoons
        invariant currentLink == i % Platoons
        invariant ConnectedTo(old(links), links, schedule[i])
      {
        ghost var before := links;
        ConnectToAp(currentLink);
        ConnectedAgain(old(links), before, links, schedule[i], currentLink);
        schedule := schedule + [currentLink];
        currentLink := (currentLink + 1) % Platoons;
      }
    }
  }

  /** A later `connect_to_ap` overrides an earlier one on every UAV-to-AP link. */
  lemma ConnectedAgain(original: seq<Link>, middle: seq<Link>, after: seq<Link>, first: int, second: int)
    requires ConnectedTo(original, middle, first)
    requires ConnectedTo(middle, after, second)
    ensures ConnectedTo(original, after, second)
  {
    forall k, i | 0 <= k < |original| && 0 <= i < Platoons && UavApLink(original[k], i)
      ensures UavApLink(middle[k], i)
    {
    }
    forall k | 0 <= k < |original| && OtherLink(original[k])
      ensures OtherLink(middle[k])
    {
    }
  }

  /** The units of platoon i, in order. */
  function PlatoonUnits(i: nat): (r: seq<string>)
    ensures |r| == NodesPerPlatoon
  {
    seq(NodesPerPlatoon, j requires 0 <= j < NodesPerPlatoon => UnitName(i, j))
  }

  /** The links added for platoon i: UAV to access point, then access point to each unit. */
  function PlatoonLinks(i: nat): (r: seq<(string, string)>)
    ensures |r| == 1 + NodesPerPlatoon
  {
    [("uav", ApName(i))] + seq(NodesPerPlatoon, j requires 0 <= j < NodesPerPlatoon => (ApName(i), UnitName(i, j)))
  }

  /** Building platoon i one unit at a time: unit j comes next, with its link from the access point. */
  lemma PlatoonPrefixStep(i: nat, j: nat)
    requires j < NodesPerPlatoon
    ensures PlatoonUnits(i)[..j + 1] == PlatoonUnits(i)[..j] + [UnitName(i, j)]
    ensures PlatoonLinks(i)[..j + 2] == PlatoonLinks(i)[..j + 1] + [(ApName(i), UnitName(i, j))]
  {
  }

  /** After the last unit, platoon i is complete. */
  lemma PlatoonPrefixFull(i: nat)
    ensures PlatoonUnits(i)[..NodesPerPlatoon] == PlatoonUnits(i)
    ensures PlatoonLinks(i)[..NodesPerPlatoon + 1] == PlatoonLinks(i)
  {
  }

  /** The units of the first n platoons. */
  function AllUnits(n: nat): seq<string>
  {
    if n == 0 then [] else AllUnits(n - 1) + PlatoonUnits(n - 1)
  }

  /** The links of the first n platoons. */
  function AllLinks(n: nat): seq<(string, string)>
  {
    if n == 0 then [] else AllLinks(n - 1) + PlatoonLinks(n - 1)
  }

  /** Unit j of platoon i is host number i*5+j. */
  lemma {:induction false} UnitIndexes(n: nat)
    ensures |AllUnits(n)| == n * NodesPerPlatoon
    ensures forall i, j :: 0 <= i < n && 0 <= j < NodesPerPlatoon ==>
      AllUnits(n)[i * NodesPerPlatoon + j] == UnitName(i, j)
  {
    if n > 0 {
      UnitIndexes(n - 1);
      var before := AllUnits(n - 1);
      forall i, j | 0 <= i < n && 0 <= j < NodesPerPlatoon
        ensures AllUnits(n)[i * NodesPerPlatoon + j] == UnitName(i, j)
      {
        if i < n - 1 {
          assert i * NodesPerPlatoon + j < |before|;
        } else {
          assert AllUnits(n)[i * NodesPerPlatoon + j] == PlatoonUnits(n - 1)[j];
        }
      }
    }
  }

  /**
   * The link to access point i is link number i*6, and the link from it to
   * unit j is the (j+1)-th after it.
   */
  lemma {:induction false} LinkIndexes(n: nat)
    ensures |AllLinks(n)| == n * (1 + NodesPerPlatoon)
    ensures forall i :: 0 <= i < n ==> AllLinks(n)[i * (1 + NodesPerPlatoon)] == ("uav", ApName(i))
    ensures forall i, j :: 0 <= i < n && 0 <= j < NodesPerPlatoon ==>
      AllLinks(n)[i * (1 + NodesPerPlatoon) + 1 + j] == (ApName(i), UnitName(i, j))
  {
    if n > 0 {
      LinkIndexes(n - 1);
      var before := AllLinks(n - 1);
      forall i | 0 <= i < n
        ensures AllLinks(n)[i * (1 + NodesPerPlatoon)] == ("uav", ApName(i))
      {
        if i < n - 1 {
          assert i * (1 + NodesPerPlatoon) < |before|;
        }
      }
      forall i, j | 0 <= i < n && 0 <= j < NodesPerPlatoon
        ensures AllLinks(n)[i * (1 + NodesPerPlatoon) + 1 + j] == (ApName(i), UnitName(i, j))
      {
        if i < n - 1 {
          assert i * (1 + NodesPerPlatoon) + 1 + j < |before|;
        } else {
          assert AllLinks(n)[i * (1 + NodesPerPlatoon) + 1 + j] == PlatoonLinks(n - 1)[1 + j];
        }
      }
    }
  }

  /**
   * Builds the topology: the UAV, then for each platoon i its access point
   * `ap<i>`, linked to the UAV, and its units `unit_<i>_<j>`, each linked to
   * the access point. Links are the host pairs in the order they are added.
   */
  method BuildTopology() returns (accessPoints: seq<string>, units: seq<string>, links: seq<(string, string)>)
    ensures |accessPoints| == Platoons
    ensures forall i :: 0 <= i < Platoons ==> accessPoints[i] == ApName(i)
    ensures units == AllUnits(Platoons) && links == AllLinks(Platoons)
  {
    var uav := "uav";
    accessPoints, units, links := [], [], [];
    for i := 0 to Platoons
      invariant |accessPoints| == i
      invariant forall p :: 0 <= p < i ==> accessPoints[p] == ApName(p)
      invariant units == AllUnits(i) && links == AllLinks(i)
    {
      accessPoints := accessPoints + [ApName(i)];
      links := links + [(uav, accessPoints[i])];
      for j := 0 to NodesPerPlatoon
        invariant units == AllUnits(i) + PlatoonUnits(i)[..j]
        invariant links == AllLinks(i) + PlatoonLinks(i)[..j + 1]
      {
        var unit := UnitName(i, j);
        links := links + [(accessPoints[i], unit)];
        units := units + [unit];
        PlatoonPrefixStep(i, j);
      }
      PlatoonPrefixFull(i);
    }
  }

  /** The links of a built topology before any loss rate is set: no loss on either end. */
  function TopologyLinks(pairs: seq<(string, string)>): seq<Link>
  {
    seq(|pairs|, k requires 0 <= k < |pairs| => Link(pairs[k].0, pairs[k].1, 0, 0))
  }

  /** Index of the link from the UAV to AP i in the built topology. */
  function UavLinkIndex(i: nat): nat
  {
    i * (1 + NodesPerPlatoon)
  }

  /** Index of the link from AP i to its unit j in the built topology. */
  function UnitLinkIndex(i: nat, j: nat): nat
  {
    i * (1 + NodesPerPlatoon) + 1 + j
  }

  /** In the built topology, the only link between the UAV and AP i is link i*6. */
  lemma BuiltUavLink(k: nat, i: nat)
    requires k < |AllLinks(Platoons)| && i < Platoons
    ensures UavApLink(TopologyLinks(AllLinks(Platoons))[k], i) <==> k == UavLinkIndex(i)
  {
    LinkIndexes(Platoons);
    var l := TopologyLinks(AllLinks(Platoons))[k];
    var p, r := k / (1 + NodesPerPlatoon), k % (1 + NodesPerPlatoon);
    assert k == p * (1 + NodesPerPlatoon) + r && p < Platoons;
    assert ApName(i)[0] == 'a' && ApName(p)[0] == 'a';
    if r == 0 {
      assert l.a == "uav" && l.b == ApName(p);
      if ApName(p) == ApName(i) {
        ApNameInjective(p, i);
      }
    } else {
      assert l.a == ApName(p) && l.b == UnitName(p, r - 1);
      assert UnitName(p, r - 1)[1] == 'n';
    }
  }

  /**
   * `connect_to_ap` on the topology as built: the link from the UAV to AP i
   * carries the connected or the disconnected loss rate, and the links from
   * each AP to its units keep no loss.
   */
  lemma ConnectedTopology(after: seq<Link>, apNumber: int)
    requires ConnectedTo(TopologyLinks(AllLinks(Platoons)), after, apNumber)
    ensures |after| == Platoons * (1 + NodesPerPlatoon)
    ensures forall i :: 0 <= i < Platoons ==>
      && after[UavLinkIndex(i)].a == "uav" && after[UavLinkIndex(i)].b == ApName(i)
      && after[UavLinkIndex(i)].lossA == ApLossRate(i, apNumber)
      && after[UavLinkIndex(i)].lossB == ApLossRate(i, apNumber)
    ensures forall i, j :: 0 <= i < Platoons && 0 <= j < NodesPerPlatoon ==>
      after[UnitLinkIndex(i, j)] == Link(ApName(i), UnitName(i, j), 0, 0)
  {
    var before := TopologyLinks(AllLinks(Platoons));
    LinkIndexes(Platoons);
    forall i | 0 <= i < Platoons
      ensures UavApLink(before[UavLinkIndex(i)], i)
    {
      BuiltUavLink(UavLinkIndex(i), i);
    }
    forall i, j | 0 <= i < Platoons && 0 <= j < NodesPerPlatoon
      ensures OtherLink(before[UnitLinkIndex(i, j)])
      ensures before[UnitLinkIndex(i, j)] == Link(ApName(i), UnitName(i, j), 0, 0)
    {
      var k := UnitLinkIndex(i, j);
      forall m | 0 <= m < Platoons
        ensures !UavApLink(before[k], m)
      {
        BuiltUavLink(k, m);
      }
    }
  }
}

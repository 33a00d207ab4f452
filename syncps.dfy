/**
 * The two callbacks the syncps clients and relay hand to the syncps
 * engine: the reply filter, which orders the publications that fit in one
 * sync reply, and the expiry test. Both read a publication's time from its
 * name: the last component when it is a timestamp (position data), else the
 * third component from the end (voice segments end in timestamp, version,
 * segment).
 */
module Syncps {
  import opened Wrappers
  import opened Ndn
  import opened Transport

  type Publication = Data

  /**
   * Reading the time failed: the chosen component is not a timestamp, or the
   * name is too short to have one (the source indexes past the start of the
   * name there, which is undefined; the model reports it as this error).
   */
  datatype KeyError = NoTimestamp

  /** The sync interest lifetime both syncps roles configure, in milliseconds. */
  const SyncInterestLifetimeMs := 1000

  /** The time a publication carries in its name. */
  function TimestampKey(p: Publication): (r: Result<int, KeyError>)
    ensures |p.name| >= 1 && p.name[|p.name| - 1].Timestamp? ==> r == Success(p.name[|p.name| - 1].micros)
    ensures (|p.name| == 0 || !p.name[|p.name| - 1].Timestamp?) && |p.name| >= 3 && p.name[|p.name| - 3].Timestamp? ==>
      r == Success(p.name[|p.name| - 3].micros)
    ensures r.Failure? <==>
      (|p.name| == 0 || !p.name[|p.name| - 1].Timestamp?) && (|p.name| < 3 || !p.name[|p.name| - 3].Timestamp?)
  {
    var n := p.name;
    if |n| >= 1 && n[|n| - 1].Timestamp? then Success(n[|n| - 1].micros)
    else if |n| >= 3 && n[|n| - 3].Timestamp? then Success(n[|n| - 3].micros)
    else Failure(NoTimestamp)
  }

  /** The key as a total function; only used where every key is known to exist. */
  function KeyOf(p: Publication): int
  {
    match TimestampKey(p)
    case Success(t) => t
    case Failure(_) => 0
  }

  predicate Keyed(ps: seq<Publication>)
  {
    forall i :: 0 <= i < |ps| ==> TimestampKey(ps[i]).Success?
  }

  /** Most recent first: keys never increase along the sequence. */
  ghost predicate NewestFirst(ps: seq<Publication>)
  {
    forall i, j :: 0 <= i < j < |ps| ==> KeyOf(ps[i]) >= KeyOf(ps[j])
  }

  /** `std::sort` with the comparator throws when it meets a publication without a key. */
  predicate SortFails(ps: seq<Publication>)
  {
    |ps| > 1 && !Keyed(ps)
  }

  /** Every key in `ps` is at most `bound`. */
  ghost predicate NoNewerThan(ps: seq<Publication>, bound: int)
  {
    forall k :: 0 <= k < |ps| ==> KeyOf(ps[k]) <= bound
  }

  /** Puts `p` in front of the first publication that is not newer than it. */
  function InsertNewest(p: Publication, ps: seq<Publication>): (r: seq<Publication>)
    ensures |r| == |ps| + 1
    ensures multiset(r) == multiset(ps) + multiset{p}
  {
    if ps == [] then [p]
    else if KeyOf(p) >= KeyOf(ps[0]) then [p] + ps
    else
      assert ps == [ps[0]] + ps[1..];
      [ps[0]] + InsertNewest(p, ps[1..])
  }

  lemma {:induction false} InsertNewestBound(p: Publication, ps: seq<Publication>, bound: int)
    requires KeyOf(p) <= bound && NoNewerThan(ps, bound)
    ensures NoNewerThan(InsertNewest(p, ps), bound)
  {
    if ps != [] && KeyOf(p) < KeyOf(ps[0]) {
      InsertNewestBound(p, ps[1..], bound);
    }
  }

  /** Inserting into a newest-first sequence keeps it newest first. */
  lemma {:induction false} InsertNewestSorted(p: Publication, ps: seq<Publication>)
    requires NewestFirst(ps)
    ensures NewestFirst(InsertNewest(p, ps))
  {
    if ps != [] && KeyOf(p) < KeyOf(ps[0]) {
      var rest := InsertNewest(p, ps[1..]);
      InsertNewestSorted(p, ps[1..]);
      InsertNewestBound(p, ps[1..], KeyOf(ps[0]));
      var r := [ps[0]] + rest;
      forall i, j | 0 <= i < j < |r| ensures KeyOf(r[i]) >= KeyOf(r[j]) {
        if i > 0 {
          assert r[i] == rest[i - 1] && r[j] == rest[j - 1];
        } else {
          assert r[j] == rest[j - 1];
        }
      }
    }
  }

  /**
   * The order `std::sort(begin, end, cmp)` establishes with `cmp` = "newer
   * than": a permutation whose keys never increase. Among publications with
   * equal keys `std::sort` may choose any order; this is one of them.
   */
  function SortNewestFirst(ps: seq<Publication>): (r: seq<Publication>)
    ensures |r| == |ps|
    ensures multiset(r) == multiset(ps)
    ensures NewestFirst(r)
  {
    if ps == [] then []
    else
      assert ps == [ps[0]] + ps[1..];
      var sortedRest := SortNewestFirst(ps[1..]);
      InsertNewestSorted(ps[0], sortedRest);
      InsertNewest(ps[0], sortedRest)
  }

  /**
   * The reply filter. Replies only when at least one publication is ours:
   * then ours come first and the others after them, each group newest first,
   * and nothing is dropped or duplicated. `pOurs` is sorted only when it
   * holds more than one publication.
   */
  method FilterPubs(ours: seq<Publication>, others: seq<Publication>)
    returns (r: Result<seq<Publication>, KeyError>)
    ensures ours == [] ==> r == Success([])
    ensures r.Failure? <==> ours != [] && (SortFails(ours) || SortFails(others))
    ensures r.Success? && ours != [] ==>
      && |r.value| == |ours| + |others|
      && multiset(r.value[..|ours|]) == multiset(ours)
      && multiset(r.value[|ours|..]) == multiset(others)
      && NewestFirst(r.value[..|ours|])
      && NewestFirst(r.value[|ours|..])
  {
    if |ours| == 0 {
      return Success(ours);
    }
    var sortedOurs := ours;
    if |ours| > 1 {
      if !Keyed(ours) {
        return Failure(NoTimestamp);
      }
      sortedOurs := SortNewestFirst(ours);
    }
    var sortedOthers := others;
    if |others| > 1 {
      if !Keyed(others) {
        return Failure(NoTimestamp);
      }
      sortedOthers := SortNewestFirst(others);
    }
    var out := sortedOurs;
    for i := 0 to |sortedOthers|
      invariant out == sortedOurs + sortedOthers[..i]
    {
      out := out + [sortedOthers[i]];
    }
    assert sortedOthers[..|sortedOthers|] == sortedOthers;
    assert out[..|ours|] == sortedOurs;
    assert out[|ours|..] == sortedOthers;
    return Success(out);
  }

  /**
   * The expiry test: a publication is expired when its age is at least the
   * maximum lifetime plus the allowed clock skew, or when it lies further in
   * the future than the skew. `now` stands for `system_clock::now()`. So a
   * publication with a time key is live exactly inside the open window
   * (-skew, lifetime + skew) of ages.
   */
  function IsExpired(p: Publication, now: int, maxPubLifetime: int, maxClockSkew: int): (r: Result<bool, KeyError>)
    ensures r.Failure? <==> TimestampKey(p).Failure?
    ensures r.Success? ==>
      (r.value <==> !(-maxClockSkew < now - KeyOf(p) < maxPubLifetime + maxClockSkew))
  {
    match TimestampKey(p)
    case Failure(e) => Failure(e)
    case Success(t) =>
      var age := now - t;
      Success(age >= maxPubLifetime + maxClockSkew || age <= -maxClockSkew)
  }

  /** A publication that has aged out stays expired as time goes on. */
  lemma AgedOutStaysExpired(p: Publication, now: int, later: int, maxPubLifetime: int, maxClockSkew: int)
    requires TimestampKey(p).Success?
    requires now - KeyOf(p) >= maxPubLifetime + maxClockSkew
    requires now <= later
    ensures IsExpired(p, later, maxPubLifetime, maxClockSkew) == Success(true)
  {
  }

  /** With a positive skew and a non-negative lifetime, a publication is live at its own timestamp. */
  lemma LiveWhenPublished(p: Publication, maxPubLifetime: int, maxClockSkew: int)
    requires TimestampKey(p).Success?
    requires maxClockSkew > 0 && maxPubLifetime >= 0
    ensures IsExpired(p, KeyOf(p), maxPubLifetime, maxClockSkew) == Success(false)
  {
  }

  /**
   * The syncps relay: it creates the sync engine with the same two callbacks,
   * sets the sync interest lifetime, and subscribes to nothing.
   */
  class SyncpsUav {
    const syncPrefix: Name
    var subscriptions: seq<Subscription>
    var syncInterestLifetimeMs: nat

    constructor (syncPrefix: Name)
      ensures this.syncPrefix == syncPrefix
      ensures subscriptions == []
      ensures syncInterestLifetimeMs == SyncInterestLifetimeMs
    {
      this.syncPrefix := syncPrefix;
      subscriptions := [];
      syncInterestLifetimeMs := SyncInterestLifetimeMs;
    }
  }
}

/**
 * The state-vector-sync relay (the UAV). It caches every position
 * publication it receives, inner and outer packet alike, and it discovers
 * participant sessions from the sync layer's missing-data reports: the first
 * time a session appears, the relay records it in its covered list and
 * registers interest filters so that it can serve that session's data.
 */
module SvsUav {
  import opened Wrappers
  import opened Ndn
  import opened ContentStore
  import opened Transport

  predicate NoDup(xs: seq<Name>)
  {
    forall i, j :: 0 <= i < j < |xs| ==> xs[i] != xs[j]
  }

  /** Records `session` unless an equal name is already covered. */
  function Cover(covered: seq<Name>, session: Name): seq<Name>
  {
    if session in covered then covered else covered + [session]
  }

  /** The covered list after a batch of sessions, processed in order; it only grows. */
  function CoverAll(covered: seq<Name>, sessions: seq<Name>): (r: seq<Name>)
    ensures covered <= r
  {
    if sessions == [] then covered
    else Cover(CoverAll(covered, sessions[..|sessions| - 1]), sessions[|sessions| - 1])
  }

  /** The sessions a missing-data batch names, in order. */
  function Sessions(batch: seq<MissingDataInfo>): (r: seq<Name>)
    ensures |r| == |batch|
    ensures forall i :: 0 <= i < |batch| ==> r[i] == batch[i].session
  {
    seq(|batch|, i requires 0 <= i < |batch| => batch[i].session)
  }

  /**
   * The two filters registered for a session. The source appends the sync
   * prefix to its own copy of the session name and then appends "MAPPING" to
   * that same, already extended name.
   */
  function Listen(session: Name, syncPrefix: Name): seq<Action>
  {
    [FilterSet(session + syncPrefix, ServeData),
     FilterSet(session + syncPrefix + [Generic("MAPPING")], ServeMapping)]
  }

  function ListenAll(sessions: seq<Name>, syncPrefix: Name): (r: seq<Action>)
    ensures |r| == 2 * |sessions|
  {
    if sessions == [] then []
    else ListenAll(sessions[..|sessions| - 1], syncPrefix) + Listen(sessions[|sessions| - 1], syncPrefix)
  }

  /** The filter registrations in a face log, in order. */
  function Filters(log: seq<Action>): seq<Action>
  {
    if log == [] then []
    else Filters(log[..|log| - 1]) + (if log[|log| - 1].FilterSet? then [log[|log| - 1]] else [])
  }

  lemma {:induction false} FiltersAppend(a: seq<Action>, b: seq<Action>)
    ensures Filters(a + b) == Filters(a) + Filters(b)
  {
    if b == [] {
      assert a + b == a;
    } else {
      assert (a + b)[..|a + b| - 1] == a + b[..|b| - 1];
      FiltersAppend(a, b[..|b| - 1]);
    }
  }

  lemma {:induction false} FiltersOnlyFilterSets(log: seq<Action>)
    requires forall k :: 0 <= k < |log| ==> log[k].FilterSet?
    ensures Filters(log) == log
  {
    if log != [] {
      FiltersOnlyFilterSets(log[..|log| - 1]);
    }
  }

  lemma {:induction false} ListenAllAppend(a: seq<Name>, b: seq<Name>, syncPrefix: Name)
    ensures ListenAll(a + b, syncPrefix) == ListenAll(a, syncPrefix) + ListenAll(b, syncPrefix)
  {
    if b == [] {
      assert a + b == a;
    } else {
      assert (a + b)[..|a + b| - 1] == a + b[..|b| - 1];
      ListenAllAppend(a, b[..|b| - 1], syncPrefix);
    }
  }

  /** A duplicate-free covered list stays duplicate-free. */
  lemma {:induction false} CoverAllNoDup(covered: seq<Name>, sessions: seq<Name>)
    requires NoDup(covered)
    ensures NoDup(CoverAll(covered, sessions))
  {
    if sessions != [] {
      CoverAllNoDup(covered, sessions[..|sessions| - 1]);
    }
  }

  /** A session is covered afterwards exactly when it was covered before or was reported. */
  lemma {:induction false} CoverAllMembers(covered: seq<Name>, sessions: seq<Name>, n: Name)
    ensures n in CoverAll(covered, sessions) <==> n in covered || n in sessions
  {
    if sessions != [] {
      var init := sessions[..|sessions| - 1];
      CoverAllMembers(covered, init, n);
      assert sessions == init + [sessions[|sessions| - 1]];
    }
  }

  /** A batch of sessions that are all covered already changes nothing. */
  lemma {:induction false} CoverAllCovered(covered: seq<Name>, sessions: seq<Name>)
    requires forall i :: 0 <= i < |sessions| ==> sessions[i] in covered
    ensures CoverAll(covered, sessions) == covered
  {
    if sessions != [] {
      CoverAllCovered(covered, sessions[..|sessions| - 1]);
    }
  }

  /** Two batches in a row cover what their concatenation covers. */
  lemma {:induction false} CoverAllAppend(covered: seq<Name>, a: seq<Name>, b: seq<Name>)
    ensures CoverAll(CoverAll(covered, a), b) == CoverAll(covered, a + b)
  {
    if b == [] {
      assert a + b == a;
    } else {
      assert (a + b)[..|a + b| - 1] == a + b[..|b| - 1];
      CoverAllAppend(covered, a, b[..|b| - 1]);
    }
  }

  /**
   * The sessions newly covered by a batch (those that get filters) are
   * distinct, and they are exactly the reported sessions that were not
   * covered before: every distinct new session is registered once, however
   * often it is reported.
   */
  lemma RegisteredOnce(covered: seq<Name>, sessions: seq<Name>)
    requires NoDup(covered)
    ensures var added := CoverAll(covered, sessions)[|covered|..];
      && NoDup(added)
      && forall n :: n in added <==> n in sessions && n !in covered
  {
    var all := CoverAll(covered, sessions);
    CoverAllNoDup(covered, sessions);
    var added := all[|covered|..];
    assert all == covered + added;
    forall n ensures n in added <==> n in sessions && n !in covered {
      CoverAllMembers(covered, sessions, n);
    }
  }

  /** Distinct sessions get distinct data filters. */
  lemma DataFiltersDistinct(s1: Name, s2: Name, syncPrefix: Name)
    requires s1 != s2
    ensures Listen(s1, syncPrefix)[0] != Listen(s2, syncPrefix)[0]
  {
    if |s1| == |s2| {
      var k :| 0 <= k < |s1| && s1[k] != s2[k];
      assert (s1 + syncPrefix)[k] != (s2 + syncPrefix)[k];
    }
  }

  /**
   * The covered list grew from `covered0` without duplicates, the face log
   * grew from `log0` by the filters of the newly covered sessions, and the
   * log's filters are those of the whole covered list.
   */
  predicate Discovered(covered0: seq<Name>, log0: seq<Action>, covered: seq<Name>, log: seq<Action>, syncPrefix: Name)
  {
    && covered0 <= covered
    && NoDup(covered)
    && log == log0 + ListenAll(covered[|covered0|..], syncPrefix)
    && Filters(log) == ListenAll(covered, syncPrefix)
  }

  /** Covering one new session keeps the discovery relation. */
  lemma CoverNew(covered0: seq<Name>, covered: seq<Name>, log0: seq<Action>, log: seq<Action>,
                 session: Name, syncPrefix: Name)
    requires Discovered(covered0, log0, covered, log, syncPrefix) && session !in covered
    ensures Discovered(covered0, log0, covered + [session], log + Listen(session, syncPrefix), syncPrefix)
  {
    var listen := Listen(session, syncPrefix);
    var after := covered + [session];
    assert NoDup(after);
    assert log + listen == log0 + ListenAll(after[|covered0|..], syncPrefix) by {
      assert after[|covered0|..] == covered[|covered0|..] + [session];
      ListenAllAppend(covered[|covered0|..], [session], syncPrefix);
      assert [session][..0] == [];
    }
    assert Filters(log + listen) == ListenAll(after, syncPrefix) by {
      FiltersAppend(log, listen);
      FiltersOnlyFilterSets(listen);
      assert after[..|covered|] == covered;
    }
  }

  class Relay {
    const syncPrefix: Name
    const uavPrefix: Name
    const face: Face
    var store: Store
    var covered: seq<Name>
    var subscriptions: seq<Subscription>

    /**
     * The covered list has no duplicates, the store is keyed by names, and
     * the face's filter registrations are exactly those of the covered
     * sessions, two per session, in covering order.
     */
    ghost predicate Valid()
      reads this, face
    {
      && NoDup(covered)
      && WellFormed(store)
      && Filters(face.log) == ListenAll(covered, syncPrefix)
    }

    /** Sets up the relay under `/uav` with one subscription, to all position data. */
    constructor (syncPrefix: Name)
      ensures Valid() && fresh(face)
      ensures this.syncPrefix == syncPrefix && uavPrefix == [Generic("uav")]
      ensures face.log == [] && store == map[] && covered == []
      ensures subscriptions == [Subscription([Generic("position")], CacheInnerAndOuter)]
    {
      this.syncPrefix := syncPrefix;
      uavPrefix := [Generic("uav")];
      face := new Face();
      store := map[];
      covered := [];
      subscriptions := [Subscription([Generic("position")], CacheInnerAndOuter)];
    }

    /** Registers the data filter and then the mapping filter of one session. */
    method ListenToPrefix(prefix: Name)
      modifies face
      ensures face.log == old(face.log) + Listen(prefix, syncPrefix)
    {
      var name := prefix;
      name := name + syncPrefix;
      face.SetInterestFilter(name, ServeData);
      name := name + [Generic("MAPPING")];
      face.SetInterestFilter(name, ServeMapping);
    }

    /**
     * Session discovery: every reported session not yet covered is appended
     * to the covered list and gets its filters; covered ones change nothing.
     */
    method OnMissingData(batch: seq<MissingDataInfo>)
      requires Valid()
      modifies this`covered, face
      ensures Valid()
      ensures covered == CoverAll(old(covered), Sessions(batch))
      ensures face.log == old(face.log) + ListenAll(covered[|old(covered)|..], syncPrefix)
    {
      ghost var sessions := Sessions(batch);
      for i := 0 to |batch|
        invariant covered == CoverAll(old(covered), sessions[..i])
        invariant Discovered(old(covered), old(face.log), covered, face.log, syncPrefix)
      {
        var mdi := batch[i];
        assert sessions[..i + 1] == sessions[..i] + [mdi.session];
        if mdi.session !in covered {
          CoverNew(old(covered), covered, old(face.log), face.log, mdi.session, syncPrefix);
          covered := covered + [mdi.session];
          ListenToPrefix(mdi.session);
        }
      }
      assert sessions[..|batch|] == sessions;
    }

    /** The position handler caches the inner packet and then the outer one. */
    method OnPositionData(inner: Data, outer: Data)
      requires Valid()
      modifies this`store
      ensures Valid()
      ensures store == Insert(Insert(old(store), inner), outer)
    {
      store := Insert(store, inner);
      store := Insert(store, outer);
    }

    /** Answers an Interest from the store; a miss sends nothing. */
    method OnDataInterest(interest: Interest)
      requires Valid()
      modifies face
      ensures Valid()
      ensures Find(store, interest).Some? ==> face.log == old(face.log) + [Sent(Find(store, interest).value)]
      ensures Find(store, interest).None? ==> face.log == old(face.log)
    {
      var data := Find(store, interest);
      if data.Some? {
        FiltersAppend(face.log, [Sent(data.value)]);
        assert Filters([Sent(data.value)]) == [];
        face.Put(data.value);
      }
    }
  }

  /** After a position publication is cached, the relay serves both of its packets. */
  lemma CachedPositionServed(s: Store, inner: Data, outer: Data, canBePrefix: bool)
    ensures Find(Insert(Insert(s, inner), outer), Interest(outer.name, canBePrefix)) == Some(outer)
    ensures inner.name != outer.name ==>
      Find(Insert(Insert(s, inner), outer), Interest(inner.name, canBePrefix)) == Some(inner)
  {
  }
}

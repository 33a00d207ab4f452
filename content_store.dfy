/**
 * The in-memory data store (`ndn::svs::MemoryDataStore`) as a map from a
 * Data packet's name to the packet. Inserting overwrites, nothing is evicted,
 * and a lookup that misses returns None: a miss is never an error.
 */
module ContentStore {
  import opened Wrappers
  import opened Ndn

  type Store = map<Name, Data>

  /** Every entry is keyed by its own name. */
  ghost predicate WellFormed(s: Store)
  {
    forall n :: n in s ==> s[n].name == n
  }

  /** `insert(data)`: adds or overwrites the entry for the packet's name. */
  function Insert(s: Store, d: Data): (r: Store)
    ensures WellFormed(s) ==> WellFormed(r)
    ensures r.Keys == s.Keys + {d.name}
    ensures forall n :: n in s && n != d.name ==> r[n] == s[n]
  {
    s[d.name := d]
  }

  /** `find(interest)`: the entry stored under the interest's name, if any. */
  function Find(s: Store, i: Interest): (r: Option<Data>)
    ensures r.Some? <==> i.name in s
    ensures WellFormed(s) && r.Some? ==> r.value.name == i.name
  {
    if i.name in s then Some(s[i.name]) else None
  }

  /** Inserts the packets in order, later ones overwriting earlier ones of the same name. */
  function InsertAll(s: Store, ds: seq<Data>): Store
  {
    if ds == [] then s else Insert(InsertAll(s, ds[..|ds| - 1]), ds[|ds| - 1])
  }

  predicate DistinctNames(ds: seq<Data>)
  {
    forall i, j :: 0 <= i < j < |ds| ==> ds[i].name != ds[j].name
  }

  function Names(ds: seq<Data>): set<Name>
  {
    set i | 0 <= i < |ds| :: ds[i].name
  }

  /** An insert followed by a find of the same name returns the inserted packet. */
  lemma FindAfterInsert(s: Store, d: Data, canBePrefix: bool)
    ensures Find(Insert(s, d), Interest(d.name, canBePrefix)) == Some(d)
  {
  }

  /** Inserting the first i+1 packets is inserting the first i and then packet i. */
  lemma InsertAllPrefixStep(s: Store, ds: seq<Data>, i: nat)
    requires i < |ds|
    ensures InsertAll(s, ds[..i + 1]) == Insert(InsertAll(s, ds[..i]), ds[i])
  {
    assert ds[..i + 1][..i] == ds[..i];
  }

  /** Inserting a batch adds exactly the batch's names and keeps every other entry. */
  lemma {:induction false} InsertAllKeys(s: Store, ds: seq<Data>)
    ensures InsertAll(s, ds).Keys == s.Keys + Names(ds)
    ensures forall n :: n in s && n !in Names(ds) ==> InsertAll(s, ds)[n] == s[n]
    ensures WellFormed(s) ==> WellFormed(InsertAll(s, ds))
  {
    if ds != [] {
      var init := ds[..|ds| - 1];
      InsertAllKeys(s, init);
      assert Names(ds) == Names(init) + {ds[|ds| - 1].name} by {
        forall n | n in Names(ds) ensures n in Names(init) + {ds[|ds| - 1].name} {
          var i :| 0 <= i < |ds| && ds[i].name == n;
          if i < |ds| - 1 {
            assert init[i] == ds[i];
          }
        }
        forall n | n in Names(init) ensures n in Names(ds) {
          var i :| 0 <= i < |init| && init[i].name == n;
          assert ds[i] == init[i];
        }
      }
    }
  }

  /** After a batch of distinctly named packets is inserted, each one is found under its name. */
  lemma {:induction false} InsertAllFind(s: Store, ds: seq<Data>, k: nat, canBePrefix: bool)
    requires DistinctNames(ds)
    requires k < |ds|
    ensures Find(InsertAll(s, ds), Interest(ds[k].name, canBePrefix)) == Some(ds[k])
  {
    if k < |ds| - 1 {
      var init := ds[..|ds| - 1];
      assert init[k] == ds[k];
      InsertAllFind(s, init, k, canBePrefix);
    }
  }
}

/**
 * What the clients hand to the network and to the sync layer: the face
 * (`ndn::Face`) records each Interest expressed, each interest filter set
 * and each Data put; sync subscriptions pair a name prefix with the handler
 * that receives publications under it.
 */
module Transport {
  import opened Ndn

  /** Which callback an interest filter dispatches to. */
  datatype FilterHandler = ServeData | ServeMapping

  datatype Action =
    | Expressed(interest: Interest)
    | FilterSet(prefix: Name, handler: FilterHandler)
    | Sent(data: Data)

  /**
   * What a subscription handler does with a publication: log it, fetch the
   * remaining segments named by its final-block id, or cache both the inner
   * and the outer packet (the relay's position handler).
   */
  datatype Handler = LogOnly | FetchSegments | CacheInnerAndOuter

  datatype Subscription = Subscription(prefix: Name, handler: Handler)

  /**
   * The sync layer's report of a producer session with sequence numbers not
   * yet fetched; the relay reads only the session, so the sequence-number
   * range is not modelled.
   */
  datatype MissingDataInfo = MissingDataInfo(session: Name)

  /** The face actions for expressing the given interests, in order. */
  function Expressions(interests: seq<Interest>): (actions: seq<Action>)
    ensures |actions| == |interests|
    ensures forall k :: 0 <= k < |interests| ==> actions[k] == Expressed(interests[k])
  {
    if interests == [] then []
    else Expressions(interests[..|interests| - 1]) + [Expressed(interests[|interests| - 1])]
  }

  class Face {
    var log: seq<Action>

    constructor ()
      ensures log == []
    {
      log := [];
    }

    method ExpressInterest(interest: Interest)
      modifies this
      ensures log == old(log) + [Expressed(interest)]
    {
      log := log + [Expressed(interest)];
    }

    method SetInterestFilter(prefix: Name, handler: FilterHandler)
      modifies this
      ensures log == old(log) + [FilterSet(prefix, handler)]
    {
      log := log + [FilterSet(prefix, handler)];
    }

    method Put(data: Data)
      modifies this
      ensures log == old(log) + [Sent(data)]
    {
      log := log + [Sent(data)];
    }
  }
}

/**
 * Named-data packets: names made of typed components (the NDN naming
 * conventions, NDN-0022: generic, segment, version and timestamp
 * components), Data packets and Interests.
 */
module Ndn {
  import opened Wrappers
  import opened Text

  datatype Component =
    | Generic(value: string)
    | Segment(segmentNo: nat)
    | Version(versionNo: nat)
    | Timestamp(micros: int)

  /** A name is an ordered sequence of components. */
  type Name = seq<Component>

  /**
   * A Data packet. The content is opaque: only its length is kept.
   * `finalBlock` is the FinalBlockId field, a segment number.
   */
  datatype Data = Data(name: Name, contentSize: nat, freshnessMs: nat, finalBlock: Option<nat>)

  datatype Interest = Interest(name: Name, canBePrefix: bool)

  /** `name.getPrefix(name.size() - 1)`: the name without its last component (empty stays empty). */
  function DropLast(n: Name): (r: Name)
    ensures |n| > 0 ==> r + [n[|n| - 1]] == n
    ensures |n| == 0 ==> r == []
  {
    if |n| == 0 then [] else n[..|n| - 1]
  }

  /** `Component::toUri` for the typed components of the naming conventions. */
  function ComponentUri(c: Component): string
  {
    match c
    case Generic(s) => s
    case Segment(n) => "seg=" + NatToString(n)
    case Version(n) => "v=" + NatToString(n)
    case Timestamp(t) => "t=" + IntToString(t)
  }

  /** The generic components of the non-empty '/'-separated fields, in order. */
  function GenericFields(fields: seq<string>): (n: Name)
    ensures |n| <= |fields|
    ensures forall i :: 0 <= i < |n| ==> n[i].Generic? && n[i].value != "" && n[i].value in fields
  {
    if fields == [] then []
    else if fields[0] == "" then GenericFields(fields[1..])
    else [Generic(fields[0])] + GenericFields(fields[1..])
  }

  /**
   * A field `ndn::Name(uri)` takes as it is, as one generic component: not
   * empty, no '/', no percent-escape, no typed `key=value` form, and not made
   * of periods only.
   */
  predicate PlainField(f: string)
  {
    && f != ""
    && '/' !in f && '%' !in f && '=' !in f
    && exists i :: 0 <= i < |f| && f[i] != '.'
  }

  /**
   * `ndn::Name(uri)` for a URI whose fields are plain: split on '/', each
   * non-empty field is one generic component, empty fields (leading and
   * trailing '/') are skipped.
   */
  function FromUri(uri: string): (n: Name)
    ensures |n| <= Count(uri, '/') + 1
    ensures forall i :: 0 <= i < |n| ==> n[i].Generic? && n[i].value != "" && '/' !in n[i].value
  {
    SplitLength(uri, '/');
    GenericFields(Split(uri, '/'))
  }

  /** A URI written as '/'-separated plain fields parses to those fields. */
  lemma {:induction false} FromUriFields(fields: seq<string>)
    requires |fields| >= 1
    requires forall i :: 0 <= i < |fields| ==> PlainField(fields[i])
    ensures FromUri("/" + Join(fields, '/') + "/") == seq(|fields|, i requires 0 <= i < |fields| => Generic(fields[i]))
  {
    var uri := "/" + Join(fields, '/') + "/";
    var all := [""] + fields + [""];
    assert forall i :: 0 <= i < |all| ==> '/' !in all[i];
    JoinCons("", fields + [""], '/');
    JoinSnoc(fields, "", '/');
    assert all == [""] + (fields + [""]);
    assert Join(all, '/') == uri;
    SplitJoin(all, '/');
    GenericFieldsPlain(fields, [""], [""]);
  }

  lemma JoinCons(head: string, tail: seq<string>, sep: char)
    requires |tail| >= 1
    ensures Join([head] + tail, sep) == head + [sep] + Join(tail, sep)
  {
    assert ([head] + tail)[1..] == tail;
  }

  lemma {:induction false} JoinSnoc(fields: seq<string>, last: string, sep: char)
    requires |fields| >= 1
    ensures Join(fields + [last], sep) == Join(fields, sep) + [sep] + last
  {
    if |fields| == 1 {
    } else {
      assert (fields + [last])[1..] == fields[1..] + [last];
      JoinSnoc(fields[1..], last, sep);
    }
  }

  lemma {:induction false} GenericFieldsPlain(fields: seq<string>, before: seq<string>, after: seq<string>)
    requires forall i :: 0 <= i < |fields| ==> fields[i] != ""
    requires before == [""] && after == [""]
    ensures GenericFields(before + fields + after) == seq(|fields|, i requires 0 <= i < |fields| => Generic(fields[i]))
  {
    assert (before + fields + after)[1..] == fields + after;
    GenericFieldsKeep(fields, after);
  }

  lemma {:induction false} GenericFieldsKeep(fields: seq<string>, after: seq<string>)
    requires forall i :: 0 <= i < |fields| ==> fields[i] != ""
    requires after == [""]
    ensures GenericFields(fields + after) == seq(|fields|, i requires 0 <= i < |fields| => Generic(fields[i]))
  {
    if fields == [] {
      assert fields + after == [""];
    } else {
      assert (fields + after)[1..] == fields[1..] + after;
      GenericFieldsKeep(fields[1..], after);
    }
  }
}

/**
 * The callsign rule of `Api.get_activator_stats` in src/pota.py: the
 * activator's call is split on "/" and one segment is used for the lookup.
 */
module Pota {
  import opened Text

  /** The segment of an activator callsign that the stats lookup uses:
      the middle one of exactly three, the first one otherwise. */
  function HomeCall(activator: string): (home: string)
    ensures home in Split(activator, '/')
    ensures '/' !in home
    ensures |home| <= |activator|
  {
    var parts := Split(activator, '/');
    if |parts| == 3 then parts[1] else parts[0]
  }

  /** A call without "/" is looked up as it is. */
  lemma PlainCallUnchanged(call: string)
    requires '/' !in call
    ensures HomeCall(call) == call
  {
    SplitNoSeparator(call, '/');
  }

  /** "A/B/C" is looked up as B. */
  lemma ThreeSegmentsGiveMiddle(a: string, b: string, c: string)
    requires '/' !in a && '/' !in b && '/' !in c
    ensures HomeCall(a + "/" + b + "/" + c) == b
  {
    var parts := [a, b, c];
    SplitJoin(parts, '/');
    assert parts[1..] == [b, c] && parts[1..][1..] == [c];
    assert Join([b, c], '/') == b + "/" + c;
    assert Join(parts, '/') == a + "/" + (b + "/" + c);
    assert a + "/" + (b + "/" + c) == a + "/" + b + "/" + c;
  }

  /** "A/B" is looked up as A. */
  lemma TwoSegmentsGiveFirst(a: string, b: string)
    requires '/' !in a && '/' !in b
    ensures HomeCall(a + "/" + b) == a
  {
    var parts := [a, b];
    SplitJoin(parts, '/');
    assert parts[1..] == [b];
    assert Join(parts, '/') == a + "/" + b;
  }

  /** Four or more segments: the first one is looked up. */
  lemma ManySegmentsGiveFirst(parts: seq<string>)
    requires |parts| >= 4
    requires forall i :: 0 <= i < |parts| ==> '/' !in parts[i]
    ensures HomeCall(Join(parts, '/')) == parts[0]
  {
    SplitJoin(parts, '/');
  }

  /** A prefixed portable call keeps its prefix: "VP5/WD5JR" gives "VP5". */
  lemma PrefixedCallGivesPrefix()
    ensures HomeCall("VP5/WD5JR") == "VP5"
  {
    assert "VP5/WD5JR" == "VP5" + "/" + "WD5JR";
    TwoSegmentsGiveFirst("VP5", "WD5JR");
  }
}

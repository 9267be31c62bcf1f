/** Order-preserving selection: the positions of a flag sequence that are
    set, and the elements of a sequence at those positions. The scraper's
    skip-on-failure loop and the configuration validator's error list are
    both selections of this kind. */
module Subsequences {

  /** The indices k with flags[k], in increasing order. */
  function Positions(flags: seq<bool>): seq<nat>
  {
    if flags == [] then []
    else
      var n := |flags| - 1;
      Positions(flags[..n]) + (if flags[n] then [n] else [])
  }

  /** The elements of s whose flag is set, in their original order. */
  function Select<T>(s: seq<T>, flags: seq<bool>): seq<T>
    requires |s| == |flags|
  {
    if s == [] then []
    else
      var n := |s| - 1;
      Select(s[..n], flags[..n]) + (if flags[n] then [s[n]] else [])
  }

  /** Positions lists exactly the set flags, each once, in strictly increasing order. */
  lemma {:induction false} PositionsExact(flags: seq<bool>)
    ensures forall i :: 0 <= i < |Positions(flags)| ==>
      Positions(flags)[i] < |flags| && flags[Positions(flags)[i]]
    ensures forall i, j :: 0 <= i < j < |Positions(flags)| ==> Positions(flags)[i] < Positions(flags)[j]
    ensures forall k :: 0 <= k < |flags| && flags[k] ==> k in Positions(flags)
    ensures |Positions(flags)| <= |flags|
  {
    if flags != [] {
      var n := |flags| - 1;
      PositionsExact(flags[..n]);
      forall k | 0 <= k < |flags| && flags[k] ensures k in Positions(flags) {
        if k < n {
          assert flags[..n][k] == flags[k];
        }
      }
    }
  }

  /** No set flag means nothing is selected, and conversely. */
  lemma {:induction false} PositionsEmpty(flags: seq<bool>)
    ensures Positions(flags) == [] <==> forall k :: 0 <= k < |flags| ==> !flags[k]
  {
    PositionsExact(flags);
    if Positions(flags) != [] {
      assert flags[Positions(flags)[0]];
    }
  }

  /** Select s flags is s read at Positions(flags). */
  lemma {:induction false} SelectAt<T>(s: seq<T>, flags: seq<bool>)
    requires |s| == |flags|
    ensures |Select(s, flags)| == |Positions(flags)|
    ensures forall i :: 0 <= i < |Select(s, flags)| ==>
      Positions(flags)[i] < |s| && Select(s, flags)[i] == s[Positions(flags)[i]]
  {
    PositionsExact(flags);
    if s != [] {
      var n := |s| - 1;
      SelectAt(s[..n], flags[..n]);
      PositionsExact(flags[..n]);
    }
  }

  /** When the elements of s are distinct, s[k] is selected iff its flag is set. */
  lemma SelectMembership<T>(s: seq<T>, flags: seq<bool>)
    requires |s| == |flags|
    requires forall i, j :: 0 <= i < j < |s| ==> s[i] != s[j]
    ensures forall k :: 0 <= k < |s| ==> (s[k] in Select(s, flags) <==> flags[k])
  {
    SelectAt(s, flags);
    PositionsExact(flags);
    var pos := Positions(flags);
    var r := Select(s, flags);
    forall k | 0 <= k < |s| ensures s[k] in r <==> flags[k] {
      if flags[k] {
        var i :| 0 <= i < |pos| && pos[i] == k;
        assert r[i] == s[k];
      }
      if s[k] in r {
        var i :| 0 <= i < |r| && r[i] == s[k];
        assert s[pos[i]] == s[k];
      }
    }
  }
}

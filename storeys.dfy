/**
 * Storey selection in DrawingGenerator.generate_drawings: the storeys of a
 * building are put in a dict keyed by their elevation (so a later storey at
 * an elevation already present replaces the earlier one), and plans are then
 * drawn for the dict's keys in `sorted` order.
 */
module Storeys {

  datatype Storey = Storey(name: string, elevation: real)

  function Elevations(ss: seq<Storey>): set<real> {
    set s | s in ss :: s.elevation
  }

  predicate Distinct(s: seq<real>) {
    forall i, j :: 0 <= i < j < |s| ==> s[i] != s[j]
  }

  predicate StrictlyAscending(s: seq<real>) {
    forall i, j :: 0 <= i < j < |s| ==> s[i] < s[j]
  }

  /** The `storeys` dict after the loop over `ss`: one entry per elevation. */
  function StoreyTable(ss: seq<Storey>): (t: map<real, string>)
    ensures t.Keys == Elevations(ss)
  {
    if ss == [] then map[]
    else
      var init, last := ss[..|ss| - 1], ss[|ss| - 1];
      assert ss == init + [last];
      StoreyTable(init)[last.elevation := last.name]
  }

  /** The dict's keys in insertion order: an elevation is added when first seen. */
  function KeyOrder(ss: seq<Storey>): (ks: seq<real>)
    ensures Distinct(ks)
    ensures forall e :: e in ks <==> e in StoreyTable(ss)
  {
    if ss == [] then []
    else
      var init, e := ss[..|ss| - 1], ss[|ss| - 1].elevation;
      if e in StoreyTable(init) then KeyOrder(init) else KeyOrder(init) + [e]
  }

  function Insert(x: real, s: seq<real>): (r: seq<real>)
    ensures |r| == |s| + 1
    ensures forall e :: e in r <==> e == x || e in s
  {
    if s == [] || x <= s[0] then [x] + s else [s[0]] + Insert(x, s[1..])
  }

  /** Python `sorted` on a list of numbers (an insertion sort). */
  function Sort(s: seq<real>): (r: seq<real>)
    ensures |r| == |s|
    ensures forall e :: e in r <==> e in s
  {
    if s == [] then [] else Insert(s[|s| - 1], Sort(s[..|s| - 1]))
  }

  lemma {:induction false} InsertAscending(x: real, s: seq<real>)
    requires StrictlyAscending(s) && x !in s
    ensures StrictlyAscending(Insert(x, s))
  {
    if s != [] && x > s[0] {
      var t := s[1..];
      assert StrictlyAscending(t);
      InsertAscending(x, t);
      var r := Insert(x, s);
      assert r == [s[0]] + Insert(x, t);
      forall j | 1 <= j < |r|
        ensures s[0] < r[j]
      {
        assert r[j] in Insert(x, t);
      }
    }
  }

  /** Sorting distinct numbers gives them in strictly ascending order. */
  lemma {:induction false} SortAscending(s: seq<real>)
    requires Distinct(s)
    ensures StrictlyAscending(Sort(s))
  {
    if s != [] {
      var init := s[..|s| - 1];
      assert Distinct(init);
      SortAscending(init);
      assert s[|s| - 1] !in init;
      InsertAscending(s[|s| - 1], Sort(init));
    }
  }

  /** The storeys that get a plan, in drawing order: one per dict key, ascending by elevation. */
  function SelectedStoreys(ss: seq<Storey>): (r: seq<Storey>)
    ensures |r| == |KeyOrder(ss)|
  {
    var table := StoreyTable(ss);
    var es := Sort(KeyOrder(ss));
    seq(|es|, i requires 0 <= i < |es| => Storey(table[es[i]], es[i]))
  }

  /** Among storeys sharing an elevation, the dict keeps the last one seen. */
  lemma {:induction false} LastStoreyWins(ss: seq<Storey>, k: nat)
    requires k < |ss|
    requires forall m :: k < m < |ss| ==> ss[m].elevation != ss[k].elevation
    ensures StoreyTable(ss)[ss[k].elevation] == ss[k].name
  {
    var init := ss[..|ss| - 1];
    if k < |ss| - 1 {
      assert init[k] == ss[k];
      LastStoreyWins(init, k);
    }
  }

  /** Plans are drawn in strictly ascending elevation order. */
  lemma SelectedAscending(ss: seq<Storey>)
    ensures var r := SelectedStoreys(ss);
      forall i, j :: 0 <= i < j < |r| ==> r[i].elevation < r[j].elevation
  {
    SortAscending(KeyOrder(ss));
  }

  /** A plan is drawn for every elevation that occurs among the storeys, and for no other. */
  lemma SelectedCoversElevations(ss: seq<Storey>)
    ensures var r := SelectedStoreys(ss);
      && (forall i :: 0 <= i < |r| ==> r[i].elevation in Elevations(ss))
      && (forall s :: s in ss ==> exists i :: 0 <= i < |r| && r[i].elevation == s.elevation)
  {
    var r := SelectedStoreys(ss);
    var es := Sort(KeyOrder(ss));
    forall s | s in ss
      ensures exists i :: 0 <= i < |r| && r[i].elevation == s.elevation
    {
      assert s.elevation in StoreyTable(ss);
      assert s.elevation in es;
      var i :| 0 <= i < |es| && es[i] == s.elevation;
      assert r[i].elevation == s.elevation;
    }
  }

  /** Each plan is for the last storey listed at its elevation. */
  lemma SelectedLastStorey(ss: seq<Storey>)
    ensures var r := SelectedStoreys(ss);
      forall i, k ::
        0 <= i < |r| && 0 <= k < |ss| && ss[k].elevation == r[i].elevation
        && (forall m :: k < m < |ss| ==> ss[m].elevation != ss[k].elevation)
        ==> r[i].name == ss[k].name
  {
    var r := SelectedStoreys(ss);
    forall i, k |
      0 <= i < |r| && 0 <= k < |ss| && ss[k].elevation == r[i].elevation
      && (forall m :: k < m < |ss| ==> ss[m].elevation != ss[k].elevation)
      ensures r[i].name == ss[k].name
    {
      LastStoreyWins(ss, k);
    }
  }
}

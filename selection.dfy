/** Both parsers look at every row or line, turn some of them into a point and
    push it, and skip the rest. This module states once what such a loop
    produces when row `i` yields `opts[i]` (`Some(point)` or `None`): the kept
    points, in row order, one for each row that yields one. */
module Selection {
  import opened Types

  /** The values of the `Some` entries, in order: what `forEach` + `push` builds. */
  function Survivors<T>(opts: seq<Option<T>>): (r: seq<T>)
    ensures |r| <= |opts|
  {
    if opts == [] then []
    else
      var init := Survivors(opts[..|opts| - 1]);
      match opts[|opts| - 1]
      case Some(x) => init + [x]
      case None => init
  }

  /** The positions of the `Some` entries: ascending, and every such position. */
  function SurvivorIndices<T>(opts: seq<Option<T>>): (ix: seq<nat>)
    ensures forall k :: 0 <= k < |ix| ==> ix[k] < |opts| && opts[ix[k]].Some?
    ensures forall k, l :: 0 <= k < l < |ix| ==> ix[k] < ix[l]
    ensures forall i :: 0 <= i < |opts| && opts[i].Some? ==> i in ix
  {
    if opts == [] then []
    else
      var init := SurvivorIndices(opts[..|opts| - 1]);
      if opts[|opts| - 1].Some? then init + [|opts| - 1] else init
  }

  /** The k-th kept value is the value of the k-th `Some` position. */
  lemma {:induction false} SurvivorsAt<T>(opts: seq<Option<T>>)
    ensures |Survivors(opts)| == |SurvivorIndices(opts)|
    ensures forall k :: 0 <= k < |Survivors(opts)| ==>
              opts[SurvivorIndices(opts)[k]] == Some(Survivors(opts)[k])
  {
    if opts != [] {
      var last := |opts| - 1;
      var init := opts[..last];
      SurvivorsAt(init);
      var ix, r := SurvivorIndices(init), Survivors(init);
      if opts[last].Some? {
        var ix', r' := ix + [last], r + [opts[last].value];
        assert SurvivorIndices(opts) == ix';
        assert Survivors(opts) == r';
        forall k | 0 <= k < |r'|
          ensures opts[ix'[k]] == Some(r'[k])
        {
          if k < |r| {
            assert opts[ix[k]] == init[ix[k]];
          }
        }
      } else {
        assert SurvivorIndices(opts) == ix;
        assert Survivors(opts) == r;
        forall k | 0 <= k < |r|
          ensures opts[ix[k]] == Some(r[k])
        {
          assert opts[ix[k]] == init[ix[k]];
        }
      }
    }
  }

  /** One more row: its point, if any, goes at the end. */
  lemma SurvivorsExtend<T>(opts: seq<Option<T>>, i: nat)
    requires i < |opts|
    ensures Survivors(opts[..i + 1]) ==
              Survivors(opts[..i]) + (if opts[i].Some? then [opts[i].value] else [])
  {
    assert opts[..i + 1][..i] == opts[..i];
  }

  /** When every row yields a point, every point is kept, in row order. */
  lemma {:induction false} SurvivorsAllSome<T>(opts: seq<Option<T>>)
    requires forall i :: 0 <= i < |opts| ==> opts[i].Some?
    ensures |Survivors(opts)| == |opts|
    ensures forall i :: 0 <= i < |opts| ==> Some(Survivors(opts)[i]) == opts[i]
  {
    if opts != [] {
      var last := |opts| - 1;
      var init := opts[..last];
      SurvivorsAllSome(init);
      var r := Survivors(init) + [opts[last].value];
      assert Survivors(opts) == r;
      forall i | 0 <= i < |opts|
        ensures Some(r[i]) == opts[i]
      {
        if i < last {
          assert init[i] == opts[i];
        }
      }
    }
  }

  /** Nothing is kept exactly when no row yields a point. */
  lemma SurvivorsEmpty<T>(opts: seq<Option<T>>)
    ensures Survivors(opts) == [] <==> forall i :: 0 <= i < |opts| ==> opts[i].None?
  {
    SurvivorsAt(opts);
  }

  /** A property of every point a row can yield holds of every kept point. */
  lemma SurvivorsSatisfy<T>(opts: seq<Option<T>>, p: T -> bool)
    requires forall i :: 0 <= i < |opts| && opts[i].Some? ==> p(opts[i].value)
    ensures forall k :: 0 <= k < |Survivors(opts)| ==> p(Survivors(opts)[k])
  {
    SurvivorsAt(opts);
  }
}

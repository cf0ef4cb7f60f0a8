/** Which positions of a list a filter keeps: an increasing list of them, and none but them. */
module Picks {
  ghost predicate InOrder(picks: seq<int>, wanted: set<int>) {
    && (forall i, j :: 0 <= i < j < |picks| ==> picks[i] < picks[j])
    && (forall k :: k in picks <==> k in wanted)
  }

  lemma OneMore(picks: seq<int>, wanted: set<int>, n: int)
    requires InOrder(picks, wanted) && forall k <- wanted :: k < n
    ensures InOrder(picks + [n], wanted + {n})
  {
    assert forall i :: 0 <= i < |picks| ==> picks[i] in picks;
  }
}

/** Selection of the replica recommendation that applies at a given instant. */
module Replicas {
  import opened Wrappers
  import opened HpaTypes

  /** A `ReplicasRecommendation`: `value` replicas for the instants in the
      half-open interval [from, to). Instants are integers. */
  datatype Window = Window(from: int, to: int, value: Int32)

  /** The window's interval contains `now`: its start is included, its end is not. */
  predicate Covers(w: Window, now: int) {
    w.from <= now < w.to
  }

  /** Some window of `ws` contains `now`. */
  predicate Covered(ws: seq<Window>, now: int) {
    exists i :: 0 <= i < |ws| && Covers(ws[i], now)
  }

  /** `ws[i]` is the first window, in slice order, that contains `now`. */
  predicate IsFirstMatch(ws: seq<Window>, now: int, i: int) {
    && 0 <= i < |ws|
    && Covers(ws[i], now)
    && forall j :: 0 <= j < i ==> !Covers(ws[j], now)
  }

  /** getReplicasRecommendation: the value of the first window containing
      `now`, or the "no recommendation slot" error when no window does. */
  function GetReplicasRecommendation(ws: seq<Window>, now: int): (r: Result<Int32, HpaError>)
    ensures r.Success? <==> Covered(ws, now)
    ensures r.Success? ==> exists i :: IsFirstMatch(ws, now, i) && r.value == ws[i].value
    ensures r.Failure? ==> r.error == NoRecommendationSlot
  {
    if |ws| == 0 then
      Failure(NoRecommendationSlot)
    else if Covers(ws[0], now) then
      assert IsFirstMatch(ws, now, 0);
      Success(ws[0].value)
    else
      var rest := GetReplicasRecommendation(ws[1..], now);
      assert Covered(ws, now) ==> Covered(ws[1..], now) by {
        if Covered(ws, now) {
          var i :| 0 <= i < |ws| && Covers(ws[i], now);
          assert i > 0 && Covers(ws[1..][i - 1], now);
        }
      }
      assert rest.Success? ==> exists i :: IsFirstMatch(ws, now, i) && rest.value == ws[i].value by {
        if rest.Success? {
          var i :| IsFirstMatch(ws[1..], now, i) && rest.value == ws[1..][i].value;
          assert IsFirstMatch(ws, now, i + 1);
        }
      }
      rest
  }

  /** When exactly one window contains `now` (as with non-overlapping windows),
      the selection does not depend on the order: it is that window's value. */
  lemma UniqueWindowSelected(ws: seq<Window>, now: int, i: int)
    requires 0 <= i < |ws| && Covers(ws[i], now)
    requires forall j :: 0 <= j < |ws| && j != i ==> !Covers(ws[j], now)
    ensures GetReplicasRecommendation(ws, now) == Success(ws[i].value)
  {
  }

  /** Windows that pairwise share no instant. */
  predicate NonOverlapping(ws: seq<Window>) {
    forall i, j :: 0 <= i < j < |ws| ==> ws[i].to <= ws[j].from || ws[j].to <= ws[i].from
  }

  /** Among non-overlapping windows, any window containing `now` is the one selected. */
  lemma NonOverlappingSelectsCovering(ws: seq<Window>, now: int, i: int)
    requires NonOverlapping(ws)
    requires 0 <= i < |ws| && Covers(ws[i], now)
    ensures GetReplicasRecommendation(ws, now) == Success(ws[i].value)
  {
    forall j | 0 <= j < |ws| && j != i
      ensures !Covers(ws[j], now)
    {
      if j < i {
        assert ws[j].to <= ws[i].from || ws[i].to <= ws[j].from;
      } else {
        assert ws[i].to <= ws[j].from || ws[j].to <= ws[i].from;
      }
    }
    UniqueWindowSelected(ws, now, i);
  }

  /** The start instant of the first window is selected; its end instant is not
      (it falls through to the later windows). */
  lemma BoundaryInstants(w: Window, rest: seq<Window>)
    requires w.from < w.to
    ensures GetReplicasRecommendation([w] + rest, w.from) == Success(w.value)
    ensures GetReplicasRecommendation([w] + rest, w.to) == GetReplicasRecommendation(rest, w.to)
  {
    assert ([w] + rest)[1..] == rest;
  }

  /** Two adjacent windows: an instant in the second selects its value, and an
      instant past both is an error. */
  lemma TwoWindowExample()
    ensures GetReplicasRecommendation([Window(0, 10, 2), Window(10, 20, 5)], 12) == Success(5)
    ensures GetReplicasRecommendation([Window(0, 10, 2), Window(10, 20, 5)], 25)
              == Failure(NoRecommendationSlot)
  {
    var ws := [Window(0, 10, 2), Window(10, 20, 5)];
    assert ws[1..] == [Window(10, 20, 5)];
    assert ws[1..][1..] == [];
  }
}

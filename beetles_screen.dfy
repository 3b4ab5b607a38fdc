/**
 * The tap handler of the Beetles game screen
 * (beetles/ui/screens/GameScreen.kt:75-113): a tap claims a shown bonus if it
 * lands in the bonus box; otherwise it swats every live beetle whose box it
 * lands in; a tap that hits nothing is a miss. Coordinates arrive already
 * divided by the screen density.
 */
module BeetlesScreen {
  import opened BeetlesPhysics
  import opened BeetlesGame

  /** The tap lies in the closed bonus box [bonusX, bonusX+60]×[bonusY, bonusY+60]. */
  predicate InBonusBox(st: GameState, x: real, y: real)
  {
    st.bonusX <= x <= st.bonusX + BonusSize && st.bonusY <= y <= st.bonusY + BonusSize
  }

  /** The tap lies in the beetle's closed box [x, x+80]×[y, y+80]. */
  predicate Covers(b: Beetle, x: real, y: real)
  {
    b.x <= x <= b.x + BeetleSize && b.y <= y <= b.y + BeetleSize
  }

  /** A tap on a beetle's top-left corner is a hit, the box being closed. */
  lemma CornerIsHit(b: Beetle)
    ensures Covers(b, b.x, b.y)
  {
  }

  /** The beetle is alive and the tap lies in its box. */
  predicate Swatted(b: Beetle, x: real, y: real)
  {
    b.isAlive && Covers(b, x, y)
  }

  /** One beetle after a swat at (x, y). */
  function SwatOne(b: Beetle, x: real, y: real): Beetle
  {
    if Swatted(b, x, y) then b.(isAlive := false) else b
  }

  /**
   * The beetles after a swat at (x, y): every live beetle under the tap dies,
   * nothing else changes; dead beetles stay as they are.
   */
  function Swat(bs: seq<Beetle>, x: real, y: real): (r: seq<Beetle>)
    ensures |r| == |bs|
    ensures forall k :: 0 <= k < |bs| ==> r[k].isAlive == (bs[k].isAlive && !Covers(bs[k], x, y))
    ensures forall k :: 0 <= k < |bs| ==> r[k].(isAlive := bs[k].isAlive) == bs[k]
    ensures forall k :: 0 <= k < |bs| && !bs[k].isAlive ==> r[k] == bs[k]
  {
    seq(|bs|, k requires 0 <= k < |bs| => SwatOne(bs[k], x, y))
  }

  /** How many live beetles lie under the tap. */
  function HitCount(bs: seq<Beetle>, x: real, y: real): (n: nat)
    ensures n <= |bs|
  {
    if bs == [] then 0
    else HitCount(bs[..|bs| - 1], x, y) + (if Swatted(bs[|bs| - 1], x, y) then 1 else 0)
  }

  /** No hit is counted exactly when no live beetle lies under the tap. */
  lemma {:induction false} NoHitsMeansNoneUnder(bs: seq<Beetle>, x: real, y: real)
    ensures HitCount(bs, x, y) == 0 <==> forall k :: 0 <= k < |bs| ==> !Swatted(bs[k], x, y)
  {
    if bs != [] {
      var front := bs[..|bs| - 1];
      NoHitsMeansNoneUnder(front, x, y);
      assert forall k :: 0 <= k < |front| ==> front[k] == bs[k];
    }
  }

  /** A list that is the swat of another beetle by beetle is its swat. */
  lemma SwatPointwise(bs: seq<Beetle>, after: seq<Beetle>, x: real, y: real)
    requires |after| == |bs| && forall k :: 0 <= k < |bs| ==> after[k] == SwatOne(bs[k], x, y)
    ensures after == Swat(bs, x, y)
  {
  }

  /** One more beetle under the tap adds one to the count. */
  lemma HitCountExtend(bs: seq<Beetle>, i: int, x: real, y: real)
    requires 0 <= i < |bs|
    ensures HitCount(bs[..i + 1], x, y) == HitCount(bs[..i], x, y) + (if Swatted(bs[i], x, y) then 1 else 0)
  {
    assert bs[..i + 1][..i] == bs[..i];
  }

  /** The body of the `forEach`: beetle `i`, if alive and under the tap, is clicked. */
  method ClickIfUnder(vm: GameViewModel, i: int, x: real, y: real) returns (clicked: bool)
    requires vm.Valid() && 0 <= i < |vm.beetles|
    modifies vm`beetles, vm`state
    ensures vm.Valid()
    ensures clicked <==> Swatted(old(vm.beetles[i]), x, y)
    ensures vm.beetles == old(vm.beetles)[i := SwatOne(old(vm.beetles[i]), x, y)]
    ensures vm.state == old(vm.state).(score := old(vm.state.score) + (if clicked then BeetlePoints else 0))
  {
    var beetle := vm.beetles[i];
    clicked := false;
    if beetle.isAlive && Covers(beetle, x, y) {
      FindLiveUnique(vm.beetles, i);
      vm.OnBeetleClicked(beetle.id);
      clicked := true;
    }
  }

  /** Part way through the `forEach`: the beetles before `i` are swatted, the others untouched. */
  ghost predicate SwattedUpTo(cur: seq<Beetle>, before: seq<Beetle>, i: int, x: real, y: real)
  {
    0 <= i <= |before| == |cur| &&
    (forall k :: 0 <= k < i ==> cur[k] == SwatOne(before[k], x, y)) &&
    (forall k :: i <= k < |before| ==> cur[k] == before[k])
  }

  /** Part way through the `forEach`: ten points for each beetle swatted before `i`, nothing else changed. */
  ghost predicate ScoredUpTo(st: GameState, start: GameState, before: seq<Beetle>, i: int, x: real, y: real)
    requires 0 <= i <= |before|
  {
    st == start.(score := start.score + BeetlePoints * HitCount(before[..i], x, y))
  }

  /** One turn of the `forEach`, as the loop sees it: the swatted and scored part grows by beetle `i`. */
  method SwatNext(vm: GameViewModel, ghost before: seq<Beetle>, ghost start: GameState, i: int, x: real, y: real)
    returns (clicked: bool)
    requires vm.Valid() && i < |before| && SwattedUpTo(vm.beetles, before, i, x, y)
    requires ScoredUpTo(vm.state, start, before, i, x, y)
    modifies vm`beetles, vm`state
    ensures vm.Valid() && SwattedUpTo(vm.beetles, before, i + 1, x, y)
    ensures ScoredUpTo(vm.state, start, before, i + 1, x, y)
    ensures clicked <==> Swatted(before[i], x, y)
    ensures HitCount(before[..i + 1], x, y) == HitCount(before[..i], x, y) + (if clicked then 1 else 0)
  {
    HitCountExtend(before, i, x, y);
    clicked := ClickIfUnder(vm, i, x, y);
  }

  /**
   * The `forEach` of the handler (94-107): every live beetle under the tap is
   * clicked, not only the first, for ten points each.
   */
  method SwatAll(vm: GameViewModel, x: real, y: real) returns (hit: bool)
    requires vm.Valid()
    modifies vm`beetles, vm`state
    ensures vm.Valid()
    ensures hit <==> HitCount(old(vm.beetles), x, y) > 0
    ensures vm.beetles == Swat(old(vm.beetles), x, y)
    ensures vm.state == old(vm.state).(score := old(vm.state.score) + BeetlePoints * HitCount(old(vm.beetles), x, y))
  {
    hit := false;
    ghost var before, start := vm.beetles, vm.state;
    var i := 0;
    while i < |vm.beetles|
      invariant |vm.beetles| == |before|
      invariant vm.Valid() && SwattedUpTo(vm.beetles, before, i, x, y)
      invariant ScoredUpTo(vm.state, start, before, i, x, y)
      invariant hit <==> HitCount(before[..i], x, y) > 0
    {
      var clicked := SwatNext(vm, before, start, i, x, y);
      hit := hit || clicked;
      i := i + 1;
    }
    SwatPointwise(before, vm.beetles, x, y);
    assert before[..i] == before;
  }

  /**
   * Routes a tap at (x, y). A shown bonus under the tap is claimed and no
   * beetle is considered; otherwise the live beetles under the tap are swatted;
   * `miss` holds exactly when nothing was hit, and then the miss penalty
   * applies.
   */
  method OnTap(vm: GameViewModel, x: real, y: real) returns (miss: bool)
    requires vm.Valid()
    modifies vm`beetles, vm`state, vm`isBonusModeActive
    ensures vm.Valid()
    ensures var bonusHit := old(vm.state.showBonus) && InBonusBox(old(vm.state), x, y);
      var hits := HitCount(old(vm.beetles), x, y);
      (miss <==> !bonusHit && hits == 0) &&
      (bonusHit ==>
        vm.beetles == old(vm.beetles) && vm.isBonusModeActive &&
        vm.state == old(vm.state).(showBonus := false, isBonusActive := true, bonusTimeLeft := BonusSeconds,
                                   score := old(vm.state.score) + BonusPoints)) &&
      (!bonusHit && hits > 0 ==>
        vm.beetles == Swat(old(vm.beetles), x, y) && vm.isBonusModeActive == old(vm.isBonusModeActive) &&
        vm.state == old(vm.state).(score := old(vm.state.score) + BeetlePoints * hits)) &&
      (miss ==>
        vm.beetles == old(vm.beetles) && vm.isBonusModeActive == old(vm.isBonusModeActive) &&
        vm.state == (if old(vm.state.isGameStarted) then old(vm.state).(score := old(vm.state.score) - MissPenalty)
                     else old(vm.state)))
  {
    var hitSomething := false;
    if vm.state.showBonus && InBonusBox(vm.state, x, y) {
      vm.OnBonusClicked();
      hitSomething := true;
    }
    if !hitSomething {
      hitSomething := SwatAll(vm, x, y);
      if !hitSomething {
        NoHitsMeansNoneUnder(old(vm.beetles), x, y);
        assert forall k :: 0 <= k < |old(vm.beetles)| ==> !Swatted(old(vm.beetles)[k], x, y);
        assert vm.beetles == old(vm.beetles);
      }
    }
    if !hitSomething {
      vm.OnMissClick();
    }
    miss := !hitSomething;
  }
}

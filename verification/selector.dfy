/** Choosing the next good: goods whose names are in the used set are skipped;
    when every name is used, the used set is cleared and the whole list is
    drawn from again. */
module Selector {
  import opened Scoring

  /** The names of a list of goods. */
  function Names(goods: seq<Good>): set<string> {
    set g | g in goods :: g.name
  }

  /** The goods of goodsList whose names are not in usedSet, in list order. */
  function Available(goodsList: seq<Good>, usedSet: set<string>): (r: seq<Good>)
    ensures |r| <= |goodsList|
    ensures forall g :: g in r <==> g in goodsList && g.name !in usedSet
    ensures usedSet == {} ==> r == goodsList
  {
    if goodsList == [] then []
    else
      var rest := Available(goodsList[1..], usedSet);
      assert goodsList == [goodsList[0]] + goodsList[1..];
      if goodsList[0].name in usedSet then rest else [goodsList[0]] + rest
  }

  /** Nothing is left to draw exactly when every name of the list is used. */
  lemma AvailableEmptyIffExhausted(goodsList: seq<Good>, usedSet: set<string>)
    ensures |Available(goodsList, usedSet)| == 0 <==> Names(goodsList) <= usedSet
  {
    var available := Available(goodsList, usedSet);
    if |available| == 0 {
      forall n | n in Names(goodsList) ensures n in usedSet {
        var g :| g in goodsList && g.name == n;
        assert g !in available;
      }
    } else {
      assert available[0] in available;
      assert available[0].name in Names(goodsList);
    }
  }

  /** Math.floor(rand * n) for a rand drawn from [0, 1): an index below n. */
  function RandomIndex(rand: real, n: nat): (i: nat)
    requires 0.0 <= rand < 1.0 && n > 0
    ensures i < n
  {
    MulMonotone(n as real, 0.0, rand);
    SignOfProduct(1.0 - rand, n as real);
    (rand * n as real).Floor
  }

  /** The draw for index i of n is reachable: rand = i / n picks it. */
  lemma RandomIndexReaches(i: nat, n: nat)
    requires i < n
    ensures 0.0 <= i as real / n as real < 1.0
    ensures RandomIndex(i as real / n as real, n) == i
  {
    var rand := i as real / n as real;
    assert rand * n as real == i as real;
    SignOfProduct(1.0 - rand, n as real);
  }

  /** Outcome of selectRandomGood: the good set as current, and whether the
      used set was cleared because every good had been used. */
  datatype Selection = Selection(good: Good, clearedUsed: bool)

  /** selectRandomGood with the random number rand: pick from the unused goods;
      if there are none, clear the used set and pick from the whole list. */
  function Select(goodsList: seq<Good>, usedSet: set<string>, rand: real): (s: Selection)
    requires |goodsList| > 0 && 0.0 <= rand < 1.0
    ensures s.good in goodsList
    ensures s.clearedUsed <==> Names(goodsList) <= usedSet
    ensures !s.clearedUsed ==> s.good.name !in usedSet
    decreases |usedSet|
  {
    var availableGoods := Available(goodsList, usedSet);
    AvailableEmptyIffExhausted(goodsList, usedSet);
    if |availableGoods| == 0 then
      Selection(Select(goodsList, {}, rand).good, true)
    else
      var picked := availableGoods[RandomIndex(rand, |availableGoods|)];
      assert picked in availableGoods;
      Selection(picked, false)
  }

  /** Selection against an empty used set never clears it. */
  lemma SelectFromFreshPoolKeepsUsedSet(goodsList: seq<Good>, rand: real)
    requires |goodsList| > 0 && 0.0 <= rand < 1.0
    ensures !Select(goodsList, {}, rand).clearedUsed
  {
    assert goodsList[0].name in Names(goodsList);
  }

  /** Every good the selector may pick is picked for some random number: any
      unused good, or any good at all once every name has been used. */
  lemma EveryCandidateCanBeDrawn(goodsList: seq<Good>, usedSet: set<string>, g: Good)
    requires g in goodsList
    requires g.name !in usedSet || Names(goodsList) <= usedSet
    ensures exists rand: real :: 0.0 <= rand < 1.0 && Select(goodsList, usedSet, rand).good == g
  {
    AvailableEmptyIffExhausted(goodsList, usedSet);
    var exhausted := Names(goodsList) <= usedSet;
    var pool := Available(goodsList, if exhausted then {} else usedSet);
    assert g in pool;
    var i :| 0 <= i < |pool| && pool[i] == g;
    RandomIndexReaches(i, |pool|);
    var rand := i as real / |pool| as real;
    if exhausted {
      assert Select(goodsList, usedSet, rand).good == Select(goodsList, {}, rand).good;
      SelectFromFreshPoolKeepsUsedSet(goodsList, rand);
    }
    assert Select(goodsList, usedSet, rand).good == g;
  }

  /** What nextQuestion does to the used set and the current good: the name of
      the good just shown is queued into the used set, but the draw is made
      against the used set as it was before that; if that draw finds every
      name used, the used set ends up empty. */
  datatype Draw = Draw(usedGoods: set<string>, currentGood: Good)

  function NextDraw(goodsList: seq<Good>, usedGoods: set<string>, shown: Good, rand: real): (d: Draw)
    requires |goodsList| > 0 && 0.0 <= rand < 1.0
    ensures d.currentGood in goodsList
    ensures Names(goodsList) <= usedGoods ==> d.usedGoods == {}
    ensures !(Names(goodsList) <= usedGoods) ==>
      d.usedGoods == usedGoods + {shown.name} && d.currentGood.name !in usedGoods
  {
    var s := Select(goodsList, usedGoods, rand);
    Draw(if s.clearedUsed then {} else usedGoods + {shown.name}, s.good)
  }

  /** Because the draw does not see the name just queued, the good just shown
      can be drawn again at once, while another good has never been shown. */
  lemma ShownGoodCanRepeat(a: Good, b: Good)
    requires a.name != b.name
    ensures NextDraw([a, b], {}, a, 0.0).currentGood == a
    ensures b.name !in NextDraw([a, b], {}, a, 0.0).usedGoods
  {
    assert Available([a, b], {}) == [a, b];
    assert RandomIndex(0.0, 2) == 0;
    assert a.name in Names([a, b]);
  }
}

/** The clicker shop (script.js): a score raised by clicks and by a production
    per second, and five upgrades whose price grows by 15 % with each purchase. */
module Clicker {
  import opened JsNum

  /** One entry of the upgrades array; name, description and icon are display
      text and left out. cost is absent until the first renderUpgrades. */
  datatype Upgrade = Upgrade(id: string, baseCost: int, production: real, count: nat, cost: Option<int>)

  /** The upgrades array as the page loads it. */
  const TABLE: seq<Upgrade> := [
    Upgrade("usb", 15, 0.5, 0, None),
    Upgrade("club", 100, 3.0, 0, None),
    Upgrade("teacher", 500, 10.0, 0, None),
    Upgrade("tech", 2000, 50.0, 0, None),
    Upgrade("forge", 10000, 200.0, 0, None)
  ]

  /** 1.15, the price growth per purchase. */
  const GROWTH: real := 23.0 / 20.0

  /** Math.ceil(baseCost * Math.pow(1.15, count)). */
  function Price(baseCost: int, count: nat): int
  {
    Ceil(baseCost as real * Pow(GROWTH, count))
  }

  lemma MulLeft(b: real, x: real, y: real)
    requires b >= 0.0 && x <= y
    ensures b * x <= b * y
  {
  }

  lemma CeilMonotone(x: real, y: real)
    requires x <= y
    ensures Ceil(x) <= Ceil(y)
  {
  }

  /** The first price is the base cost, and a purchase never lowers the price. */
  lemma PriceGrows(baseCost: int, count: nat)
    requires baseCost >= 0
    ensures Price(baseCost, 0) == baseCost
    ensures Price(baseCost, count) <= Price(baseCost, count + 1)
  {
    PowGrows(GROWTH, count);
    MulLeft(baseCost as real, Pow(GROWTH, count), Pow(GROWTH, count + 1));
    CeilMonotone(baseCost as real * Pow(GROWTH, count), baseCost as real * Pow(GROWTH, count + 1));
  }

  /** The score and upgrades, the part of the state a purchase changes. */
  datatype Shop = Shop(score: real, upgrades: seq<Upgrade>)

  /** buyUpgrade(i) on the score and upgrades: when the score covers the cost,
      the cost is paid, the level rises by one and the price is recomputed. */
  function Purchase(score: real, us: seq<Upgrade>, i: nat): Shop
    requires i < |us|
  {
    var u := us[i];
    if u.cost.Some? && score >= u.cost.value as real then
      var n := u.count + 1;
      Shop(score - u.cost.value as real, us[i := u.(count := n, cost := Some(Price(u.baseCost, n)))])
    else Shop(score, us)
  }

  /** The lock rule of updateUI: locked unless the score covers the cost. */
  predicate Locked(score: real, u: Upgrade)
  {
    !(u.cost.Some? && score >= u.cost.value as real)
  }

  /** A locked upgrade cannot be bought: the purchase changes nothing exactly
      when it is locked. Otherwise the old cost is paid, so the score stays
      non-negative, the level rises by one, the price follows the level, and
      every other upgrade is untouched. */
  lemma PurchaseSpec(score: real, us: seq<Upgrade>, i: nat)
    requires i < |us|
    ensures var s := Purchase(score, us, i);
      (Locked(score, us[i]) <==> s == Shop(score, us))
      && |s.upgrades| == |us|
      && (forall j | 0 <= j < |us| && j != i :: s.upgrades[j] == us[j])
      && (!Locked(score, us[i]) ==>
            s.score == score - us[i].cost.value as real && s.score >= 0.0
            && s.upgrades[i].count == us[i].count + 1
            && s.upgrades[i].cost == Some(Price(us[i].baseCost, us[i].count + 1))
            && s.upgrades[i].(count := us[i].count, cost := us[i].cost) == us[i])
  {
    if !Locked(score, us[i]) {
      assert Purchase(score, us, i).upgrades[i].count != us[i].count;
    }
  }

  /** The cost set by renderUpgrades where it is unset (or 0, as !u.cost reads it). */
  function WithCost(u: Upgrade): Upgrade
  {
    if u.cost.None? || u.cost == Some(0) then u.(cost := Some(u.baseCost)) else u
  }

  // ---------------------------------------------------------------------------
  // Production

  /** The sum of production * count, accumulated in array order. */
  function TotalProduction(us: seq<Upgrade>): real
  {
    if us == [] then 0.0
    else TotalProduction(us[..|us| - 1]) + us[|us| - 1].production * us[|us| - 1].count as real
  }

  /** parseFloat(x.toFixed(1)) for x >= 0: x rounded to one decimal. */
  function ToFixed1(x: real): real
  {
    Round(x * 10.0) as real / 10.0
  }

  /** x is a whole number of halves. */
  predicate WholeHalves(x: real)
  {
    (x * 2.0).Floor as real == x * 2.0
  }

  /** Every production in the table is a whole number of halves. */
  predicate ProductionsInHalves(us: seq<Upgrade>)
  {
    forall j | 0 <= j < |us| :: WholeHalves(us[j].production)
  }

  /** The total production counted in halves, for productions that are
      whole numbers of halves. */
  function HalvesOf(us: seq<Upgrade>): int
  {
    if us == [] then 0
    else HalvesOf(us[..|us| - 1]) + (us[|us| - 1].production * 2.0).Floor * us[|us| - 1].count
  }

  lemma HalvesTimesCount(p: real, n: nat)
    requires WholeHalves(p)
    ensures p * n as real * 2.0 == ((p * 2.0).Floor * n) as real
  {
  }

  /** With productions in halves, twice the total is the whole number
      HalvesOf. */
  lemma {:induction false} TotalIsHalves(us: seq<Upgrade>)
    requires ProductionsInHalves(us)
    ensures TotalProduction(us) * 2.0 == HalvesOf(us) as real
  {
    if us != [] {
      var init := us[..|us| - 1];
      var u := us[|us| - 1];
      assert ProductionsInHalves(init) by {
        forall j | 0 <= j < |init|
          ensures WholeHalves(init[j].production)
        {
          assert init[j] == us[j];
        }
      }
      TotalIsHalves(init);
      HalvesTimesCount(u.production, u.count);
      assert TotalProduction(us) == TotalProduction(init) + u.production * u.count as real;
    }
  }

  /** With productions in halves the total is in halves. */
  lemma TotalInHalves(us: seq<Upgrade>)
    requires ProductionsInHalves(us)
    ensures WholeHalves(TotalProduction(us))
  {
    TotalIsHalves(us);
    WholeFromHalves(TotalProduction(us), HalvesOf(us));
  }

  lemma WholeFromHalves(x: real, h: int)
    requires x * 2.0 == h as real
    ensures WholeHalves(x)
  {
  }

  /** Rounding to one decimal leaves a whole number of halves as it is, so
      the rounding in recalcProduction never changes the total. */
  lemma ToFixedOfHalves(x: real)
    requires WholeHalves(x)
    ensures ToFixed1(x) == x
  {
    var k := (x * 2.0).Floor;
    assert x * 10.0 == (5 * k) as real;
    assert Round(x * 10.0) == 5 * k;
  }

  /** The production of the table is never negative. */
  lemma {:induction false} TotalNonNegative(us: seq<Upgrade>)
    requires forall j | 0 <= j < |us| :: us[j].production >= 0.0
    ensures TotalProduction(us) >= 0.0
  {
    if us != [] {
      var init := us[..|us| - 1];
      assert forall j | 0 <= j < |init| :: init[j] == us[j];
      TotalNonNegative(init);
      var u := us[|us| - 1];
      assert u.production * u.count as real >= 0.0;
    }
  }

  /** The upgrades keep the identity, base cost and production of their row
      of the table. */
  predicate SameRows(us: seq<Upgrade>)
  {
    |us| == |TABLE|
    && forall j | 0 <= j < |us| ::
      us[j].id == TABLE[j].id && us[j].baseCost == TABLE[j].baseCost && us[j].production == TABLE[j].production
  }

  lemma TableRows(us: seq<Upgrade>)
    requires SameRows(us)
    ensures ProductionsInHalves(us)
    ensures forall j | 0 <= j < |us| :: us[j].production >= 0.0 && us[j].baseCost > 0
  {
    forall j | 0 <= j < |us|
      ensures WholeHalves(us[j].production) && us[j].production >= 0.0 && us[j].baseCost > 0
    {
      assert us[j].production == TABLE[j].production;
    }
  }

  class Game {
    var score: real
    var perSecond: real
    var totalClicks: real
    var upgrades: seq<Upgrade>

    /** Every upgrade keeps its row of the table, its price follows its level,
        and the production per second is the exact total. */
    ghost predicate Valid()
      reads this
    {
      SameRows(upgrades)
      && (forall j | 0 <= j < |upgrades| :: upgrades[j].cost == Some(Price(upgrades[j].baseCost, upgrades[j].count)))
      && perSecond == TotalProduction(upgrades)
    }

    /** The state literal, then the page start: renderUpgrades, then
        recalcProduction. */
    constructor ()
      ensures Valid() && score == 0.0 && totalClicks == 0.0 && perSecond == 0.0
      ensures forall j | 0 <= j < |upgrades| :: upgrades[j].count == 0
    {
      score := 0.0;
      perSecond := 0.0;
      totalClicks := 0.0;
      upgrades := TABLE;
      new;
      InitCosts();
      RecalcProduction();
      forall j | 0 <= j < |upgrades|
        ensures upgrades[j].cost == Some(Price(upgrades[j].baseCost, upgrades[j].count))
      {
        PriceGrows(upgrades[j].baseCost, 0);
      }
      TableRows(upgrades);
      TotalInHalves(upgrades);
      ToFixedOfHalves(TotalProduction(upgrades));
      assert TotalProduction(upgrades) == 0.0 by {
        ZeroCounts(upgrades);
      }
    }

    /** The cost initialisation of renderUpgrades. */
    method InitCosts()
      modifies this`upgrades
      ensures |upgrades| == |old(upgrades)|
      ensures forall j | 0 <= j < |upgrades| :: upgrades[j] == WithCost(old(upgrades)[j])
    {
      ghost var us0 := upgrades;
      for i := 0 to |upgrades|
        invariant |upgrades| == |us0|
        invariant forall j | 0 <= j < i :: upgrades[j] == WithCost(us0[j])
        invariant forall j | i <= j < |us0| :: upgrades[j] == us0[j]
      {
        var u := upgrades[i];
        if u.cost.None? || u.cost == Some(0) {
          upgrades := upgrades[i := u.(cost := Some(u.baseCost))];
        }
      }
    }

    /** recalcProduction: the forEach sum, rounded to one decimal. */
    method RecalcProduction()
      modifies this`perSecond
      ensures perSecond == ToFixed1(TotalProduction(upgrades))
    {
      var totalProd := 0.0;
      for i := 0 to |upgrades|
        invariant totalProd == TotalProduction(upgrades[..i])
      {
        var u := upgrades[i];
        assert upgrades[..i + 1][..i] == upgrades[..i];
        totalProd := totalProd + u.production * u.count as real;
      }
      assert upgrades[..|upgrades|] == upgrades;
      perSecond := ToFixed1(totalProd);
    }

    /** addScore: the amount always counts for the score, and for the clicks
        only when it is positive. */
    method AddScore(amount: real)
      modifies this`score, this`totalClicks
      ensures score == old(score) + amount
      ensures totalClicks == old(totalClicks) + (if amount > 0.0 then amount else 0.0)
    {
      score := score + amount;
      if amount > 0.0 {
        totalClicks := totalClicks + amount;
      }
    }

    /** clickAction: one point, one click. */
    method ClickAction()
      modifies this`score, this`totalClicks
      ensures score == old(score) + 1.0 && totalClicks == old(totalClicks) + 1.0
    {
      AddScore(1.0);
    }

    /** The body of the one-second interval: the production is added to the
        score, never to the clicks. */
    method Tick()
      requires Valid()
      modifies this`score
      ensures score == old(score) + perSecond && score >= old(score)
    {
      TableRows(upgrades);
      TotalNonNegative(upgrades);
      if perSecond > 0.0 {
        score := score + perSecond;
      }
    }

    /** buyUpgrade(index): the purchase, then the production is recomputed. */
    method BuyUpgrade(index: nat)
      requires Valid() && index < |upgrades|
      modifies this`score, this`upgrades, this`perSecond
      ensures Shop(score, upgrades) == Purchase(old(score), old(upgrades), index)
      ensures Valid()
    {
      var u := upgrades[index];
      if u.cost.Some? && score >= u.cost.value as real {
        score := score - u.cost.value as real;
        var n := u.count + 1;
        upgrades := upgrades[index := u.(count := n, cost := Some(Price(u.baseCost, n)))];
        RecalcProduction();
        TableRows(upgrades);
        TotalInHalves(upgrades);
        ToFixedOfHalves(TotalProduction(upgrades));
      }
    }
  }

  lemma {:induction false} ZeroCounts(us: seq<Upgrade>)
    requires forall j | 0 <= j < |us| :: us[j].count == 0
    ensures TotalProduction(us) == 0.0
  {
    if us != [] {
      var init := us[..|us| - 1];
      assert forall j | 0 <= j < |init| :: init[j] == us[j];
      ZeroCounts(init);
    }
  }
}

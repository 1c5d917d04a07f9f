/** The game-state controller of the cookie clicker: the upgrade catalog, the
    two state cells (accumulated cookies and production rate), the three events
    that change them (a click, a timer tick, a purchase) and the guard that
    decides whether a purchase goes through.

    The pure part (`State`, `Step`, `CanBuy`) is the specification; the class
    `Game` is the mutable controller whose methods are proved against it. */
module App {

  /** One shop entry: identity, label, price in cookies, and the production
      rate (cookies per second) it adds once bought. */
  datatype UpgradeItem = UpgradeItem(id: int, name: string, cost: int, cps: int)

  /** The fixed shop catalog. */
  const UPGRADES: seq<UpgradeItem> := [
    UpgradeItem(1, "🖱️ 자동 클릭커", 10, 1),
    UpgradeItem(2, "👩‍🍳 숙련된 제과사", 100, 10),
    UpgradeItem(3, "🏭 쿠키 공장", 500, 50)
  ]

  /** The catalog as the shop shows it: three entries with distinct ids
      1, 2, 3, prices 10, 100, 500 and rates 1, 10, 50, every price and rate
      positive. */
  lemma CatalogIsFixed()
    ensures |UPGRADES| == 3
    ensures forall i, j :: 0 <= i < j < |UPGRADES| ==> UPGRADES[i].id != UPGRADES[j].id
    ensures [UPGRADES[0].id, UPGRADES[1].id, UPGRADES[2].id] == [1, 2, 3]
    ensures [UPGRADES[0].cost, UPGRADES[1].cost, UPGRADES[2].cost] == [10, 100, 500]
    ensures [UPGRADES[0].cps, UPGRADES[1].cps, UPGRADES[2].cps] == [1, 10, 50]
    ensures forall item :: item in UPGRADES ==> item.cost > 0 && item.cps > 0
  {
  }

  /** A snapshot of the two state cells. The production rate is an integer
      because every catalog rate is one; cookies accumulate tenths of the rate
      and are kept as an exact rational. */
  datatype State = State(cookies: real, totalCps: int)

  /** The state when the game starts: nothing baked, nothing produced. */
  const Initial := State(0.0, 0)

  /** The invariants of a running game: neither quantity is negative. */
  predicate Valid(s: State) {
    s.cookies >= 0.0 && s.totalCps >= 0
  }

  /** The three events that drive the controller. */
  datatype Event = Click | Tick | Buy(item: UpgradeItem)

  /** Purchase events only ever carry an entry of the catalog. */
  predicate FromCatalog(e: Event) {
    e.Buy? ==> e.item in UPGRADES
  }

  /** The shop's affordability guard: enough cookies for the price. It holds
      exactly when paying the price leaves no debt, and, prices being whole
      numbers, exactly when the count shown on the page reaches the price. */
  function CanBuy(s: State, item: UpgradeItem): (r: bool)
    ensures r <==> s.cookies - item.cost as real >= 0.0
    ensures r <==> Displayed(s.cookies) >= item.cost
  {
    s.cookies >= item.cost as real
  }

  /** Cookies produced by one timer tick, one tenth of the per-second rate. */
  function TickYield(totalCps: int): (r: real)
    ensures totalCps >= 0 ==> r >= 0.0
    ensures 10.0 * r == totalCps as real
  {
    totalCps as real / 10.0
  }

  /** The effect of one event on the state. */
  function Step(s: State, e: Event): (r: State)
    ensures FromCatalog(e) ==> r.totalCps >= s.totalCps
    ensures Valid(s) && FromCatalog(e) ==> Valid(r)
    ensures e.Buy? && e.item in UPGRADES ==> (r != s <==> CanBuy(s, e.item))
    ensures e.Buy? && !CanBuy(s, e.item) ==> r == s
  {
    match e
    case Click => State(s.cookies + 1.0, s.totalCps)
    case Tick => State(s.cookies + TickYield(s.totalCps), s.totalCps)
    case Buy(item) =>
      if CanBuy(s, item) then State(s.cookies - item.cost as real, s.totalCps + item.cps)
      else s
  }

  /** The cookie count as the page shows it: rounded down to a whole number. */
  function Displayed(cookies: real): (n: int)
    ensures n as real <= cookies < n as real + 1.0
    ensures cookies >= 0.0 ==> n >= 0
  {
    cookies.Floor
  }

  /** Sum of the production rates of a sequence of bought entries. */
  function SumCps(items: seq<UpgradeItem>): int {
    if items == [] then 0 else items[0].cps + SumCps(items[1..])
  }

  /** Sum of the prices of a sequence of bought entries. */
  function SumCost(items: seq<UpgradeItem>): int {
    if items == [] then 0 else items[0].cost + SumCost(items[1..])
  }

  predicate AllCatalogEntries(items: seq<UpgradeItem>) {
    forall i :: 0 <= i < |items| ==> items[i] in UPGRADES
  }

  lemma {:induction false} SumsAppend(a: seq<UpgradeItem>, b: seq<UpgradeItem>)
    ensures SumCps(a + b) == SumCps(a) + SumCps(b)
    ensures SumCost(a + b) == SumCost(a) + SumCost(b)
  {
    if a != [] {
      assert (a + b)[1..] == a[1..] + b;
      SumsAppend(a[1..], b);
    } else {
      assert a + b == b;
    }
  }

  /** Any list of catalog entries has a non-negative total rate and total
      price. */
  lemma {:induction false} CatalogSumNonNegative(items: seq<UpgradeItem>)
    requires AllCatalogEntries(items)
    ensures SumCps(items) >= 0 && SumCost(items) >= 0
  {
    if items != [] {
      assert items[0] in UPGRADES;
      CatalogSumNonNegative(items[1..]);
    }
  }

  /** The controller: the two state cells the click handler, the timer and the
      shop buttons update in place. `bought` records, for the proof only, every
      entry whose purchase went through. */
  class Game {
    var cookies: real
    var totalCps: int
    ghost var bought: seq<UpgradeItem>

    function Snapshot(): State
      reads this
    {
      State(cookies, totalCps)
    }

    /** Cookies are not negative, every entry bought is from the catalog, and
        the production rate is exactly the sum of their rates (so, by
        `CatalogSumNonNegative`, not negative either). */
    ghost predicate Inv()
      reads this
    {
      cookies >= 0.0 && AllCatalogEntries(bought) && totalCps == SumCps(bought)
    }

    constructor ()
      ensures Inv() && Valid(Snapshot())
      ensures Snapshot() == Initial && bought == []
    {
      cookies, totalCps := 0.0, 0;
      bought := [];
    }

    /** A click on the big cookie: exactly one more cookie. */
    method Click()
      requires Inv()
      modifies this
      ensures Inv() && Valid(Snapshot())
      ensures cookies == old(cookies) + 1.0
      ensures totalCps == old(totalCps) && bought == old(bought)
      ensures Snapshot() == Step(old(Snapshot()), Event.Click)
    {
      cookies := cookies + 1.0;
      CatalogSumNonNegative(bought);
    }

    /** One firing of the 100 ms timer: a tenth of the per-second rate. */
    method Tick()
      requires Inv()
      modifies this
      ensures Inv() && Valid(Snapshot())
      ensures cookies == old(cookies) + TickYield(old(totalCps))
      ensures cookies >= old(cookies)
      ensures totalCps == old(totalCps) && bought == old(bought)
      ensures Snapshot() == Step(old(Snapshot()), Event.Tick)
    {
      CatalogSumNonNegative(bought);
      cookies := cookies + TickYield(totalCps);
    }

    /** A press on a shop button. It goes through exactly when the entry is
        affordable; otherwise nothing changes and no error is raised. */
    method Buy(item: UpgradeItem)
      requires Inv() && item in UPGRADES
      modifies this
      ensures Inv() && Valid(Snapshot())
      ensures totalCps >= old(totalCps)
      ensures old(CanBuy(Snapshot(), item)) ==>
                cookies == old(cookies) - item.cost as real &&
                totalCps == old(totalCps) + item.cps &&
                bought == old(bought) + [item]
      ensures !old(CanBuy(Snapshot(), item)) ==>
                cookies == old(cookies) && totalCps == old(totalCps) && bought == old(bought)
      ensures Snapshot() == Step(old(Snapshot()), Event.Buy(item))
    {
      if CanBuy(Snapshot(), item) {
        cookies := cookies - item.cost as real;
        totalCps := totalCps + item.cps;
        SumsAppend(bought, [item]);
        bought := bought + [item];
      }
      CatalogSumNonNegative(bought);
    }
  }
}

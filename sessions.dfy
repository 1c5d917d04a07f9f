/** Whole play sessions: a session is the sequence of events the controller
    receives, and the lemmas here say what every such sequence does to the
    two state cells. */
module Sessions {
  import opened App

  /** The state after the events, applied in order. */
  function Run(s: State, events: seq<Event>): State
    decreases |events|
  {
    if events == [] then s else Run(Step(s, events[0]), events[1..])
  }

  predicate CatalogSession(events: seq<Event>) {
    forall i :: 0 <= i < |events| ==> FromCatalog(events[i])
  }

  /** The entries whose purchase went through during the session. */
  function Bought(s: State, events: seq<Event>): seq<UpgradeItem>
    decreases |events|
  {
    if events == [] then []
    else
      var e := events[0];
      (if e.Buy? && CanBuy(s, e.item) then [e.item] else []) + Bought(Step(s, e), events[1..])
  }

  /** Number of clicks in the session. */
  function Clicks(events: seq<Event>): nat {
    if events == [] then 0 else (if events[0].Click? then 1 else 0) + Clicks(events[1..])
  }

  /** Cookies the timer produced during the session. */
  function Produced(s: State, events: seq<Event>): real
    decreases |events|
  {
    if events == [] then 0.0
    else (if events[0].Tick? then TickYield(s.totalCps) else 0.0) + Produced(Step(s, events[0]), events[1..])
  }

  function Repeat(e: Event, n: nat): (r: seq<Event>)
    ensures |r| == n && forall i :: 0 <= i < n ==> r[i] == e
  {
    if n == 0 then [] else [e] + Repeat(e, n - 1)
  }

  /** Running two sessions back to back is running their concatenation. */
  lemma {:induction false} RunAppend(s: State, a: seq<Event>, b: seq<Event>)
    ensures Run(s, a + b) == Run(Run(s, a), b)
    decreases |a|
  {
    if a == [] {
      assert a + b == b;
    } else {
      assert (a + b)[0] == a[0];
      assert (a + b)[1..] == a[1..] + b;
      RunAppend(Step(s, a[0]), a[1..], b);
    }
  }

  /** From any valid state, every session of clicks, ticks and catalog
      purchases keeps cookies and production rate non-negative. */
  lemma {:induction false} RunKeepsValid(s: State, events: seq<Event>)
    requires Valid(s) && CatalogSession(events)
    ensures Valid(Run(s, events))
    decreases |events|
  {
    if events != [] {
      assert FromCatalog(events[0]);
      RunKeepsValid(Step(s, events[0]), events[1..]);
    }
  }

  /** Bookkeeping of a session: the cookies at the end are those at the start
      plus one per click plus what the timer produced, minus the prices of the
      entries bought; the production rate grew by exactly the rates of the
      entries bought. */
  lemma {:induction false} Ledger(s: State, events: seq<Event>)
    ensures Run(s, events).cookies
              == s.cookies + Clicks(events) as real + Produced(s, events)
                 - SumCost(Bought(s, events)) as real
    ensures Run(s, events).totalCps == s.totalCps + SumCps(Bought(s, events))
    decreases |events|
  {
    if events != [] {
      var e, rest := events[0], events[1..];
      var t := Step(s, e);
      var now := if e.Buy? && CanBuy(s, e.item) then [e.item] else [];
      Ledger(t, rest);
      SumsAppend(now, Bought(t, rest));
    }
  }

  /** From the start of the game, the production rate always equals the sum
      of the rates of the entries bought so far, and both quantities stay
      non-negative. */
  lemma RateIsSumOfPurchases(events: seq<Event>)
    requires CatalogSession(events)
    ensures Run(Initial, events).totalCps == SumCps(Bought(Initial, events))
    ensures Valid(Run(Initial, events))
  {
    Ledger(Initial, events);
    RunKeepsValid(Initial, events);
  }

  /** Every prefix of a session ends with at least the production rate of
      any shorter prefix. */
  lemma RateNeverDecreases(s: State, events: seq<Event>, i: nat, j: nat)
    requires CatalogSession(events) && i <= j <= |events|
    ensures Run(s, events[..i]).totalCps <= Run(s, events[..j]).totalCps
  {
    assert events[..j] == events[..i] + events[i..j];
    RunAppend(s, events[..i], events[i..j]);
    assert CatalogSession(events[i..j]) by {
      forall k | 0 <= k < j - i ensures FromCatalog(events[i..j][k]) {
        assert events[i..j][k] == events[i + k];
      }
    }
    RunRateMonotone(Run(s, events[..i]), events[i..j]);
  }

  /** The production rate is non-decreasing along any catalog session, from
      any state. */
  lemma {:induction false} RunRateMonotone(s: State, events: seq<Event>)
    requires CatalogSession(events)
    ensures Run(s, events).totalCps >= s.totalCps
    decreases |events|
  {
    if events != [] {
      assert FromCatalog(events[0]);
      RunRateMonotone(Step(s, events[0]), events[1..]);
    }
  }

  /** n clicks raise the cookies by exactly n and leave the rate alone. */
  lemma {:induction false} ClicksAdd(s: State, n: nat)
    ensures Run(s, Repeat(Click, n)) == State(s.cookies + n as real, s.totalCps)
    decreases n
  {
    if n > 0 {
      ClicksAdd(Step(s, Click), n - 1);
    }
  }

  /** n ticks at a constant rate R raise the cookies by exactly n * R / 10. */
  lemma {:induction false} TicksAdd(s: State, n: nat)
    ensures Run(s, Repeat(Tick, n))
              == State(s.cookies + (n as real) * (s.totalCps as real) / 10.0, s.totalCps)
    decreases n
  {
    if n > 0 {
      TicksAdd(Step(s, Tick), n - 1);
      var r := s.totalCps as real;
      assert (n as real) * r / 10.0 == r / 10.0 + ((n - 1) as real) * r / 10.0;
    }
  }

  /** The price of an entry does not change with the number of times it has
      been bought: n purchases of one entry, when the cookies cover all n,
      cost exactly n times the price and add exactly n times the rate. */
  lemma {:induction false} RepeatedPurchase(s: State, item: UpgradeItem, n: nat)
    requires item.cost >= 0 && s.cookies >= (n * item.cost) as real
    ensures Run(s, Repeat(Buy(item), n))
              == State(s.cookies - (n * item.cost) as real, s.totalCps + n * item.cps)
    decreases n
  {
    if n > 0 {
      assert n * item.cost == item.cost + (n - 1) * item.cost;
      assert n * item.cps == item.cps + (n - 1) * item.cps;
      RepeatedPurchase(Step(s, Buy(item)), item, n - 1);
    }
  }

  /** A purchase that cannot be afforded is a no-op however often it is
      attempted. */
  lemma {:induction false} UnaffordableIsNoOp(s: State, item: UpgradeItem, n: nat)
    requires !CanBuy(s, item)
    ensures Run(s, Repeat(Buy(item), n)) == s
    decreases n
  {
    if n > 0 {
      UnaffordableIsNoOp(s, item, n - 1);
    }
  }

  /** The reference session, in exact arithmetic: ten clicks buy the first
      entry, leaving no cookies and a rate of 1; ten ticks then produce one
      cookie; the second
      entry, priced 100, is then out of reach and its purchase changes
      nothing. */
  lemma Scenario()
    ensures Run(Initial, Repeat(Click, 10) + [Buy(UPGRADES[0])]) == State(0.0, 1)
    ensures Run(State(0.0, 1), Repeat(Tick, 10)) == State(1.0, 1)
    ensures Run(State(1.0, 1), [Buy(UPGRADES[1])]) == State(1.0, 1)
  {
    ClicksAdd(Initial, 10);
    RunAppend(Initial, Repeat(Click, 10), [Buy(UPGRADES[0])]);
    TicksAdd(State(0.0, 1), 10);
  }
}

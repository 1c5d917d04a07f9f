# Cookie clicker game-state controller

A Dafny model of the game-state controller of the cookie clicker in
`src/App.tsx`. The controller owns two quantities: `cookies`, the
accumulated resource, and `totalCps`, the production rate in cookies per
second. Three events change them:

- a click on the big cookie adds exactly one cookie;
- a tick of the 100 ms timer adds a tenth of the production rate;
- a press on a shop button buys a catalog entry. It goes through only when
  the cookies cover the entry's price. Then it subtracts the price and adds
  the entry's rate. Otherwise nothing happens and no error is raised.

The shop catalog `UPGRADES` is a fixed table of three entries (id, name,
price, rate).

Two files, one module each:

- `app.dfy`, module `App`: the `UpgradeItem` record and the `UPGRADES`
  catalog, and the pure specification. `State` holds the two cells, `Event`
  the three events, `Step` gives the effect of one event, and `CanBuy` is the
  shop guard. It also holds the class `Game`, which is the controller with
  its two mutable fields. Its methods `Click`, `Tick` and `Buy` update the
  fields in place. Each method is proved against `Step` and keeps the class
  invariant `Inv`. `Inv` says that neither quantity is negative and that the
  rate equals the sum of the rates of the entries bought so far. A ghost
  field `bought` tracks those entries.
- `sessions.dfy`, module `Sessions`: whole sessions, meaning sequences of
  events run from a state (`Run`). Lemmas cover non-negativity,
  monotonicity of the rate, a cookie ledger, n clicks, n ticks, repeated
  purchases at a constant price, and the reference scenario.

Cookies are exact rationals (`real`), and the rate is an integer, because
every catalog rate is an integer.

## Model

| member | source | states |
|---|---|---|
| App.CatalogIsFixed | src/App.tsx:10-14 | the catalog has three entries with distinct ids 1, 2, 3, prices 10, 100, 500 and rates 1, 10, 50, all positive |
| App.TickYield | src/App.tsx:22 | one tick yields a tenth of the rate: ten ticks' worth equals the rate, and it is never negative for a non-negative rate |
| App.Step | src/App.tsx:22-58 | one event never lowers the rate and keeps both quantities non-negative; a catalog purchase changes the state exactly when the cookies cover the price; an unaffordable purchase leaves the state unchanged |
| App.CanBuy | src/App.tsx:51 | the shop guard holds exactly when paying the price leaves no debt, and exactly when the whole-number count shown on the page reaches the price |
| App.Displayed | src/App.tsx:34 | the displayed count is the largest whole number not above the cookie count, and is non-negative when the cookies are |
| App.SumsAppend | src/App.tsx:57-58 | the total rate and the total price of a list of purchases are additive over concatenation |
| App.CatalogSumNonNegative | src/App.tsx:10-14 | any list of catalog entries has a non-negative total rate and total price |
| App.Game.constructor | src/App.tsx:17-18 | the game starts with 0 cookies, rate 0 and nothing bought, and the invariant holds |
| App.Game.Click | src/App.tsx:41 | a click adds exactly one cookie, leaves the rate and the purchases unchanged, agrees with `Step` and keeps the invariant |
| App.Game.Tick | src/App.tsx:21-23 | a tick adds exactly a tenth of the current rate, never lowers the cookies, leaves the rate unchanged, agrees with `Step` and keeps the invariant |
| App.Game.Buy | src/App.tsx:51-60 | an affordable purchase takes exactly the price from the cookies, adds exactly the entry's rate and records the entry; an unaffordable one changes nothing; either way the rate does not go down, the result agrees with `Step`, and the invariant (non-negative cookies, rate equal to the sum of bought rates) is kept |
| Sessions.RunAppend | src/App.tsx:20-60 | running two event sequences back to back is the same as running their concatenation |
| Sessions.RunKeepsValid | src/App.tsx:17-18 | from any state with non-negative quantities, every sequence of clicks, ticks and catalog purchases keeps both quantities non-negative |
| Sessions.Ledger | src/App.tsx:22-58 | final cookies equal initial cookies plus one per click, plus the timer's production, minus the prices of the entries bought; the final rate equals the initial rate plus the rates of the entries bought |
| Sessions.RateIsSumOfPurchases | src/App.tsx:18 | from the start of the game, the rate always equals the sum of the rates of the entries bought so far, and both quantities are non-negative |
| Sessions.RunRateMonotone | src/App.tsx:58 | no sequence of catalog events lowers the rate |
| Sessions.RateNeverDecreases | src/App.tsx:58 | along one session, the rate after a longer prefix is at least the rate after a shorter one |
| Sessions.ClicksAdd | src/App.tsx:41 | n clicks add exactly n cookies and leave the rate unchanged |
| Sessions.TicksAdd | src/App.tsx:21-23 | n ticks at a constant rate R add exactly n·R/10 cookies and leave the rate unchanged |
| Sessions.RepeatedPurchase | src/App.tsx:55-58 | n purchases of one entry, when the cookies cover all n, cost exactly n times its price and add exactly n times its rate, so the price does not escalate |
| Sessions.UnaffordableIsNoOp | src/App.tsx:55-56 | any number of attempts to buy an unaffordable entry leave the state unchanged |
| Sessions.Scenario | src/App.tsx:10-14 | in exact arithmetic, 10 clicks then buying the first entry give 0 cookies and rate 1; 10 ticks then give 1 cookie; buying the second entry (price 100) then changes nothing |

## Left out

- Rendering, styling and the text shown on the page, apart from the floor of the cookie count (`Displayed`). This includes locale formatting and the rate's one-decimal display.
- The timer's lifecycle. The interval is created and cleared by a React effect that is re-created whenever the rate changes. A tick is modelled as an explicit event that reads the current rate. The 100 ms period is not modelled.
- Floating-point rounding. JavaScript numbers are binary floats, so `totalCps / 10` and the running sum of cookies are rounded. The model uses exact rationals. The gap matters at thresholds. The floor on the page (`Displayed`) and the shop guard (`CanBuy`, `>=`) can decide differently from the program when the true sum lies on or just past a whole number or a price. In doubles, ten ticks at rate 1 sum to just under 1, so the page shows 0. A hundred such ticks sum to just under 10, so the 10-cookie entry stays disabled.
- Sessions.TicksAdd, Sessions.Scenario: hold in exact arithmetic only. In the program, n ticks add n·R/10 up to rounding. The scenario's "ten ticks give one cookie" becomes a value just under one, which the page shows as 0.
- App.Game.Buy: checks the guard against the current state. The program computes `canBuy` at render time and applies the updaters to the newest state. If two purchase clicks land before a re-render, both could pass a stale guard and spend twice, and cookies could go negative. That is a React batching artefact. The model assumes each purchase sees the state left by the previous event.
- App.Game.Buy: accepts only catalog entries (`item in UPGRADES`). That is the only kind of entry a shop button can carry. The invariants rely on every rate being non-negative.

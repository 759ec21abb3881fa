# Fast-food ordering domain in Dafny

This project models the domain core of a small TypeScript fast-food
ordering system, written over three lab iterations.

- **Order lifecycle (Lab3).** An `Order` holds one current state: Pending,
  Confirmed, Preparing, Ready or Completed. Its `confirm`, `prepare`,
  `ready`, `complete` and `cancel` calls go to that state's handler. The
  handler either installs the next state through `setState`, throws, or
  only logs. `setState` notifies every attached observer with the new and
  old state names. The analytics observer counts transitions and completed
  orders. The final price is the order's discount strategy applied to the
  item's price. There are four strategies: none, percentage, fixed amount
  and loyalty points.
- **Menu items.** The model covers:
  - burgers with a defaulting constructor and `clone`;
  - the bacon, avocado and premium-cheese decorators that add to price and description;
  - fries and drinks with price defaults;
  - meal combos, which are mutable lists priced as their sum.
- **Burger construction.** The model covers:
  - a builder that edits one burger object in place;
  - a director with four preset recipes;
  - the McDonald's and KFC factories, both their Lab1 and later forms;
  - the facade that looks up a restaurant's factory and assembles custom burgers, preset burgers and combo meals.

Modules, one per file:

| file | module | models |
|---|---|---|
| common.dfy | `Common` | `Option`/`Result`, JavaScript truthiness, `join`, `indexOf`+`splice`, the insertion-ordered `Set<string>` |
| states.dfy | `OrderStates` | the five state classes as one transition function `Handle` |
| strategies.dfy | `Strategies` | the four discount strategies |
| observers.dfy | `Observers` | the analytics observer (a class) and the observer identities |
| order.dfy | `Orders` | the `Order` class, with a ghost trace of every `onStateChanged` call |
| menu.dfy | `Menu` | menu items as values: burger fields, decorators, fries, drinks, combos |
| burger.dfy | `Burgers` | the Lab3 `StandartBurger` class |
| builder.dfy | `Builders` | `BurgerBuilder` |
| director.dfy | `Directors` | `BurgerDirector` and its presets |
| factories.dfy | `Factories` | the McDonald's and KFC factories used by the facade |
| lab1.dfy | `FirstBurgers` | the Lab1 burger and factories |
| combo.dfy | `Combos` | the `MealCombo` class |
| facade.dfy | `Facade` | `FastFoodFacade` |
| demo.dfy | `OrderDemo` | the order scenarios of the Lab3 client, stated as methods with proved outcomes |

Where the source throws, the model returns `Result.Err(message)` or
`Option.Some(message)` carrying the exact message. Prices are `real`.
Text rendering of numbers (`String(n)`, `toFixed(2)`) is a function
parameter.

The Lab3 facade imports `KFCFactory`, `BurgerBuilder` and `Drink` from
Lab3 paths; those Lab3 files are not part of this model. Their Lab2
versions stand in for them: Lab2/src/domain/factories/KFCFactory.ts,
Lab2/src/domain/builders/BurgerBuilder.ts and
Lab2/src/domain/models/Drink.ts (the model of the last is `Menu.NewDrink`).
The builder edits the Lab3 `StandartBurger`.

The fixed-amount and loyalty-points strategies clamp their result at zero
with `Math.max(0, …)`. The percentage strategy does not clamp, so a
negative base price gives a negative final price. `Strategies.ApplyDiscount`
states both: fixed-amount and loyalty results are never negative, and a
percentage below 100 keeps a negative base negative.

## Model

| member | source | states |
|---|---|---|
| OrderStates.StateNamesDistinct | Lab3/src/domain/states/PendingState.ts:32-34 | the five `getStateName` results are pairwise distinct, so a state name identifies its state |
| OrderStates.OnPending | Lab3/src/domain/states/PendingState.ts:9-30 | pending: only `confirm` moves, to Confirmed; `cancel` is accepted with no move; `prepare`, `ready` and `complete` throw their messages |
| OrderStates.OnConfirmed | Lab3/src/domain/states/ConfirmedState.ts:9-28 | confirmed: only `prepare` moves, to Preparing; re-confirming throws "Order is already confirmed."; `cancel` is accepted with no move |
| OrderStates.OnPreparing | Lab3/src/domain/states/PreparingState.ts:9-28 | preparing: only `ready` moves, to Ready; `cancel` is accepted with no move; the rest throw |
| OrderStates.OnReady | Lab3/src/domain/states/ReadyState.ts:9-28 | ready: only `complete` moves, to Completed; every other event throws, `cancel` included |
| OrderStates.OnCompleted | Lab3/src/domain/states/CompletedState.ts:5-23 | completed: every event throws; all but `cancel` say "Order is already completed." |
| OrderStates.Handle | Lab3/src/domain/models/Order.ts:43-61 | delegation to the current state's handler: a move goes exactly one step forward and is never a cancel; a call stays put exactly on `cancel` before Ready; Completed rejects everything |
| OrderStates.OnlyLifecycleSteps | Lab3/src/domain/states/PendingState.ts:9-12 | a handler changes the status exactly on the four steps Pending→Confirmed→Preparing→Ready→Completed, both directions, checked against an independent table (also ConfirmedState.ts:13-16, PreparingState.ts:17-20, ReadyState.ts:21-24) |
| OrderStates.RepeatRejected | Lab3/src/domain/states/ConfirmedState.ts:9-11 | the event that produced a state is rejected when repeated in that state |
| OrderStates.ReplayAdvances | Lab3/src/client/client.ts:124-136 | in a run of calls that throws nothing, each non-cancel event advances the status exactly one step and each cancel advances none |
| OrderStates.CompletedAbsorbing | Lab3/src/domain/states/CompletedState.ts:4-28 | from Completed any sequence of calls throws on its first event with that state's message |
| OrderStates.LifecycleScenario | Lab3/src/client/client.ts:124-160 | the full lifecycle ends Completed; a later `prepare` throws; `prepare` on a new order throws the "confirm first" message |
| Strategies.NewPercentage | Lab3/src/domain/strategies/PercentageDiscountStrategy.ts:6-11 | construction succeeds iff 0 ≤ pct ≤ 100, else throws "Percentage must be between 0 and 100" |
| Strategies.NewFixedAmount | Lab3/src/domain/strategies/FixedAmountDiscountStrategy.ts:6-11 | construction succeeds iff amount ≥ 0, else throws "Discount amount must be positive" |
| Strategies.NewLoyaltyPoints | Lab3/src/domain/strategies/LoyaltyPointsDiscountStrategy.ts:7-16 | succeeds iff points ≥ 0 and rate > 0, the rate defaulting to 100; points are checked first, each with its message |
| Strategies.ApplyDiscount | Lab3/src/domain/strategies/PercentageDiscountStrategy.ts:13-16 | no discount is the identity; fixed and loyalty results are never negative; every strategy keeps a non-negative price in [0, price]; a percentage below 100 keeps a negative price negative (also FixedAmountDiscountStrategy.ts:13-17, LoyaltyPointsDiscountStrategy.ts:18-23, NoDiscountStrategy.ts:4-6) |
| Strategies.PercentageBounds | Lab3/src/domain/strategies/PercentageDiscountStrategy.ts:13-16 | `p - p*pct/100` lies in [0, p] for p ≥ 0 and stays negative for p < 0 and pct < 100 |
| Strategies.NoDiscountIdentity | Lab3/src/domain/strategies/NoDiscountStrategy.ts:4-6 | applying no discount twice equals applying it once; the result is non-negative iff the base is |
| Strategies.PercentageEndpoints | Lab3/src/domain/strategies/PercentageDiscountStrategy.ts:14-15 | 0% is the identity and 100% gives 0 |
| Strategies.FixedAmountClamps | Lab3/src/domain/strategies/FixedAmountDiscountStrategy.ts:14-16 | a price at most the amount becomes 0; amount 0 is the identity on non-negative prices |
| Strategies.LoyaltyMonotone | Lab3/src/domain/strategies/LoyaltyPointsDiscountStrategy.ts:19-22 | more points never give a higher final price |
| Strategies.LoyaltyExamples | Lab3/src/domain/strategies/LoyaltyPointsDiscountStrategy.ts:18-23 | zero points is the identity on non-negative prices; 250 points at the default rate take 2.50 off, clamped at 0 |
| Strategies.DiscountScenarios | Lab3/src/client/client.ts:186-196 | 15% off 5.99 is 5.0915, 3.00 off 5.99 is 2.99, 5.00 off 1.00 is 0, and 150% is rejected |
| Strategies.Describe | Lab3/src/domain/strategies/PercentageDiscountStrategy.ts:18-20 | "No discount"; "<pct>% off"; "$<amount> off"; "<points> loyalty points ($<value> off)" (also NoDiscountStrategy.ts:8-10, FixedAmountDiscountStrategy.ts:19-21, LoyaltyPointsDiscountStrategy.ts:25-28) |
| Observers.CountCompleted | Lab3/src/domain/observers/AnalyticsObserver.ts:13-14 | the number of received notifications into "Completed" never exceeds the number received |
| Observers.AnalyticsObserver.constructor | Lab3/src/domain/observers/AnalyticsObserver.ts:7-8 | both counters start at 0 with nothing received |
| Observers.AnalyticsObserver.OnStateChanged | Lab3/src/domain/observers/AnalyticsObserver.ts:10-20 | transitions rise by exactly 1, completed orders by 1 exactly when the new state is "Completed"; the counters stay equal to the count of everything received and of completions, so completed ≤ transitions |
| Observers.AnalyticsObserver.GetMetrics | Lab3/src/domain/observers/AnalyticsObserver.ts:22-27 | returns the current counters unchanged, completed ≤ transitions = notifications received |
| Orders.Broadcast | Lab3/src/domain/models/Order.ts:79-83 | one notification per attached observer, in attachment order, each carrying (new, old) and the new status as `getStatus()` |
| Orders.Order.constructor | Lab3/src/domain/models/Order.ts:19-28 | a new order is Pending, has no discount, no observers and no notifications |
| Orders.Order.SetState | Lab3/src/domain/models/Order.ts:30-37 | the old name is taken before the new state is installed; every observer is notified once with (new, old); every analytics observer records exactly that pair; strategy and observers unchanged |
| Orders.Order.NotifyObservers | Lab3/src/domain/models/Order.ts:79-83 | the loop notifies each observer once in order (the trace grows by `Broadcast`), and each analytics observer receives the pair exactly once |
| Orders.Order.NotifyAt | Lab3/src/domain/models/Order.ts:80-82 | one loop step: one notification for the observer at that position, seen while `getStatus()` is already the new name |
| Orders.Order.Dispatch | Lab3/src/domain/models/Order.ts:43-61 | a move installs the successor and notifies everyone once; a stay or a throw changes no status and notifies nobody; a throw returns the handler's message |
| Orders.Order.Confirm | Lab3/src/domain/models/Order.ts:43-45 | `confirm()` is exactly the current state's `confirm` handler, as `Dispatch` states |
| Orders.Order.Prepare | Lab3/src/domain/models/Order.ts:47-49 | `prepare()` is exactly the current state's `prepare` handler |
| Orders.Order.Ready | Lab3/src/domain/models/Order.ts:51-53 | `ready()` is exactly the current state's `ready` handler |
| Orders.Order.Complete | Lab3/src/domain/models/Order.ts:55-57 | `complete()` is exactly the current state's `complete` handler |
| Orders.Order.Cancel | Lab3/src/domain/models/Order.ts:59-61 | `cancel()` is exactly the current state's `cancel` handler: no move and no notification before Ready, a throw from Ready on |
| Orders.Order.Attach | Lab3/src/domain/models/Order.ts:64-69 | an observer already attached changes nothing, a new one is appended; the list stays duplicate-free and every attached analytics observer stays consistent |
| Orders.Order.Detach | Lab3/src/domain/models/Order.ts:71-77 | removes the first occurrence and keeps the others in order; an absent observer changes nothing; the result is duplicate-free and lacks it, and the remaining analytics observers stay consistent |
| Orders.Order.SetDiscountStrategy | Lab3/src/domain/models/Order.ts:86-89 | replaces only the strategy, in any state |
| Orders.Order.GetFinalPrice | Lab3/src/domain/models/Order.ts:95-97 | equals the base price under no discount; lies in [0, base] for a non-negative base; is never negative under the fixed and loyalty strategies |
| Orders.Order.GetDetails | Lab3/src/domain/models/Order.ts:99-107 | starts with id, restaurant, item and base price; ends with the current status; has a discount segment exactly when final < base |
| Menu.BurgerDescriptionShape | Lab3/src/domain/models/StandartBurger.ts:24-30 | the text starts with name (or "Custom Burger"), " from ", restaurant; it ends with the ingredient list exactly when the joined list is non-empty, otherwise with the meat segment |
| Menu.WithBacon | Lab3/src/domain/decorators/BaconDecorator.ts:6-19 | price is the wrapped price + 2.0, description the wrapped one + ", +Extra Bacon", name delegated |
| Menu.WithAvocado | Lab3/src/domain/decorators/AvocadoDecorator.ts:6-19 | price + 1.5, description + ", +Fresh Avocado" with the wrapped description as prefix, name delegated |
| Menu.WithPremiumCheese | Lab3/src/domain/decorators/PremiumCheeseDecorator.ts:9-21 | price + 1.0, description + ", +Premium <type> Cheese", the type "Cheddar" by default, name delegated |
| Menu.ToppingOrder | Lab3/src/domain/decorators/BaconDecorator.ts:13-19 | bacon and avocado add 3.50 in either order, but the two orders give different descriptions |
| Menu.NewFries | Lab3/src/domain/models/Fries.ts:9-22 | size "Regular" and price 2.49 by default, an explicit price kept as given, name "Fries", description "<size> Fries" |
| Menu.NewDrink | Lab2/src/domain/models/Drink.ts:10-31 | "Coke" and "Medium" by default; a truthy price is kept, otherwise Large 2.49, Medium 1.99, else 1.49; description "<size> <type>", name "Drink" |
| Menu.DrinkPriceDefaults | Lab2/src/domain/models/Drink.ts:16-20 | an explicit 0 price falls back to the size table; the default, Large and Small prices |
| Menu.PriceNonNegative | Lab3/src/domain/models/MealCombo.ts:30-32 | an item, nested combos and decorators included, built from non-negative leaf prices has a non-negative price |
| Menu.SumAndDescriptionsSnoc | Lab3/src/domain/models/MealCombo.ts:30-44 | appending an item adds its price to the sum and its description at the end of the list |
| Menu.SumRemoveAt | Lab3/src/domain/models/MealCombo.ts:18-24 | splicing out the item at a position takes exactly its price off the sum |
| Burgers.NewBurgerDefaults | Lab3/src/domain/models/StandartBurger.ts:12-22 | a new burger's price is 5.99 unless a non-zero one is given, with no meat, no cheese and no ingredients; its description is name or "Custom Burger", " from ", restaurant, " (no meat)" |
| Burgers.CloneKeeps | Lab3/src/domain/models/StandartBurger.ts:32-39 | a clone keeps meat, cheese, ingredients, restaurant and description; its price is the original's unless that is 0, then 5.99 |
| Burgers.CloneExact | Lab3/src/domain/models/StandartBurger.ts:32-39 | a burger with no empty name and a non-zero price clones to an equal value |
| Burgers.NewBurgerClonesExactly | Lab3/src/domain/models/StandartBurger.ts:12-18 | every burger the constructor makes clones to an equal value |
| Burgers.StandartBurger.constructor | Lab3/src/domain/models/StandartBurger.ts:12-18 | the fields are `NewBurgerData` of the arguments: falsy name null, falsy restaurant '', falsy price 5.99, an empty set |
| Burgers.StandartBurger.Clone | Lab3/src/domain/models/StandartBurger.ts:32-39 | a fresh object whose fields are `CloneData` of the original, so later edits to it leave the original unchanged |
| Builders.BurgerBuilder.constructor | Lab2/src/domain/builders/BurgerBuilder.ts:9-12 | the builder edits the given burger itself, or a fresh default one |
| Builders.BurgerBuilder.Reset | Lab2/src/domain/builders/BurgerBuilder.ts:14-17 | installs a fresh default burger and leaves the previous object untouched; returns the builder |
| Builders.BurgerBuilder.AddMeat | Lab2/src/domain/builders/BurgerBuilder.ts:19-23 | sets only the meat |
| Builders.BurgerBuilder.RemoveMeat | Lab2/src/domain/builders/BurgerBuilder.ts:25-29 | clears only the meat |
| Builders.BurgerBuilder.AddIngredient | Lab2/src/domain/builders/BurgerBuilder.ts:31-35 | set insertion and nothing else: an existing ingredient changes nothing, a new one goes last |
| Builders.BurgerBuilder.RemoveIngredient | Lab2/src/domain/builders/BurgerBuilder.ts:36-40 | set deletion and nothing else: an absent ingredient changes nothing |
| Builders.BurgerBuilder.Build | Lab2/src/domain/builders/BurgerBuilder.ts:42-44 | returns the very object being edited |
| Builders.AddNextIngredient | Lab2/src/domain/builders/BurgerBuilder.ts:31-35 | adding the next element of a duplicate-free recipe list extends the burger's ingredients by exactly that element |
| Common.IndexOf | Lab3/src/domain/models/Order.ts:72 | -1 iff absent, otherwise the first position holding the element |
| Common.RemoveFirst | Lab3/src/domain/models/Order.ts:71-77 | `indexOf` + `splice(i, 1)`: absent changes nothing, present drops one copy at the first position and shifts the rest down in order |
| Common.RemoveFirstNoDup | Lab3/src/domain/models/Order.ts:71-77 | on a duplicate-free list removal keeps it duplicate-free and removes exactly that element |
| Common.SetAdd | Lab2/src/domain/builders/BurgerBuilder.ts:32 | `Set.add`: the element set gains x, order is kept, an existing x changes nothing, a new one goes last |
| Common.SetDelete | Lab2/src/domain/builders/BurgerBuilder.ts:37 | `Set.delete`: the element set loses x and stays duplicate-free |
| Common.SetAddAllUnion | Lab3/src/domain/facades/FastFoodFacade.ts:49-51 | adding the extras one by one gives the union of the sets, duplicate-free |
| Common.SetAddAllPrefix | Lab3/src/domain/facades/FastFoodFacade.ts:49-51 | adding extras never moves the ingredients already there |
| Combos.ComboDescriptionSnoc | Lab3/src/domain/models/MealCombo.ts:34-44 | one item gives "<name> [d]"; adding an item inserts ", d" before the closing bracket |
| Combos.ComboDescriptionShape | Lab3/src/domain/models/MealCombo.ts:34-44 | "<name> (empty)" with no items, otherwise "<name> [" … "]" |
| Combos.MealCombo.constructor | Lab3/src/domain/models/MealCombo.ts:5-11 | a new combo is empty: count 0, price 0, description "<name> (empty)" |
| Combos.MealCombo.Add | Lab3/src/domain/models/MealCombo.ts:13-16 | appends at the end; count + 1; price + the item's price; description gains the item's at the end |
| Combos.MealCombo.Remove | Lab3/src/domain/models/MealCombo.ts:18-24 | removes the first equal item, the others in order; count − 1 and price − the item's price; an absent item changes nothing |
| Directors.PresetFacts | Lab3/src/domain/directors/BurgerDirector.ts:10-48 | every preset is a nameless, restaurant-less 5.99 burger with its recipe's ingredients; only the vegan one has no meat |
| Directors.PresetDescription | Lab3/src/domain/directors/BurgerDirector.ts:10-48 | a preset's description starts "Custom Burger from " and ends with its ingredient list |
| Directors.ClassicIngredientList | Lab3/src/domain/directors/BurgerDirector.ts:39-48 | the classic burger's ingredients read "lettuce, tomato, onion, pickles" |
| Directors.BurgerDirector.CreateVeganBurger | Lab3/src/domain/directors/BurgerDirector.ts:10-17 | a fresh burger with salad, tomatoes and no meat, whatever the builder held; the old burger is untouched |
| Directors.BurgerDirector.CreateChocolateBurger | Lab3/src/domain/directors/BurgerDirector.ts:19-27 | a fresh burger with salad, tomatoes, chocolate and "rabbit" |
| Directors.BurgerDirector.CreateSpicyBurger | Lab3/src/domain/directors/BurgerDirector.ts:29-37 | a fresh burger with jalapeños, hot sauce, pepper jack cheese and "beef" |
| Directors.BurgerDirector.CreateClassicBurger | Lab3/src/domain/directors/BurgerDirector.ts:39-48 | a fresh burger with lettuce, tomato, onion, pickles and "beef" |
| Factories.RecipeFacts | Lab3/src/domain/factories/McDonaldsFactory.ts:7-17 | both recipes have a name, restaurant, meat, price (5.99 / 6.49) and distinct ingredients (5 / 3), and clone exactly (also Lab2/src/domain/factories/KFCFactory.ts:7-15) |
| Factories.CreateBurger | Lab3/src/domain/facades/FastFoodFacade.ts:34 | each call returns a fresh burger equal to the restaurant's recipe |
| Factories.CreateMcDonaldsBurger | Lab3/src/domain/factories/McDonaldsFactory.ts:7-17 | a fresh "BigMac" from "McDonalds" at 5.99 with "Beef" and lettuce, special sauce, pickles, onions, sesame seed bun |
| Factories.CreateKFCBurger | Lab2/src/domain/factories/KFCFactory.ts:7-15 | a fresh "Zinger Burger" from "KFC" at 6.49 with "Crispy Chicken" and unique KFC sauce, lettuce, mayo |
| FirstBurgers.StandartBurger.constructor | Lab1/src/domain/models/StandartBurger.ts:12-17 | falsy name null, falsy restaurant '', price the initial 0, no meat, no cheese, empty set |
| FirstBurgers.StandartBurger.Clone | Lab1/src/domain/models/StandartBurger.ts:19-23 | a fresh object with equal fields and its own ingredient set |
| FirstBurgers.FirstBurgerFree | Lab1/src/domain/models/StandartBurger.ts:6-17 | a Lab1 burger is priced 0 and starts with no ingredients |
| FirstBurgers.CreateFirstMcDonaldsBurger | Lab1/src/domain/factories/McDonaldsFactory.ts:7-17 | five insertions of "letuce" leave one ingredient; "BigMac", "McDonalds", "Beef", a fresh object |
| FirstBurgers.CreateFirstKFCBurger | Lab1/src/domain/factories/KFCFactory.ts:7-13 | a fresh "BigKFC" from "KFC" with "Beef" and only "unique KFC sauce" |
| Facade.Keys | Lab3/src/domain/facades/FastFoodFacade.ts:126-128 | the map's keys in insertion order |
| Facade.Lookup | Lab3/src/domain/facades/FastFoodFacade.ts:131 | `map.get`: none iff the key is absent, otherwise the factory of the first entry with that key |
| Facade.RestaurantTable | Lab3/src/domain/facades/FastFoodFacade.ts:18-21 | the table maps exactly "McDonalds" and "KFC" to their factories and lists them as "McDonalds, KFC" |
| Facade.PresetNames | Lab3/src/domain/facades/FastFoodFacade.ts:70-79 | exactly "vegan", "spicy" and "classic" select a preset; the chocolate recipe is unreachable |
| Facade.MealFacts | Lab3/src/domain/facades/FastFoodFacade.ts:91-104 | the burger comes first, one more item per size given; the price adds the fries table (Large 3.49, Regular 2.49, else 1.99) and the drink table |
| Facade.CustomFacts | Lab3/src/domain/facades/FastFoodFacade.ts:44-53 | a custom burger is the factory burger with ingredients = factory set ∪ extras, factory ones first, no repeats, same price |
| Facade.AddAll | Lab3/src/domain/facades/FastFoodFacade.ts:49-51 | the `forEach` adds every extra in order to the builder's burger and changes no other field |
| Facade.FastFoodFacade.constructor | Lab3/src/domain/facades/FastFoodFacade.ts:17-24 | the available restaurants are ["McDonalds", "KFC"] |
| Facade.FastFoodFacade.GetAvailableRestaurants | Lab3/src/domain/facades/FastFoodFacade.ts:126-128 | exactly ["McDonalds", "KFC"], in that order |
| Facade.FastFoodFacade.GetFactory | Lab3/src/domain/facades/FastFoodFacade.ts:130-138 | succeeds iff the name is "McDonalds" or "KFC", with that factory; otherwise throws "Restaurant \"<name>\" not found. Available: McDonalds, KFC" |
| Facade.FastFoodFacade.OrderStandardBurger | Lab3/src/domain/facades/FastFoodFacade.ts:30-35 | an unknown restaurant throws the lookup error; otherwise a fresh burger equal to the factory recipe |
| Facade.FastFoodFacade.OrderCustomBurger | Lab3/src/domain/facades/FastFoodFacade.ts:38-54 | an unknown restaurant throws; otherwise a fresh clone of the recipe with the extras added in order |
| Facade.FastFoodFacade.OrderPresetBurger | Lab3/src/domain/facades/FastFoodFacade.ts:58-80 | the restaurant is checked first; an unknown preset throws "Unknown preset type: <t>"; otherwise the preset on a default burger, whatever the restaurant |
| Facade.FastFoodFacade.CreateComboMeal | Lab3/src/domain/facades/FastFoodFacade.ts:83-107 | a fresh "Value Meal" holding the burger, then fries if a size is given, then a drink (Coke by default) if a size is given |
| Facade.FastFoodFacade.OrderQuickMeal | Lab3/src/domain/facades/FastFoodFacade.ts:110-124 | an unknown restaurant throws; otherwise the standard burger with Regular fries and a Medium drink, each only when its flag is set |
| Facade.QuickMealPrices | Lab3/src/domain/facades/FastFoodFacade.ts:110-124 | the full McDonald's quick meal costs 10.47; without fries and drink a meal is the burger alone |
| OrderDemo.ObservedOrder | Lab3/src/client/client.ts:216-232 | a new pending order with kitchen, customer, analytics and delivery observers attached in that order |
| OrderDemo.ObservedStep | Lab3/src/domain/models/Order.ts:30-37 | one successful transition moves the status and the single analytics observer receives exactly (new, old) |
| OrderDemo.LifecycleTraceCounts | Lab3/src/domain/observers/AnalyticsObserver.ts:10-20 | the four lifecycle notifications contain one into "Completed" |
| OrderDemo.ObservedLifecycle | Lab3/src/client/client.ts:239-255 | taking an observed order through its lifecycle ends Completed with metrics 4 transitions, 1 completed order |
| OrderDemo.PrepareWhilePending | Lab3/src/client/client.ts:149-160 | `prepare` on a new order throws "Cannot prepare a pending order. Please confirm the order first." and the order stays Pending |
| OrderDemo.PrepareAfterCompletion | Lab3/src/client/client.ts:124-145 | after the full lifecycle `prepare` throws "Order is already completed." and the order stays Completed |

## Left out

- Logging: `Logger` and every `info` call only write log lines and never affect results.
- Order id and creation time come from `Date.now` and `Math.random`. The id is a constructor parameter and the time is not modelled.
- Number-to-text conversion (`String(n)`, `toFixed(2)`) is a parameter. The model does not fix the digits.
- Prices are exact reals. IEEE-754 rounding and NaN are not modelled.
- `MealCombo.getItems` is left out. Its `structuredClone` of class instances drops their methods, and that has no Dafny counterpart.
- Menu items inside decorators, combos and orders are values. A burger edited after being wrapped or added to a combo keeps its earlier value in the model, whereas the source shares the object. `remove` compares by value, not by identity. Wrapping can never change the wrapped item. An order keeps its item as a value (`Orders.Order.item`), whereas the source keeps a reference and reads `this.item.getPrice()` on every call; so in the model an order's base and final price, and the item text in `getDetails`, are fixed when the order is created.
- The kitchen, customer and delivery observers are identities that receive notifications. Their log output, and their extraction of the order id from `getDetails()`, are not modelled.
- Observers calling back into the order is not modelled. Neither is attaching or detaching during `notifyObservers`.
- Lab1/src/domain/builders/BurgerBuilder.ts is not part of this model. The Lab1 factories apply `addMeat` and `addIngredient` directly to the burger's fields, as the Lab2 builder does.
- FirstBurgers.StandartBurger.Clone: `structuredClone` also drops the prototype, so the Lab1 clone is a plain object without methods. The model keeps only its fields.
- Type declarations with no behaviour are not modelled: `OrderState`, `OrderObserver`, `DiscountStrategy`, `MenuItem`, `Burger`, `FastFoodFactory`. Of `BurgerDecorator` only the `name` getter is kept, as `Menu.Name`.
- Facade.FastFoodFacade.OrderQuickMeal: both flags default to `true` in the source. In the model the caller always passes them.
- Facade.FastFoodFacade.OrderPresetBurger: the preset type is a plain string. TypeScript's union type does not stop untyped callers, so the throwing default branch is kept.
- Directors.PresetDescription: states the prefix and the ingredient suffix of the text, not the full text.
- Strategies.Describe: states the fixed parts of each description around the number text, which is a parameter.
- Orders.Order.GetDetails: states the head, the status tail and when the discount segment appears. The exact discount text is left to `Strategies.Describe`.
- Client demo scripts are not modelled beyond the order scenarios in `OrderDemo`. These are Lab0/src/index.ts and the Lab1–Lab3 client.ts files; their only behaviour is console output.

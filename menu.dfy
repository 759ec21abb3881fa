/** Menu items as values: a burger's fields, the three price-adding
    decorators, fries, drinks and meal combos (the `MenuItem` interface of
    Lab2/src/domain/models/MenuItem.ts and the classes implementing it). */
module Menu {
  import opened Common

  /** The fields of a burger (`name`, `price`, `meatType`, `cheeseSlices`,
      `ingredients`, `restaurantName`). `null` is `None`; the ingredient `Set`
      is a duplicate-free sequence in insertion order, the order in which the
      source lists it. */
  datatype BurgerData = BurgerData(
    name: Option<string>,
    price: Option<real>,
    meatType: Option<string>,
    cheeseSlices: int,
    ingredients: seq<string>,
    restaurantName: string)

  datatype MenuItem =
    | Burger(burger: BurgerData)
    | Bacon(wrapped: MenuItem)
    | Avocado(wrapped: MenuItem)
    | PremiumCheese(wrapped: MenuItem, cheeseType: string)
    | Fries(friesSize: string, friesPrice: real)
    | Drink(drinkType: string, drinkSize: string, drinkPrice: real)
    | Combo(comboName: string, items: seq<MenuItem>)

  const BaconPrice: real := 2.0
  const AvocadoPrice: real := 1.5
  const CheesePrice: real := 1.0

  /** StandartBurger `getPrice()`: `price || 0`. */
  function BurgerPrice(b: BurgerData): real
  {
    if b.price.Some? then b.price.value else 0.0
  }

  /** StandartBurger `getDescription()`: the name (or "Custom Burger"), the
      restaurant, the meat (or "(no meat)"), then the ingredients in insertion
      order when their joined text is not empty. */
  function BurgerDescription(b: BurgerData): string
  {
    var list := Join(b.ingredients, ", ");
    (if Truthy(b.name) then b.name.value else "Custom Burger") + " from " + b.restaurantName
    + (if Truthy(b.meatType) then " with " + b.meatType.value else " (no meat)")
    + (if list != "" then " - Ingredients: " + list else "")
  }

  /** The ingredient segment appears exactly when the burger has an
      ingredient other than a lone empty string. */
  lemma BurgerDescriptionShape(b: BurgerData)
    ensures IsPrefix((if Truthy(b.name) then b.name.value else "Custom Burger") + " from " + b.restaurantName,
                     BurgerDescription(b))
    ensures b.ingredients != [] && b.ingredients != [""] ==>
              IsSuffix(" - Ingredients: " + Join(b.ingredients, ", "), BurgerDescription(b))
    ensures b.ingredients == [] || b.ingredients == [""] ==>
              IsSuffix(if Truthy(b.meatType) then " with " + b.meatType.value else " (no meat)", BurgerDescription(b))
  {
    JoinIsEmpty(b.ingredients, ", ");
  }

  function Price(m: MenuItem): real
  {
    match m
    case Burger(b) => BurgerPrice(b)
    case Bacon(w) => Price(w) + BaconPrice
    case Avocado(w) => Price(w) + AvocadoPrice
    case PremiumCheese(w, _) => Price(w) + CheesePrice
    case Fries(_, p) => p
    case Drink(_, _, p) => p
    case Combo(_, items) => SumPrices(items)
  }

  /** MealCombo `getPrice()`: `reduce((total, item) => total + item.getPrice(), 0)`. */
  function SumPrices(items: seq<MenuItem>): real
  {
    if items == [] then 0.0 else SumPrices(items[..|items| - 1]) + Price(items[|items| - 1])
  }

  function Description(m: MenuItem): string
  {
    match m
    case Burger(b) => BurgerDescription(b)
    case Bacon(w) => Description(w) + ", +Extra Bacon"
    case Avocado(w) => Description(w) + ", +Fresh Avocado"
    case PremiumCheese(w, cheese) => Description(w) + ", +Premium " + cheese + " Cheese"
    case Fries(size, _) => size + " Fries"
    case Drink(drinkType, size, _) => size + " " + drinkType
    case Combo(name, items) =>
      if items == [] then name + " (empty)" else name + " [" + Join(Descriptions(items), ", ") + "]"
  }

  /** `items.map(item => item.getDescription())`. */
  function Descriptions(items: seq<MenuItem>): (ds: seq<string>)
    ensures |ds| == |items|
  {
    if items == [] then [] else Descriptions(items[..|items| - 1]) + [Description(items[|items| - 1])]
  }

  /** The `name` property; a decorator reports its wrapped item's name. */
  function Name(m: MenuItem): Option<string>
  {
    match m
    case Burger(b) => b.name
    case Bacon(w) => Name(w)
    case Avocado(w) => Name(w)
    case PremiumCheese(w, _) => Name(w)
    case Fries(_, _) => Some("Fries")
    case Drink(_, _, _) => Some("Drink")
    case Combo(name, _) => Some(name)
  }

  /** `new BaconDecorator(item)`. */
  function WithBacon(m: MenuItem): (r: MenuItem)
    ensures Price(r) == Price(m) + 2.0
    ensures Description(r) == Description(m) + ", +Extra Bacon"
    ensures Name(r) == Name(m)
  {
    Bacon(m)
  }

  /** `new AvocadoDecorator(item)`. */
  function WithAvocado(m: MenuItem): (r: MenuItem)
    ensures Price(r) == Price(m) + 1.5
    ensures Description(r) == Description(m) + ", +Fresh Avocado"
    ensures IsPrefix(Description(m), Description(r))
    ensures Name(r) == Name(m)
  {
    Avocado(m)
  }

  /** `new PremiumCheeseDecorator(item, cheeseType?)`, cheese "Cheddar" by default. */
  function WithPremiumCheese(m: MenuItem, cheeseType: Option<string>): (r: MenuItem)
    ensures Price(r) == Price(m) + 1.0
    ensures cheeseType.None? ==> Description(r) == Description(m) + ", +Premium Cheddar Cheese"
    ensures cheeseType.Some? ==> Description(r) == Description(m) + ", +Premium " + cheeseType.value + " Cheese"
    ensures Name(r) == Name(m)
  {
    PremiumCheese(m, if cheeseType.Some? then cheeseType.value else "Cheddar")
  }

  /** Bacon and avocado together add 3.50 in either order, but the order
      shows in the description. */
  lemma ToppingOrder(m: MenuItem)
    ensures Price(WithBacon(WithAvocado(m))) == Price(WithAvocado(WithBacon(m))) == Price(m) + 3.5
    ensures Description(WithBacon(WithAvocado(m))) != Description(WithAvocado(WithBacon(m)))
  {
    var d := Description(m);
    var n := |d|;
    assert Description(WithBacon(WithAvocado(m)))[n + 3] == 'F';
    assert Description(WithAvocado(WithBacon(m)))[n + 3] == 'E';
  }

  /** `new Fries(size?, price?)`: size "Regular" and price 2.49 by default; an
      explicit price, zero included, is kept. */
  function NewFries(size: Option<string>, price: Option<real>): (r: MenuItem)
    ensures Price(r) == if price.Some? then price.value else 2.49
    ensures Description(r) == (if size.Some? then size.value else "Regular") + " Fries"
    ensures Name(r) == Some("Fries")
  {
    Fries(if size.Some? then size.value else "Regular", if price.Some? then price.value else 2.49)
  }

  /** A drink's price by size when none is given. */
  function DrinkSizePrice(size: string): real
  {
    if size == "Large" then 2.49 else if size == "Medium" then 1.99 else 1.49
  }

  /** `new Drink(type?, size?, price?)`: "Coke" and "Medium" by default; a
      truthy price is used as given, otherwise the size decides it. */
  function NewDrink(drinkType: Option<string>, size: Option<string>, price: Option<real>): (r: MenuItem)
    ensures var s := if size.Some? then size.value else "Medium";
            && Description(r) == s + " " + (if drinkType.Some? then drinkType.value else "Coke")
            && Price(r) == (if TruthyNumber(price) then price.value else DrinkSizePrice(s))
    ensures Name(r) == Some("Drink")
  {
    var s := if size.Some? then size.value else "Medium";
    Drink(if drinkType.Some? then drinkType.value else "Coke", s,
          if TruthyNumber(price) then price.value else DrinkSizePrice(s))
  }

  /** An explicit zero price counts as missing; a missing one follows the
      size table. */
  lemma DrinkPriceDefaults(drinkType: Option<string>, size: Option<string>)
    ensures Price(NewDrink(drinkType, size, Some(0.0))) == Price(NewDrink(drinkType, size, None))
    ensures Price(NewDrink(drinkType, None, None)) == 1.99
    ensures Price(NewDrink(drinkType, Some("Large"), None)) == 2.49
    ensures Price(NewDrink(drinkType, Some("Small"), None)) == 1.49
  {
  }

  /** Every priced leaf of the item (burger, fries, drink) is non-negative. */
  predicate WellPriced(m: MenuItem)
  {
    match m
    case Burger(b) => 0.0 <= BurgerPrice(b)
    case Bacon(w) => WellPriced(w)
    case Avocado(w) => WellPriced(w)
    case PremiumCheese(w, _) => WellPriced(w)
    case Fries(_, p) => 0.0 <= p
    case Drink(_, _, p) => 0.0 <= p
    case Combo(_, items) => forall i | 0 <= i < |items| :: WellPriced(items[i])
  }

  /** Decorators only add and combos only sum, so an item built from
      non-negative prices has a non-negative price. */
  lemma {:induction false} PriceNonNegative(m: MenuItem)
    requires WellPriced(m)
    ensures 0.0 <= Price(m)
  {
    match m
    case Burger(_) =>
    case Bacon(w) => PriceNonNegative(w);
    case Avocado(w) => PriceNonNegative(w);
    case PremiumCheese(w, _) => PriceNonNegative(w);
    case Fries(_, _) =>
    case Drink(_, _, _) =>
    case Combo(_, items) => SumNonNegative(items);
  }

  lemma {:induction false} SumNonNegative(items: seq<MenuItem>)
    requires forall i | 0 <= i < |items| :: WellPriced(items[i])
    ensures 0.0 <= SumPrices(items)
  {
    if items != [] {
      SumNonNegative(items[..|items| - 1]);
      PriceNonNegative(items[|items| - 1]);
    }
  }

  /** Appending an item adds its price and its description at the end. */
  lemma SumAndDescriptionsSnoc(items: seq<MenuItem>, x: MenuItem)
    ensures SumPrices(items + [x]) == SumPrices(items) + Price(x)
    ensures Descriptions(items + [x]) == Descriptions(items) + [Description(x)]
  {
    assert (items + [x])[..|items|] == items;
  }

  /** Removing the item at position `i` takes exactly its price off the sum. */
  lemma {:induction false} SumRemoveAt(items: seq<MenuItem>, i: nat)
    requires i < |items|
    ensures SumPrices(items[..i] + items[i + 1..]) == SumPrices(items) - Price(items[i])
    decreases |items|
  {
    var n := |items| - 1;
    if i == n {
      assert items[..i] + items[i + 1..] == items[..n];
    } else {
      var front := items[..n];
      SumRemoveAt(front, i);
      CutBeforeLast(items, i);
      SumAndDescriptionsSnoc(front[..i] + front[i + 1..], items[n]);
    }
  }
}

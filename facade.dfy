/** The ordering facade (Lab3/src/domain/facades/FastFoodFacade.ts): a fixed
    restaurant-to-factory table and one-call workflows over the factories,
    the burger clone, the builder, the director and the meal combo. */
module Facade {
  import opened Common
  import opened Menu
  import opened Burgers
  import opened Builders
  import opened Directors
  import opened Factories
  import opened Combos

  /** The restaurant table, in insertion order. */
  const Restaurants: seq<(string, Factory)> := [("McDonalds", McDonaldsFactory), ("KFC", KFCFactory)]

  /** The keys of a table, in order (`Array.from(map.keys())`). */
  function Keys(entries: seq<(string, Factory)>): (ks: seq<string>)
    ensures |ks| == |entries|
    ensures forall i | 0 <= i < |entries| :: ks[i] == entries[i].0
  {
    if entries == [] then [] else [entries[0].0] + Keys(entries[1..])
  }

  /** `map.get(key)`: the factory of the first entry with that key. */
  function Lookup(entries: seq<(string, Factory)>, key: string): (r: Option<Factory>)
    ensures r.None? <==> key !in Keys(entries)
    ensures r.Some? ==> exists i | 0 <= i < |entries| ::
                          entries[i] == (key, r.value) && forall j | 0 <= j < i :: entries[j].0 != key
  {
    if entries == [] then None
    else if entries[0].0 == key then Some(entries[0].1)
    else
      var r := Lookup(entries[1..], key);
      if r.Some? then
        var i :| 0 <= i < |entries[1..]| && entries[1..][i] == (key, r.value)
                 && forall j | 0 <= j < i :: entries[1..][j].0 != key;
        assert entries[i + 1] == (key, r.value);
        assert forall j | 0 <= j < i + 1 :: entries[j].0 != key by {
          forall j | 0 <= j < i + 1 ensures entries[j].0 != key {
            if j > 0 {
              assert entries[j] == entries[1..][j - 1];
            }
          }
        }
        r
      else
        r
  }

  /** The fixed table finds exactly its two restaurants, and lists them as
      "McDonalds, KFC". */
  lemma RestaurantTable(restaurant: string)
    ensures Lookup(Restaurants, restaurant)
            == if restaurant == "McDonalds" then Some(McDonaldsFactory)
               else if restaurant == "KFC" then Some(KFCFactory)
               else None
    ensures Join(Keys(Restaurants), ", ") == "McDonalds, KFC"
  {
    assert Keys(Restaurants) == ["McDonalds"] + ["KFC"];
    JoinSnoc(["McDonalds"], "KFC", ", ");
  }

  /** The preset names the facade's switch accepts. */
  function PresetNamed(presetType: string): Option<Preset>
  {
    if presetType == "vegan" then Some(Vegan)
    else if presetType == "spicy" then Some(Spicy)
    else if presetType == "classic" then Some(Classic)
    else None
  }

  /** Exactly "vegan", "spicy" and "classic" name a preset; the director's
      chocolate recipe is not reachable through the facade. */
  lemma PresetNames(presetType: string)
    ensures PresetNamed(presetType).Some? <==> presetType in ["vegan", "spicy", "classic"]
    ensures PresetNamed(presetType) != Some(Chocolate)
  {
  }

  /** The fries price `createComboMeal` picks by size. */
  function FriesSizePrice(size: string): real
  {
    if size == "Large" then 3.49 else if size == "Regular" then 2.49 else 1.99
  }

  /** The fries `createComboMeal` adds: Regular-priced by the size table,
      and none without a size. */
  function FriesPart(friesSize: Option<string>): seq<MenuItem>
  {
    if Truthy(friesSize) then [NewFries(friesSize, Some(FriesSizePrice(friesSize.value)))] else []
  }

  /** The drink `createComboMeal` adds: a Coke unless a type is given, and
      none without a size. */
  function DrinkPart(drinkSize: Option<string>, drinkType: Option<string>): seq<MenuItem>
  {
    if Truthy(drinkSize) then [NewDrink(Some(if Truthy(drinkType) then drinkType.value else "Coke"), drinkSize, None)] else []
  }

  /** The items of `createComboMeal(burger, friesSize?, drinkSize?, drinkType?)`:
      the burger, then fries if a size is given, then a drink if a size is
      given. */
  function MealItems(burger: MenuItem, friesSize: Option<string>, drinkSize: Option<string>, drinkType: Option<string>): seq<MenuItem>
  {
    [burger] + FriesPart(friesSize) + DrinkPart(drinkSize, drinkType)
  }

  /** A meal holds the burger first and one more item per size given; its
      price is the burger's plus the size-table prices of fries and drink. */
  lemma MealFacts(burger: MenuItem, friesSize: Option<string>, drinkSize: Option<string>, drinkType: Option<string>)
    ensures var items := MealItems(burger, friesSize, drinkSize, drinkType);
            && |items| == 1 + (if Truthy(friesSize) then 1 else 0) + (if Truthy(drinkSize) then 1 else 0)
            && items[0] == burger
            && SumPrices(items)
               == Price(burger)
                  + (if Truthy(friesSize) then FriesSizePrice(friesSize.value) else 0.0)
                  + (if Truthy(drinkSize) then DrinkSizePrice(drinkSize.value) else 0.0)
  {
    var fries := FriesPart(friesSize);
    var drink := DrinkPart(drinkSize, drinkType);
    assert SumPrices([burger]) == Price(burger) by {
      SumAndDescriptionsSnoc([], burger);
    }
    if Truthy(friesSize) {
      SumAndDescriptionsSnoc([burger], fries[0]);
    }
    if Truthy(drinkSize) {
      SumAndDescriptionsSnoc([burger] + fries, drink[0]);
    }
  }

  /** The ingredients of `orderCustomBurger(restaurant, extras)`: the
      factory's, then each new extra in order. */
  function CustomData(f: Factory, extras: seq<string>): BurgerData
  {
    Recipe(f).(ingredients := SetAddAll(Recipe(f).ingredients, extras))
  }

  /** A custom burger is the factory burger with the union of the factory's
      ingredients and the extras, the factory's first, none repeated. */
  lemma CustomFacts(f: Factory, extras: seq<string>)
    ensures var d := CustomData(f, extras);
            && d.(ingredients := Recipe(f).ingredients) == Recipe(f)
            && Elems(d.ingredients) == Elems(Recipe(f).ingredients) + Elems(extras)
            && NoDup(d.ingredients)
            && |Recipe(f).ingredients| <= |d.ingredients|
            && d.ingredients[..|Recipe(f).ingredients|] == Recipe(f).ingredients
            && BurgerPrice(d) == BurgerPrice(Recipe(f))
  {
    RecipeFacts(f);
    SetAddAllUnion(Recipe(f).ingredients, extras);
    SetAddAllPrefix(Recipe(f).ingredients, extras);
  }

  /** `extras.forEach(x => builder.addIngredient(x))`. */
  method AddAll(builder: BurgerBuilder, extras: seq<string>)
    requires builder.Valid()
    modifies builder.burger
    ensures builder.Valid()
    ensures builder.burger.Data()
            == old(builder.burger.Data()).(ingredients := SetAddAll(old(builder.burger.ingredients), extras))
  {
    var burger := builder.burger;
    ghost var start := burger.Data();
    var i := 0;
    while i < |extras|
      invariant 0 <= i <= |extras|
      invariant builder.burger == burger && NoDup(burger.ingredients)
      invariant burger.ingredients == SetAddAll(start.ingredients, extras[..i])
      invariant burger.name == start.name && burger.price == start.price && burger.meatType == start.meatType
      invariant burger.cheeseSlices == start.cheeseSlices && burger.restaurantName == start.restaurantName
    {
      SetAddAllStep(start.ingredients, extras, i);
      var s := builder.AddIngredient(extras[i]);
      i := i + 1;
    }
    assert extras[..i] == extras;
  }

  class FastFoodFacade {
    /** The restaurant-to-factory map, fixed at construction. */
    const factories: seq<(string, Factory)> := Restaurants

    constructor ()
      ensures GetAvailableRestaurants() == ["McDonalds", "KFC"]
    {
    }

    /** `getAvailableRestaurants()`. */
    function GetAvailableRestaurants(): (names: seq<string>)
      reads this
      ensures names == ["McDonalds", "KFC"]
    {
      Keys(factories)
    }

    /** `getFactory(restaurant)`: the table entry, or the not-found error
        listing the available restaurants. */
    function GetFactory(restaurant: string): (r: Result<Factory>)
      reads this
      ensures r.Ok? <==> restaurant == "McDonalds" || restaurant == "KFC"
      ensures restaurant == "McDonalds" ==> r == Ok(McDonaldsFactory)
      ensures restaurant == "KFC" ==> r == Ok(KFCFactory)
      ensures r.Err? ==> r.message == "Restaurant \"" + restaurant + "\" not found. Available: " + "McDonalds, KFC"
    {
      RestaurantTable(restaurant);
      match Lookup(factories, restaurant)
      case Some(f) => Ok(f)
      case None => Err("Restaurant \"" + restaurant + "\" not found. Available: " + Join(GetAvailableRestaurants(), ", "))
    }

    /** `orderStandardBurger(restaurant)`: a new factory burger. */
    method OrderStandardBurger(restaurant: string) returns (r: Result<StandartBurger>)
      ensures GetFactory(restaurant).Err? ==> r == Err(GetFactory(restaurant).message)
      ensures GetFactory(restaurant).Ok? ==>
                r.Ok? && fresh(r.value) && r.value.Valid() && r.value.Data() == Recipe(GetFactory(restaurant).value)
    {
      var factory := GetFactory(restaurant);
      if factory.Err? {
        return Err(factory.message);
      }
      var b := CreateBurger(factory.value);
      r := Ok(b);
    }

    /** `orderCustomBurger(restaurant, extras)`: the factory burger is cloned
        and each extra is added to the clone in turn. */
    method OrderCustomBurger(restaurant: string, extras: seq<string>) returns (r: Result<StandartBurger>)
      ensures GetFactory(restaurant).Err? ==> r == Err(GetFactory(restaurant).message)
      ensures GetFactory(restaurant).Ok? ==>
                r.Ok? && fresh(r.value) && r.value.Valid() && r.value.Data() == CustomData(GetFactory(restaurant).value, extras)
    {
      var factory := GetFactory(restaurant);
      if factory.Err? {
        return Err(factory.message);
      }
      var f := factory.value;
      var baseBurger := CreateBurger(f);
      var cloned := baseBurger.Clone();
      RecipeFacts(f);
      var builder := new BurgerBuilder(Some(cloned));
      AddAll(builder, extras);
      var b := builder.Build();
      r := Ok(b);
    }

    /** `orderPresetBurger(restaurant, presetType)`: the restaurant is looked
        up first; the director then resets the builder, so the result is the
        preset on a default burger whatever the restaurant. */
    method OrderPresetBurger(restaurant: string, presetType: string) returns (r: Result<StandartBurger>)
      ensures GetFactory(restaurant).Err? ==> r == Err(GetFactory(restaurant).message)
      ensures GetFactory(restaurant).Ok? && PresetNamed(presetType).None? ==>
                r == Err("Unknown preset type: " + presetType)
      ensures GetFactory(restaurant).Ok? && PresetNamed(presetType).Some? ==>
                r.Ok? && fresh(r.value) && r.value.Valid() && r.value.Data() == PresetData(PresetNamed(presetType).value)
    {
      var factory := GetFactory(restaurant);
      if factory.Err? {
        return Err(factory.message);
      }
      var baseBurger := CreateBurger(factory.value);
      var cloned := baseBurger.Clone();
      var builder := new BurgerBuilder(Some(cloned));
      var director := new BurgerDirector(builder);
      var b: StandartBurger;
      if presetType == "vegan" {
        b := director.CreateVeganBurger();
      } else if presetType == "spicy" {
        b := director.CreateSpicyBurger();
      } else if presetType == "classic" {
        b := director.CreateClassicBurger();
      } else {
        return Err("Unknown preset type: " + presetType);
      }
      r := Ok(b);
    }

    /** `createComboMeal(burger, friesSize?, drinkSize?, drinkType?)`. */
    method CreateComboMeal(burger: MenuItem, friesSize: Option<string>, drinkSize: Option<string>, drinkType: Option<string>)
      returns (combo: MealCombo)
      ensures fresh(combo) && combo.name == "Value Meal"
      ensures combo.items == MealItems(burger, friesSize, drinkSize, drinkType)
    {
      combo := new MealCombo("Value Meal");
      combo.Add(burger);
      if Truthy(friesSize) {
        var friesPrice := FriesSizePrice(friesSize.value);
        combo.Add(NewFries(friesSize, Some(friesPrice)));
      }
      assert combo.items == [burger] + FriesPart(friesSize);
      if Truthy(drinkSize) {
        combo.Add(NewDrink(Some(if Truthy(drinkType) then drinkType.value else "Coke"), drinkSize, None));
      }
    }

    /** `orderQuickMeal(restaurant, includeFries, includeDrink)`: the standard
        burger with Regular fries and a Medium drink, each only if asked for. */
    method OrderQuickMeal(restaurant: string, includeFries: bool, includeDrink: bool) returns (r: Result<MealCombo>)
      ensures GetFactory(restaurant).Err? ==> r == Err(GetFactory(restaurant).message)
      ensures GetFactory(restaurant).Ok? ==>
                && r.Ok? && fresh(r.value) && r.value.name == "Value Meal"
                && r.value.items == MealItems(Burger(Recipe(GetFactory(restaurant).value)),
                                              if includeFries then Some("Regular") else None,
                                              if includeDrink then Some("Medium") else None,
                                              None)
    {
      var burger := OrderStandardBurger(restaurant);
      if burger.Err? {
        return Err(burger.message);
      }
      var combo := CreateComboMeal(burger.value.AsItem(),
                                   if includeFries then Some("Regular") else None,
                                   if includeDrink then Some("Medium") else None,
                                   None);
      r := Ok(combo);
    }
  }

  /** The quick McDonald's meal costs 5.99 + 2.49 + 1.99, and without fries
      and drink it is the burger alone. */
  lemma QuickMealPrices()
    ensures SumPrices(MealItems(Burger(Recipe(McDonaldsFactory)), Some("Regular"), Some("Medium"), None)) == 10.47
    ensures |MealItems(Burger(Recipe(KFCFactory)), None, None, None)| == 1
  {
    MealFacts(Burger(Recipe(McDonaldsFactory)), Some("Regular"), Some("Medium"), None);
  }
}

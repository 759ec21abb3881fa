/** The Lab3 burger (Lab3/src/domain/models/StandartBurger.ts): an object with
    public fields that the builder edits in place, a defaulting constructor
    and a `clone` that goes back through that constructor. */
module Burgers {
  import opened Common
  import opened Menu

  /** The price a new burger gets when none (or 0) is given. */
  const DefaultBurgerPrice: real := 5.99

  /** The fields `new StandartBurger(name?, restaurantName?, price?)` sets:
      every argument goes through `||`, so an empty name, an empty restaurant
      and a zero price all count as missing. */
  function NewBurgerData(name: Option<string>, restaurantName: Option<string>, price: Option<real>): BurgerData
  {
    BurgerData(
      if Truthy(name) then name else None,
      if TruthyNumber(price) then price else Some(DefaultBurgerPrice),
      None,
      0,
      [],
      if Truthy(restaurantName) then restaurantName.value else "")
  }

  /** A new burger has a price, 5.99 unless a non-zero one was given, no meat,
      no cheese and no ingredients, and its description is name (or "Custom
      Burger"), restaurant and "(no meat)". */
  lemma NewBurgerDefaults(name: Option<string>, restaurantName: Option<string>, price: Option<real>)
    ensures var d := NewBurgerData(name, restaurantName, price);
            && d.price.Some?
            && BurgerPrice(d) == (if price.Some? && price.value != 0.0 then price.value else 5.99)
            && d.meatType == None && d.cheeseSlices == 0 && d.ingredients == []
            && BurgerDescription(d)
               == (if name.Some? && name.value != "" then name.value else "Custom Burger")
                  + " from " + (if restaurantName.Some? then restaurantName.value else "") + " (no meat)"
  {
  }

  /** The fields of `clone()`: name, restaurant and price are passed back
      through the constructor (so a price of 0 or null becomes 5.99), then
      meat, cheese and a copy of the ingredient set are assigned. */
  function CloneData(d: BurgerData): BurgerData
  {
    NewBurgerData(if Truthy(d.name) then d.name else None,
                  Some(d.restaurantName),
                  if TruthyNumber(d.price) then d.price else None)
      .(meatType := d.meatType, cheeseSlices := d.cheeseSlices, ingredients := d.ingredients)
  }

  /** A clone keeps meat, cheese, ingredients, restaurant and description; its
      price is the original's unless that was 0, in which case it is 5.99. */
  lemma CloneKeeps(d: BurgerData)
    ensures var c := CloneData(d);
            && c.meatType == d.meatType && c.cheeseSlices == d.cheeseSlices
            && c.ingredients == d.ingredients && c.restaurantName == d.restaurantName
            && BurgerDescription(c) == BurgerDescription(d)
            && BurgerPrice(c) == (if BurgerPrice(d) != 0.0 then BurgerPrice(d) else DefaultBurgerPrice)
  {
  }

  /** A burger whose name is absent or non-empty and whose price is non-zero
      (every burger the constructor makes) is cloned to an equal value. */
  lemma CloneExact(d: BurgerData)
    requires d.name.None? || d.name.value != ""
    requires d.price.Some? && d.price.value != 0.0
    ensures CloneData(d) == d
  {
  }

  /** A burger made by the constructor satisfies `CloneExact`'s condition. */
  lemma NewBurgerClonesExactly(name: Option<string>, restaurantName: Option<string>, price: Option<real>)
    ensures CloneData(NewBurgerData(name, restaurantName, price)) == NewBurgerData(name, restaurantName, price)
  {
    CloneExact(NewBurgerData(name, restaurantName, price));
  }

  class StandartBurger {
    var name: Option<string>
    var price: Option<real>
    var meatType: Option<string>
    var cheeseSlices: int
    /** The ingredient `Set`, in insertion order. */
    var ingredients: seq<string>
    var restaurantName: string

    ghost predicate Valid()
      reads this
    {
      NoDup(ingredients)
    }

    /** The burger's current fields as a value. */
    function Data(): BurgerData
      reads this
    {
      BurgerData(name, price, meatType, cheeseSlices, ingredients, restaurantName)
    }

    /** The burger as a menu item. */
    function AsItem(): MenuItem
      reads this
    {
      Burger(Data())
    }

    constructor (name: Option<string>, restaurantName: Option<string>, price: Option<real>)
      ensures Valid() && Data() == NewBurgerData(name, restaurantName, price)
    {
      this.name := if Truthy(name) then name else None;
      this.restaurantName := if Truthy(restaurantName) then restaurantName.value else "";
      this.price := if TruthyNumber(price) then price else Some(DefaultBurgerPrice);
      meatType := None;
      cheeseSlices := 0;
      ingredients := [];
    }

    /** `getPrice()`. */
    function GetPrice(): real
      reads this
    {
      Price(AsItem())
    }

    /** `getDescription()`. */
    function GetDescription(): string
      reads this
    {
      Description(AsItem())
    }

    /** `clone()`: a new object; editing it leaves this one as it was. */
    method Clone() returns (c: StandartBurger)
      requires Valid()
      ensures fresh(c) && c.Valid() && c.Data() == CloneData(Data())
    {
      c := new StandartBurger(if Truthy(name) then name else None, Some(restaurantName),
                              if TruthyNumber(price) then price else None);
      c.meatType := meatType;
      c.cheeseSlices := cheeseSlices;
      c.ingredients := ingredients;
    }
  }
}

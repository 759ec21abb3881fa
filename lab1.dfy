/** The first version of the burger and its factories
    (Lab1/src/domain/models/StandartBurger.ts, Lab1/src/domain/factories):
    no price argument, so a burger's price stays at its initial 0, and a
    `clone` that deep-copies the object. */
module FirstBurgers {
  import opened Common
  import opened Menu

  /** The fields `new StandartBurger(name?, restaurantName?)` sets. */
  function NewFirstBurgerData(name: Option<string>, restaurantName: Option<string>): BurgerData
  {
    BurgerData(if Truthy(name) then name else None, Some(0.0), None, 0, [],
               if Truthy(restaurantName) then restaurantName.value else "")
  }

  class StandartBurger {
    var name: Option<string>
    var price: Option<real>
    var meatType: Option<string>
    var cheeseSlices: int
    var ingredients: seq<string>
    var restaurantName: string

    ghost predicate Valid()
      reads this
    {
      NoDup(ingredients)
    }

    function Data(): BurgerData
      reads this
    {
      BurgerData(name, price, meatType, cheeseSlices, ingredients, restaurantName)
    }

    /** Name null when missing or empty, restaurant '' when missing, price 0
        (never assigned), no meat, no cheese, no ingredients. */
    constructor (name: Option<string>, restaurantName: Option<string>)
      ensures Valid() && Data() == NewFirstBurgerData(name, restaurantName)
      ensures this.price == Some(0.0) && meatType == None && cheeseSlices == 0 && ingredients == []
    {
      this.name := if Truthy(name) then name else None;
      this.restaurantName := if Truthy(restaurantName) then restaurantName.value else "";
      price := Some(0.0);
      meatType := None;
      cheeseSlices := 0;
      ingredients := [];
    }

    /** `clone()` by `structuredClone`: a new object with equal fields and its
        own copy of the ingredient set. */
    method Clone() returns (c: StandartBurger)
      requires Valid()
      ensures fresh(c) && c.Valid() && c.Data() == Data()
    {
      c := new StandartBurger(None, None);
      c.name := name;
      c.price := price;
      c.meatType := meatType;
      c.cheeseSlices := cheeseSlices;
      c.ingredients := ingredients;
      c.restaurantName := restaurantName;
    }
  }

  /** The price the first burgers carry: the initial 0 is never replaced. */
  lemma FirstBurgerFree(name: Option<string>, restaurantName: Option<string>)
    ensures BurgerPrice(NewFirstBurgerData(name, restaurantName)) == 0.0
    ensures NewFirstBurgerData(name, restaurantName).ingredients == []
  {
  }

  /** Lab1 McDonaldsFactory `createBurger()`: "Beef" and five insertions of
      the same ingredient. The builder steps act on the burger's fields as
      `BurgerBuilder.addMeat`/`addIngredient` do. */
  method CreateFirstMcDonaldsBurger() returns (b: StandartBurger)
    ensures fresh(b) && b.Valid()
    ensures b.Data() == NewFirstBurgerData(Some("BigMac"), Some("McDonalds")).(meatType := Some("Beef"), ingredients := ["letuce"])
    ensures |b.ingredients| == 1
  {
    b := new StandartBurger(Some("BigMac"), Some("McDonalds"));
    b.meatType := Some("Beef");
    b.ingredients := SetAdd(b.ingredients, "letuce");
    b.ingredients := SetAdd(b.ingredients, "letuce");
    b.ingredients := SetAdd(b.ingredients, "letuce");
    b.ingredients := SetAdd(b.ingredients, "letuce");
    b.ingredients := SetAdd(b.ingredients, "letuce");
  }

  /** Lab1 KFCFactory `createBurger()`. */
  method CreateFirstKFCBurger() returns (b: StandartBurger)
    ensures fresh(b) && b.Valid()
    ensures b.Data() == NewFirstBurgerData(Some("BigKFC"), Some("KFC")).(meatType := Some("Beef"), ingredients := ["unique KFC sauce"])
  {
    b := new StandartBurger(Some("BigKFC"), Some("KFC"));
    b.meatType := Some("Beef");
    b.ingredients := SetAdd(b.ingredients, "unique KFC sauce");
  }
}

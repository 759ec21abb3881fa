/** The restaurant factories the facade uses: McDonald's
    (Lab3/src/domain/factories/McDonaldsFactory.ts) and KFC
    (Lab2/src/domain/factories/KFCFactory.ts). Each builds its standard
    burger through a builder holding a new burger. */
module Factories {
  import opened Common
  import opened Menu
  import opened Burgers
  import opened Builders

  datatype Factory = McDonaldsFactory | KFCFactory

  /** The standard burger of each restaurant. */
  function Recipe(f: Factory): BurgerData
  {
    match f
    case McDonaldsFactory =>
      NewBurgerData(Some("BigMac"), Some("McDonalds"), Some(5.99)).(
        meatType := Some("Beef"),
        ingredients := ["lettuce", "special sauce", "pickles", "onions", "sesame seed bun"])
    case KFCFactory =>
      NewBurgerData(Some("Zinger Burger"), Some("KFC"), Some(6.49)).(
        meatType := Some("Crispy Chicken"),
        ingredients := ["unique KFC sauce", "lettuce", "mayo"])
  }

  /** Both recipes name the burger, its restaurant and its meat, have no
      repeated ingredient and a non-zero price, so cloning them is exact. */
  lemma RecipeFacts(f: Factory)
    ensures var d := Recipe(f);
            && d.name.Some? && d.meatType.Some? && NoDup(d.ingredients)
            && BurgerPrice(d) == (if f == McDonaldsFactory then 5.99 else 6.49)
            && d.restaurantName == (if f == McDonaldsFactory then "McDonalds" else "KFC")
            && |d.ingredients| == (if f == McDonaldsFactory then 5 else 3)
            && CloneData(d) == d
  {
    CloneExact(Recipe(f));
  }

  /** `createBurger()`: a new burger object each call. */
  method CreateBurger(f: Factory) returns (b: StandartBurger)
    ensures fresh(b) && b.Valid() && b.Data() == Recipe(f)
  {
    match f
    case McDonaldsFactory => b := CreateMcDonaldsBurger();
    case KFCFactory => b := CreateKFCBurger();
  }

  /** McDonaldsFactory `createBurger()`: "Beef", then the five ingredients in
      recipe order. */
  method CreateMcDonaldsBurger() returns (b: StandartBurger)
    ensures fresh(b) && b.Valid() && b.Data() == Recipe(McDonaldsFactory)
  {
    var burger := new StandartBurger(Some("BigMac"), Some("McDonalds"), Some(5.99));
    var builder := new BurgerBuilder(Some(burger));
    var xs := Recipe(McDonaldsFactory).ingredients;
    RecipeFacts(McDonaldsFactory);
    var s := builder.AddMeat("Beef");
    AddNextIngredient(builder, xs, 0);
    AddNextIngredient(builder, xs, 1);
    AddNextIngredient(builder, xs, 2);
    AddNextIngredient(builder, xs, 3);
    AddNextIngredient(builder, xs, 4);
    assert xs[..5] == xs;
    b := builder.Build();
  }

  /** KFCFactory `createBurger()`: "Crispy Chicken", then the three
      ingredients in recipe order. */
  method CreateKFCBurger() returns (b: StandartBurger)
    ensures fresh(b) && b.Valid() && b.Data() == Recipe(KFCFactory)
  {
    var burger := new StandartBurger(Some("Zinger Burger"), Some("KFC"), Some(6.49));
    var builder := new BurgerBuilder(Some(burger));
    var xs := Recipe(KFCFactory).ingredients;
    RecipeFacts(KFCFactory);
    var s := builder.AddMeat("Crispy Chicken");
    AddNextIngredient(builder, xs, 0);
    AddNextIngredient(builder, xs, 1);
    AddNextIngredient(builder, xs, 2);
    assert xs[..3] == xs;
    b := builder.Build();
  }
}

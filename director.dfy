/** The burger director (Lab3/src/domain/directors/BurgerDirector.ts): four
    preset recipes, each a `reset` followed by builder steps. */
module Directors {
  import opened Common
  import opened Menu
  import opened Burgers
  import opened Builders

  datatype Preset = Vegan | Chocolate | Spicy | Classic

  /** Each recipe's ingredients, in the order it adds them. */
  function PresetIngredients(p: Preset): seq<string>
  {
    match p
    case Vegan => ["salad", "tomatoes"]
    case Chocolate => ["salad", "tomatoes", "chocolate"]
    case Spicy => ["jalapeños", "hot sauce", "pepper jack cheese"]
    case Classic => ["lettuce", "tomato", "onion", "pickles"]
  }

  /** Each recipe's meat; the vegan one removes it. */
  function PresetMeat(p: Preset): Option<string>
  {
    match p
    case Vegan => None
    case Chocolate => Some("rabbit")
    case Spicy => Some("beef")
    case Classic => Some("beef")
  }

  /** What a recipe yields: a default burger with the recipe's ingredients and meat. */
  function PresetData(p: Preset): BurgerData
  {
    DefaultBurger().(ingredients := PresetIngredients(p), meatType := PresetMeat(p))
  }

  /** No recipe repeats an ingredient. */
  lemma PresetNoDup(p: Preset)
    ensures NoDup(PresetIngredients(p))
  {
  }

  /** Every preset is a nameless burger with no restaurant at the default
      price, and only the vegan one has no meat. */
  lemma PresetFacts(p: Preset)
    ensures var d := PresetData(p);
            && d.name == None && d.restaurantName == "" && BurgerPrice(d) == 5.99
            && |d.ingredients| == |PresetIngredients(p)| >= 2
            && (d.meatType.None? <==> p == Vegan)
  {
  }

  /** A preset's description names no burger and no restaurant and ends
      with the recipe's ingredients. */
  lemma PresetDescription(p: Preset)
    ensures var text := BurgerDescription(PresetData(p));
            && IsPrefix("Custom Burger from ", text)
            && IsSuffix(" - Ingredients: " + Join(PresetIngredients(p), ", "), text)
  {
    var d := PresetData(p);
    BurgerDescriptionShape(d);
    assert |d.ingredients| >= 2;
    assert !Truthy(d.name) && d.restaurantName == "";
    assert "Custom Burger" + " from " + "" == "Custom Burger from ";
  }


  /** The classic preset's ingredients joined as the description shows them. */
  lemma ClassicIngredientList()
    ensures Join(PresetIngredients(Classic), ", ") == "lettuce, tomato, onion, pickles"
  {
    var a := ["lettuce", "tomato"];
    var b := a + ["onion"];
    assert Join(a, ", ") == "lettuce, tomato" by { JoinSnoc(["lettuce"], "tomato", ", "); }
    assert Join(b, ", ") == "lettuce, tomato, onion" by { JoinSnoc(a, "onion", ", "); }
    assert PresetIngredients(Classic) == b + ["pickles"];
    JoinSnoc(b, "pickles", ", ");
  }

  class BurgerDirector {
    const builder: BurgerBuilder

    constructor (builder: BurgerBuilder)
      ensures this.builder == builder
    {
      this.builder := builder;
    }

    /** `createVeganBurger()`. */
    method CreateVeganBurger() returns (b: StandartBurger)
      modifies builder
      ensures fresh(b) && b == builder.burger && builder.Valid()
      ensures b.Data() == PresetData(Vegan)
      ensures unchanged(old(builder.burger))
    {
      var s := builder.Reset();
      var xs := PresetIngredients(Vegan);
      PresetNoDup(Vegan);
      AddNextIngredient(builder, xs, 0);
      AddNextIngredient(builder, xs, 1);
      assert xs[..2] == xs;
      s := builder.RemoveMeat();
      b := builder.Build();
    }

    /** `createChocolateBurger()`. */
    method CreateChocolateBurger() returns (b: StandartBurger)
      modifies builder
      ensures fresh(b) && b == builder.burger && builder.Valid()
      ensures b.Data() == PresetData(Chocolate)
      ensures unchanged(old(builder.burger))
    {
      var s := builder.Reset();
      var xs := PresetIngredients(Chocolate);
      PresetNoDup(Chocolate);
      AddNextIngredient(builder, xs, 0);
      AddNextIngredient(builder, xs, 1);
      AddNextIngredient(builder, xs, 2);
      assert xs[..3] == xs;
      s := builder.AddMeat("rabbit");
      b := builder.Build();
    }

    /** `createSpicyBurger()`. */
    method CreateSpicyBurger() returns (b: StandartBurger)
      modifies builder
      ensures fresh(b) && b == builder.burger && builder.Valid()
      ensures b.Data() == PresetData(Spicy)
      ensures unchanged(old(builder.burger))
    {
      var s := builder.Reset();
      var xs := PresetIngredients(Spicy);
      PresetNoDup(Spicy);
      AddNextIngredient(builder, xs, 0);
      AddNextIngredient(builder, xs, 1);
      AddNextIngredient(builder, xs, 2);
      assert xs[..3] == xs;
      s := builder.AddMeat("beef");
      b := builder.Build();
    }

    /** `createClassicBurger()`. */
    method CreateClassicBurger() returns (b: StandartBurger)
      modifies builder
      ensures fresh(b) && b == builder.burger && builder.Valid()
      ensures b.Data() == PresetData(Classic)
      ensures unchanged(old(builder.burger))
    {
      var s := builder.Reset();
      var xs := PresetIngredients(Classic);
      PresetNoDup(Classic);
      AddNextIngredient(builder, xs, 0);
      AddNextIngredient(builder, xs, 1);
      AddNextIngredient(builder, xs, 2);
      AddNextIngredient(builder, xs, 3);
      assert xs[..4] == xs;
      s := builder.AddMeat("beef");
      b := builder.Build();
    }
  }
}

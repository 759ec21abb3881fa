/** The burger builder (Lab2/src/domain/builders/BurgerBuilder.ts): it holds
    one burger object and edits it in place; every step returns the builder. */
module Builders {
  import opened Common
  import opened Menu
  import opened Burgers

  /** The burger `new StandartBurger()` makes: no name, no restaurant, 5.99. */
  function DefaultBurger(): BurgerData
  {
    NewBurgerData(None, None, None)
  }

  class BurgerBuilder {
    var burger: StandartBurger

    ghost predicate Valid()
      reads this, burger
    {
      burger.Valid()
    }

    /** `new BurgerBuilder(burger?)`: the given burger itself, or a new default one. */
    constructor (b: Option<StandartBurger>)
      requires b.Some? ==> b.value.Valid()
      ensures Valid()
      ensures b.Some? ==> burger == b.value
      ensures b.None? ==> fresh(burger) && burger.Data() == DefaultBurger()
    {
      if b.Some? {
        burger := b.value;
      } else {
        burger := new StandartBurger(None, None, None);
      }
    }

    /** `reset()`: a new default burger; the previous object is left as it was. */
    method Reset() returns (self: BurgerBuilder)
      modifies this
      ensures self == this && Valid()
      ensures fresh(burger) && burger.Data() == DefaultBurger()
      ensures unchanged(old(burger))
    {
      burger := new StandartBurger(None, None, None);
      self := this;
    }

    /** `addMeat(type)`: sets the meat only. */
    method AddMeat(meat: string) returns (self: BurgerBuilder)
      requires Valid()
      modifies burger
      ensures self == this && Valid()
      ensures burger.Data() == old(burger.Data()).(meatType := Some(meat))
    {
      burger.meatType := Some(meat);
      self := this;
    }

    /** `removeMeat()`: clears the meat only. */
    method RemoveMeat() returns (self: BurgerBuilder)
      requires Valid()
      modifies burger
      ensures self == this && Valid()
      ensures burger.Data() == old(burger.Data()).(meatType := None)
    {
      burger.meatType := None;
      self := this;
    }

    /** `addIngredient(x)`: set insertion, a no-op when already present. */
    method AddIngredient(ingredient: string) returns (self: BurgerBuilder)
      requires Valid()
      modifies burger
      ensures self == this && Valid()
      ensures burger.Data() == old(burger.Data()).(ingredients := SetAdd(old(burger.ingredients), ingredient))
    {
      burger.ingredients := SetAdd(burger.ingredients, ingredient);
      self := this;
    }

    /** `removeIngredient(x)`: set deletion, a no-op when absent. */
    method RemoveIngredient(ingredient: string) returns (self: BurgerBuilder)
      requires Valid()
      modifies burger
      ensures self == this && Valid()
      ensures burger.Data() == old(burger.Data()).(ingredients := SetDelete(old(burger.ingredients), ingredient))
    {
      burger.ingredients := SetDelete(burger.ingredients, ingredient);
      self := this;
    }

    /** `build()`: the very object being edited. */
    method Build() returns (b: StandartBurger)
      requires Valid()
      ensures b == burger && b.Valid()
    {
      b := burger;
    }
  }

  /** One `addIngredient` step of a recipe: the builder's burger holds the
      first `k` ingredients of `xs` and then the first `k + 1`. */
  method AddNextIngredient(builder: BurgerBuilder, xs: seq<string>, k: nat)
    requires builder.Valid() && NoDup(xs) && k < |xs|
    requires builder.burger.ingredients == xs[..k]
    modifies builder.burger
    ensures builder.Valid()
    ensures builder.burger.Data() == old(builder.burger.Data()).(ingredients := xs[..k + 1])
  {
    SetAddNext(xs, k);
    var s := builder.AddIngredient(xs[k]);
  }
}

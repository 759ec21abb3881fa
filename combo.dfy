/** The meal combo (Lab3/src/domain/models/MealCombo.ts): a named, mutable
    list of menu items priced as their sum. */
module Combos {
  import opened Common
  import opened Menu

  /** A combo's description ends, before its closing bracket, with the last
      item's description; adding an item to a non-empty combo inserts
      ", " and its description before the bracket. */
  lemma ComboDescriptionSnoc(name: string, items: seq<MenuItem>, x: MenuItem)
    ensures Description(Combo(name, [x])) == name + " [" + Description(x) + "]"
    ensures items != [] ==>
              Description(Combo(name, items + [x]))
              == name + " [" + Join(Descriptions(items), ", ") + ", " + Description(x) + "]"
  {
    SumAndDescriptionsSnoc(items, x);
    assert Descriptions([x]) == [Description(x)] by {
      SumAndDescriptionsSnoc([], x);
    }
    if items != [] {
      JoinSnoc(Descriptions(items), Description(x), ", ");
    }
  }

  /** The two shapes of a combo's description. */
  lemma ComboDescriptionShape(name: string, items: seq<MenuItem>)
    ensures items == [] ==> Description(Combo(name, items)) == name + " (empty)"
    ensures items != [] ==> IsPrefix(name + " [", Description(Combo(name, items)))
                            && IsSuffix("]", Description(Combo(name, items)))
  {
    if items != [] {
      var d := Description(Combo(name, items));
      var j := Join(Descriptions(items), ", ");
      assert d == (name + " [") + j + "]";
      assert d[..|name + " ["|] == name + " [";
      assert d[|d| - 1..] == "]";
    }
  }

  class MealCombo {
    const name: string
    var items: seq<MenuItem>

    /** `new MealCombo(name)`: empty, so count 0 and price 0. */
    constructor (name: string)
      ensures this.name == name && items == []
      ensures GetItemCount() == 0 && GetPrice() == 0.0
      ensures GetDescription() == name + " (empty)"
    {
      this.name := name;
      items := [];
      assert SumPrices([]) == 0.0;
    }

    /** The combo as a menu item (it is one, and can be nested). */
    function AsItem(): MenuItem
      reads this
    {
      Combo(name, items)
    }

    /** `getPrice()`: the sum of the item prices. */
    function GetPrice(): real
      reads this
    {
      Price(AsItem())
    }

    /** `getDescription()`. */
    function GetDescription(): string
      reads this
    {
      Description(AsItem())
    }

    /** `getItemCount()`: the top-level items only. */
    function GetItemCount(): nat
      reads this
    {
      |items|
    }

    /** `add(item)`: appended at the end. */
    method Add(item: MenuItem)
      modifies this
      ensures items == old(items) + [item]
      ensures GetItemCount() == old(GetItemCount()) + 1
      ensures GetPrice() == old(GetPrice()) + Price(item)
      ensures old(items) == [] ==> GetDescription() == name + " [" + Description(item) + "]"
      ensures old(items) != [] ==>
                GetDescription() == name + " [" + Join(Descriptions(old(items)), ", ") + ", " + Description(item) + "]"
    {
      SumAndDescriptionsSnoc(items, item);
      ComboDescriptionSnoc(name, items, item);
      items := items + [item];
    }

    /** `remove(item)`: the first equal item is spliced out, the others keep
        their order; an absent item changes nothing. */
    method Remove(item: MenuItem)
      modifies this
      ensures items == RemoveFirst(old(items), item)
      ensures item in old(items) ==> GetItemCount() == old(GetItemCount()) - 1
                                     && GetPrice() == old(GetPrice()) - Price(item)
      ensures item !in old(items) ==> items == old(items)
    {
      var index := IndexOf(items, item);
      if index > -1 {
        SumRemoveAt(items, index);
        items := items[..index] + items[index + 1..];
      }
    }
  }
}

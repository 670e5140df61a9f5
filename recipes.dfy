/** A recipe's material cost, summed over its material usages (app/models/recipe.py). */
module Recipes {
  import opened Wrappers
  import opened Materials

  /**
   * One row of the recipe/material link table. `material` is None when the
   * referenced material no longer resolves (the row survives a missing material).
   */
  datatype Usage = Usage(materialId: int, material: Option<MaterialInfo>, quantity: real)

  /** What one usage adds to the recipe cost: unit price times quantity, or nothing when unresolved. */
  function LineCost(u: Usage): real
  {
    if u.material.Some? then u.material.value.unitPrice * u.quantity else 0.0
  }

  /** The recipe's material cost as the source's loop accumulates it, front to back. */
  function MaterialCost(us: seq<Usage>): real
  {
    if us == [] then 0.0 else MaterialCost(us[..|us| - 1]) + LineCost(us[|us| - 1])
  }

  /** Well-formed costing data: every resolved material has a non-negative unit price and a positive quantity. */
  predicate NonNegativeUsages(us: seq<Usage>)
  {
    forall i :: 0 <= i < |us| && us[i].material.Some? ==>
      us[i].material.value.unitPrice >= 0.0 && us[i].quantity > 0.0
  }

  class Recipe {
    const id: int
    var userId: int
    var name: string
    var description: Option<string>
    var materialCost: real
    var usages: seq<Usage>

    /** A recipe as the create route first builds it: no usages yet and a material cost of 0. */
    constructor (id: int, userId: int, name: string, description: Option<string>)
      ensures this.id == id && this.userId == userId && this.name == name && this.description == description
      ensures materialCost == 0.0 && usages == []
    {
      this.id := id;
      this.userId := userId;
      this.name := name;
      this.description := description;
      materialCost := 0.0;
      usages := [];
    }

    /**
     * Sums unit price times quantity over the usages whose material resolves,
     * stores the total in `materialCost` and returns it.
     */
    method CalculateMaterialCost() returns (total: real)
      modifies this`materialCost
      ensures total == MaterialCost(usages) && materialCost == total
      ensures usages == old(usages) && name == old(name) && userId == old(userId)
    {
      total := 0.0;
      for i := 0 to |usages|
        invariant total == MaterialCost(usages[..i])
      {
        assert usages[..i + 1][..i] == usages[..i];
        if usages[i].material.Some? {
          total := total + usages[i].material.value.unitPrice * usages[i].quantity;
        }
      }
      assert usages[..|usages|] == usages;
      materialCost := total;
    }
  }

  /** The query behind every recipe lookup of the routes: the user's recipe with this id, or null. */
  function OwnedRecipe(recipes: map<int, Recipe>, id: int, userId: int): (r: Recipe?)
    reads recipes.Values
    ensures r != null <==> id in recipes && recipes[id].userId == userId
    ensures r != null ==> r == recipes[id]
  {
    if id in recipes && recipes[id].userId == userId then recipes[id] else null
  }

  /** The cost of a concatenation is the sum of the costs of its parts. */
  lemma {:induction false} MaterialCostAppend(a: seq<Usage>, b: seq<Usage>)
    ensures MaterialCost(a + b) == MaterialCost(a) + MaterialCost(b)
  {
    if b == [] {
      assert a + b == a;
    } else {
      var b' := b[..|b| - 1];
      assert (a + b)[..|a + b| - 1] == a + b';
      assert (a + b)[|a + b| - 1] == b[|b| - 1];
      MaterialCostAppend(a, b');
    }
  }

  /** A single usage costs exactly its line cost. */
  lemma MaterialCostSingle(u: Usage)
    ensures MaterialCost([u]) == LineCost(u)
  {
    assert [u][..0] == [];
  }

  /** The material cost does not depend on the order in which the usages are listed. */
  lemma {:induction false} MaterialCostOrderIndependent(a: seq<Usage>, b: seq<Usage>)
    requires multiset(a) == multiset(b)
    ensures MaterialCost(a) == MaterialCost(b)
  {
    if a == [] {
      assert |b| == |multiset(b)| == 0;
    } else {
      var a' := a[..|a| - 1];
      var x := a[|a| - 1];
      assert a == a' + [x];
      assert x in multiset(b);
      var j :| 0 <= j < |b| && b[j] == x;
      var b' := b[..j] + b[j + 1..];
      assert b == b[..j] + [x] + b[j + 1..];
      assert multiset(a) == multiset(a') + multiset{x};
      assert multiset(b) == multiset(b[..j]) + multiset{x} + multiset(b[j + 1..]);
      assert multiset(b') == multiset(b[..j]) + multiset(b[j + 1..]);
      assert multiset(a') == multiset(a) - multiset{x};
      assert multiset(b') == multiset(b) - multiset{x};
      MaterialCostOrderIndependent(a', b');
      MaterialCostAppend(b[..j] + [x], b[j + 1..]);
      MaterialCostAppend(b[..j], [x]);
      MaterialCostAppend(b[..j], b[j + 1..]);
      MaterialCostSingle(x);
    }
  }

  /** A usage whose material does not resolve adds nothing, wherever it stands, and raises nothing. */
  lemma MissingMaterialIgnored(a: seq<Usage>, materialId: int, quantity: real, b: seq<Usage>)
    ensures MaterialCost(a + [Usage(materialId, None, quantity)] + b) == MaterialCost(a + b)
  {
    var u := Usage(materialId, None, quantity);
    MaterialCostAppend(a + [u], b);
    MaterialCostAppend(a, [u]);
    MaterialCostAppend(a, b);
    MaterialCostSingle(u);
  }

  /** With non-negative unit prices and positive quantities a recipe never costs less than nothing. */
  lemma {:induction false} MaterialCostNonNegative(us: seq<Usage>)
    requires NonNegativeUsages(us)
    ensures MaterialCost(us) >= 0.0
  {
    if us != [] {
      var init, last := us[..|us| - 1], us[|us| - 1];
      assert NonNegativeUsages(init) by {
        forall i | 0 <= i < |init| && init[i].material.Some?
          ensures init[i].material.value.unitPrice >= 0.0 && init[i].quantity > 0.0
        {
          assert init[i] == us[i];
        }
      }
      MaterialCostNonNegative(init);
      if last.material.Some? {
        assert last.material.value.unitPrice >= 0.0 && last.quantity > 0.0;
        assert last.material.value.unitPrice * last.quantity >= 0.0;
      }
    }
  }

  /** Adding a well-formed usage to a recipe never lowers its material cost. */
  lemma AppendNeverDecreases(us: seq<Usage>, u: Usage)
    requires NonNegativeUsages([u])
    ensures MaterialCost(us + [u]) >= MaterialCost(us)
  {
    MaterialCostAppend(us, [u]);
    MaterialCostSingle(u);
    MaterialCostNonNegative([u]);
  }
}

/**
 * The product endpoints' own logic (app/routes/products.py): the monthly
 * fixed-cost total a cost calculation is given, the default production count
 * of 1, the check that a referenced recipe belongs to the caller, and the
 * partial update followed by a recalculation.
 */
module ProductRoutes {
  import opened Wrappers
  import opened Products
  import Recipes

  /** A row of the fixed-cost table: owner, monthly amount and whether it is currently charged. */
  datatype FixedCost = FixedCost(userId: int, monthlyAmount: real, isActive: bool)

  /** Why a product request fails: an unknown product or recipe (404), or a cost calculation that divides by zero (500). */
  datatype RouteError = ProductNotFound | RecipeNotFound | CostFailure(cause: CostError)

  /** What the create request carries. */
  datatype ProductCreate = ProductCreate(name: string, recipeId: Option<int>, includeFixedCost: bool, profitMargin: real)

  /**
   * What an update request carries: each field is None when the request does
   * not set it. The recipe and the selling price can be set to null, hence the
   * inner Option.
   */
  datatype ProductUpdate = ProductUpdate(
    name: Option<string>,
    recipeId: Option<Option<int>>,
    includeFixedCost: Option<bool>,
    profitMargin: Option<real>,
    sellingPrice: Option<Option<real>>)

  /* ---- The fixed costs a calculation charges ---- */

  predicate Charged(c: FixedCost, userId: int)
  {
    c.userId == userId && c.isActive
  }

  /** The query: the user's active fixed costs, in table order. */
  function ActiveCosts(costs: seq<FixedCost>, userId: int): seq<FixedCost>
  {
    if costs == [] then []
    else
      var last := costs[|costs| - 1];
      ActiveCosts(costs[..|costs| - 1], userId) + (if Charged(last, userId) then [last] else [])
  }

  /** Python's `sum` over the monthly amounts. */
  function SumAmounts(costs: seq<FixedCost>): real
  {
    if costs == [] then 0.0 else SumAmounts(costs[..|costs| - 1]) + costs[|costs| - 1].monthlyAmount
  }

  /** The total handed to the calculation: 0 unless the product includes fixed costs. */
  function FixedCostTotal(includeFixedCost: bool, costs: seq<FixedCost>, userId: int): real
  {
    if includeFixedCost then SumAmounts(ActiveCosts(costs, userId)) else 0.0
  }

  /** A cost is selected exactly when it is in the table, belongs to the user and is active. */
  lemma {:induction false} ActiveCostsMembers(costs: seq<FixedCost>, userId: int)
    ensures forall c :: c in ActiveCosts(costs, userId) <==> c in costs && Charged(c, userId)
  {
    if costs != [] {
      var init := costs[..|costs| - 1];
      ActiveCostsMembers(init, userId);
      assert costs == init + [costs[|costs| - 1]];
    }
  }

  lemma {:induction false} SumAmountsAppend(a: seq<FixedCost>, b: seq<FixedCost>)
    ensures SumAmounts(a + b) == SumAmounts(a) + SumAmounts(b)
  {
    if b == [] {
      assert a + b == a;
    } else {
      var b' := b[..|b| - 1];
      assert (a + b)[..|a + b| - 1] == a + b';
      SumAmountsAppend(a, b');
    }
  }

  lemma {:induction false} ActiveCostsAppend(a: seq<FixedCost>, b: seq<FixedCost>, userId: int)
    ensures ActiveCosts(a + b, userId) == ActiveCosts(a, userId) + ActiveCosts(b, userId)
  {
    if b == [] {
      assert a + b == a;
    } else {
      var b' := b[..|b| - 1];
      assert (a + b)[..|a + b| - 1] == a + b';
      ActiveCostsAppend(a, b', userId);
    }
  }

  /**
   * The charged total of two tables is the sum of their charged totals, and a
   * row of another user or an inactive row adds nothing wherever it stands.
   */
  lemma FixedCostTotalSplits(a: seq<FixedCost>, c: FixedCost, b: seq<FixedCost>, userId: int)
    ensures FixedCostTotal(true, a + b, userId) == FixedCostTotal(true, a, userId) + FixedCostTotal(true, b, userId)
    ensures !Charged(c, userId) ==> FixedCostTotal(true, a + [c] + b, userId) == FixedCostTotal(true, a + b, userId)
    ensures Charged(c, userId) ==>
      FixedCostTotal(true, a + [c] + b, userId) == FixedCostTotal(true, a + b, userId) + c.monthlyAmount
  {
    ActiveCostsAppend(a, b, userId);
    SumAmountsAppend(ActiveCosts(a, userId), ActiveCosts(b, userId));
    ActiveCostsAppend(a + [c], b, userId);
    ActiveCostsAppend(a, [c], userId);
    assert [c][..0] == [];
    var sa, sb := ActiveCosts(a, userId), ActiveCosts(b, userId);
    if Charged(c, userId) {
      SumAmountsAppend(sa + [c], sb);
      SumAmountsAppend(sa, [c]);
      assert SumAmounts([c]) == c.monthlyAmount by {
        assert [c][..0] == [];
      }
    } else {
      assert ActiveCosts([c], userId) == [];
      assert sa + [] == sa;
    }
  }

  /** With the non-negative amounts the fixed-cost schema demands, the total is never negative. */
  lemma {:induction false} FixedCostTotalNonNegative(includeFixedCost: bool, costs: seq<FixedCost>, userId: int)
    requires forall i :: 0 <= i < |costs| ==> costs[i].monthlyAmount >= 0.0
    ensures FixedCostTotal(includeFixedCost, costs, userId) >= 0.0
  {
    if includeFixedCost {
      ActiveCostsMembers(costs, userId);
      SumNonNegative(ActiveCosts(costs, userId));
    }
  }

  lemma {:induction false} SumNonNegative(costs: seq<FixedCost>)
    requires forall c :: c in costs ==> c.monthlyAmount >= 0.0
    ensures SumAmounts(costs) >= 0.0
  {
    if costs != [] {
      var init := costs[..|costs| - 1];
      assert forall c :: c in init ==> c in costs;
      SumNonNegative(init);
      assert costs[|costs| - 1] in costs;
    }
  }

  /* ---- The route helper and the endpoints ---- */

  /**
   * `calculate_product_costs`: charges the user's active fixed costs when the
   * product includes them, and calculates with the given production count
   * (1 unless the caller passes one).
   */
  method CalculateProductCosts(product: Product, userId: int, costs: seq<FixedCost>, totalMonthlyProduction: int := 1)
    returns (outcome: Outcome<CostError>)
    modifies product`materialCost, product`fixedCostPerUnit, product`totalCost
    modifies product`suggestedPrice, product`actualProfitAmount, product`actualProfitMargin
    ensures product.Fields()
      == Recalculate(old(product.Fields()),
                     old(product.Inputs(FixedCostTotal(product.includeFixedCost, costs, userId), totalMonthlyProduction)))
    ensures outcome == if product.profitMargin == 100.0 then Fail(DegenerateMargin) else Pass
  {
    var totalFixedCost := 0.0;
    if product.includeFixedCost {
      totalFixedCost := SumAmounts(ActiveCosts(costs, userId));
    }
    outcome := product.CalculateCosts(totalFixedCost, totalMonthlyProduction);
  }

  /** The default production count charges a product the whole monthly fixed-cost total. */
  lemma DefaultProductionChargesWholeTotal(prior: Pricing, inputs: CostInputs)
    requires inputs.includeFixedCost && inputs.totalMonthlyProduction == 1
    ensures Recalculate(prior, inputs).fixedCostPerUnit == inputs.totalMonthlyFixedCost
  {
  }

  /** The user's product with this id, or null. */
  function OwnedProduct(products: map<int, Product>, id: int, userId: int): (p: Product?)
    reads products.Values
    ensures p != null <==> id in products && products[id].userId == userId
    ensures p != null ==> p == products[id]
  {
    if id in products && products[id].userId == userId then products[id] else null
  }

  /** A recipe id is checked on create only when it is truthy: present and not 0. */
  predicate TruthyId(id: Option<int>)
  {
    id.Some? && id.value != 0
  }

  /**
   * `create_product`: a truthy recipe id must name one of the user's recipes;
   * the new product starts from the column defaults and is costed with the
   * default production count. A margin of 100 fails the calculation.
   */
  method CreateProduct(newId: int, userId: int, data: ProductCreate, recipes: map<int, Recipes.Recipe>,
                       costs: seq<FixedCost>)
    returns (r: Result<Product, RouteError>)
    ensures r == Failure(RecipeNotFound)
      <==> TruthyId(data.recipeId) && Recipes.OwnedRecipe(recipes, data.recipeId.value, userId) == null
    ensures r == Failure(CostFailure(DegenerateMargin)) <==> r != Failure(RecipeNotFound) && data.profitMargin == 100.0
    ensures r.Success? <==> r != Failure(RecipeNotFound) && data.profitMargin != 100.0
    ensures r.Success? ==>
      var p := r.value;
      var recipe := if TruthyId(data.recipeId) then Recipes.OwnedRecipe(recipes, data.recipeId.value, userId) else null;
      && fresh(p)
      && p.id == newId && p.userId == userId && p.name == data.name && p.recipeId == data.recipeId
      && p.recipe == recipe
      && p.includeFixedCost == data.includeFixedCost && p.profitMargin == data.profitMargin && p.sellingPrice == None
      && p.Fields() == Recalculate(Pricing(0.0, 0.0, 0.0, 0.0, 0.0, 0.0),
                                   CostInputs(if recipe != null then Some(recipe.materialCost) else None,
                                              data.includeFixedCost, data.profitMargin, None,
                                              FixedCostTotal(data.includeFixedCost, costs, userId), 1))
  {
    var recipe: Recipes.Recipe? := null;
    if TruthyId(data.recipeId) {
      recipe := Recipes.OwnedRecipe(recipes, data.recipeId.value, userId);
      if recipe == null {
        return Failure(RecipeNotFound);
      }
    }
    var product := new Product(newId, userId, data.name, data.recipeId, recipe, data.includeFixedCost, data.profitMargin);
    var outcome := CalculateProductCosts(product, userId, costs);
    if outcome.Fail? {
      return Failure(CostFailure(outcome.error));
    }
    return Success(product);
  }

  /** The product's inputs after an update request sets the fields it carries. */
  datatype ProductState = ProductState(
    name: string,
    recipeId: Option<int>,
    includeFixedCost: bool,
    profitMargin: real,
    sellingPrice: Option<real>)

  /** Applies the fields the request sets, leaving the others as they are: each field is the request's value when set, the old one otherwise. */
  function Updated(s: ProductState, u: ProductUpdate): (r: ProductState)
    ensures u.name.None? ==> r.name == s.name
    ensures u.recipeId.None? ==> r.recipeId == s.recipeId
    ensures u.includeFixedCost.None? ==> r.includeFixedCost == s.includeFixedCost
    ensures u.profitMargin.None? ==> r.profitMargin == s.profitMargin
    ensures u.sellingPrice.None? ==> r.sellingPrice == s.sellingPrice
    ensures u.name.Some? ==> r.name == u.name.value
    ensures u.recipeId.Some? ==> r.recipeId == u.recipeId.value
    ensures u.includeFixedCost.Some? ==> r.includeFixedCost == u.includeFixedCost.value
    ensures u.profitMargin.Some? ==> r.profitMargin == u.profitMargin.value
    ensures u.sellingPrice.Some? ==> r.sellingPrice == u.sellingPrice.value
  {
    ProductState(u.name.GetOr(s.name), u.recipeId.GetOr(s.recipeId), u.includeFixedCost.GetOr(s.includeFixedCost),
                 u.profitMargin.GetOr(s.profitMargin), u.sellingPrice.GetOr(s.sellingPrice))
  }

  /** Updating twice with the same request is updating once. */
  lemma UpdatedIdempotent(s: ProductState, u: ProductUpdate)
    ensures Updated(Updated(s, u), u) == Updated(s, u)
  {
  }

  /** A request that sets nothing changes nothing. */
  lemma EmptyUpdateChangesNothing(s: ProductState)
    ensures Updated(s, ProductUpdate(None, None, None, None, None)) == s
  {
  }

  /**
   * `update_product`: the product must be the user's; a recipe id the request
   * sets to a value (0 included) must name one of the user's recipes. Both
   * checks run before any field changes. Then the fields the request carries
   * are set and the costs recalculated with the default production count.
   */
  method UpdateProduct(products: map<int, Product>, productId: int, userId: int, data: ProductUpdate,
                       recipes: map<int, Recipes.Recipe>, costs: seq<FixedCost>)
    returns (r: Result<Product, RouteError>)
    modifies products.Values
    ensures r == Failure(ProductNotFound) <==> old(OwnedProduct(products, productId, userId)) == null
    ensures r == Failure(RecipeNotFound) <==>
      old(OwnedProduct(products, productId, userId)) != null
      && data.recipeId.Some? && data.recipeId.value.Some?
      && old(Recipes.OwnedRecipe(recipes, data.recipeId.value.value, userId)) == null
    ensures r == Failure(ProductNotFound) || r == Failure(RecipeNotFound) ==>
      forall p :: p in products.Values ==> unchanged(p)
    ensures r.Success? || r.error.CostFailure? ==>
      var p := products[productId];
      var s := Updated(old(State(p)), data);
      && old(OwnedProduct(products, productId, userId)) == p
      && (r.Success? ==> r.value == p)
      && State(p) == s
      && (data.recipeId.Some? ==>
            p.recipe == if s.recipeId.Some? then old(Recipes.OwnedRecipe(recipes, s.recipeId.value, userId)) else null)
      && (data.recipeId.None? ==> p.recipe == old(p.recipe))
      && p.Fields() == Recalculate(old(p.Fields()),
                                   CostInputs(if p.recipe != null then Some(p.recipe.materialCost) else None,
                                              s.includeFixedCost, s.profitMargin, s.sellingPrice,
                                              FixedCostTotal(s.includeFixedCost, costs, userId), 1))
      && (r.Success? <==> s.profitMargin != 100.0)
    ensures forall q :: q in products.Values && q != old(OwnedProduct(products, productId, userId)) ==> unchanged(q)
  {
    var product := OwnedProduct(products, productId, userId);
    if product == null {
      return Failure(ProductNotFound);
    }
    var recipe: Recipes.Recipe? := null;
    if data.recipeId.Some? && data.recipeId.value.Some? {
      recipe := Recipes.OwnedRecipe(recipes, data.recipeId.value.value, userId);
      if recipe == null {
        return Failure(RecipeNotFound);
      }
    }

    SetFields(product, data, recipe);
    var outcome := CalculateProductCosts(product, userId, costs);
    if outcome.Fail? {
      return Failure(CostFailure(outcome.error));
    }
    return Success(product);
  }

  /** The `setattr` loop: sets each field the request carries, and the recipe along with its id. */
  method SetFields(product: Product, data: ProductUpdate, recipe: Recipes.Recipe?)
    modifies product`name, product`recipeId, product`recipe, product`includeFixedCost
    modifies product`profitMargin, product`sellingPrice
    ensures State(product) == Updated(old(State(product)), data)
    ensures product.recipe == if data.recipeId.Some? then recipe else old(product.recipe)
  {
    if data.name.Some? {
      product.name := data.name.value;
    }
    if data.recipeId.Some? {
      product.recipeId := data.recipeId.value;
      product.recipe := recipe;
    }
    if data.includeFixedCost.Some? {
      product.includeFixedCost := data.includeFixedCost.value;
    }
    if data.profitMargin.Some? {
      product.profitMargin := data.profitMargin.value;
    }
    if data.sellingPrice.Some? {
      product.sellingPrice := data.sellingPrice.value;
    }
  }

  /** The inputs of a product an update request can set. */
  function State(p: Product): ProductState
    reads p
  {
    ProductState(p.name, p.recipeId, p.includeFixedCost, p.profitMargin, p.sellingPrice)
  }

  /**
   * `calculate_product_cost`: recalculates the user's product with the
   * requested production count; nothing but the six derived fields changes.
   */
  method CalculateProductCost(products: map<int, Product>, productId: int, userId: int, totalMonthlyProduction: int,
                              costs: seq<FixedCost>)
    returns (r: Result<Product, RouteError>)
    modifies products.Values
    ensures r == Failure(ProductNotFound) <==> old(OwnedProduct(products, productId, userId)) == null
    ensures r == Failure(ProductNotFound) ==> forall p :: p in products.Values ==> unchanged(p)
    ensures r != Failure(ProductNotFound) ==>
      var p := products[productId];
      && State(p) == old(State(p)) && p.recipe == old(p.recipe)
      && p.Fields() == Recalculate(old(p.Fields()),
                                   old(p.Inputs(FixedCostTotal(p.includeFixedCost, costs, userId), totalMonthlyProduction)))
      && (r.Success? <==> p.profitMargin != 100.0)
      && (r.Success? ==> r.value == p)
    ensures forall q :: q in products.Values && q != old(OwnedProduct(products, productId, userId)) ==> unchanged(q)
  {
    var product := OwnedProduct(products, productId, userId);
    if product == null {
      return Failure(ProductNotFound);
    }
    var outcome := CalculateProductCosts(product, userId, costs, totalMonthlyProduction);
    if outcome.Fail? {
      return Failure(CostFailure(outcome.error));
    }
    return Success(product);
  }
}

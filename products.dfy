/**
 * A product's cost and price fields and the straight-line pipeline that derives
 * them (app/models/product.py): material cost from the recipe, fixed cost per
 * unit, total cost, suggested price, and the profit an explicit selling price realises.
 */
module Products {
  import opened Wrappers
  import Recipes

  /** The one input the pipeline cannot price: a margin of exactly 100 percent. */
  datatype CostError = DegenerateMargin

  /** Python truthiness of an optional number: present and not zero. */
  predicate Truthy(x: Option<real>)
  {
    x.Some? && x.value != 0.0
  }

  /** The share of the monthly fixed costs one unit carries. */
  function FixedCostPerUnit(includeFixedCost: bool, totalMonthlyFixedCost: real, totalMonthlyProduction: int): real
  {
    if includeFixedCost && totalMonthlyProduction > 0 then
      totalMonthlyFixedCost / (totalMonthlyProduction as real)
    else
      0.0
  }

  /**
   * The price at which `profitMargin` percent of the price is profit. A margin
   * of 100 would divide by zero: that is the error case.
   */
  function SuggestedPrice(totalCost: real, profitMargin: real): Result<real, CostError>
  {
    if profitMargin > 0.0 then
      var denominator := 1.0 - profitMargin / 100.0;
      if denominator == 0.0 then Failure(DegenerateMargin) else Success(totalCost / denominator)
    else
      Success(totalCost)
  }

  datatype Profit = Profit(amount: real, margin: real)

  /** The profit amount and margin (percent of the price) an explicitly set selling price realises. */
  function ActualProfit(sellingPrice: Option<real>, totalCost: real): Profit
  {
    if Truthy(sellingPrice) then
      var amount := sellingPrice.value - totalCost;
      Profit(amount, if sellingPrice.value > 0.0 then amount / sellingPrice.value * 100.0 else 0.0)
    else
      Profit(0.0, 0.0)
  }

  /** The six derived fields of a product. */
  datatype Pricing = Pricing(
    materialCost: real,
    fixedCostPerUnit: real,
    totalCost: real,
    suggestedPrice: real,
    actualProfitAmount: real,
    actualProfitMargin: real)

  /** Everything a cost calculation reads besides the fields it writes. */
  datatype CostInputs = CostInputs(
    recipeMaterialCost: Option<real>,
    includeFixedCost: bool,
    profitMargin: real,
    sellingPrice: Option<real>,
    totalMonthlyFixedCost: real,
    totalMonthlyProduction: int)

  /**
   * The derived fields after one calculation, given those before it. Each step
   * reads only steps before it. Without a recipe the material cost keeps its
   * earlier value; at a margin of 100 the source fails at the suggested-price
   * step, after the first three fields are written, so the last three keep theirs.
   */
  function Recalculate(prior: Pricing, inputs: CostInputs): Pricing
  {
    var material := inputs.recipeMaterialCost.GetOr(prior.materialCost);
    var fixed := FixedCostPerUnit(inputs.includeFixedCost, inputs.totalMonthlyFixedCost, inputs.totalMonthlyProduction);
    var total := material + fixed;
    match SuggestedPrice(total, inputs.profitMargin)
    case Failure(_) =>
      prior.(materialCost := material, fixedCostPerUnit := fixed, totalCost := total)
    case Success(suggested) =>
      var profit := ActualProfit(inputs.sellingPrice, total);
      Pricing(material, fixed, total, suggested, profit.amount, profit.margin)
  }

  class Product {
    const id: int
    var userId: int
    var name: string
    var recipeId: Option<int>
    var recipe: Recipes.Recipe?
    var includeFixedCost: bool
    var profitMargin: real
    var sellingPrice: Option<real>
    var materialCost: real
    var fixedCostPerUnit: real
    var totalCost: real
    var suggestedPrice: real
    var actualProfitAmount: real
    var actualProfitMargin: real

    /** A new row with the column defaults: every derived field 0, no selling price. */
    constructor (id: int, userId: int, name: string, recipeId: Option<int>, recipe: Recipes.Recipe?,
                 includeFixedCost: bool, profitMargin: real)
      ensures this.id == id && this.userId == userId && this.name == name
      ensures this.recipeId == recipeId && this.recipe == recipe
      ensures this.includeFixedCost == includeFixedCost && this.profitMargin == profitMargin
      ensures sellingPrice == None && Fields() == Pricing(0.0, 0.0, 0.0, 0.0, 0.0, 0.0)
    {
      this.id := id;
      this.userId := userId;
      this.name := name;
      this.recipeId := recipeId;
      this.recipe := recipe;
      this.includeFixedCost := includeFixedCost;
      this.profitMargin := profitMargin;
      sellingPrice := None;
      materialCost, fixedCostPerUnit, totalCost := 0.0, 0.0, 0.0;
      suggestedPrice, actualProfitAmount, actualProfitMargin := 0.0, 0.0, 0.0;
    }

    function Fields(): Pricing
      reads this
    {
      Pricing(materialCost, fixedCostPerUnit, totalCost, suggestedPrice, actualProfitAmount, actualProfitMargin)
    }

    /** The recipe's stored material cost, when the product has a recipe. */
    function RecipeCost(): Option<real>
      reads this, recipe
    {
      if recipe != null then Some(recipe.materialCost) else None
    }

    function Inputs(totalMonthlyFixedCost: real, totalMonthlyProduction: int): CostInputs
      reads this, recipe
    {
      CostInputs(RecipeCost(), includeFixedCost, profitMargin, sellingPrice, totalMonthlyFixedCost, totalMonthlyProduction)
    }

    /**
     * Writes the six derived fields in order, each from the ones before. Fails
     * with DegenerateMargin, having written only the first three, when the
     * margin is 100.
     */
    method CalculateCosts(totalMonthlyFixedCost: real := 0.0, totalMonthlyProduction: int := 1)
      returns (outcome: Outcome<CostError>)
      modifies this`materialCost, this`fixedCostPerUnit, this`totalCost
      modifies this`suggestedPrice, this`actualProfitAmount, this`actualProfitMargin
      ensures Fields() == Recalculate(old(Fields()), old(Inputs(totalMonthlyFixedCost, totalMonthlyProduction)))
      ensures outcome == if profitMargin == 100.0 then Fail(DegenerateMargin) else Pass
    {
      ghost var prior, inputs := Fields(), Inputs(totalMonthlyFixedCost, totalMonthlyProduction);
      var material := materialCost;
      if recipe != null {
        material := recipe.materialCost;
      }

      var fixed := 0.0;
      if includeFixedCost && totalMonthlyProduction > 0 {
        fixed := totalMonthlyFixedCost / (totalMonthlyProduction as real);
      }
      assert fixed == FixedCostPerUnit(inputs.includeFixedCost, totalMonthlyFixedCost, totalMonthlyProduction);

      var total := material + fixed;
      materialCost, fixedCostPerUnit, totalCost := material, fixed, total;

      var suggested := total;
      if profitMargin > 0.0 {
        var denominator := 1.0 - profitMargin / 100.0;
        if denominator == 0.0 {
          assert SuggestedPrice(total, inputs.profitMargin).Failure?;
          return Fail(DegenerateMargin);
        }
        suggested := total / denominator;
      }
      assert SuggestedPrice(total, inputs.profitMargin) == Success(suggested);

      var amount, margin := 0.0, 0.0;
      if Truthy(sellingPrice) {
        amount := sellingPrice.value - total;
        if sellingPrice.value > 0.0 {
          margin := amount / sellingPrice.value * 100.0;
        }
      }
      assert ActualProfit(inputs.sellingPrice, total) == Profit(amount, margin);
      suggestedPrice, actualProfitAmount, actualProfitMargin := suggested, amount, margin;
      outcome := Pass;
    }
  }

  /** The fixed-cost share times the production count gives back the monthly total; without inclusion it is 0. */
  lemma FixedCostShare(includeFixedCost: bool, totalMonthlyFixedCost: real, totalMonthlyProduction: int)
    ensures var r := FixedCostPerUnit(includeFixedCost, totalMonthlyFixedCost, totalMonthlyProduction);
      && (includeFixedCost && totalMonthlyProduction > 0 ==> r * (totalMonthlyProduction as real) == totalMonthlyFixedCost)
      && (!(includeFixedCost && totalMonthlyProduction > 0) ==> r == 0.0)
  {
  }

  /**
   * The suggested price fails exactly at a margin of 100; at a margin of 0 or
   * below it is the total cost; otherwise removing the margin's share from it
   * gives back the total cost.
   */
  lemma SuggestedPriceInverse(totalCost: real, profitMargin: real)
    ensures var r := SuggestedPrice(totalCost, profitMargin);
      && (r.Failure? <==> profitMargin == 100.0)
      && (profitMargin <= 0.0 ==> r == Success(totalCost))
      && (profitMargin > 0.0 && r.Success? ==> r.value * (1.0 - profitMargin / 100.0) == totalCost)
  {
  }

  /**
   * The realised profit: zero without a (non-zero) selling price; otherwise the
   * amount is price minus cost, and for a positive price the margin is that
   * amount as a percentage of the price.
   */
  lemma ActualProfitMeaning(sellingPrice: Option<real>, totalCost: real)
    ensures var r := ActualProfit(sellingPrice, totalCost);
      && (!Truthy(sellingPrice) ==> r == Profit(0.0, 0.0))
      && (Truthy(sellingPrice) ==> r.amount + totalCost == sellingPrice.value)
      && (Truthy(sellingPrice) && sellingPrice.value > 0.0 ==> r.margin * sellingPrice.value == r.amount * 100.0)
      && (Truthy(sellingPrice) && sellingPrice.value < 0.0 ==> r.margin == 0.0)
  {
  }

  /** Total cost is material cost plus the fixed-cost share, whatever the margin. */
  lemma TotalIsMaterialPlusFixed(prior: Pricing, inputs: CostInputs)
    ensures var r := Recalculate(prior, inputs);
      r.totalCost == r.materialCost + r.fixedCostPerUnit
  {
  }

  /**
   * A product with a recipe copies the recipe's stored cost; one without keeps
   * the material cost it had (a snapshot, not reset to 0).
   */
  lemma MaterialCostSnapshot(prior: Pricing, inputs: CostInputs)
    ensures inputs.recipeMaterialCost.Some? ==>
      Recalculate(prior, inputs).materialCost == inputs.recipeMaterialCost.value
    ensures inputs.recipeMaterialCost.None? ==>
      Recalculate(prior, inputs).materialCost == prior.materialCost
  {
  }

  /** Without fixed-cost inclusion the fixed-cost share is 0, whatever the monthly total. */
  lemma FixedCostExcluded(prior: Pricing, inputs: CostInputs)
    requires !inputs.includeFixedCost
    ensures Recalculate(prior, inputs).fixedCostPerUnit == 0.0
  {
  }

  /** A margin of 0 (or below) prices the product at its total cost. */
  lemma ZeroMarginPricesAtCost(prior: Pricing, inputs: CostInputs)
    requires inputs.profitMargin <= 0.0
    ensures Recalculate(prior, inputs).suggestedPrice == Recalculate(prior, inputs).totalCost
  {
  }

  /** For a margin in [0, 100) the suggested price never undercuts a non-negative total cost. */
  lemma SuggestedPriceCoversCost(totalCost: real, profitMargin: real)
    requires 0.0 <= profitMargin < 100.0 && totalCost >= 0.0
    ensures SuggestedPrice(totalCost, profitMargin).Success?
    ensures SuggestedPrice(totalCost, profitMargin).value >= totalCost
  {
    if profitMargin > 0.0 {
      var d := 1.0 - profitMargin / 100.0;
      var s := SuggestedPrice(totalCost, profitMargin).value;
      SuggestedPriceInverse(totalCost, profitMargin);
      assert 0.0 < d < 1.0;
      assert s * d == totalCost;
      assert s >= 0.0;
      assert s - totalCost == s * (1.0 - d);
      assert s * (1.0 - d) >= 0.0;
    }
  }

  /**
   * Selling at the suggested price realises exactly the configured margin:
   * the suggested-price step and the actual-profit step are inverse to each other.
   */
  lemma SuggestedPriceRealizesMargin(totalCost: real, profitMargin: real)
    requires 0.0 < profitMargin < 100.0 && totalCost > 0.0
    ensures SuggestedPrice(totalCost, profitMargin).Success?
    ensures var s := SuggestedPrice(totalCost, profitMargin).value;
      ActualProfit(Some(s), totalCost).margin == profitMargin
    ensures var s := SuggestedPrice(totalCost, profitMargin).value;
      ActualProfit(Some(s), totalCost).amount == s - totalCost
  {
    var d := 1.0 - profitMargin / 100.0;
    var s := SuggestedPrice(totalCost, profitMargin).value;
    SuggestedPriceInverse(totalCost, profitMargin);
    assert 0.0 < d < 1.0;
    assert s * d == totalCost;
    assert s > 0.0;
    var p := ActualProfit(Some(s), totalCost);
    ActualProfitMeaning(Some(s), totalCost);
    assert p.amount == s - totalCost;
    assert p.margin * s == p.amount * 100.0;
    assert p.amount == s * (profitMargin / 100.0);
    assert p.margin * s == profitMargin * s;
  }

  /** Calculating twice with the same inputs gives the same fields as calculating once. */
  lemma RecalculateIdempotent(prior: Pricing, inputs: CostInputs)
    ensures Recalculate(Recalculate(prior, inputs), inputs) == Recalculate(prior, inputs)
  {
  }
}

/**
 * The recipe endpoints' own logic (app/routes/recipes.py): resolving the
 * requested materials against the caller's material table, replacing a
 * recipe's usages wholesale and recomputing its cost, and the response that
 * lists one costed line per usage whose material resolves.
 */
module RecipeRoutes {
  import opened Wrappers
  import opened Materials
  import opened Recipes

  /** A row of the material table as the routes read it: its owner and the material. */
  datatype MaterialRow = MaterialRow(userId: int, info: MaterialInfo)

  /** One requested usage: which material and how much of it. */
  datatype UsageRequest = UsageRequest(materialId: int, quantity: real)

  /** Why a recipe request fails (404): an unknown recipe, or the first requested material the user does not own. */
  datatype RecipeError = RecipeNotFound | MaterialNotFound(materialId: int)

  /** What an update request carries; a field left out or sent as null is None. */
  datatype RecipeUpdate = RecipeUpdate(name: Option<string>, description: Option<string>, materials: Option<seq<UsageRequest>>)

  /** One line of the response: a usage whose material resolves, with its cost. */
  datatype ResponseLine = ResponseLine(materialId: int, quantity: real, materialName: string, materialUnit: string, cost: real)

  datatype RecipeResponse = RecipeResponse(
    id: int,
    userId: int,
    name: string,
    description: Option<string>,
    materialCost: real,
    materials: seq<ResponseLine>)

  /* ---- Resolving the requested materials ---- */

  /** The material with this id, when it belongs to the user. */
  function OwnedMaterial(materials: map<int, MaterialRow>, id: int, userId: int): (m: Option<MaterialInfo>)
    ensures m.Some? <==> id in materials && materials[id].userId == userId
    ensures m.Some? ==> m.value == materials[id].info
  {
    if id in materials && materials[id].userId == userId then Some(materials[id].info) else None
  }

  predicate Owned(materials: map<int, MaterialRow>, r: UsageRequest, userId: int)
  {
    OwnedMaterial(materials, r.materialId, userId).Some?
  }

  /** The usage row a request becomes once its material resolves. */
  function UsageFor(materials: map<int, MaterialRow>, r: UsageRequest, userId: int): Usage
  {
    Usage(r.materialId, OwnedMaterial(materials, r.materialId, userId), r.quantity)
  }

  /**
   * The requests in order, each resolved to the user's material; the first
   * request whose material is missing or another user's fails the whole list.
   */
  function Resolve(requests: seq<UsageRequest>, materials: map<int, MaterialRow>, userId: int): (r: Result<seq<Usage>, RecipeError>)
    ensures r.Failure? ==> r.error.MaterialNotFound?
  {
    if requests == [] then Success([])
    else
      var last := requests[|requests| - 1];
      match Resolve(requests[..|requests| - 1], materials, userId)
      case Failure(e) => Failure(e)
      case Success(us) =>
        if Owned(materials, last, userId) then Success(us + [UsageFor(materials, last, userId)])
        else Failure(MaterialNotFound(last.materialId))
  }

  /** The loop that inserts one usage per request, stopping at the first unknown material. */
  method ResolveUsages(requests: seq<UsageRequest>, materials: map<int, MaterialRow>, userId: int)
    returns (r: Result<seq<Usage>, RecipeError>)
    ensures r == Resolve(requests, materials, userId)
  {
    var usages: seq<Usage> := [];
    for i := 0 to |requests|
      invariant Resolve(requests[..i], materials, userId) == Success(usages)
    {
      assert requests[..i + 1][..i] == requests[..i];
      var m := OwnedMaterial(materials, requests[i].materialId, userId);
      if m.None? {
        ResolveFailureStays(requests, materials, userId, i + 1);
        return Failure(MaterialNotFound(requests[i].materialId));
      }
      usages := usages + [Usage(requests[i].materialId, m, requests[i].quantity)];
    }
    assert requests[..|requests|] == requests;
    return Success(usages);
  }

  /** A failing prefix fails the whole list with the same error. */
  lemma {:induction false} ResolveFailureStays(requests: seq<UsageRequest>, materials: map<int, MaterialRow>, userId: int, k: nat)
    requires k <= |requests| && Resolve(requests[..k], materials, userId).Failure?
    ensures Resolve(requests, materials, userId) == Resolve(requests[..k], materials, userId)
    decreases |requests| - k
  {
    if k < |requests| {
      assert requests[..k + 1][..k] == requests[..k];
      ResolveFailureStays(requests, materials, userId, k + 1);
    } else {
      assert requests[..k] == requests;
    }
  }

  /**
   * Resolution succeeds exactly when every requested material is the user's,
   * and then yields one usage per request, in request order, carrying the
   * requested material id and quantity and the resolved material.
   */
  lemma {:induction false} ResolveMeaning(requests: seq<UsageRequest>, materials: map<int, MaterialRow>, userId: int)
    ensures Resolve(requests, materials, userId).Success?
      <==> forall i :: 0 <= i < |requests| ==> Owned(materials, requests[i], userId)
    ensures Resolve(requests, materials, userId).Success? ==>
      var us := Resolve(requests, materials, userId).value;
      && |us| == |requests|
      && forall i :: 0 <= i < |requests| ==> us[i] == UsageFor(materials, requests[i], userId)
  {
    if requests != [] {
      var init := requests[..|requests| - 1];
      ResolveMeaning(init, materials, userId);
      assert forall i :: 0 <= i < |init| ==> init[i] == requests[i];
    }
  }

  /**
   * A failure names the first request whose material is not the user's: every
   * request before it resolves.
   */
  lemma {:induction false} ResolveFailsAtFirstMissing(requests: seq<UsageRequest>, materials: map<int, MaterialRow>, userId: int)
    requires Resolve(requests, materials, userId).Failure?
    ensures exists k :: (0 <= k < |requests| && !Owned(materials, requests[k], userId)
      && Resolve(requests, materials, userId) == Failure(MaterialNotFound(requests[k].materialId))
      && forall i :: 0 <= i < k ==> Owned(materials, requests[i], userId))
  {
    var init := requests[..|requests| - 1];
    var n := |requests| - 1;
    if Resolve(init, materials, userId).Failure? {
      ResolveFailsAtFirstMissing(init, materials, userId);
      var k :| 0 <= k < |init| && !Owned(materials, init[k], userId)
        && Resolve(init, materials, userId) == Failure(MaterialNotFound(init[k].materialId))
        && forall i :: 0 <= i < k ==> Owned(materials, init[i], userId);
      assert init[k] == requests[k];
      assert forall i :: 0 <= i < k ==> init[i] == requests[i];
    } else {
      ResolveMeaning(init, materials, userId);
      assert forall i :: 0 <= i < n ==> init[i] == requests[i];
      assert !Owned(materials, requests[n], userId);
    }
  }

  /* ---- The response ---- */

  /** The response lines: one per usage whose material resolves, in usage order. */
  function ResponseLines(us: seq<Usage>): seq<ResponseLine>
  {
    if us == [] then []
    else
      var u := us[|us| - 1];
      ResponseLines(us[..|us| - 1]) + (if u.material.Some? then [Line(u)] else [])
  }

  /** The line of a usage whose material resolves: its cost is unit price times quantity. */
  function Line(u: Usage): (line: ResponseLine)
    requires u.material.Some?
    ensures line.cost == LineCost(u)
  {
    var m := u.material.value;
    ResponseLine(u.materialId, u.quantity, m.name, m.unit, m.unitPrice * u.quantity)
  }

  function TotalCost(lines: seq<ResponseLine>): real
  {
    if lines == [] then 0.0 else TotalCost(lines[..|lines| - 1]) + lines[|lines| - 1].cost
  }

  lemma {:induction false} TotalCostAppend(a: seq<ResponseLine>, b: seq<ResponseLine>)
    ensures TotalCost(a + b) == TotalCost(a) + TotalCost(b)
  {
    if b == [] {
      assert a + b == a;
    } else {
      var b' := b[..|b| - 1];
      assert (a + b)[..|a + b| - 1] == a + b';
      TotalCostAppend(a, b');
    }
  }

  /**
   * The line costs add up to the recipe's material cost: the response lists
   * exactly the usages the cost calculation charges, each at the same cost.
   */
  lemma {:induction false} LinesAddUpToMaterialCost(us: seq<Usage>)
    ensures TotalCost(ResponseLines(us)) == MaterialCost(us)
  {
    if us != [] {
      var init, u := us[..|us| - 1], us[|us| - 1];
      LinesAddUpToMaterialCost(init);
      var tail := if u.material.Some? then [Line(u)] else [];
      TotalCostAppend(ResponseLines(init), tail);
      if u.material.Some? {
        assert tail[..0] == [];
      }
    }
  }

  /** A usage whose material does not resolve gets no line; the others keep their order. */
  lemma {:induction false} ResponseLinesCount(us: seq<Usage>)
    ensures |ResponseLines(us)| == |set i | 0 <= i < |us| && us[i].material.Some?|
  {
    if us != [] {
      var n := |us| - 1;
      var init := us[..n];
      ResponseLinesCount(init);
      var before := set i | 0 <= i < |init| && init[i].material.Some?;
      var after := set i | 0 <= i < |us| && us[i].material.Some?;
      assert before == set i | 0 <= i < n && us[i].material.Some?;
      assert n !in before;
      if us[n].material.Some? {
        assert after == before + {n};
      } else {
        assert after == before;
      }
    }
  }

  /** `format_recipe_response`: the stored fields and one costed line per resolved usage. */
  method FormatRecipeResponse(recipe: Recipe) returns (resp: RecipeResponse)
    ensures resp == RecipeResponse(recipe.id, recipe.userId, recipe.name, recipe.description,
                                   recipe.materialCost, ResponseLines(recipe.usages))
  {
    var lines: seq<ResponseLine> := [];
    var us := recipe.usages;
    for i := 0 to |us|
      invariant lines == ResponseLines(us[..i])
    {
      assert us[..i + 1][..i] == us[..i];
      assert us[..i + 1][i] == us[i];
      if us[i].material.Some? {
        lines := lines + [Line(us[i])];
      }
    }
    assert us[..|us|] == us;
    resp := RecipeResponse(recipe.id, recipe.userId, recipe.name, recipe.description, recipe.materialCost, lines);
  }

  /* ---- The endpoints ---- */

  /**
   * `create_recipe`: a recipe with cost 0, then one usage per request (the
   * first unknown material fails the request and nothing is kept), then the
   * cost recomputed from those usages.
   */
  method CreateRecipe(newId: int, userId: int, name: string, description: Option<string>,
                      requests: seq<UsageRequest>, materials: map<int, MaterialRow>)
    returns (r: Result<Recipe, RecipeError>)
    ensures r.Failure? <==> Resolve(requests, materials, userId).Failure?
    ensures r.Failure? ==> r.error == Resolve(requests, materials, userId).error
    ensures r.Success? ==>
      var recipe := r.value;
      && fresh(recipe)
      && recipe.id == newId && recipe.userId == userId && recipe.name == name && recipe.description == description
      && recipe.usages == Resolve(requests, materials, userId).value
      && recipe.materialCost == MaterialCost(recipe.usages)
  {
    var recipe := new Recipe(newId, userId, name, description);
    var resolved := ResolveUsages(requests, materials, userId);
    if resolved.Failure? {
      return Failure(resolved.error);
    }
    recipe.usages := resolved.value;
    var _ := recipe.CalculateMaterialCost();
    return Success(recipe);
  }

  /**
   * `update_recipe`: the recipe must be the user's. Name and description are
   * set when given. When a material list is given every old usage is deleted,
   * one usage per request inserted and the cost recomputed; without one the
   * usages and the stored cost stay as they were. An unknown material fails
   * the request, which then changes nothing.
   */
  method UpdateRecipe(recipes: map<int, Recipe>, recipeId: int, userId: int, data: RecipeUpdate,
                      materials: map<int, MaterialRow>)
    returns (r: Result<Recipe, RecipeError>)
    modifies recipes.Values
    ensures old(OwnedRecipe(recipes, recipeId, userId)) == null <==> r == Failure(RecipeNotFound)
    ensures r.Failure? && r.error.MaterialNotFound? <==>
      old(OwnedRecipe(recipes, recipeId, userId)) != null
      && data.materials.Some? && Resolve(data.materials.value, materials, userId).Failure?
    ensures r.Failure? && r.error.MaterialNotFound? ==> r.error == Resolve(data.materials.value, materials, userId).error
    ensures r.Failure? ==> forall q :: q in recipes.Values ==> unchanged(q)
    ensures r.Success? ==>
      var recipe := r.value;
      && recipe == old(OwnedRecipe(recipes, recipeId, userId))
      && recipe.userId == old(recipe.userId)
      && recipe.name == data.name.GetOr(old(recipe.name))
      && recipe.description == (if data.description.Some? then data.description else old(recipe.description))
      && (data.materials.None? ==> recipe.usages == old(recipe.usages) && recipe.materialCost == old(recipe.materialCost))
      && (data.materials.Some? ==>
            recipe.usages == Resolve(data.materials.value, materials, userId).value
            && recipe.materialCost == MaterialCost(recipe.usages))
    ensures forall q :: q in recipes.Values && q != old(OwnedRecipe(recipes, recipeId, userId)) ==> unchanged(q)
  {
    var recipe := OwnedRecipe(recipes, recipeId, userId);
    if recipe == null {
      return Failure(RecipeNotFound);
    }
    var usages := recipe.usages;
    if data.materials.Some? {
      var resolved := ResolveUsages(data.materials.value, materials, userId);
      if resolved.Failure? {
        return Failure(resolved.error);
      }
      usages := resolved.value;
    }
    if data.name.Some? {
      recipe.name := data.name.value;
    }
    if data.description.Some? {
      recipe.description := data.description;
    }
    if data.materials.Some? {
      recipe.usages := usages;
      var _ := recipe.CalculateMaterialCost();
    }
    return Success(recipe);
  }

  /**
   * What a create or update response shows: the stored cost, fresh after the
   * usages were replaced, equals the sum of the listed line costs.
   */
  lemma ResponseCostMatchesLines(recipe: RecipeResponse, usages: seq<Usage>)
    requires recipe.materialCost == MaterialCost(usages) && recipe.materials == ResponseLines(usages)
    ensures recipe.materialCost == TotalCost(recipe.materials)
  {
    LinesAddUpToMaterialCost(usages);
  }
}

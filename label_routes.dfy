/**
 * The label endpoints' own logic (app/routes/labels.py): keeping at most one
 * default preset per user when a preset is created or updated, the partial
 * update of a preset, and the print request that picks a preset and the
 * user's products and hands them to the sheet generator.
 */
module LabelRoutes {
  import opened Wrappers
  import opened LabelSettings
  import opened PdfGenerator
  import ProductRoutes

  /** A stored preset and the user it belongs to. */
  datatype Preset = Preset(userId: int, setting: LabelSetting)

  /**
   * What an update request carries: each field is None when the request does
   * not set it; the logo path can be set to null, hence the inner Option.
   */
  datatype SettingUpdate = SettingUpdate(
    presetName: Option<string>,
    labelWidth: Option<real>,
    labelHeight: Option<real>,
    marginTop: Option<real>,
    marginBottom: Option<real>,
    marginLeft: Option<real>,
    marginRight: Option<real>,
    showPrice: Option<bool>,
    showIngredients: Option<bool>,
    showExpiryDate: Option<bool>,
    showStoreName: Option<bool>,
    showLogo: Option<bool>,
    logoPath: Option<Option<string>>,
    isDefault: Option<bool>)

  /** The update schema: a label size, when given, is positive. */
  predicate WellFormedUpdate(u: SettingUpdate)
  {
    && (u.labelWidth.Some? ==> u.labelWidth.value > 0.0)
    && (u.labelHeight.Some? ==> u.labelHeight.value > 0.0)
  }

  /** A print request: at least one product id, an optional preset id and an optional expiry date. */
  datatype PrintRequest = PrintRequest(productIds: seq<int>, labelSettingId: Option<int>, expiryDate: Option<string>)

  /** Why a label request fails: no such preset or no such product (404), or a sheet with no column (500). */
  datatype LabelError = SettingNotFound | ProductsNotFound | LayoutFailure(cause: LayoutError)

  /** A row of the product table as the print route reads it: id, owner and what a label shows. */
  datatype ProductRow = ProductRow(id: int, userId: int, item: PrintItem)

  /* ---- The preset table and its invariant ---- */

  /** Every stored preset has a positive label size. */
  predicate AllPositive(presets: map<int, Preset>)
  {
    forall k :: k in presets ==> PositiveSize(presets[k].setting)
  }

  predicate IsDefaultOf(presets: map<int, Preset>, k: int, userId: int)
  {
    k in presets && presets[k].userId == userId && presets[k].setting.isDefault
  }

  /** No user has two default presets. */
  ghost predicate OneDefaultPerUser(presets: map<int, Preset>)
  {
    forall a, b, u :: IsDefaultOf(presets, a, u) && IsDefaultOf(presets, b, u) ==> a == b
  }

  ghost predicate Invariant(presets: map<int, Preset>)
  {
    AllPositive(presets) && OneDefaultPerUser(presets)
  }

  /**
   * The bulk update `is_default = False` on the user's default presets,
   * sparing the one with id `except`.
   */
  function ClearDefaults(presets: map<int, Preset>, userId: int, except: Option<int>): (r: map<int, Preset>)
    ensures r.Keys == presets.Keys
    ensures forall k :: k in r ==>
      && r[k].userId == presets[k].userId
      && r[k].setting == presets[k].setting.(isDefault := r[k].setting.isDefault)
      && (r[k].setting.isDefault <==> presets[k].setting.isDefault && (presets[k].userId != userId || except == Some(k)))
  {
    map k | k in presets ::
      if presets[k].userId == userId && except != Some(k) then
        presets[k].(setting := presets[k].setting.(isDefault := false))
      else presets[k]
  }

  /** The table after `create_label_setting`: the user's old defaults cleared when the new preset is a default, then the new preset. */
  function Created(presets: map<int, Preset>, newId: int, userId: int, setting: LabelSetting): map<int, Preset>
  {
    (if setting.isDefault then ClearDefaults(presets, userId, None) else presets)[newId := Preset(userId, setting)]
  }

  /**
   * The preset after `setattr` of every field the request sets: each field
   * takes the request's value when the request sets it and keeps its own
   * otherwise, and a well-formed request keeps the label size positive.
   */
  function ApplyUpdate(s: LabelSetting, u: SettingUpdate): (r: LabelSetting)
    ensures r.presetName == (if u.presetName.Some? then u.presetName.value else s.presetName)
    ensures r.labelWidth == (if u.labelWidth.Some? then u.labelWidth.value else s.labelWidth)
    ensures r.labelHeight == (if u.labelHeight.Some? then u.labelHeight.value else s.labelHeight)
    ensures r.marginTop == (if u.marginTop.Some? then u.marginTop.value else s.marginTop)
    ensures r.marginBottom == (if u.marginBottom.Some? then u.marginBottom.value else s.marginBottom)
    ensures r.marginLeft == (if u.marginLeft.Some? then u.marginLeft.value else s.marginLeft)
    ensures r.marginRight == (if u.marginRight.Some? then u.marginRight.value else s.marginRight)
    ensures r.showPrice == (if u.showPrice.Some? then u.showPrice.value else s.showPrice)
    ensures r.showIngredients == (if u.showIngredients.Some? then u.showIngredients.value else s.showIngredients)
    ensures r.showExpiryDate == (if u.showExpiryDate.Some? then u.showExpiryDate.value else s.showExpiryDate)
    ensures r.showStoreName == (if u.showStoreName.Some? then u.showStoreName.value else s.showStoreName)
    ensures r.showLogo == (if u.showLogo.Some? then u.showLogo.value else s.showLogo)
    ensures r.logoPath == (if u.logoPath.Some? then u.logoPath.value else s.logoPath)
    ensures r.isDefault == (if u.isDefault.Some? then u.isDefault.value else s.isDefault)
    ensures WellFormedUpdate(u) && PositiveSize(s) ==> PositiveSize(r)
  {
    LabelSetting(
      u.presetName.GetOr(s.presetName),
      u.labelWidth.GetOr(s.labelWidth),
      u.labelHeight.GetOr(s.labelHeight),
      u.marginTop.GetOr(s.marginTop),
      u.marginBottom.GetOr(s.marginBottom),
      u.marginLeft.GetOr(s.marginLeft),
      u.marginRight.GetOr(s.marginRight),
      u.showPrice.GetOr(s.showPrice),
      u.showIngredients.GetOr(s.showIngredients),
      u.showExpiryDate.GetOr(s.showExpiryDate),
      u.showStoreName.GetOr(s.showStoreName),
      u.showLogo.GetOr(s.showLogo),
      u.logoPath.GetOr(s.logoPath),
      u.isDefault.GetOr(s.isDefault))
  }

  /** The update that sets nothing. */
  const NoChange: SettingUpdate := SettingUpdate(None, None, None, None, None, None, None, None, None, None, None, None, None, None)

  /** An update that sets nothing leaves the preset as it was, and applying an update twice is applying it once. */
  lemma ApplyUpdateLaws(s: LabelSetting, u: SettingUpdate)
    ensures ApplyUpdate(s, NoChange) == s
    ensures ApplyUpdate(ApplyUpdate(s, u), u) == ApplyUpdate(s, u)
  {
  }

  /**
   * The table after `update_label_setting` of an owned preset: when the
   * request makes it the default, the user's other defaults are cleared first;
   * then the preset takes every field the request sets.
   */
  function Updated(presets: map<int, Preset>, settingId: int, userId: int, u: SettingUpdate): map<int, Preset>
    requires settingId in presets
  {
    var cleared := if u.isDefault == Some(true) then ClearDefaults(presets, userId, Some(settingId)) else presets;
    cleared[settingId := Preset(presets[settingId].userId, ApplyUpdate(presets[settingId].setting, u))]
  }

  /**
   * Creating a preset keeps the table's invariant; a new default is then its
   * user's only default, and no other user's preset changes.
   */
  lemma CreatedKeepsInvariant(presets: map<int, Preset>, newId: int, userId: int, setting: LabelSetting)
    requires Invariant(presets) && newId !in presets && PositiveSize(setting)
    ensures Invariant(Created(presets, newId, userId, setting))
    ensures setting.isDefault ==> forall k :: IsDefaultOf(Created(presets, newId, userId, setting), k, userId) ==> k == newId
    ensures forall k :: k in presets && presets[k].userId != userId ==> Created(presets, newId, userId, setting)[k] == presets[k]
  {
    var r := Created(presets, newId, userId, setting);
    forall a, b, u | IsDefaultOf(r, a, u) && IsDefaultOf(r, b, u)
      ensures a == b
    {
      if a != newId && b != newId {
        assert IsDefaultOf(presets, a, u) && IsDefaultOf(presets, b, u);
      }
    }
  }

  /**
   * Updating an owned preset with a well-formed request keeps the table's
   * invariant; when the request makes it the default it is then its user's
   * only default; other users' presets do not change.
   */
  lemma UpdatedKeepsInvariant(presets: map<int, Preset>, settingId: int, userId: int, u: SettingUpdate)
    requires Invariant(presets) && settingId in presets && presets[settingId].userId == userId
    requires WellFormedUpdate(u)
    ensures Invariant(Updated(presets, settingId, userId, u))
    ensures u.isDefault == Some(true) ==> forall k :: IsDefaultOf(Updated(presets, settingId, userId, u), k, userId) ==> k == settingId
    ensures forall k :: k in presets && presets[k].userId != userId ==> Updated(presets, settingId, userId, u)[k] == presets[k]
  {
    var r := Updated(presets, settingId, userId, u);
    forall a, b, w | IsDefaultOf(r, a, w) && IsDefaultOf(r, b, w)
      ensures a == b
    {
      if u.isDefault == Some(true) {
        assert w == userId ==> a == settingId && b == settingId;
        if w != userId {
          assert IsDefaultOf(presets, a, w) && IsDefaultOf(presets, b, w);
        }
      } else if a != settingId && b != settingId {
        assert IsDefaultOf(presets, a, w) && IsDefaultOf(presets, b, w);
      } else if a == settingId {
        assert IsDefaultOf(presets, a, w);
        if b != settingId {
          assert IsDefaultOf(presets, b, w);
        }
      } else {
        assert IsDefaultOf(presets, b, w) && IsDefaultOf(presets, a, w);
      }
    }
  }

  /** The user's preset with this id. */
  function OwnedSetting(presets: map<int, Preset>, id: int, userId: int): (r: Option<LabelSetting>)
    ensures r.Some? <==> id in presets && presets[id].userId == userId
    ensures r.Some? ==> r.value == presets[id].setting
  {
    if id in presets && presets[id].userId == userId then Some(presets[id].setting) else None
  }

  class LabelSettingStore {
    var presets: map<int, Preset>

    constructor ()
      ensures presets == map[] && Invariant(presets)
    {
      presets := map[];
    }

    /**
     * `create_label_setting`: stores the preset under a fresh id and answers
     * the number of labels per sheet.
     */
    method Create(newId: int, userId: int, setting: LabelSetting) returns (labelsPerSheet: int)
      requires Invariant(presets) && newId !in presets && PositiveSize(setting)
      modifies this
      ensures presets == Created(old(presets), newId, userId, setting)
      ensures Invariant(presets)
      ensures labelsPerSheet == CalculateLabelsPerSheet(setting).labelsPerSheet
    {
      CreatedKeepsInvariant(presets, newId, userId, setting);
      if setting.isDefault {
        presets := ClearDefaults(presets, userId, None);
      }
      presets := presets[newId := Preset(userId, setting)];
      labelsPerSheet := CalculateLabelsPerSheet(setting).labelsPerSheet;
    }

    /**
     * `update_label_setting`: 404 unless the preset is the user's; otherwise
     * the table becomes `Updated` and the answer is the new labels per sheet.
     */
    method Update(settingId: int, userId: int, data: SettingUpdate) returns (r: Result<int, LabelError>)
      requires Invariant(presets) && WellFormedUpdate(data)
      modifies this
      ensures Invariant(presets)
      ensures r.Failure? <==> OwnedSetting(old(presets), settingId, userId).None?
      ensures r.Failure? ==> r.error == SettingNotFound && presets == old(presets)
      ensures r.Success? ==>
        && presets == Updated(old(presets), settingId, userId, data)
        && PositiveSize(presets[settingId].setting)
        && r.value == CalculateLabelsPerSheet(presets[settingId].setting).labelsPerSheet
    {
      if OwnedSetting(presets, settingId, userId).None? {
        return Failure(SettingNotFound);
      }
      UpdatedKeepsInvariant(presets, settingId, userId, data);
      var prior := presets[settingId];
      if data.isDefault == Some(true) {
        presets := ClearDefaults(presets, userId, Some(settingId));
      }
      var setting := ApplyUpdate(prior.setting, data);
      presets := presets[settingId := Preset(prior.userId, setting)];
      return Success(CalculateLabelsPerSheet(setting).labelsPerSheet);
    }

    /**
     * The preset a print request uses: with a non-zero id, that preset if it
     * is the user's; otherwise one of the user's default presets, which under
     * the invariant is the user's only default.
     */
    method SelectSetting(settingId: Option<int>, userId: int) returns (r: Option<LabelSetting>)
      ensures ProductRoutes.TruthyId(settingId) ==> r == OwnedSetting(presets, settingId.value, userId)
      ensures !ProductRoutes.TruthyId(settingId) ==>
        && (r.Some? <==> exists k :: IsDefaultOf(presets, k, userId))
        && (r.Some? ==> exists k :: IsDefaultOf(presets, k, userId) && presets[k].setting == r.value)
      ensures !ProductRoutes.TruthyId(settingId) && OneDefaultPerUser(presets) ==>
        forall k :: IsDefaultOf(presets, k, userId) ==> r == Some(presets[k].setting)
    {
      if ProductRoutes.TruthyId(settingId) {
        return OwnedSetting(presets, settingId.value, userId);
      }
      if k :| k in presets && presets[k].userId == userId && presets[k].setting.isDefault {
        assert IsDefaultOf(presets, k, userId);
        return Some(presets[k].setting);
      }
      return None;
    }
  }

  /* ---- Printing ---- */

  /** The products the print query returns: the user's rows whose id was requested, in table order. */
  function Selected(rows: seq<ProductRow>, ids: seq<int>, userId: int): seq<PrintItem>
  {
    if rows == [] then []
    else
      var row := rows[|rows| - 1];
      Selected(rows[..|rows| - 1], ids, userId) + (if row.id in ids && row.userId == userId then [row.item] else [])
  }

  /**
   * An item is printed exactly when it is the item of one of the user's rows
   * whose id was requested; there is never more than one label per row.
   */
  lemma {:induction false} SelectedMembers(rows: seq<ProductRow>, ids: seq<int>, userId: int)
    ensures forall x :: (x in Selected(rows, ids, userId)
      <==> exists i :: 0 <= i < |rows| && rows[i].id in ids && rows[i].userId == userId && rows[i].item == x)
    ensures |Selected(rows, ids, userId)| <= |rows|
  {
    if rows != [] {
      var init := rows[..|rows| - 1];
      SelectedMembers(init, ids, userId);
      assert forall i :: 0 <= i < |init| ==> init[i] == rows[i];
    }
  }

  /**
   * Only which ids were requested matters: their order and repetitions do
   * not change the labels (the query's `IN`), so a repeated id prints once.
   */
  lemma {:induction false} SelectedIgnoresIdOrder(rows: seq<ProductRow>, ids: seq<int>, ids': seq<int>, userId: int)
    requires forall x :: x in ids <==> x in ids'
    ensures Selected(rows, ids, userId) == Selected(rows, ids', userId)
  {
    if rows != [] {
      SelectedIgnoresIdOrder(rows[..|rows| - 1], ids, ids', userId);
    }
  }

  /**
   * `print_labels`: the preset (404 when none), then the user's requested
   * products (404 when none), then the generator built from the preset
   * draws one label per product in query order.
   */
  method PrintLabels(store: LabelSettingStore, request: PrintRequest, userId: int, rows: seq<ProductRow>, storeName: string)
    returns (r: Result<seq<Op>, LabelError>, generator: LabelPdfGenerator?)
    requires |request.productIds| >= 1 && Invariant(store.presets)
    ensures ProductRoutes.TruthyId(request.labelSettingId) ==>
      (r == Failure(SettingNotFound) <==> OwnedSetting(store.presets, request.labelSettingId.value, userId).None?)
    ensures !ProductRoutes.TruthyId(request.labelSettingId) ==>
      (r == Failure(SettingNotFound) <==> !exists k :: IsDefaultOf(store.presets, k, userId))
    ensures r == Failure(ProductsNotFound) <==> r != Failure(SettingNotFound) && Selected(rows, request.productIds, userId) == []
    ensures r.Failure? && r.error.LayoutFailure? ==> generator != null && generator.labelsPerRow == 0
    ensures r.Success? || (r.Failure? && r.error.LayoutFailure?) <==> generator != null
    ensures generator != null ==>
      && fresh(generator)
      && generator.Valid()
      && generator.storeName == storeName
      && (if ProductRoutes.TruthyId(request.labelSettingId)
          then OwnedSetting(store.presets, request.labelSettingId.value, userId) == Some(generator.setting)
          else forall k :: IsDefaultOf(store.presets, k, userId) ==> store.presets[k].setting == generator.setting)
      && (r.Success? <==> generator.labelsPerRow != 0)
      && (r.Success? ==> r.value == generator.Document(Selected(rows, request.productIds, userId), request.expiryDate))
  {
    generator := null;
    var setting := store.SelectSetting(request.labelSettingId, userId);
    if setting.None? {
      return Failure(SettingNotFound), null;
    }
    var items := Selected(rows, request.productIds, userId);
    if items == [] {
      return Failure(ProductsNotFound), null;
    }
    generator := new LabelPdfGenerator(setting.value, storeName);
    var ops := generator.GenerateLabels(items, request.expiryDate);
    if ops.Failure? {
      return Failure(LayoutFailure(ops.error)), generator;
    }
    return Success(ops.value), generator;
  }
}

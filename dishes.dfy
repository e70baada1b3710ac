/** Dishes: parasect's `Dish`, which flattens a dish model (its common
    recipe, the recipe of the selected variant and of the selected
    sub-variant) into three parameter lists: the ingredients, the
    blacklisted parameters and the blacklisted groups. */
module Dishes {
  import opened Wrappers
  import opened Strings
  import opened Parameters
  import opened ParamLists
  import opened Documents

  // ---------------------------------------------------------------------
  // Specification
  // ---------------------------------------------------------------------

  /** The three lists of a dish, as dictionaries. */
  datatype DishLists = DishLists(
    params: map<string, Parameter>,
    blackParams: map<string, Parameter>,
    blackGroups: map<string, Parameter>)

  const NoLists: DishLists := DishLists(map[], map[], map[])

  /** The result of adding substances one by one with `overwrite=False`: the
      dictionary reached and, when an item's name was already present, that
      name (the `KeyError` that ended the loop). */
  datatype Filled = Filled(entries: map<string, Parameter>, clash: Option<string>)

  /** The upper-cased names of a list of substances. */
  function Names(items: seq<Substance>): (ns: seq<string>)
    ensures |ns| == |items|
    ensures forall k :: 0 <= k < |items| ==> ns[k] == Upper(items[k].name)
  {
    seq(|items|, k requires 0 <= k < |items| => Upper(items[k].name))
  }

  /** `parse_substances` on a list of items. */
  function Fill(m: map<string, Parameter>, items: seq<Substance>): Filled
    decreases |items|
  {
    if items == [] then Filled(m, None)
    else
      var p := BuildParamFromIter(items[0]);
      match AddParamSpec(m, p, false, false)
      case Err(_) => Filled(m, Some(p.name))
      case Ok(m') => Fill(m', items[1..])
  }

  /** `parse_substances` on an optional list: `None` adds nothing. */
  function FillOpt(m: map<string, Parameter>, items: Option<seq<Substance>>): Filled {
    if items.None? then Filled(m, None) else Fill(m, items.value)
  }

  /** `parse_recipe(recipe)`: allergens first, swallowing any `KeyError`
      (`groups`, then `substances`); then the ingredients, whose `KeyError`
      escapes. */
  function RecipeSpec(d: DishLists, r: Recipe): Result<DishLists> {
    var d1 := if r.allergens.Some? then
        d.(blackGroups := FillOpt(d.blackGroups, r.allergens.value.groups).entries,
           blackParams := FillOpt(d.blackParams, r.allergens.value.substances).entries)
      else d;
    if r.ingredients.None? then Ok(d1)
    else
      var f := Fill(d1.params, r.ingredients.value);
      if f.clash.Some? then Err(KeyError(f.clash.value)) else Ok(d1.(params := f.entries))
  }

  /** A dictionary of variants that Python finds true: present and non-empty. */
  predicate HasVariants(dm: DishModel) {
    dm.variants.Some? && dm.variants.value != map[]
  }

  /** `get_variant(dish_model, name)`. */
  function GetVariant(dm: DishModel, name: string): (r: Result<Option<DishModel>>)
    ensures !HasVariants(dm) ==> r == Ok(None)
    ensures HasVariants(dm) && name in dm.variants.value ==> r == Ok(Some(dm.variants.value[name]))
    ensures HasVariants(dm) && name !in dm.variants.value ==> r == Err(KeyError(name))
  {
    if HasVariants(dm) then
      if name in dm.variants.value then Ok(Some(dm.variants.value[name])) else Err(KeyError(name))
    else Ok(None)
  }

  /** `get_sn_recipe(model, variant, sn)`. */
  function GetSnRecipe(model: string, variant: DishModel, sn: string): (r: Result<Recipe>)
    ensures !HasVariants(variant) ==> r == Ok(EmptyRecipe)
    ensures HasVariants(variant) && sn !in variant.variants.value ==> r == Err(KeyError(model + "/" + sn))
    ensures HasVariants(variant) && sn in variant.variants.value ==>
      r == Ok(if variant.variants.value[sn].common.Some? then variant.variants.value[sn].common.value else EmptyRecipe)
  {
    if HasVariants(variant) then
      if sn in variant.variants.value then
        var c := variant.variants.value[sn].common;
        Ok(if c.Some? then c.value else EmptyRecipe)
      else Err(KeyError(model + "/" + sn))
    else Ok(EmptyRecipe)
  }

  /** `Dish(dish_model, model, sn)`: the three lists, or the exception. */
  function DishSpec(dm: DishModel, model: Option<string>, sn: Option<string>): Result<DishLists> {
    var d1 :- if dm.common.Some? then RecipeSpec(NoLists, dm.common.value) else Ok(NoLists);
    if model.None? then Ok(d1)
    else
      var v :- GetVariant(dm, model.value);
      if v.None? || v.value.common.None? then Ok(d1)
      else
        var d2 :- RecipeSpec(d1, v.value.common.value);
        if sn.None? then Ok(d2)
        else
          var rec :- GetSnRecipe(model.value, v.value, sn.value);
          RecipeSpec(d2, rec)
  }

  // ---------------------------------------------------------------------
  // Properties of the substance loop
  // ---------------------------------------------------------------------

  /** Entries present before the loop are left as they were. */
  lemma {:induction false} FillKeepsEntries(m: map<string, Parameter>, items: seq<Substance>)
    ensures forall x :: x in m ==> x in Fill(m, items).entries && Fill(m, items).entries[x] == m[x]
    decreases |items|
  {
    if items != [] {
      var p := BuildParamFromIter(items[0]);
      if p.name !in m {
        FillKeepsEntries(m[p.name := p], items[1..]);
      }
    }
  }

  /** The loop completes exactly when the names are pairwise distinct and
      none was present before. */
  lemma {:induction false} FillClashFree(m: map<string, Parameter>, items: seq<Substance>)
    ensures Fill(m, items).clash.None? <==>
      Distinct(Names(items)) && forall k :: 0 <= k < |items| ==> Names(items)[k] !in m
    decreases |items|
  {
    if items != [] {
      var p := BuildParamFromIter(items[0]);
      var ns := Names(items);
      assert Names(items[1..]) == ns[1..];
      if p.name !in m {
        var m' := m[p.name := p];
        FillClashFree(m', items[1..]);
        if Distinct(ns) && forall k :: 0 <= k < |items| ==> ns[k] !in m {
          forall k | 0 <= k < |items[1..]| ensures ns[1..][k] !in m' {
            assert ns[1..][k] == ns[k + 1];
          }
        }
        if Fill(m', items[1..]).clash.None? {
          forall k | 0 <= k < |items| ensures ns[k] !in m {
            if k > 0 { assert ns[k] == ns[1..][k - 1]; }
          }
        }
      } else {
        assert ns[0] in m;
      }
    }
  }

  /** A completed loop holds the old names and the item names, nothing else. */
  lemma {:induction false} FillKeys(m: map<string, Parameter>, items: seq<Substance>)
    requires Fill(m, items).clash.None?
    ensures forall x :: x in Fill(m, items).entries <==> x in m || x in Names(items)
    decreases |items|
  {
    if items != [] {
      var p := BuildParamFromIter(items[0]);
      var ns := Names(items);
      assert Names(items[1..]) == ns[1..];
      assert ns == [ns[0]] + ns[1..];
      FillKeys(m[p.name := p], items[1..]);
    }
  }

  /** When an item clashes, the items before it have been added and nothing
      after it: the rest of the list is abandoned. */
  lemma {:induction false} FillAbandonsRest(m: map<string, Parameter>, items: seq<Substance>)
    requires Fill(m, items).clash.Some?
    ensures exists k :: (0 <= k < |items|
                         && Fill(m, items[..k]).clash.None?
                         && Fill(m, items).entries == Fill(m, items[..k]).entries
                         && Names(items)[k] in Fill(m, items[..k]).entries
                         && Fill(m, items).clash == Some(Names(items)[k]))
    decreases |items|
  {
    var p := BuildParamFromIter(items[0]);
    if p.name in m {
      assert items[..0] == [];
    } else {
      var m' := m[p.name := p];
      FillAbandonsRest(m', items[1..]);
      var k :| 0 <= k < |items[1..]|
        && Fill(m', items[1..][..k]).clash.None?
        && Fill(m', items[1..]).entries == Fill(m', items[1..][..k]).entries
        && Names(items[1..])[k] in Fill(m', items[1..][..k]).entries
        && Fill(m', items[1..]).clash == Some(Names(items[1..])[k]);
      assert items[..k + 1][0] == items[0];
      assert items[..k + 1][1..] == items[1..][..k];
      assert Names(items[1..])[k] == Names(items)[k + 1];
    }
  }

  /** Every entry the loop stores sits under its own name. */
  lemma {:induction false} FillKeyedByName(m: map<string, Parameter>, items: seq<Substance>)
    requires KeyedByName(m)
    ensures KeyedByName(Fill(m, items).entries)
    decreases |items|
  {
    if items != [] {
      var p := BuildParamFromIter(items[0]);
      if p.name !in m {
        FillKeyedByName(m[p.name := p], items[1..]);
      }
    }
  }

  // ---------------------------------------------------------------------
  // Properties of a dish
  // ---------------------------------------------------------------------

  /** A model requested on a dish without variants is ignored. */
  lemma ModelIgnoredWithoutVariants(dm: DishModel, model: string, sn: Option<string>)
    requires !HasVariants(dm)
    ensures DishSpec(dm, Some(model), sn) == DishSpec(dm, None, None)
  {
  }

  /** An unknown variant raises `KeyError` once the common recipe is read. */
  lemma UnknownVariantRaises(dm: DishModel, model: string, sn: Option<string>)
    requires HasVariants(dm) && model !in dm.variants.value
    requires DishSpec(dm, None, None).Ok?
    ensures DishSpec(dm, Some(model), sn) == Err(KeyError(model))
  {
  }

  /** A variant without a common recipe contributes nothing and its
      sub-variants are not looked at. */
  lemma VariantWithoutCommonIgnored(dm: DishModel, model: string, sn: Option<string>)
    requires HasVariants(dm) && model in dm.variants.value
    requires dm.variants.value[model].common.None?
    ensures DishSpec(dm, Some(model), sn) == DishSpec(dm, None, None)
  {
  }

  /** A sub-variant requested on a variant without variants, or whose common
      recipe is empty, contributes nothing. */
  lemma SubmodelWithoutRecipeIgnored(dm: DishModel, model: string, sn: string)
    requires HasVariants(dm) && model in dm.variants.value
    requires var v := dm.variants.value[model];
      !HasVariants(v) || (sn in v.variants.value && v.variants.value[sn].common.None?)
    ensures DishSpec(dm, Some(model), Some(sn)) == DishSpec(dm, Some(model), None)
  {
    var v := dm.variants.value[model];
    var d0 := DishSpec(dm, None, None);
    if d0.Ok? && v.common.Some? {
      var d2 := RecipeSpec(d0.value, v.common.value);
      if d2.Ok? {
        assert GetSnRecipe(model, v, sn) == Ok(EmptyRecipe);
        assert RecipeSpec(d2.value, EmptyRecipe) == Ok(d2.value);
      }
    }
  }

  /** An unknown sub-variant of a variant that has variants raises `KeyError`
      once the common and variant recipes are read. */
  lemma UnknownSubmodelRaises(dm: DishModel, model: string, sn: string)
    requires HasVariants(dm) && model in dm.variants.value
    requires var v := dm.variants.value[model];
      v.common.Some? && HasVariants(v) && sn !in v.variants.value
    requires DishSpec(dm, Some(model), None).Ok?
    ensures DishSpec(dm, Some(model), Some(sn)) == Err(KeyError(model + "/" + sn))
  {
  }

  /** An ingredient named both in the common recipe and in the selected
      variant's recipe makes the dish raise `KeyError`. */
  lemma RepeatedIngredientRaises(dm: DishModel, model: string, sn: Option<string>, i: nat, j: nat)
    requires dm.common.Some? && dm.common.value.ingredients.Some?
    requires HasVariants(dm) && model in dm.variants.value
    requires var v := dm.variants.value[model];
      v.common.Some? && v.common.value.ingredients.Some?
    requires var a := dm.common.value.ingredients.value;
      var b := dm.variants.value[model].common.value.ingredients.value;
      i < |a| && j < |b| && Upper(a[i].name) == Upper(b[j].name)
    ensures DishSpec(dm, Some(model), sn).Err?
    ensures DishSpec(dm, Some(model), sn).error.KeyError?
  {
    var a := dm.common.value.ingredients.value;
    var v := dm.variants.value[model];
    var b := v.common.value.ingredients.value;
    var d1 := RecipeSpec(NoLists, dm.common.value);
    if d1.Ok? {
      var pre := if dm.common.value.allergens.Some? then
          NoLists.(blackGroups := FillOpt(NoLists.blackGroups, dm.common.value.allergens.value.groups).entries,
                   blackParams := FillOpt(NoLists.blackParams, dm.common.value.allergens.value.substances).entries)
        else NoLists;
      FillKeys(pre.params, a);
      assert Names(a)[i] in d1.value.params;
      var mid := if v.common.value.allergens.Some? then
          d1.value.(blackGroups := FillOpt(d1.value.blackGroups, v.common.value.allergens.value.groups).entries,
                    blackParams := FillOpt(d1.value.blackParams, v.common.value.allergens.value.substances).entries)
        else d1.value;
      FillClashFree(mid.params, b);
      assert Names(b)[j] in mid.params;
      assert Fill(mid.params, b).clash.Some?;
    }
  }

  /** Every list of a dish holds each entry under its own name. */
  lemma DishKeyedByName(dm: DishModel, model: Option<string>, sn: Option<string>)
    requires DishSpec(dm, model, sn).Ok?
    ensures var d := DishSpec(dm, model, sn).value;
      KeyedByName(d.params) && KeyedByName(d.blackParams) && KeyedByName(d.blackGroups)
  {
    forall d: DishLists, r: Recipe | KeyedByName(d.params) && KeyedByName(d.blackParams) && KeyedByName(d.blackGroups)
      && RecipeSpec(d, r).Ok?
      ensures var e := RecipeSpec(d, r).value;
        KeyedByName(e.params) && KeyedByName(e.blackParams) && KeyedByName(e.blackGroups)
    {
      RecipeKeyedByName(d, r);
    }
  }

  lemma RecipeKeyedByName(d: DishLists, r: Recipe)
    requires KeyedByName(d.params) && KeyedByName(d.blackParams) && KeyedByName(d.blackGroups)
    requires RecipeSpec(d, r).Ok?
    ensures var e := RecipeSpec(d, r).value;
      KeyedByName(e.params) && KeyedByName(e.blackParams) && KeyedByName(e.blackGroups)
  {
    if r.allergens.Some? {
      if r.allergens.value.groups.Some? { FillKeyedByName(d.blackGroups, r.allergens.value.groups.value); }
      if r.allergens.value.substances.Some? { FillKeyedByName(d.blackParams, r.allergens.value.substances.value); }
    }
    var d1 := if r.allergens.Some? then
        d.(blackGroups := FillOpt(d.blackGroups, r.allergens.value.groups).entries,
           blackParams := FillOpt(d.blackParams, r.allergens.value.substances).entries)
      else d;
    if r.ingredients.Some? { FillKeyedByName(d1.params, r.ingredients.value); }
  }

  // ---------------------------------------------------------------------
  // The Dish object
  // ---------------------------------------------------------------------

  class Dish {
    /** The requested variant (`model`) and sub-variant (`sn`). */
    const name: Option<string>
    const sn: Option<string>
    const paramList: ParameterList
    const blackGroups: ParameterList
    const blackParams: ParameterList

    /** The three lists view three different dictionaries. */
    predicate Separate() {
      paramList.params != blackGroups.params && paramList.params != blackParams.params
      && blackGroups.params != blackParams.params
    }

    function Lists(): DishLists
      reads paramList.params, blackParams.params, blackGroups.params
    {
      DishLists(paramList.params.entries, blackParams.params.entries, blackGroups.params.entries)
    }

    constructor Init(model: Option<string>, sn: Option<string>)
      ensures this.name == model && this.sn == sn && Separate()
      ensures fresh(paramList) && fresh(paramList.params) && fresh(blackGroups) && fresh(blackGroups.params)
      ensures fresh(blackParams) && fresh(blackParams.params)
      ensures Lists() == NoLists
    {
      this.name := model;
      this.sn := sn;
      paramList := new ParameterList.Empty();
      blackGroups := new ParameterList.Empty();
      blackParams := new ParameterList.Empty();
    }

    /** `parse_substances(substances, storage)`: add each item in turn. */
    method ParseSubstances(substances: Option<seq<Substance>>, storage: ParameterList) returns (r: Result<()>)
      modifies storage.params
      ensures var f := FillOpt(old(storage.params.entries), substances);
        storage.params.entries == f.entries
        && (f.clash.None? ==> r.Ok?)
        && (f.clash.Some? ==> r == Err(KeyError(f.clash.value)))
    {
      if substances.None? {
        return Ok(());
      }
      var items := substances.value;
      ghost var spec := Fill(storage.params.entries, items);
      var i := 0;
      while i < |items|
        invariant 0 <= i <= |items|
        invariant Fill(storage.params.entries, items[i..]) == spec
        decreases |items| - i
      {
        assert items[i..][0] == items[i] && items[i..][1..] == items[i + 1..];
        var added := storage.AddParam(BuildParamFromIter(items[i]), false, false);
        if added.Err? {
          return Err(added.error);
        }
        i := i + 1;
      }
      r := Ok(());
    }

    /** `parse_allergens(black_list)`: groups, then parameters, each loop
        ending quietly at its first `KeyError`. */
    method ParseAllergens(black: Allergens)
      requires Separate()
      modifies blackGroups.params, blackParams.params
      ensures blackGroups.params.entries == FillOpt(old(blackGroups.params.entries), black.groups).entries
      ensures blackParams.params.entries == FillOpt(old(blackParams.params.entries), black.substances).entries
    {
      var _ := ParseSubstances(black.groups, blackGroups);
      var _ := ParseSubstances(black.substances, blackParams);
    }

    /** `parse_recipe(recipe)`. */
    method ParseRecipe(recipe: Recipe) returns (r: Result<()>)
      requires Separate()
      modifies paramList.params, blackGroups.params, blackParams.params
      ensures match RecipeSpec(old(Lists()), recipe)
        case Ok(d) => r.Ok? && Lists() == d
        case Err(e) => r == Err(e)
    {
      if recipe.allergens.Some? {
        ParseAllergens(recipe.allergens.value);
      }
      if recipe.ingredients.Some? {
        r := ParseSubstances(recipe.ingredients, paramList);
      } else {
        r := Ok(());
      }
    }

    /** `parse_model_parameters(dish_model, model, sn)`. */
    method ParseModelParameters(dm: DishModel, model: string, sn: Option<string>) returns (r: Result<()>)
      requires Separate()
      modifies paramList.params, blackGroups.params, blackParams.params
      ensures var spec := (
          var v :- GetVariant(dm, model);
          if v.None? || v.value.common.None? then Ok(old(Lists()))
          else
            var d2 :- RecipeSpec(old(Lists()), v.value.common.value);
            if sn.None? then Ok(d2)
            else
              var rec :- GetSnRecipe(model, v.value, sn.value);
              RecipeSpec(d2, rec));
        match spec
        case Ok(d) => r.Ok? && Lists() == d
        case Err(e) => r == Err(e)
    {
      var variant :- GetVariant(dm, model);
      if variant.Some? {
        var common := variant.value.common;
        if common.Some? {
          var done := ParseRecipe(common.value);
          if done.Err? {
            return done;
          }
          if sn.Some? {
            var snRecipe :- GetSnRecipe(model, variant.value, sn.value);
            r := ParseRecipe(snRecipe);
            return;
          }
        }
      }
      r := Ok(());
    }
  }

  /** `Dish(dish_model, model, sn)`: a new dish with its lists filled, or the
      exception its parsing raised. */
  method NewDish(dm: DishModel, model: Option<string>, sn: Option<string>) returns (r: Result<Dish>)
    ensures match DishSpec(dm, model, sn)
      case Ok(d) => r.Ok? && r.value.Lists() == d && r.value.Separate()
        && fresh(r.value) && fresh(r.value.paramList.params)
        && fresh(r.value.blackParams.params) && fresh(r.value.blackGroups.params)
        && r.value.name == model && r.value.sn == sn
      case Err(e) => r == Err(e)
  {
    var dish := new Dish.Init(model, sn);
    if dm.common.Some? {
      var done := dish.ParseRecipe(dm.common.value);
      if done.Err? {
        return Err(done.error);
      }
    }
    if model.Some? {
      var done := dish.ParseModelParameters(dm, model.value, sn);
      if done.Err? {
        return Err(done.error);
      }
    }
    r := Ok(dish);
  }
}

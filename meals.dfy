/** Meals: what `Meal(meals_menu, default_params, configs_path, name)`
    computes, stated as one function over its inputs, stage by stage in the
    order of `Meal.__init__`, with the properties of each stage. The
    imperative `Meal` object that performs these stages is in MealBuild. */
module Meals {
  import opened Wrappers
  import opened Strings
  import opened Parameters
  import opened ParamLists
  import opened Documents
  import opened Dishes
  import opened Readers

  // ---------------------------------------------------------------------
  // Inputs and result
  // ---------------------------------------------------------------------

  /** Everything a meal is built from: the meals menu, the custom dishes by
      name (the YAML files of the custom-dish folder), the reserved option
      names and staple dish names a meal may also list, the default
      parameter file (`None` when none is configured) with the number syntax
      its reader accepts, and the calibration and operator staple dishes. */
  datatype Kitchen = Kitchen(
    menu: map<string, MealEntry>,
    dishes: map<string, DishModel>,
    reserved: set<string>,
    staples: set<string>,
    syn: NumberSyntax,
    defaultFile: Option<ParamFile>,
    calibration: DishModel,
    operator: DishModel)

  /** `read_params(default_params_filepath)`, when a default file is given. */
  function Defaults(k: Kitchen): Option<Result<map<string, Parameter>>> {
    if k.defaultFile.Some? then Some(ReadParamsSpec(k.syn, k.defaultFile.value)) else None
  }

  /** The observable state of a built `Meal`. */
  datatype MealState = MealState(
    name: string,
    frameId: int,
    isSitl: bool,
    isHitl: bool,
    header: Option<string>,
    footer: Option<string>,
    addNew: bool,
    removeCalibration: bool,
    removeOperator: bool,
    params: map<string, Parameter>)

  // ---------------------------------------------------------------------
  // Folds of `add_param` and `remove_param`
  // ---------------------------------------------------------------------

  /** The names of a sequence of parameters. */
  function ParamNames(ps: seq<Parameter>): (ns: seq<string>)
    ensures |ns| == |ps| && forall k :: 0 <= k < |ps| ==> ns[k] == ps[k].name
    decreases |ps|
  {
    if ps == [] then [] else [ps[0].name] + ParamNames(ps[1..])
  }

  /** `add_param(p, safe, overwrite)` for each `p` of `ps` in turn. */
  function AddAll(m: map<string, Parameter>, ps: seq<Parameter>, safe: bool, overwrite: bool)
    : Result<map<string, Parameter>>
    decreases |ps|
  {
    if ps == [] then Ok(m)
    else
      var m' :- AddParamSpec(m, ps[0], safe, overwrite);
      AddAll(m', ps[1..], safe, overwrite)
  }

  /** `remove_param(p)` (with `safe=True`) for each name in turn. */
  function RemoveAll(m: map<string, Parameter>, names: seq<string>): Result<map<string, Parameter>>
    decreases |names|
  {
    if names == [] then Ok(m)
    else
      var m' :- RemoveParamSpec(m, names[0], true);
      RemoveAll(m', names[1..])
  }

  /** With `safe=True` nothing is added: a successful pass leaves the key set
      as it was, and a name missing from `m` makes the pass fail. */
  lemma {:induction false} AddAllSafe(m: map<string, Parameter>, ps: seq<Parameter>, overwrite: bool)
    ensures AddAll(m, ps, true, overwrite).Ok? ==>
      AddAll(m, ps, true, overwrite).value.Keys == m.Keys && forall x :: x in ParamNames(ps) ==> x in m
    ensures (exists x :: x in ParamNames(ps) && x !in m) ==> AddAll(m, ps, true, overwrite).Err?
    decreases |ps|
  {
    if ps != [] {
      var ns := ParamNames(ps);
      assert ParamNames(ps[1..]) == ns[1..];
      assert ns == [ns[0]] + ns[1..];
      var r := AddParamSpec(m, ps[0], true, overwrite);
      if r.Ok? {
        AddAllSafe(r.value, ps[1..], overwrite);
      }
    }
  }

  /** With `safe=False, overwrite=False` a pass succeeds exactly when the
      names are distinct and new. */
  lemma {:induction false} AddAllFreshOk(m: map<string, Parameter>, ps: seq<Parameter>)
    ensures AddAll(m, ps, false, false).Ok? <==>
      Distinct(ParamNames(ps)) && forall x :: x in ParamNames(ps) ==> x !in m
    decreases |ps|
  {
    if ps != [] {
      var ns := ParamNames(ps);
      assert ParamNames(ps[1..]) == ns[1..];
      assert ns == [ns[0]] + ns[1..];
      DistinctCons(ns);
      if ps[0].name !in m {
        var m' := m[ps[0].name := ps[0]];
        AddAllFreshOk(m', ps[1..]);
      } else {
        assert ns[0] in ns;
      }
    }
  }

  /** A successful pass with `safe=False, overwrite=False` keeps the old
      entries and stores every parameter as given. */
  lemma {:induction false} AddAllFreshContents(m: map<string, Parameter>, ps: seq<Parameter>)
    requires AddAll(m, ps, false, false).Ok?
    ensures forall x :: x in AddAll(m, ps, false, false).value <==> x in m || x in ParamNames(ps)
    ensures forall x :: x in m ==> AddAll(m, ps, false, false).value[x] == m[x]
    ensures forall k :: 0 <= k < |ps| ==> ps[k].name in AddAll(m, ps, false, false).value && AddAll(m, ps, false, false).value[ps[k].name] == ps[k]
    decreases |ps|
  {
    if ps != [] {
      var ns := ParamNames(ps);
      assert ParamNames(ps[1..]) == ns[1..];
      assert ns == [ns[0]] + ns[1..];
      AddAllFreshOk(m, ps);
      var m' := m[ps[0].name := ps[0]];
      AddAllFreshContents(m', ps[1..]);
      forall k | 0 <= k < |ps| ensures ps[k].name in AddAll(m, ps, false, false).value && AddAll(m, ps, false, false).value[ps[k].name] == ps[k] {
        if k > 0 { assert ps[k] == ps[1..][k - 1]; }
      }
    }
  }

  /** Removing distinct names succeeds exactly when all are present, and then
      takes away those names and nothing else. */
  lemma {:induction false} RemoveAllOutcome(m: map<string, Parameter>, names: seq<string>)
    requires Distinct(names)
    ensures RemoveAll(m, names).Ok? <==> forall k :: 0 <= k < |names| ==> names[k] in m
    ensures RemoveAll(m, names).Ok? ==>
      (forall x :: x in RemoveAll(m, names).value <==> x in m && x !in names)
      && forall x :: x in RemoveAll(m, names).value ==> RemoveAll(m, names).value[x] == m[x]
    ensures RemoveAll(m, names).Err? ==> RemoveAll(m, names).error.KeyError?
    decreases |names|
  {
    if names != [] {
      assert names == [names[0]] + names[1..];
      if names[0] in m {
        var m' := m - {names[0]};
        RemoveAllOutcome(m', names[1..]);
        forall k | 0 <= k < |names[1..]| ensures names[1..][k] in m' <==> names[1..][k] in m {
          assert names[1..][k] == names[k + 1];
        }
        if RemoveAll(m', names[1..]).Ok? {
          forall k | 0 <= k < |names| ensures names[k] in m {
            if k > 0 { assert names[k] == names[1..][k - 1]; }
          }
        }
      }
    }
  }

  /** Iterating a list visits each parameter under its own key, so the names
      visited are the keys, each once. */
  lemma ItemNames(m: map<string, Parameter>)
    requires KeyedByName(m)
    ensures Distinct(ParamNames(Items(m)))
    ensures forall x :: x in ParamNames(Items(m)) <==> x in m
  {
    SortedKeysDistinct(m.Keys);
    assert ParamNames(Items(m)) == SortedKeys(m.Keys);
  }

  /** Removing the names of a set in ascending order succeeds exactly when
      all are present, and then takes away those names and nothing else. */
  lemma RemoveSorted(m: map<string, Parameter>, names: set<string>)
    ensures RemoveAll(m, SortedKeys(names)).Ok? <==> names <= m.Keys
    ensures RemoveAll(m, SortedKeys(names)).Ok? ==> RemoveAll(m, SortedKeys(names)).value == m - names
    ensures RemoveAll(m, SortedKeys(names)).Err? ==> RemoveAll(m, SortedKeys(names)).error.KeyError?
  {
    SortedKeysDistinct(names);
    RemoveListed(m, SortedKeys(names), names);
  }

  /** `RemoveSorted` for any listing without repeats of the names. */
  lemma RemoveListed(m: map<string, Parameter>, ns: seq<string>, names: set<string>)
    requires Distinct(ns) && forall x :: x in ns <==> x in names
    ensures RemoveAll(m, ns).Ok? <==> names <= m.Keys
    ensures RemoveAll(m, ns).Ok? ==> RemoveAll(m, ns).value == m - names
    ensures RemoveAll(m, ns).Err? ==> RemoveAll(m, ns).error.KeyError?
  {
    RemoveAllOutcome(m, ns);
    if RemoveAll(m, ns).Ok? {
      var r := RemoveAll(m, ns).value;
      assert r.Keys == (m - names).Keys;
    }
    if names <= m.Keys {
      forall k | 0 <= k < |ns| ensures ns[k] in m {
        assert ns[k] in names;
      }
    }
  }

  // ---------------------------------------------------------------------
  // Stages of `Meal.__init__`
  // ---------------------------------------------------------------------

  /** `frame_id`: an integer, a boolean counting as 0 or 1. */
  function FrameNumber(v: EntryValue): (r: Result<int>)
    ensures v.IntV? ==> r == Ok(v.i)
    ensures v.BoolV? ==> r == Ok(if v.b then 1 else 0)
    ensures v.Null? || v.StrV? ==> r.Err? && r.error.TypeError?
  {
    match v
    case IntV(i) => Ok(i)
    case BoolV(b) => Ok(if b then 1 else 0)
    case _ => Err(TypeError("frame_id must be an integer"))
  }

  /** The raw `frame_id` entry, 0 when absent. */
  function FrameEntry(e: MealEntry): EntryValue {
    if e.Has("frame_id") then e.Get("frame_id") else IntV(0)
  }

  /** A `header` or `footer` value: a string or null. */
  function TextOption(v: EntryValue, what: string): (r: Result<Option<string>>)
    ensures v.StrV? ==> r == Ok(Some(v.s))
    ensures v.Null? ==> r == Ok(None)
    ensures r.Err? <==> v.IntV? || v.BoolV?
  {
    match v
    case StrV(s) => Ok(Some(s))
    case Null => Ok(None)
    case _ => Err(TypeError(what + " must be of type str or None."))
  }

  /** `parse_header_footer(meal_dict)`: the parent's texts, then the meal's own. */
  function HeaderFooter(e: MealEntry, parent: Option<MealState>): (r: Result<(Option<string>, Option<string>)>)
    ensures e.Has("header") && r.Ok? ==> TextOption(e.Get("header"), "header") == Ok(r.value.0)
    ensures e.Has("footer") && r.Ok? ==> TextOption(e.Get("footer"), "footer") == Ok(r.value.1)
    ensures !e.Has("header") && r.Ok? ==> r.value.0 == (if parent.Some? then parent.value.header else None)
    ensures !e.Has("footer") && r.Ok? ==> r.value.1 == (if parent.Some? then parent.value.footer else None)
    ensures r.Err? <==>
      (e.Has("header") && TextOption(e.Get("header"), "header").Err?)
      || (e.Has("footer") && TextOption(e.Get("footer"), "footer").Err?)
  {
    var h0 := if parent.Some? then parent.value.header else None;
    var f0 := if parent.Some? then parent.value.footer else None;
    var h :- if e.Has("header") then TextOption(e.Get("header"), "header") else Ok(h0);
    var f :- if e.Has("footer") then TextOption(e.Get("footer"), "footer") else Ok(f0);
    Ok((h, f))
  }

  /** `decide_on_calibration` / `decide_on_operator`: a boolean if given,
      false otherwise. */
  function DecideFlag(e: MealEntry, key: string): (r: Result<bool>)
    ensures !e.Has(key) ==> r == Ok(false)
    ensures e.Has(key) && e.Get(key).BoolV? ==> r == Ok(e.Get(key).b)
    ensures e.Has(key) && !e.Get(key).BoolV? ==> r.Err? && r.error.TypeError?
  {
    if !e.Has(key) then Ok(false)
    else if e.Get(key).BoolV? then Ok(e.Get(key).b)
    else Err(TypeError(key + " flag is not a boolean"))
  }

  /** `load_base_parameters`: the parent's list, or else the default list,
      or else an empty list. */
  function BaseList(k: Kitchen, parent: Option<MealState>): Result<map<string, Parameter>> {
    if parent.Some? then Ok(parent.value.params)
    else if Defaults(k).Some? then Defaults(k).value
    else Ok(map[])
  }

  /** Whether new parameters may be added: an explicit `add_new` entry
      decides by its truth value; otherwise only a meal with neither a
      default list nor a parent may add. */
  function AddNewPolicy(k: Kitchen, e: MealEntry, parent: Option<MealState>): bool {
    if e.Has("add_new") then Truthy(e.Get("add_new"))
    else !(k.defaultFile.Some? || parent.Some?)
  }

  /** The `model/sn` designation of a dish entry. */
  function ParseDesignation(v: EntryValue): Result<(Option<string>, Option<string>)> {
    match v
    case Null => Ok((None, None))
    case IntV(_) => Err(TypeError("meal designation cannot be of type int."))
    case BoolV(_) => Err(TypeError("meal designation cannot be of type int."))
    case StrV(s) =>
      var parts := Split(s, '/');
      Ok((Some(parts[0]), if |parts| > 1 then Some(parts[1]) else None))
  }

  /** "m" designates model m alone, null designates neither, and an integer
      is rejected. */
  lemma DesignationModelOnly(m: string)
    requires '/' !in m
    ensures ParseDesignation(StrV(m)) == Ok((Some(m), None))
    ensures ParseDesignation(Null) == Ok((None, None))
    ensures forall i :: ParseDesignation(IntV(i)).Err? && ParseDesignation(IntV(i)).error.TypeError?
  {
    SplitNoSeparator(m, '/');
  }

  /** "m/s" designates model m and sub-model s. */
  lemma DesignationWithSubmodel(m: string, s: string)
    requires '/' !in m && '/' !in s
    ensures ParseDesignation(StrV(m + "/" + s)) == Ok((Some(m), Some(s)))
  {
    SplitAtFirst(m, s, '/');
    SplitNoSeparator(s, '/');
    assert m + "/" + s == m + ['/'] + s;
  }

  /** Segments after the second are ignored. */
  lemma DesignationExtraSegments(m: string, s: string, rest: string)
    requires '/' !in m && '/' !in s
    ensures ParseDesignation(StrV(m + "/" + s + "/" + rest)) == Ok((Some(m), Some(s)))
  {
    SplitAtFirst(m, s + "/" + rest, '/');
    SplitAtFirst(s, rest, '/');
    assert m + "/" + s + "/" + rest == m + ['/'] + (s + ['/'] + rest);
  }

  /** `collect_dishes(meal_dict)` over the remaining keys: the dishes built
      for the custom-dish keys, in key order. */
  function CollectDishes(k: Kitchen, e: MealEntry, keys: seq<string>): Result<seq<DishLists>>
    decreases |keys|
  {
    if keys == [] then Ok([])
    else
      var key := keys[0];
      if key !in k.dishes then
        if key in k.reserved || key in k.staples then CollectDishes(k, e, keys[1..])
        else Err(KeyError(key))
      else
        var designation :- ParseDesignation(e.Get(key));
        var d :- DishSpec(k.dishes[key], designation.0, designation.1);
        var rest :- CollectDishes(k, e, keys[1..]);
        Ok([d] + rest)
  }

  /** A key that is neither a custom dish, a reserved option nor a staple
      dish makes the collection fail, wherever it stands; when it is the
      first key that is not a reserved option or staple, with `KeyError`.  */
  lemma {:induction false} UnknownKeyRaises(k: Kitchen, e: MealEntry, keys: seq<string>, j: nat)
    requires j < |keys| && keys[j] !in k.dishes && keys[j] !in k.reserved && keys[j] !in k.staples
    ensures CollectDishes(k, e, keys).Err?
    ensures (forall i :: 0 <= i < j ==> keys[i] !in k.dishes && (keys[i] in k.reserved || keys[i] in k.staples)) ==>
      CollectDishes(k, e, keys) == Err(KeyError(keys[j]))
    decreases j
  {
    if j > 0 {
      assert keys[1..][j - 1] == keys[j];
      UnknownKeyRaises(k, e, keys[1..], j - 1);
      if forall i :: 0 <= i < j ==> keys[i] !in k.dishes && (keys[i] in k.reserved || keys[i] in k.staples) {
        forall i | 0 <= i < j - 1
          ensures keys[1..][i] !in k.dishes && (keys[1..][i] in k.reserved || keys[1..][i] in k.staples)
        {
          assert keys[1..][i] == keys[i + 1];
        }
      }
    }
  }

  /** The dishes `acc` followed by those `r` collects, or `r`'s exception. */
  function Prepend(acc: seq<DishLists>, r: Result<seq<DishLists>>): Result<seq<DishLists>> {
    if r.Ok? then Ok(acc + r.value) else r
  }

  lemma PrependNothing(r: Result<seq<DishLists>>)
    ensures Prepend([], r) == r
  {
    if r.Ok? {
      assert [] + r.value == r.value;
    }
  }

  /** Collecting one more dish `d` before the rest moves it onto `acc`. */
  lemma PrependStep(acc: seq<DishLists>, d: DishLists, r: Result<seq<DishLists>>)
    ensures r.Ok? ==> Prepend(acc, Ok([d] + r.value)) == Prepend(acc + [d], r)
  {
    if r.Ok? {
      assert acc + ([d] + r.value) == acc + [d] + r.value;
    }
  }

  /** One collected dish per custom-dish key, each keyed by name. */
  lemma {:induction false} CollectedKeyedByName(k: Kitchen, e: MealEntry, keys: seq<string>)
    requires CollectDishes(k, e, keys).Ok?
    ensures forall i :: 0 <= i < |CollectDishes(k, e, keys).value| ==> AllKeyedByName(CollectDishes(k, e, keys).value[i])
    decreases |keys|
  {
    if keys != [] {
      CollectedKeyedByName(k, e, keys[1..]);
      var key := keys[0];
      if key in k.dishes {
        var designation := ParseDesignation(e.Get(key)).value;
        DishKeyedByName(k.dishes[key], designation.0, designation.1);
      }
    }
  }

  /** The three lists of one kind that flattening reads. */
  datatype Kind = Ingredients | BlackParams | BlackGroups

  function Pick(d: DishLists, c: Kind): map<string, Parameter> {
    match c
    case Ingredients => d.params
    case BlackParams => d.blackParams
    case BlackGroups => d.blackGroups
  }

  /** The lists of one kind, dish by dish. */
  function Column(dishes: seq<DishLists>, c: Kind): (ls: seq<map<string, Parameter>>)
    ensures |ls| == |dishes| && forall i :: 0 <= i < |dishes| ==> ls[i] == Pick(dishes[i], c)
    decreases |dishes|
  {
    if dishes == [] then [] else [Pick(dishes[0], c)] + Column(dishes[1..], c)
  }

  predicate AllKeyedByName(d: DishLists) {
    KeyedByName(d.params) && KeyedByName(d.blackParams) && KeyedByName(d.blackGroups)
  }

  /** `collect_parameter_lists(dishes)`: each dish's ingredients, blacklisted
      parameters and blacklisted groups added with `overwrite=False`. */
  function Flatten(acc: DishLists, dishes: seq<DishLists>): Result<DishLists>
    decreases |dishes|
  {
    if dishes == [] then Ok(acc)
    else
      var next :- FlattenOne(acc, dishes[0]);
      Flatten(next, dishes[1..])
  }

  /** One step of `collect_parameter_lists`: the lists of dish `d` added to
      the three accumulated lists. */
  function FlattenOne(acc: DishLists, d: DishLists): Result<DishLists> {
    var p :- AddAll(acc.params, Items(d.params), false, false);
    var bp :- AddAll(acc.blackParams, Items(d.blackParams), false, false);
    var bg :- AddAll(acc.blackGroups, Items(d.blackGroups), false, false);
    Ok(DishLists(p, bp, bg))
  }

  /** The lists `ls` added one after the other with `overwrite=False`. */
  function AddLists(acc: map<string, Parameter>, ls: seq<map<string, Parameter>>): Result<map<string, Parameter>>
    decreases |ls|
  {
    if ls == [] then Ok(acc)
    else
      var m :- AddAll(acc, Items(ls[0]), false, false);
      AddLists(m, ls[1..])
  }

  /** The three kinds are flattened independently of one another. */
  lemma {:induction false} FlattenByKind(acc: DishLists, dishes: seq<DishLists>)
    ensures Flatten(acc, dishes).Ok? <==>
      AddLists(acc.params, Column(dishes, Ingredients)).Ok?
      && AddLists(acc.blackParams, Column(dishes, BlackParams)).Ok?
      && AddLists(acc.blackGroups, Column(dishes, BlackGroups)).Ok?
    ensures Flatten(acc, dishes).Ok? ==> Flatten(acc, dishes).value == DishLists(
      AddLists(acc.params, Column(dishes, Ingredients)).value,
      AddLists(acc.blackParams, Column(dishes, BlackParams)).value,
      AddLists(acc.blackGroups, Column(dishes, BlackGroups)).value)
    decreases |dishes|
  {
    if dishes != [] {
      var d := dishes[0];
      assert Column(dishes, Ingredients)[1..] == Column(dishes[1..], Ingredients);
      assert Column(dishes, BlackParams)[1..] == Column(dishes[1..], BlackParams);
      assert Column(dishes, BlackGroups)[1..] == Column(dishes[1..], BlackGroups);
      var rp := AddAll(acc.params, Items(d.params), false, false);
      var rbp := AddAll(acc.blackParams, Items(d.blackParams), false, false);
      var rbg := AddAll(acc.blackGroups, Items(d.blackGroups), false, false);
      if rp.Ok? && rbp.Ok? && rbg.Ok? {
        FlattenByKind(DishLists(rp.value, rbp.value, rbg.value), dishes[1..]);
      }
    }
  }

  /** The name is a key of one of the lists. */
  predicate InSome(ls: seq<map<string, Parameter>>, x: string) {
    exists i :: 0 <= i < |ls| && x in ls[i]
  }

  /** No name occurs twice across the accumulator and the lists. */
  predicate Disjoint(acc: map<string, Parameter>, ls: seq<map<string, Parameter>>) {
    (forall i, x :: 0 <= i < |ls| && x in ls[i] ==> x !in acc)
    && forall i, j, x :: 0 <= i < j < |ls| && x in ls[i] ==> x !in ls[j]
  }

  /** With `overwrite=False` the entries already present are never touched. */
  lemma {:induction false} AddAllKeeps(m: map<string, Parameter>, ps: seq<Parameter>)
    requires AddAll(m, ps, false, false).Ok?
    ensures forall x :: x in m ==> x in AddAll(m, ps, false, false).value && AddAll(m, ps, false, false).value[x] == m[x]
    decreases |ps|
  {
    if ps != [] {
      AddAllKeeps(m[ps[0].name := ps[0]], ps[1..]);
    }
  }

  /** One list added to the accumulator: it succeeds exactly when no key is
      shared, and yields the union. */
  lemma AddList(acc: map<string, Parameter>, d: map<string, Parameter>)
    requires KeyedByName(d)
    ensures AddAll(acc, Items(d), false, false).Ok? <==> forall x :: x in d ==> x !in acc
    ensures AddAll(acc, Items(d), false, false).Ok? ==>
      (forall x :: x in AddAll(acc, Items(d), false, false).value <==> x in acc || x in d)
      && (forall x :: x in acc ==> AddAll(acc, Items(d), false, false).value[x] == acc[x])
      && (forall x :: x in d ==> AddAll(acc, Items(d), false, false).value[x] == d[x])
  {
    ItemNames(d);
    var ps := Items(d);
    forall k | 0 <= k < |ps| ensures ps[k].name in d && ps[k] == d[ps[k].name] {
      assert ps[k] == d[SortedKeys(d.Keys)[k]];
    }
    AddNamedList(acc, ps, d);
  }

  /** `AddList` for any listing `ps` of the entries of `d`. */
  lemma AddNamedList(acc: map<string, Parameter>, ps: seq<Parameter>, d: map<string, Parameter>)
    requires Distinct(ParamNames(ps)) && forall x :: x in ParamNames(ps) <==> x in d
    requires forall k :: 0 <= k < |ps| ==> ps[k].name in d && ps[k] == d[ps[k].name]
    ensures AddAll(acc, ps, false, false).Ok? <==> forall x :: x in d ==> x !in acc
    ensures AddAll(acc, ps, false, false).Ok? ==>
      (forall x :: x in AddAll(acc, ps, false, false).value <==> x in acc || x in d)
      && (forall x :: x in acc ==> AddAll(acc, ps, false, false).value[x] == acc[x])
      && (forall x :: x in d ==> AddAll(acc, ps, false, false).value[x] == d[x])
  {
    AddAllFreshOk(acc, ps);
    var r := AddAll(acc, ps, false, false);
    if r.Ok? {
      AddAllFreshContents(acc, ps);
      forall x | x in d ensures r.value[x] == d[x] {
        var k :| 0 <= k < |ps| && ParamNames(ps)[k] == x;
      }
    }
  }

  /** Disjointness after one step. */
  lemma DisjointStep(acc: map<string, Parameter>, acc': map<string, Parameter>, ls: seq<map<string, Parameter>>)
    requires |ls| > 0
    requires forall x :: x in ls[0] ==> x !in acc
    requires forall x :: x in acc' <==> x in acc || x in ls[0]
    ensures Disjoint(acc', ls[1..]) <==> Disjoint(acc, ls)
  {
    var tail := ls[1..];
    if Disjoint(acc, ls) {
      forall i, x | 0 <= i < |tail| && x in tail[i] ensures x !in acc' {
        assert tail[i] == ls[i + 1];
      }
      forall i, j, x | 0 <= i < j < |tail| && x in tail[i] ensures x !in tail[j] {
        assert tail[i] == ls[i + 1] && tail[j] == ls[j + 1];
      }
    }
    if Disjoint(acc', tail) {
      forall i, x | 0 <= i < |ls| && x in ls[i] ensures x !in acc {
        if i > 0 { assert tail[i - 1] == ls[i]; }
      }
      forall i, j, x | 0 <= i < j < |ls| && x in ls[i] ensures x !in ls[j] {
        assert tail[j - 1] == ls[j];
        if i > 0 { assert tail[i - 1] == ls[i]; }
      }
    }
  }

  /** Adding the lists succeeds exactly when they share no name with each
      other or with the accumulator. */
  lemma {:induction false} AddListsSucceeds(acc: map<string, Parameter>, ls: seq<map<string, Parameter>>)
    requires forall i :: 0 <= i < |ls| ==> KeyedByName(ls[i])
    ensures AddLists(acc, ls).Ok? <==> Disjoint(acc, ls)
    decreases |ls|
  {
    if ls != [] {
      AddList(acc, ls[0]);
      var r := AddAll(acc, Items(ls[0]), false, false);
      if r.Ok? {
        AddListsSucceeds(r.value, ls[1..]);
        DisjointStep(acc, r.value, ls);
      } else {
        assert !Disjoint(acc, ls);
      }
    }
  }

  lemma InSomeCons(ls: seq<map<string, Parameter>>, x: string)
    requires ls != []
    ensures InSome(ls, x) <==> x in ls[0] || InSome(ls[1..], x)
  {
    var tail := ls[1..];
    if InSome(ls, x) {
      var i :| 0 <= i < |ls| && x in ls[i];
      if i > 0 { assert tail[i - 1] == ls[i]; }
    }
    if InSome(tail, x) {
      var i :| 0 <= i < |tail| && x in tail[i];
      assert ls[i + 1] == tail[i];
    }
  }

  /** A successful addition of the lists holds the names of the accumulator
      and of every list, and no other. */
  lemma {:induction false} AddListsKeys(acc: map<string, Parameter>, ls: seq<map<string, Parameter>>)
    requires forall i :: 0 <= i < |ls| ==> KeyedByName(ls[i])
    requires AddLists(acc, ls).Ok?
    ensures forall x :: x in AddLists(acc, ls).value <==> x in acc || InSome(ls, x)
    decreases |ls|
  {
    if ls != [] {
      AddList(acc, ls[0]);
      var m := AddAll(acc, Items(ls[0]), false, false).value;
      AddListsKeys(m, ls[1..]);
      forall x ensures InSome(ls, x) <==> x in ls[0] || InSome(ls[1..], x) {
        InSomeCons(ls, x);
      }
    }
  }

  /** A successful addition of the lists keeps the accumulator's entries. */
  lemma {:induction false} AddListsKeeps(acc: map<string, Parameter>, ls: seq<map<string, Parameter>>)
    requires AddLists(acc, ls).Ok?
    ensures forall x :: x in acc ==> x in AddLists(acc, ls).value && AddLists(acc, ls).value[x] == acc[x]
    decreases |ls|
  {
    if ls != [] {
      AddAllKeeps(acc, Items(ls[0]));
      AddListsKeeps(AddAll(acc, Items(ls[0]), false, false).value, ls[1..]);
    }
  }

  /** The first list's entries survive the addition of the later lists. */
  lemma AddListsFirst(acc: map<string, Parameter>, ls: seq<map<string, Parameter>>, x: string)
    requires AddLists(acc, ls).Ok?
    requires 0 < |ls| && x in ls[0] && KeyedByName(ls[0])
    ensures x in AddLists(acc, ls).value && AddLists(acc, ls).value[x] == ls[0][x]
  {
    AddList(acc, ls[0]);
    AddListsKeeps(AddAll(acc, Items(ls[0]), false, false).value, ls[1..]);
  }

  /** A later list's entries survive the addition of the first list. */
  lemma AddListsStep(acc: map<string, Parameter>, ls: seq<map<string, Parameter>>, i: nat, x: string)
    requires AddLists(acc, ls).Ok?
    requires 0 < i < |ls| && x in ls[i] && KeyedByName(ls[i])
    ensures x in AddLists(acc, ls).value && AddLists(acc, ls).value[x] == ls[i][x]
    decreases i, 0
  {
    var r := AddAll(acc, Items(ls[0]), false, false);
    assert r.Ok?;
    var tail := ls[1..];
    assert AddLists(acc, ls) == AddLists(r.value, tail);
    assert tail[i - 1] == ls[i];
    AddListsValue(r.value, tail, i - 1, x);
  }

  /** A successful addition of the lists stores every entry of every list as
      that list gave it. */
  lemma {:induction false} AddListsValue(acc: map<string, Parameter>, ls: seq<map<string, Parameter>>, i: nat, x: string)
    requires AddLists(acc, ls).Ok?
    requires i < |ls| && x in ls[i] && KeyedByName(ls[i])
    ensures x in AddLists(acc, ls).value && AddLists(acc, ls).value[x] == ls[i][x]
    decreases i, 1
  {
    if i == 0 {
      AddListsFirst(acc, ls, x);
    } else {
      AddListsStep(acc, ls, i, x);
    }
  }

  lemma ColumnKeyedByName(dishes: seq<DishLists>, c: Kind)
    requires forall i :: 0 <= i < |dishes| ==> AllKeyedByName(dishes[i])
    ensures forall i :: 0 <= i < |Column(dishes, c)| ==> KeyedByName(Column(dishes, c)[i])
  {
  }

  /** `collect_parameter_lists` succeeds exactly when no two dishes share an
      ingredient, a blacklisted parameter or a blacklisted group. */
  lemma FlattenOutcome(dishes: seq<DishLists>)
    requires forall i :: 0 <= i < |dishes| ==> AllKeyedByName(dishes[i])
    ensures Flatten(NoLists, dishes).Ok? <==>
      Disjoint(map[], Column(dishes, Ingredients)) && Disjoint(map[], Column(dishes, BlackParams))
      && Disjoint(map[], Column(dishes, BlackGroups))
  {
    FlattenByKind(NoLists, dishes);
    ColumnKeyedByName(dishes, Ingredients);
    ColumnKeyedByName(dishes, BlackParams);
    ColumnKeyedByName(dishes, BlackGroups);
    AddListsSucceeds(map[], Column(dishes, Ingredients));
    AddListsSucceeds(map[], Column(dishes, BlackParams));
    AddListsSucceeds(map[], Column(dishes, BlackGroups));
  }

  /** `apply_edits` when `add_new` holds and a default list exists: each edit
      takes the type the default list gives its name, and a name the default
      list lacks raises `KeyError`. */
  function AdoptAndAdd(m: map<string, Parameter>, ps: seq<Parameter>, defaults: map<string, Parameter>)
    : Result<map<string, Parameter>>
    decreases |ps|
  {
    if ps == [] then Ok(m)
    else if ps[0].name !in defaults then Err(KeyError(ps[0].name))
    else
      var m' :- AddParamSpec(m, ps[0].(paramType := defaults[ps[0].name].paramType), false, true);
      AdoptAndAdd(m', ps[1..], defaults)
  }

  /** With a default list, every edit must be a default parameter; a
      successful pass holds the old names and the edited ones. */
  lemma {:induction false} AdoptAndAddKeys(m: map<string, Parameter>, ps: seq<Parameter>, defaults: map<string, Parameter>)
    ensures AdoptAndAdd(m, ps, defaults).Ok? ==> forall x :: x in ParamNames(ps) ==> x in defaults
    ensures AdoptAndAdd(m, ps, defaults).Ok? ==>
      forall x :: x in AdoptAndAdd(m, ps, defaults).value <==> x in m || x in ParamNames(ps)
    decreases |ps|
  {
    if ps != [] && ps[0].name in defaults {
      var p := ps[0].(paramType := defaults[ps[0].name].paramType);
      var r := AddParamSpec(m, p, false, true);
      var ns := ParamNames(ps);
      assert ParamNames(ps[1..]) == ns[1..];
      assert ns == [ns[0]] + ns[1..];
      if r.Ok? {
        AdoptAndAddKeys(r.value, ps[1..], defaults);
      }
    }
  }

  /** Every parameter the pass introduces (the names not in `base`) carries
      the type of its default; later edits of the same name keep that type. */
  lemma {:induction false} AdoptAndAddTypes(base: map<string, Parameter>, m: map<string, Parameter>, ps: seq<Parameter>, defaults: map<string, Parameter>)
    requires forall x :: x in m && x !in base ==> x in defaults && m[x].paramType == defaults[x].paramType
    ensures AdoptAndAdd(m, ps, defaults).Ok? ==> forall x :: x in AdoptAndAdd(m, ps, defaults).value && x !in base ==>
      x in defaults && AdoptAndAdd(m, ps, defaults).value[x].paramType == defaults[x].paramType
    decreases |ps|
  {
    if ps != [] && ps[0].name in defaults {
      var p := ps[0].(paramType := defaults[ps[0].name].paramType);
      var r := AddParamSpec(m, p, false, true);
      if r.Ok? {
        AdoptAndAddTypes(base, r.value, ps[1..], defaults);
      }
    }
  }

  /** `apply_edits(edited, defaults)`. */
  function ApplyEdits(m: map<string, Parameter>, edits: map<string, Parameter>, addNew: bool,
                      defaults: Option<Result<map<string, Parameter>>>): Result<map<string, Parameter>> {
    if !addNew then AddAll(m, Items(edits), true, true)
    else if defaults.None? then AddAll(m, Items(edits), false, true)
    else
      var d :- defaults.value;
      AdoptAndAdd(m, Items(edits), d)
  }

  /** Without `add_new`, every edited name must already be in the base list
      (`KeyError` otherwise) and the key set does not change. */
  lemma EditsWithoutAddNew(m: map<string, Parameter>, edits: map<string, Parameter>, defaults: Option<Result<map<string, Parameter>>>)
    requires KeyedByName(edits)
    ensures ApplyEdits(m, edits, false, defaults).Ok? ==>
      ApplyEdits(m, edits, false, defaults).value.Keys == m.Keys && edits.Keys <= m.Keys
    ensures !(edits.Keys <= m.Keys) ==> ApplyEdits(m, edits, false, defaults).Err?
  {
    ItemNames(edits);
    AddAllSafe(m, Items(edits), true);
  }

  /** With `add_new` and a default list, every edited name must be a default
      parameter (`KeyError` otherwise); the result holds the base names and
      the edited names, each new one typed as its default. */
  lemma EditsWithAddNew(m: map<string, Parameter>, edits: map<string, Parameter>, d: map<string, Parameter>)
    requires KeyedByName(edits)
    ensures ApplyEdits(m, edits, true, Some(Ok(d))).Ok? ==>
      edits.Keys <= d.Keys && ApplyEdits(m, edits, true, Some(Ok(d))).value.Keys == m.Keys + edits.Keys
  {
    assert ApplyEdits(m, edits, true, Some(Ok(d))) == AdoptAndAdd(m, Items(edits), d);
    if AdoptAndAdd(m, Items(edits), d).Ok? {
      ItemNames(edits);
      AdoptedKeys(m, Items(edits), d, edits.Keys);
    }
  }

  lemma AdoptedKeys(m: map<string, Parameter>, ps: seq<Parameter>, d: map<string, Parameter>, names: set<string>)
    requires forall x :: x in ParamNames(ps) <==> x in names
    requires AdoptAndAdd(m, ps, d).Ok?
    ensures names <= d.Keys && AdoptAndAdd(m, ps, d).value.Keys == m.Keys + names
  {
    AdoptAndAddKeys(m, ps, d);
  }

  /** With `add_new` and a default list, each new parameter takes the type
      its default has. */
  lemma EditsWithAddNewTypes(m: map<string, Parameter>, edits: map<string, Parameter>, d: map<string, Parameter>)
    requires KeyedByName(edits)
    requires ApplyEdits(m, edits, true, Some(Ok(d))).Ok?
    ensures forall x :: x in edits ==> x in d && x in ApplyEdits(m, edits, true, Some(Ok(d))).value
    ensures forall x :: x in edits && x !in m ==> ApplyEdits(m, edits, true, Some(Ok(d))).value[x].paramType == d[x].paramType
  {
    var ps := Items(edits);
    assert ApplyEdits(m, edits, true, Some(Ok(d))) == AdoptAndAdd(m, ps, d);
    ItemNames(edits);
    AdoptAndAddKeys(m, ps, d);
    AdoptAndAddTypes(m, m, ps, d);
  }

  /** A parameter `remove_blacklist` drops: its group is a blacklisted group
      or its name a blacklisted name. */
  predicate Blacklisted(p: Parameter, blackParams: set<string>, blackGroups: set<string>) {
    (p.group.Some? && p.group.value in blackGroups) || p.name in blackParams
  }

  /** `remove_blacklist(black_params, black_groups)`. */
  function RemoveBlacklist(m: map<string, Parameter>, blackParams: set<string>, blackGroups: set<string>)
    : map<string, Parameter>
  {
    map k | k in m && !Blacklisted(m[k], blackParams, blackGroups) :: m[k]
  }

  /** After blacklist removal no entry has a blacklisted group or name, and
      every other entry survives unchanged. */
  lemma BlacklistComplete(m: map<string, Parameter>, blackParams: set<string>, blackGroups: set<string>)
    ensures forall x :: x in RemoveBlacklist(m, blackParams, blackGroups) ==>
      x in m && !Blacklisted(RemoveBlacklist(m, blackParams, blackGroups)[x], blackParams, blackGroups)
    ensures forall x :: x in m && !Blacklisted(m[x], blackParams, blackGroups) ==>
      x in RemoveBlacklist(m, blackParams, blackGroups) && RemoveBlacklist(m, blackParams, blackGroups)[x] == m[x]
  {
  }

  /** `remove_calibration` / `remove_operator`: build the staple dish and
      remove each of its parameters, in name order. */
  function RemoveStaple(m: map<string, Parameter>, dm: DishModel): Result<map<string, Parameter>> {
    var d :- DishSpec(dm, None, None);
    RemoveAll(m, SortedKeys(d.params.Keys))
  }

  /** Stripping a staple dish removes all its names and nothing else, and
      raises `KeyError` when the list lacks one of them. */
  lemma RemoveStapleOutcome(m: map<string, Parameter>, dm: DishModel)
    requires DishSpec(dm, None, None).Ok?
    ensures RemoveStaple(m, dm).Ok? <==> DishSpec(dm, None, None).value.params.Keys <= m.Keys
    ensures RemoveStaple(m, dm).Ok? ==> RemoveStaple(m, dm).value == m - DishSpec(dm, None, None).value.params.Keys
    ensures RemoveStaple(m, dm).Err? ==> RemoveStaple(m, dm).error.KeyError?
  {
    RemoveSorted(m, DishSpec(dm, None, None).value.params.Keys);
  }

  /** The `SYS_AUTOSTART` parameter: the frame id, typed INT32. */
  function Autostart(frameId: int): (p: Parameter)
    ensures p.name == "SYS_AUTOSTART" && p.value == Int(frameId) && p.paramType == Some(INT32)
  {
    UpperOfUpper("SYS_AUTOSTART");
    NewParameter("SYS_AUTOSTART", Int(frameId)).(paramType := Some(INT32))
  }

  /** Adding `SYS_AUTOSTART` fails exactly when new parameters are not
      allowed and the list lacks it (`KeyError`); otherwise the list holds it
      with the frame id as value, under the type it already had if any. */
  lemma AutostartAdded(m: map<string, Parameter>, frameId: int, safe: bool)
    ensures AddParamSpec(m, Autostart(frameId), safe, true).Err? <==> safe && "SYS_AUTOSTART" !in m
    ensures AddParamSpec(m, Autostart(frameId), safe, true).Err? ==>
      AddParamSpec(m, Autostart(frameId), safe, true) == Err(KeyError("SYS_AUTOSTART"))
    ensures AddParamSpec(m, Autostart(frameId), safe, true).Ok? ==>
      var r := AddParamSpec(m, Autostart(frameId), safe, true).value;
      "SYS_AUTOSTART" in r && r["SYS_AUTOSTART"].value == Int(frameId)
      && r["SYS_AUTOSTART"].paramType == (if "SYS_AUTOSTART" in m then m["SYS_AUTOSTART"].paramType else Some(INT32))
  {
  }

  // ---------------------------------------------------------------------
  // The whole build
  // ---------------------------------------------------------------------

  /** The options of a meal, read before any parameter is touched. */
  datatype Setup = Setup(
    entry: MealEntry,
    parent: Option<MealState>,
    base: map<string, Parameter>,
    addNew: bool,
    header: Option<string>,
    footer: Option<string>,
    isSitl: bool,
    isHitl: bool,
    removeCalibration: bool,
    removeOperator: bool)

  /** `parse_parent`: the parent meal. `fuel` bounds the depth of the chain
      of parents, standing for Python's recursion limit. */
  function ParentOf(k: Kitchen, e: MealEntry, fuel: nat): Result<Option<MealState>>
    decreases fuel, 0
  {
    if !e.Has("parent") then Ok(None)
    else if !e.Get("parent").StrV? then Err(TypeError("Tried to parse invalid parent"))
    else if fuel == 0 then Err(RecursionError)
    else
      var p :- MealSpec(k, e.Get("parent").s, fuel - 1);
      Ok(Some(p))
  }

  /** The first stages of `Meal.__init__`: look the meal up, build the
      parent, choose the base list and the `add_new` policy, then read the
      header, footer and flags. */
  function MealSetup(k: Kitchen, name: string, fuel: nat): Result<Setup>
    decreases fuel, 1
  {
    if name !in k.menu then Err(KeyError(name))
    else
      var e := k.menu[name];
      var parent :- ParentOf(k, e, fuel);
      SetupWith(k, e, parent)
  }

  /** The stages of `MealSetup` once the parent is known. */
  function SetupWith(k: Kitchen, e: MealEntry, parent: Option<MealState>): Result<Setup> {
    var base :- BaseList(k, parent);
    OptionsWith(k, e, parent, base)
  }

  /** The stages of `MealSetup` once the base list is chosen. */
  function OptionsWith(k: Kitchen, e: MealEntry, parent: Option<MealState>, base: map<string, Parameter>): Result<Setup> {
    var hf :- HeaderFooter(e, parent);
    var removeCalibration :- DecideFlag(e, "remove_calibration");
    var removeOperator :- DecideFlag(e, "remove_operator");
    Ok(Setup(e, parent, base, AddNewPolicy(k, e, parent), hf.0, hf.1,
             e.Has("sitl") && Truthy(e.Get("sitl")), e.Has("hitl") && Truthy(e.Get("hitl")),
             removeCalibration, removeOperator))
  }

  /** The list after the edits and removals of `Meal.__init__`, before
      `SYS_AUTOSTART` is added. */
  function Trimmed(k: Kitchen, s: Setup): Result<map<string, Parameter>> {
    var dishes :- CollectDishes(k, s.entry, s.entry.keys);
    var lists :- Flatten(NoLists, dishes);
    var p1 :- ApplyEdits(s.base, lists.params, s.addNew, Defaults(k));
    var p2 := RemoveBlacklist(p1, lists.blackParams.Keys, lists.blackGroups.Keys);
    var p3 :- if s.removeCalibration then RemoveStaple(p2, k.calibration) else Ok(p2);
    if s.removeOperator then RemoveStaple(p3, k.operator) else Ok(p3)
  }

  /** The parameter stages of `Meal.__init__` after the setup. */
  function MealParams(k: Kitchen, s: Setup): Result<map<string, Parameter>> {
    var p4 :- Trimmed(k, s);
    var frameId :- FrameNumber(FrameEntry(s.entry));
    AddParamSpec(p4, Autostart(frameId), !s.addNew, true)
  }

  /** `Meal(meals_menu, default_params, configs_path, name)`. */
  function MealSpec(k: Kitchen, name: string, fuel: nat): Result<MealState>
    decreases fuel, 2
  {
    var s :- MealSetup(k, name, fuel);
    var params :- MealParams(k, s);
    var frameId :- FrameNumber(FrameEntry(s.entry));
    Ok(MealState(name, frameId, s.isSitl, s.isHitl, s.header, s.footer, s.addNew,
                 s.removeCalibration, s.removeOperator, params))
  }

  // ---------------------------------------------------------------------
  // Properties of a built meal
  // ---------------------------------------------------------------------

  /** A built meal holds `SYS_AUTOSTART` with its frame id as value, which
      is 0 when the meal gives none. */
  lemma AutostartPresent(k: Kitchen, name: string, fuel: nat)
    requires MealSpec(k, name, fuel).Ok?
    ensures name in k.menu
    ensures var m := MealSpec(k, name, fuel).value;
      FrameNumber(FrameEntry(k.menu[name])) == Ok(m.frameId)
      && "SYS_AUTOSTART" in m.params && m.params["SYS_AUTOSTART"].value == Int(m.frameId)
    ensures !k.menu[name].Has("frame_id") ==> MealSpec(k, name, fuel).value.frameId == 0
  {
    var s := MealSetup(k, name, fuel).value;
    var p4 := Trimmed(k, s).value;
    var fid := FrameNumber(FrameEntry(s.entry)).value;
    AutostartAdded(p4, fid, !s.addNew);
  }

  /** A built meal shows the options its setup read. */
  lemma MealOfSetup(k: Kitchen, name: string, fuel: nat)
    requires MealSpec(k, name, fuel).Ok?
    ensures MealSetup(k, name, fuel).Ok?
    ensures var m := MealSpec(k, name, fuel).value; var s := MealSetup(k, name, fuel).value;
      m.name == name && m.header == s.header && m.footer == s.footer && m.addNew == s.addNew
      && m.isSitl == s.isSitl && m.isHitl == s.isHitl
      && m.removeCalibration == s.removeCalibration && m.removeOperator == s.removeOperator
  {
  }

  /** A meal's options are its parent's unless it names its own: the parent
      is built from the name the meal gives, one level deeper, and without
      an explicit `add_new` a meal with a parent may not add parameters. */
  lemma ParentSetup(k: Kitchen, name: string, fuel: nat, parentName: string)
    requires name in k.menu && k.menu[name].Get("parent") == StrV(parentName)
    requires MealSetup(k, name, fuel).Ok?
    ensures fuel > 0 && MealSpec(k, parentName, fuel - 1).Ok?
    ensures var s := MealSetup(k, name, fuel).value; var p := MealSpec(k, parentName, fuel - 1).value;
      s.parent == Some(p)
      && (!k.menu[name].Has("header") ==> s.header == p.header)
      && (!k.menu[name].Has("footer") ==> s.footer == p.footer)
      && (!k.menu[name].Has("add_new") ==> !s.addNew)
      && s.base == p.params
  {
    var e := k.menu[name];
    assert ParentOf(k, e, fuel).Ok?;
    var s := MealSetup(k, name, fuel).value;
    assert HeaderFooter(e, s.parent).Ok?;
  }

  /** Without a parent or default list and without an explicit `add_new`, a
      meal starts from an empty list and may add parameters. */
  lemma StandaloneMeal(k: Kitchen, name: string, fuel: nat)
    requires name in k.menu && !k.menu[name].Has("parent") && !k.menu[name].Has("add_new") && k.defaultFile.None?
    requires MealSetup(k, name, fuel).Ok?
    ensures MealSetup(k, name, fuel).value.addNew
    ensures MealSetup(k, name, fuel).value.base == map[]
  {
    var e := k.menu[name];
    assert ParentOf(k, e, fuel) == Ok(None);
  }

  // ---------------------------------------------------------------------
  // Every entry under its own name
  // ---------------------------------------------------------------------

  /** The XML reader of the default file, which fills its list through
      `add_param`, stores each parameter under its name. */
  predicate DefaultFileKeyed(k: Kitchen) {
    k.defaultFile.Some? && k.defaultFile.value.xml.XmlRead? ==> KeyedByName(k.defaultFile.value.xml.entries)
  }

  lemma {:induction false} AddAllKeyedByName(m: map<string, Parameter>, ps: seq<Parameter>, safe: bool, overwrite: bool)
    requires KeyedByName(m)
    ensures AddAll(m, ps, safe, overwrite).Ok? ==> KeyedByName(AddAll(m, ps, safe, overwrite).value)
    decreases |ps|
  {
    if ps != [] {
      AddParamKeyedByName(m, ps[0], safe, overwrite);
      var r := AddParamSpec(m, ps[0], safe, overwrite);
      if r.Ok? {
        AddAllKeyedByName(r.value, ps[1..], safe, overwrite);
      }
    }
  }

  lemma {:induction false} AdoptAndAddKeyedByName(m: map<string, Parameter>, ps: seq<Parameter>, defaults: map<string, Parameter>)
    requires KeyedByName(m)
    ensures AdoptAndAdd(m, ps, defaults).Ok? ==> KeyedByName(AdoptAndAdd(m, ps, defaults).value)
    decreases |ps|
  {
    if ps != [] && ps[0].name in defaults {
      var p := ps[0].(paramType := defaults[ps[0].name].paramType);
      AddParamKeyedByName(m, p, false, true);
      var r := AddParamSpec(m, p, false, true);
      if r.Ok? {
        AdoptAndAddKeyedByName(r.value, ps[1..], defaults);
      }
    }
  }

  lemma {:induction false} RemoveAllKeyedByName(m: map<string, Parameter>, names: seq<string>)
    requires KeyedByName(m)
    ensures RemoveAll(m, names).Ok? ==> KeyedByName(RemoveAll(m, names).value)
    decreases |names|
  {
    if names != [] && (names[0] in m) {
      RemoveAllKeyedByName(m - {names[0]}, names[1..]);
    }
  }

  lemma EditsKeyedByName(m: map<string, Parameter>, edits: map<string, Parameter>, addNew: bool,
                         defaults: Option<Result<map<string, Parameter>>>)
    requires KeyedByName(m)
    ensures ApplyEdits(m, edits, addNew, defaults).Ok? ==> KeyedByName(ApplyEdits(m, edits, addNew, defaults).value)
  {
    if addNew && defaults.Some? && defaults.value.Ok? {
      AdoptAndAddKeyedByName(m, Items(edits), defaults.value.value);
    } else {
      AddAllKeyedByName(m, Items(edits), !addNew, true);
    }
  }

  /** The edits, removals and `SYS_AUTOSTART` keep every entry of a list
      under its name. */
  lemma MealParamsKeyedByName(k: Kitchen, s: Setup)
    requires KeyedByName(s.base)
    ensures MealParams(k, s).Ok? ==> KeyedByName(MealParams(k, s).value)
  {
    var dishes := CollectDishes(k, s.entry, s.entry.keys);
    if dishes.Ok? && Flatten(NoLists, dishes.value).Ok? {
      var lists := Flatten(NoLists, dishes.value).value;
      var edits := lists.params;
      EditsKeyedByName(s.base, edits, s.addNew, Defaults(k));
      var p1 := ApplyEdits(s.base, edits, s.addNew, Defaults(k));
      if p1.Ok? {
        var p2 := RemoveBlacklist(p1.value, lists.blackParams.Keys, lists.blackGroups.Keys);
        if s.removeCalibration && DishSpec(k.calibration, None, None).Ok? {
          RemoveAllKeyedByName(p2, SortedKeys(DishSpec(k.calibration, None, None).value.params.Keys));
        }
        var p3 := if s.removeCalibration then RemoveStaple(p2, k.calibration) else Ok(p2);
        if p3.Ok? && s.removeOperator && DishSpec(k.operator, None, None).Ok? {
          RemoveAllKeyedByName(p3.value, SortedKeys(DishSpec(k.operator, None, None).value.params.Keys));
        }
        var p4 := Trimmed(k, s);
        if p4.Ok? && FrameNumber(FrameEntry(s.entry)).Ok? {
          AddParamKeyedByName(p4.value, Autostart(FrameNumber(FrameEntry(s.entry)).value), !s.addNew, true);
        }
      }
    }
  }

  /** The list a meal starts from is keyed by name. */
  lemma SetupKeyedByName(k: Kitchen, name: string, fuel: nat)
    requires DefaultFileKeyed(k)
    ensures MealSetup(k, name, fuel).Ok? ==> KeyedByName(MealSetup(k, name, fuel).value.base)
    decreases fuel, 1
  {
    if name in k.menu && MealSetup(k, name, fuel).Ok? {
      var e := k.menu[name];
      var parent := ParentOf(k, e, fuel).value;
      if parent.Some? {
        MealKeyedByName(k, e.Get("parent").s, fuel - 1);
      } else if k.defaultFile.Some? {
        ReadParamsKeyedByName(k.syn, k.defaultFile.value);
      }
    }
  }

  /** Every parameter of a built meal sits under its own name. */
  lemma MealKeyedByName(k: Kitchen, name: string, fuel: nat)
    requires DefaultFileKeyed(k)
    ensures MealSpec(k, name, fuel).Ok? ==> KeyedByName(MealSpec(k, name, fuel).value.params)
    decreases fuel, 2
  {
    SetupKeyedByName(k, name, fuel);
    if MealSetup(k, name, fuel).Ok? {
      MealParamsKeyedByName(k, MealSetup(k, name, fuel).value);
    }
  }

  /** The parameters that `remove_blacklist` drops from `m`. */
  function BlacklistedNames(m: map<string, Parameter>, blackParams: set<string>, blackGroups: set<string>): (o: set<string>)
    ensures forall x :: x in o <==> x in m && Blacklisted(m[x], blackParams, blackGroups)
  {
    set x | x in m && Blacklisted(m[x], blackParams, blackGroups)
  }

  /** Dropping the blacklisted names is `remove_blacklist`. */
  lemma DropBlacklisted(m: map<string, Parameter>, blackParams: set<string>, blackGroups: set<string>)
    ensures m - BlacklistedNames(m, blackParams, blackGroups) == RemoveBlacklist(m, blackParams, blackGroups)
  {
  }
}

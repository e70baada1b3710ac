/** MealBuild: the `Meal` object. `NewMeal` is the call
    `Meal(meals_menu, default_params, configs_path, name)`: it makes a meal
    with the class defaults and runs the stages of `Meal.__init__` on it,
    each stage a method proved against its function in Meals. */
module MealBuild {
  import opened Wrappers
  import opened Strings
  import opened Parameters
  import opened ParamLists
  import opened Documents
  import opened Dishes
  import opened Readers
  import opened Meals

  /** A dish object whose three lists hold `l`. */
  predicate Holds(d: Dish, l: DishLists)
    reads d.paramList.params, d.blackParams.params, d.blackGroups.params
  {
    d.Separate() && d.Lists() == l
  }

  // ---------------------------------------------------------------------
  // Loops over the parameters of a list
  // ---------------------------------------------------------------------

  /** `for p in source: target.add_param(p, safe, overwrite)`. */
  method AddEach(target: ParameterList, source: ParameterList, safe: bool, overwrite: bool) returns (r: Result<()>)
    requires source.params != target.params
    modifies target.params
    ensures match AddAll(old(target.params.entries), Items(source.params.entries), safe, overwrite)
      case Ok(m) => r.Ok? && target.params.entries == m
      case Err(e) => r == Err(e)
  {
    var names := SortedKeys(source.params.entries.Keys);
    r := AddNamed(target, source, names, Items(source.params.entries), safe, overwrite);
  }

  /** The loop of `AddEach` over the names of `source` in ascending order;
      each parameter is looked up when its turn comes. */
  method AddNamed(target: ParameterList, source: ParameterList, names: seq<string>, ghost ps: seq<Parameter>,
                  safe: bool, overwrite: bool) returns (r: Result<()>)
    requires source.params != target.params
    requires |names| == |ps|
    requires forall k :: 0 <= k < |names| ==> names[k] in source.params.entries && source.params.entries[names[k]] == ps[k]
    modifies target.params
    ensures match AddAll(old(target.params.entries), ps, safe, overwrite)
      case Ok(m) => r.Ok? && target.params.entries == m
      case Err(e) => r == Err(e)
  {
    ghost var spec := AddAll(target.params.entries, ps, safe, overwrite);
    var i := 0;
    while i < |names|
      invariant 0 <= i <= |names|
      invariant AddAll(target.params.entries, ps[i..], safe, overwrite) == spec
      decreases |names| - i
    {
      var p := source.params.entries[names[i]];
      assert ps[i..][0] == p && ps[i..][1..] == ps[i + 1..];
      var added := target.AddParam(p, safe, overwrite);
      if added.Err? {
        return Err(added.error);
      }
      i := i + 1;
    }
    r := Ok(());
  }

  /** The `add_new` loop of `apply_edits` with a default list: each
      parameter must be a default one, takes its default type and is added
      with `safe=False`. */
  method AdoptEach(target: ParameterList, source: ParameterList, defaults: ParameterList) returns (r: Result<()>)
    requires source.params != target.params && defaults.params != target.params
    modifies target.params
    ensures match AdoptAndAdd(old(target.params.entries), Items(source.params.entries), defaults.params.entries)
      case Ok(m) => r.Ok? && target.params.entries == m
      case Err(e) => r == Err(e)
  {
    var names := SortedKeys(source.params.entries.Keys);
    r := AdoptNamed(target, source, defaults, names, Items(source.params.entries));
  }

  /** The loop of `AdoptEach`. */
  method AdoptNamed(target: ParameterList, source: ParameterList, defaults: ParameterList, names: seq<string>,
                    ghost ps: seq<Parameter>) returns (r: Result<()>)
    requires source.params != target.params && defaults.params != target.params
    requires |names| == |ps|
    requires forall k :: 0 <= k < |names| ==> names[k] in source.params.entries && source.params.entries[names[k]] == ps[k]
    modifies target.params
    ensures match AdoptAndAdd(old(target.params.entries), ps, defaults.params.entries)
      case Ok(m) => r.Ok? && target.params.entries == m
      case Err(e) => r == Err(e)
  {
    ghost var spec := AdoptAndAdd(target.params.entries, ps, defaults.params.entries);
    var i := 0;
    while i < |names|
      invariant 0 <= i <= |names|
      invariant AdoptAndAdd(target.params.entries, ps[i..], defaults.params.entries) == spec
      decreases |names| - i
    {
      var p := source.params.entries[names[i]];
      assert ps[i..][0] == p && ps[i..][1..] == ps[i + 1..];
      if p.name !in defaults.params.entries {
        return Err(KeyError(p.name));
      }
      var typed := p.(paramType := defaults.params.entries[p.name].paramType);
      var added := target.AddParam(typed, false, true);
      if added.Err? {
        return Err(added.error);
      }
      i := i + 1;
    }
    r := Ok(());
  }

  /** `for p in source: target.remove_param(p)` (with `safe=True`). */
  method RemoveEach(target: ParameterList, source: ParameterList) returns (r: Result<()>)
    requires source.params != target.params && KeyedByName(source.params.entries)
    modifies target.params
    ensures match RemoveAll(old(target.params.entries), SortedKeys(source.params.entries.Keys))
      case Ok(m) => r.Ok? && target.params.entries == m
      case Err(e) => r == Err(e)
  {
    var names := SortedKeys(source.params.entries.Keys);
    r := RemoveNamed(target, source, names);
  }

  /** The loop of `RemoveEach`. */
  method RemoveNamed(target: ParameterList, source: ParameterList, names: seq<string>) returns (r: Result<()>)
    requires source.params != target.params
    requires forall k :: 0 <= k < |names| ==> names[k] in source.params.entries && source.params.entries[names[k]].name == names[k]
    modifies target.params
    ensures match RemoveAll(old(target.params.entries), names)
      case Ok(m) => r.Ok? && target.params.entries == m
      case Err(e) => r == Err(e)
  {
    ghost var spec := RemoveAll(target.params.entries, names);
    var i := 0;
    while i < |names|
      invariant 0 <= i <= |names|
      invariant RemoveAll(target.params.entries, names[i..]) == spec
      decreases |names| - i
    {
      var p := source.params.entries[names[i]];
      assert names[i..][0] == p.name && names[i..][1..] == names[i + 1..];
      var removed := target.RemoveParam(p, true);
      if removed.Err? {
        return Err(removed.error);
      }
      i := i + 1;
    }
    r := Ok(());
  }

  // ---------------------------------------------------------------------
  // The meal
  // ---------------------------------------------------------------------

  class Meal {
    const name: string
    /** `frame_id` as the menu gives it. */
    var frame: EntryValue
    var isSitl: bool
    var isHitl: bool
    var header: Option<string>
    var footer: Option<string>
    var parent: Meal?
    var addNew: bool
    var removeCalibrationFlag: bool
    var removeOperatorFlag: bool
    /** The meal's list; shared with the parent when there is one. */
    var paramList: ParameterList

    /** The class attributes' defaults, which `__init__` starts from. */
    predicate HasDefaults()
      reads this
    {
      frame == IntV(0) && !isSitl && !isHitl && header.None? && footer.None? && parent == null
      && !addNew && !removeCalibrationFlag && !removeOperatorFlag
    }

    /** A meal named `name` with the class defaults; its list is an empty
        one until `__init__` chooses the base list. */
    constructor Blank(name: string)
      ensures this.name == name && HasDefaults() && fresh(paramList)
    {
      this.name := name;
      frame := IntV(0);
      isSitl := false;
      isHitl := false;
      header := None;
      footer := None;
      parent := null;
      addNew := false;
      removeCalibrationFlag := false;
      removeOperatorFlag := false;
      paramList := new ParameterList.Empty();
    }

    /** The meal shows every option of `m`. */
    predicate ShowsOptions(m: MealState)
      reads this
    {
      name == m.name && FrameNumber(frame) == Ok(m.frameId) && isSitl == m.isSitl && isHitl == m.isHitl
      && header == m.header && footer == m.footer && addNew == m.addNew
      && removeCalibrationFlag == m.removeCalibration && removeOperatorFlag == m.removeOperator
    }

    /** The meal is `m`: its options and its parameters. */
    predicate Shows(m: MealState)
      reads this, paramList.params
    {
      ShowsOptions(m) && paramList.params.entries == m.params
    }

    /** The meal holds the options `s` records, its parent shows the parent
        meal and shares its list, and the list holds the base parameters. */
    predicate ShowsSetup(s: Setup)
      reads this, parent, paramList.params
    {
      frame == FrameEntry(s.entry)
      && (parent == null <==> s.parent.None?)
      && (parent != null ==> parent.ShowsOptions(s.parent.value) && parent.paramList == paramList)
      && paramList.params.entries == s.base
      && addNew == s.addNew && header == s.header && footer == s.footer
      && isSitl == s.isSitl && isHitl == s.isHitl
      && removeCalibrationFlag == s.removeCalibration && removeOperatorFlag == s.removeOperator
    }

    /** The stages of `__init__` that read the meal's options, from the look
        up of the meal to `decide_on_operator`. */
    method ReadOptions(k: Kitchen, fuel: nat) returns (r: Result<()>)
      requires HasDefaults() && DefaultFileKeyed(k)
      modifies this
      decreases fuel, 1
      ensures match MealSetup(k, name, fuel)
        case Ok(s) => r.Ok? && ShowsSetup(s) && fresh(paramList) && fresh(paramList.params)
          && (parent != null ==> fresh(parent))
        case Err(e) => r == Err(e)
    {
      if name !in k.menu {
        return Err(KeyError(name));
      }
      var e := k.menu[name];
      if e.Has("frame_id") {
        frame := e.Get("frame_id");
      } else {
        frame := IntV(0);
      }
      var parsed := ParseParent(k, e, fuel);
      if parsed.Err? {
        return Err(parsed.error);
      }
      ghost var p := ParentOf(k, e, fuel).value;
      var loaded := SetBase(k, p);
      if loaded.Err? {
        return Err(loaded.error);
      }
      r := Configure(k, e, p);
    }

    /** The stages of `__init__` after the base list is set, up to
        `decide_on_operator`. */
    method Configure(k: Kitchen, e: MealEntry, ghost p: Option<MealState>) returns (r: Result<()>)
      requires frame == FrameEntry(e) && parent != this
      requires (parent == null <==> p.None?) && (parent != null ==> parent.ShowsOptions(p.value))
      requires parent != null ==> paramList == parent.paramList
      requires !isSitl && !isHitl && header.None? && footer.None? && !removeCalibrationFlag && !removeOperatorFlag
      modifies this`addNew, this`header, this`footer, this`isSitl, this`isHitl
      modifies this`removeCalibrationFlag, this`removeOperatorFlag
      ensures match OptionsWith(k, e, p, paramList.params.entries)
        case Ok(s) => r.Ok? && ShowsSetup(s)
        case Err(err) => r == Err(err)
    {
      addNew := !(k.defaultFile.Some? || parent != null);
      r := ReadFlags(k, e, p);
      if r.Ok? {
        ShowsOptionsWith(k, e, p, paramList.params.entries);
      }
    }

    /** The options `OptionsWith` records, held in the meal's fields, make
        the meal show that setup. */
    lemma ShowsOptionsWith(k: Kitchen, e: MealEntry, p: Option<MealState>, base: map<string, Parameter>)
      requires OptionsWith(k, e, p, base).Ok?
      requires frame == FrameEntry(e) && paramList.params.entries == base
      requires (parent == null <==> p.None?)
      requires parent != null ==> parent.ShowsOptions(p.value) && parent.paramList == paramList
      requires var s := OptionsWith(k, e, p, base).value;
        header == s.header && footer == s.footer && isSitl == s.isSitl && isHitl == s.isHitl
        && addNew == s.addNew && removeCalibrationFlag == s.removeCalibration && removeOperatorFlag == s.removeOperator
      ensures ShowsSetup(OptionsWith(k, e, p, base).value)
    {
    }

    /** "Set the base parameters": the parent's list or the default file's
        when there is either, a new empty list otherwise. */
    method SetBase(k: Kitchen, ghost p: Option<MealState>) returns (r: Result<()>)
      requires parent == null <==> p.None?
      requires parent != null ==> parent.paramList.params.entries == p.value.params
      modifies this`paramList
      ensures match BaseList(k, p)
        case Ok(m) => r.Ok? && paramList.params.entries == m
          && (parent != null ==> paramList == parent.paramList)
          && (parent == null ==> fresh(paramList) && fresh(paramList.params))
        case Err(e) => r == Err(e)
    {
      if k.defaultFile.Some? || parent != null {
        r := LoadBaseParameters(k, p);
      } else {
        paramList := new ParameterList.Empty();
        r := Ok(());
      }
    }

    /** The stages of `__init__` from `parse_header_footer` to
        `decide_on_operator`. */
    method ReadFlags(k: Kitchen, e: MealEntry, ghost p: Option<MealState>) returns (r: Result<()>)
      requires frame == FrameEntry(e) && parent != this
      requires (parent == null <==> p.None?) && (parent != null ==> parent.ShowsOptions(p.value))
      requires parent != null ==> paramList == parent.paramList
      requires addNew == !(k.defaultFile.Some? || parent != null)
      requires !isSitl && !isHitl && header.None? && footer.None? && !removeCalibrationFlag && !removeOperatorFlag
      modifies this`addNew, this`header, this`footer, this`isSitl, this`isHitl
      modifies this`removeCalibrationFlag, this`removeOperatorFlag
      ensures match OptionsWith(k, e, p, paramList.params.entries)
        case Ok(s) => r.Ok? && header == s.header && footer == s.footer && isSitl == s.isSitl && isHitl == s.isHitl
          && addNew == s.addNew && removeCalibrationFlag == s.removeCalibration && removeOperatorFlag == s.removeOperator
        case Err(err) => r == Err(err)
    {
      var texts := ParseHeaderFooter(e, p);
      if texts.Err? {
        return Err(texts.error);
      }
      ReadModes(e);
      var calibration := DecideOnCalibration(e);
      if calibration.Err? {
        return Err(calibration.error);
      }
      var operator := DecideOnOperator(e);
      if operator.Err? {
        return Err(operator.error);
      }
      r := Ok(());
    }

    /** The `sitl`, `hitl` and `add_new` keys of a meal entry each override
        the mode they name when present. */
    method ReadModes(e: MealEntry)
      modifies this`isSitl, this`isHitl, this`addNew
      ensures isSitl == if e.Has("sitl") then Truthy(e.Get("sitl")) else old(isSitl)
      ensures isHitl == if e.Has("hitl") then Truthy(e.Get("hitl")) else old(isHitl)
      ensures addNew == if e.Has("add_new") then Truthy(e.Get("add_new")) else old(addNew)
    {
      if e.Has("sitl") {
        isSitl := Truthy(e.Get("sitl"));
      }
      if e.Has("hitl") {
        isHitl := Truthy(e.Get("hitl"));
      }
      if e.Has("add_new") {
        addNew := Truthy(e.Get("add_new"));
      }
    }

    /** `parse_parent(meal_dict, ...)`: build the parent meal the entry
        names, one level deeper. */
    method ParseParent(k: Kitchen, e: MealEntry, fuel: nat) returns (r: Result<()>)
      requires parent == null && DefaultFileKeyed(k)
      modifies this`parent
      decreases fuel, 0
      ensures match ParentOf(k, e, fuel)
        case Ok(p) => r.Ok? && (parent == null <==> p.None?)
          && (parent != null ==>
                fresh(parent) && fresh(parent.paramList) && fresh(parent.paramList.params) && parent.Shows(p.value))
        case Err(err) => r == Err(err)
    {
      if e.Has("parent") {
        var parentName := e.Get("parent");
        if !parentName.StrV? {
          return Err(TypeError("Tried to parse invalid parent"));
        }
        if fuel == 0 {
          return Err(RecursionError);
        }
        var built := NewMeal(k, parentName.s, fuel - 1);
        if built.Err? {
          return Err(built.error);
        }
        parent := built.value;
      }
      r := Ok(());
    }

    /** `load_base_parameters(default_params_filepath)`: the parent's own
        list object, or else the default list read anew. */
    method LoadBaseParameters(k: Kitchen, ghost p: Option<MealState>) returns (r: Result<()>)
      requires parent == null <==> p.None?
      requires parent != null ==> parent.paramList.params.entries == p.value.params
      modifies this`paramList
      ensures parent == null && k.defaultFile.None? ==> r == Err(ValueError("Default parameters path not set."))
      ensures parent != null || k.defaultFile.Some? ==>
        match BaseList(k, p)
        case Ok(m) => r.Ok? && paramList.params.entries == m
          && (parent != null ==> paramList == parent.paramList)
          && (parent == null ==> fresh(paramList) && fresh(paramList.params))
        case Err(e) => r == Err(e)
    {
      if parent != null {
        paramList := parent.paramList;
      } else if k.defaultFile.Some? {
        var read := ReadParams(k.syn, k.defaultFile.value);
        if read.Err? {
          return Err(read.error);
        }
        paramList := read.value;
      } else {
        return Err(ValueError("Default parameters path not set."));
      }
      r := Ok(());
    }

    /** `parse_header_footer(meal_dict)`. */
    method ParseHeaderFooter(e: MealEntry, ghost p: Option<MealState>) returns (r: Result<()>)
      requires header.None? && footer.None?
      requires parent == null <==> p.None?
      requires parent != null ==> parent.header == p.value.header && parent.footer == p.value.footer
      modifies this`header, this`footer
      ensures match HeaderFooter(e, p)
        case Ok(texts) => r.Ok? && header == texts.0 && footer == texts.1
        case Err(err) => r == Err(err)
    {
      if parent != null {
        header := parent.header;
        footer := parent.footer;
      }
      if e.Has("header") {
        var text := TextOption(e.Get("header"), "header");
        if text.Err? {
          return Err(text.error);
        }
        header := text.value;
      }
      if e.Has("footer") {
        var text := TextOption(e.Get("footer"), "footer");
        if text.Err? {
          return Err(text.error);
        }
        footer := text.value;
      }
      r := Ok(());
    }

    /** `decide_on_calibration(meal_dict)`. */
    method DecideOnCalibration(e: MealEntry) returns (r: Result<()>)
      requires !removeCalibrationFlag
      modifies this`removeCalibrationFlag
      ensures match DecideFlag(e, "remove_calibration")
        case Ok(b) => r.Ok? && removeCalibrationFlag == b
        case Err(err) => r == Err(err)
    {
      if e.Has("remove_calibration") {
        if e.Get("remove_calibration").BoolV? {
          removeCalibrationFlag := e.Get("remove_calibration").b;
        } else {
          return Err(TypeError("remove_calibration" + " flag is not a boolean"));
        }
      } else if parent != null {
        removeCalibrationFlag := false;
      }
      r := Ok(());
    }

    /** `decide_on_operator(meal_dict)`. */
    method DecideOnOperator(e: MealEntry) returns (r: Result<()>)
      requires !removeOperatorFlag
      modifies this`removeOperatorFlag
      ensures match DecideFlag(e, "remove_operator")
        case Ok(b) => r.Ok? && removeOperatorFlag == b
        case Err(err) => r == Err(err)
    {
      if e.Has("remove_operator") {
        if e.Get("remove_operator").BoolV? {
          removeOperatorFlag := e.Get("remove_operator").b;
        } else {
          return Err(TypeError("remove_operator" + " flag is not a boolean"));
        }
      } else if parent != null {
        removeOperatorFlag := false;
      }
      r := Ok(());
    }

    /** `collect_dishes(meal_dict)`: one dish object per custom-dish key, in
        the order of the keys. */
    method CollectDishes(k: Kitchen, e: MealEntry) returns (r: Result<seq<Dish>>)
      ensures match Meals.CollectDishes(k, e, e.keys)
        case Ok(ds) => r.Ok? && |r.value| == |ds| && forall i :: 0 <= i < |ds| ==> Holds(r.value[i], ds[i])
        case Err(err) => r == Err(err)
    {
      var dishes: seq<Dish> := [];
      ghost var acc: seq<DishLists> := [];
      var i := 0;
      assert e.keys[0..] == e.keys;
      PrependNothing(Meals.CollectDishes(k, e, e.keys));
      while i < |e.keys|
        invariant 0 <= i <= |e.keys|
        invariant |dishes| == |acc| && forall j :: 0 <= j < |acc| ==> Holds(dishes[j], acc[j])
        invariant Meals.CollectDishes(k, e, e.keys) == Prepend(acc, Meals.CollectDishes(k, e, e.keys[i..]))
        decreases |e.keys| - i
      {
        var key := e.keys[i];
        assert e.keys[i..][0] == key && e.keys[i..][1..] == e.keys[i + 1..];
        if key in k.dishes {
          var designation := ParseDesignation(e.Get(key));
          if designation.Err? {
            return Err(designation.error);
          }
          var dish := NewDish(k.dishes[key], designation.value.0, designation.value.1);
          if dish.Err? {
            return Err(dish.error);
          }
          ghost var d := DishSpec(k.dishes[key], designation.value.0, designation.value.1).value;
          PrependStep(acc, d, Meals.CollectDishes(k, e, e.keys[i + 1..]));
          dishes := dishes + [dish.value];
          acc := acc + [d];
        } else if !(key in k.reserved || key in k.staples) {
          return Err(KeyError(key));
        }
        i := i + 1;
      }
      r := Ok(dishes);
    }

    /** `collect_parameter_lists(dishes)`: the ingredients, blacklisted
        parameters and blacklisted groups of all dishes, each in a new list. */
    static method CollectParameterLists(dishes: seq<Dish>, ghost ds: seq<DishLists>)
      returns (r: Result<(ParameterList, ParameterList, ParameterList)>)
      requires |dishes| == |ds| && forall i :: 0 <= i < |ds| ==> Holds(dishes[i], ds[i])
      ensures match Flatten(NoLists, ds)
        case Ok(l) => r.Ok? && fresh(r.value.0.params) && fresh(r.value.1.params) && fresh(r.value.2.params)
          && r.value.0.params.entries == l.params && r.value.1.params.entries == l.blackParams
          && r.value.2.params.entries == l.blackGroups
        case Err(e) => r == Err(e)
    {
      var edited := new ParameterList.Empty();
      var blackParams := new ParameterList.Empty();
      var blackGroups := new ParameterList.Empty();
      var i := 0;
      while i < |dishes|
        invariant 0 <= i <= |dishes|
        invariant fresh(edited.params) && fresh(blackParams.params) && fresh(blackGroups.params)
        invariant edited.params != blackParams.params && edited.params != blackGroups.params
        invariant blackParams.params != blackGroups.params
        invariant Flatten(NoLists, ds)
          == Flatten(DishLists(edited.params.entries, blackParams.params.entries, blackGroups.params.entries), ds[i..])
        decreases |dishes| - i
      {
        assert ds[i..][0] == ds[i] && ds[i..][1..] == ds[i + 1..];
        var added := AddDish(edited, blackParams, blackGroups, dishes[i]);
        if added.Err? {
          return Err(added.error);
        }
        i := i + 1;
      }
      r := Ok((edited, blackParams, blackGroups));
    }

    /** The body of the loop of `collect_parameter_lists`: the three loops
        over one dish's lists. */
    static method AddDish(edited: ParameterList, blackParams: ParameterList, blackGroups: ParameterList, d: Dish)
      returns (r: Result<()>)
      requires edited.params != blackParams.params && edited.params != blackGroups.params
      requires blackParams.params != blackGroups.params
      requires d.paramList.params !in {edited.params, blackParams.params, blackGroups.params}
      requires d.blackParams.params !in {edited.params, blackParams.params, blackGroups.params}
      requires d.blackGroups.params !in {edited.params, blackParams.params, blackGroups.params}
      modifies edited.params, blackParams.params, blackGroups.params
      ensures match FlattenOne(old(DishLists(edited.params.entries, blackParams.params.entries, blackGroups.params.entries)),
                               old(d.Lists()))
        case Ok(l) => r.Ok? && edited.params.entries == l.params && blackParams.params.entries == l.blackParams
          && blackGroups.params.entries == l.blackGroups
        case Err(e) => r == Err(e)
    {
      r := AddEach(edited, d.paramList, false, false);
      if r.Err? {
        return;
      }
      r := AddEach(blackParams, d.blackParams, false, false);
      if r.Err? {
        return;
      }
      r := AddEach(blackGroups, d.blackGroups, false, false);
    }

    /** `apply_edits(edited_param_list, default_params_filepath)`. */
    method ApplyEdits(k: Kitchen, edited: ParameterList) returns (r: Result<()>)
      requires edited.params != paramList.params
      modifies paramList.params
      ensures match Meals.ApplyEdits(old(paramList.params.entries), edited.params.entries, addNew, Defaults(k))
        case Ok(m) => r.Ok? && paramList.params.entries == m
        case Err(e) => r == Err(e)
    {
      if !addNew {
        r := AddEach(paramList, edited, true, true);
      } else if k.defaultFile.None? {
        r := AddEach(paramList, edited, false, true);
      } else {
        var defaults := ReadParams(k.syn, k.defaultFile.value);
        if defaults.Err? {
          return Err(defaults.error);
        }
        r := AdoptEach(paramList, edited, defaults.value);
      }
    }

    /** `remove_blacklist(black_param_list, black_group_list)`. */
    method RemoveBlacklist(blackParams: ParameterList, blackGroups: ParameterList)
      requires KeyedByName(paramList.params.entries)
      requires blackParams.params != paramList.params && blackGroups.params != paramList.params
      modifies paramList.params
      ensures paramList.params.entries == Meals.RemoveBlacklist(old(paramList.params.entries),
        blackParams.params.entries.Keys, blackGroups.params.entries.Keys)
    {
      ghost var m0 := paramList.params.entries;
      ghost var o := BlacklistedNames(m0, blackParams.params.entries.Keys, blackGroups.params.entries.Keys);
      var names := SortedKeys(paramList.params.entries.Keys);
      SortedKeysDistinct(paramList.params.entries.Keys);
      RemoveBlacklistedIn(names, blackParams, blackGroups);
      RemovedAll(m0, names, o);
      DropBlacklisted(m0, blackParams.params.entries.Keys, blackGroups.params.entries.Keys);
    }

    /** The loop of `remove_blacklist` over the names the list had when the
        loop began; each parameter is looked up when its turn comes. */
    method RemoveBlacklistedIn(names: seq<string>, blackParams: ParameterList, blackGroups: ParameterList)
      requires KeyedByName(paramList.params.entries)
      requires Distinct(names) && forall x :: x in names <==> x in paramList.params.entries
      requires blackParams.params != paramList.params && blackGroups.params != paramList.params
      modifies paramList.params
      ensures paramList.params.entries == old(paramList.params.entries) - RemovedUpTo(names,
        BlacklistedNames(old(paramList.params.entries), blackParams.params.entries.Keys, blackGroups.params.entries.Keys),
        |names|)
    {
      ghost var m0 := paramList.params.entries;
      ghost var o := BlacklistedNames(m0, blackParams.params.entries.Keys, blackGroups.params.entries.Keys);
      var i := 0;
      while i < |names|
        invariant 0 <= i <= |names|
        invariant paramList.params.entries == m0 - RemovedUpTo(names, o, i)
        decreases |names| - i
      {
        StillPresent(m0, names, o, i);
        var p := paramList.params.entries[names[i]];
        assert p == m0[names[i]] && p.name == names[i];
        if (p.group.Some? && p.group.value in blackGroups.params.entries) || p.name in blackParams.params.entries {
          var _ := paramList.RemoveParam(p, true);
        }
        i := i + 1;
      }
    }

    /** `remove_calibration()`. */
    method RemoveCalibration(k: Kitchen) returns (r: Result<()>)
      modifies paramList.params
      ensures match (if removeCalibrationFlag then RemoveStaple(old(paramList.params.entries), k.calibration)
                     else Ok(old(paramList.params.entries)))
        case Ok(m) => r.Ok? && paramList.params.entries == m
        case Err(e) => r == Err(e)
    {
      if removeCalibrationFlag {
        r := RemoveStapleDish(paramList, k.calibration);
      } else {
        r := Ok(());
      }
    }

    /** `remove_operator()`. */
    method RemoveOperator(k: Kitchen) returns (r: Result<()>)
      modifies paramList.params
      ensures match (if removeOperatorFlag then RemoveStaple(old(paramList.params.entries), k.operator)
                     else Ok(old(paramList.params.entries)))
        case Ok(m) => r.Ok? && paramList.params.entries == m
        case Err(e) => r == Err(e)
    {
      if removeOperatorFlag {
        r := RemoveStapleDish(paramList, k.operator);
      } else {
        r := Ok(());
      }
    }

    /** The stages of `__init__` that build the list, from `collect_dishes`
        to adding `SYS_AUTOSTART`. */
    method Cook(k: Kitchen, e: MealEntry, ghost s: Setup) returns (r: Result<()>)
      requires e == s.entry && ShowsSetup(s) && KeyedByName(s.base)
      modifies paramList.params
      ensures match MealParams(k, s)
        case Ok(m) => r.Ok? && paramList.params.entries == m
        case Err(err) => r == Err(err)
    {
      r := Trim(k, e, s);
      if r.Err? {
        return;
      }
      var frameId := FrameNumber(frame);
      if frameId.Err? {
        return Err(frameId.error);
      }
      r := paramList.AddParam(Autostart(frameId.value), !addNew, true);
    }

    /** The stages of `__init__` from `collect_dishes` to `remove_operator`. */
    method Trim(k: Kitchen, e: MealEntry, ghost s: Setup) returns (r: Result<()>)
      requires e == s.entry && ShowsSetup(s) && KeyedByName(s.base)
      modifies paramList.params
      ensures match Trimmed(k, s)
        case Ok(m) => r.Ok? && paramList.params.entries == m
        case Err(err) => r == Err(err)
    {
      var dishes := CollectDishes(k, e);
      if dishes.Err? {
        return Err(dishes.error);
      }
      ghost var ds := Meals.CollectDishes(k, e, e.keys).value;
      var lists := CollectParameterLists(dishes.value, ds);
      if lists.Err? {
        return Err(lists.error);
      }
      ghost var flat := Flatten(NoLists, ds).value;
      var applied := ApplyEdits(k, lists.value.0);
      if applied.Err? {
        return Err(applied.error);
      }
      EditsKeyedByName(s.base, flat.params, s.addNew, Defaults(k));
      RemoveBlacklist(lists.value.1, lists.value.2);
      var calibration := RemoveCalibration(k);
      if calibration.Err? {
        return Err(calibration.error);
      }
      r := RemoveOperator(k);
    }
  }

  /** Build a staple dish and remove each of its parameters from `target`. */
  method RemoveStapleDish(target: ParameterList, dm: DishModel) returns (r: Result<()>)
    modifies target.params
    ensures match RemoveStaple(old(target.params.entries), dm)
      case Ok(m) => r.Ok? && target.params.entries == m
      case Err(e) => r == Err(e)
  {
    var staple := NewDish(dm, None, None);
    if staple.Err? {
      return Err(staple.error);
    }
    DishKeyedByName(dm, None, None);
    r := RemoveEach(target, staple.value.paramList);
  }

  /** `Meal(meals_menu, default_params, configs_path, name)`. The meal is
      `MealSpec`'s; a parent meal shows its own options and now shares its
      list with the child, which has edited it. */
  method NewMeal(k: Kitchen, name: string, fuel: nat) returns (r: Result<Meal>)
    requires DefaultFileKeyed(k)
    decreases fuel, 2
    ensures match MealSpec(k, name, fuel)
      case Ok(m) => r.Ok? && fresh(r.value) && fresh(r.value.paramList) && fresh(r.value.paramList.params)
        && r.value.Shows(m) && MealSetup(k, name, fuel).Ok?
        && (r.value.parent == null <==> MealSetup(k, name, fuel).value.parent.None?)
        && (r.value.parent != null ==>
              fresh(r.value.parent) && r.value.parent.paramList == r.value.paramList
              && r.value.parent.ShowsOptions(MealSetup(k, name, fuel).value.parent.value))
      case Err(e) => r == Err(e)
  {
    var meal := new Meal.Blank(name);
    var options := meal.ReadOptions(k, fuel);
    if options.Err? {
      return Err(options.error);
    }
    ghost var s := MealSetup(k, name, fuel).value;
    SetupKeyedByName(k, name, fuel);
    var cooked := meal.Cook(k, k.menu[name], s);
    if cooked.Err? {
      return Err(cooked.error);
    }
    r := Ok(meal);
  }
}

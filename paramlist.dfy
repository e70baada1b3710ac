/** ParamLists: parasect's `ParameterList`, a Python dictionary of
    parameters keyed by name. The dictionary is an object of its own
    (`ParamDict`) because `ParameterList(original)` does not copy it: the new
    list and the original then edit the same dictionary. */
module ParamLists {
  import opened Wrappers
  import opened Strings
  import opened Parameters

  /** A Python `dict[str, Parameter]`. */
  class ParamDict {
    var entries: map<string, Parameter>

    constructor ()
      ensures entries == map[]
    {
      entries := map[];
    }

    /** The invariant every dictionary built through `add_param` keeps. */
    predicate Valid()
      reads this
    {
      KeyedByName(entries)
    }
  }

  /** The parameters in the order iteration yields them: ascending names. */
  function Items(m: map<string, Parameter>): (ps: seq<Parameter>)
    ensures |ps| == |m|
    ensures forall k :: 0 <= k < |ps| ==> SortedKeys(m.Keys)[k] in m && ps[k] == m[SortedKeys(m.Keys)[k]]
  {
    var names := SortedKeys(m.Keys);
    seq(|names|, k requires 0 <= k < |names| => m[names[k]])
  }

  /** Iteration yields every entry once, in strictly ascending name order. */
  lemma ItemsAscending(m: map<string, Parameter>)
    requires KeyedByName(m)
    ensures forall i, j :: 0 <= i < j < |Items(m)| ==> StrLess(Items(m)[i].name, Items(m)[j].name)
    ensures forall p: Parameter :: p in Items(m) <==> p.name in m && m[p.name] == p
  {
    var names := SortedKeys(m.Keys);
    var ps := Items(m);
    SortedKeysAscending(m.Keys);
    forall p: Parameter | p.name in m && m[p.name] == p ensures p in ps {
      assert p.name in names;
      var k :| 0 <= k < |names| && names[k] == p.name;
      assert ps[k] == p;
    }
  }

  /** The names among `names[..i]` that are also in `o`: what the first `i`
      steps of a subtraction loop have removed. */
  function RemovedUpTo(names: seq<string>, o: set<string>, i: nat): set<string>
    requires i <= |names|
  {
    if i == 0 then {} else RemovedUpTo(names, o, i - 1) + (if names[i - 1] in o then {names[i - 1]} else {})
  }

  lemma {:induction false} RemovedUpToMembers(names: seq<string>, o: set<string>, i: nat)
    requires i <= |names|
    ensures forall k :: k in RemovedUpTo(names, o, i) <==> k in o && k in names[..i]
  {
    if i > 0 {
      RemovedUpToMembers(names, o, i - 1);
      assert names[..i] == names[..i - 1] + [names[i - 1]];
    }
  }

  /** The name visited at step `i` has not been removed by an earlier step. */
  lemma StillPresent(m: map<string, Parameter>, names: seq<string>, o: set<string>, i: nat)
    requires Distinct(names) && i < |names| && names[i] in m
    ensures names[i] in m - RemovedUpTo(names, o, i)
  {
    RemovedUpToMembers(names, o, i);
  }

  /** After the last step every name of `m` that `o` holds is removed. */
  lemma RemovedAll(m: map<string, Parameter>, names: seq<string>, o: set<string>)
    requires forall x :: x in names <==> x in m
    ensures m - RemovedUpTo(names, o, |names|) == m - o
  {
    RemovedUpToMembers(names, o, |names|);
    assert names[..|names|] == names;
  }

  class ParameterList {
    /** The dictionary this list views; possibly shared with other lists. */
    const params: ParamDict
    /** The last path component of the file the list was read from. */
    var sourceFile: Option<string>

    /** `ParameterList()`. */
    constructor Empty()
      ensures fresh(params) && params.entries == map[] && sourceFile == None
    {
      params := new ParamDict();
      sourceFile := None;
    }

    /** `ParameterList(original)`: shares the original's dictionary when the
        original is non-empty, and starts from a new empty one otherwise,
        since an empty list is false in Python. */
    constructor Share(original: ParameterList?)
      ensures original != null && original.params.entries != map[] ==> params == original.params
      ensures original == null || original.params.entries == map[] ==> fresh(params) && params.entries == map[]
      ensures sourceFile == None
    {
      if original == null || original.params.entries == map[] {
        params := new ParamDict();
      } else {
        params := original.params;
      }
      sourceFile := None;
    }

    /** A list over a new dictionary holding `m`; stands for a list some
        reader outside this model has filled through `add_param`. */
    constructor FromEntries(m: map<string, Parameter>)
      ensures fresh(params) && params.entries == m && sourceFile == None
    {
      params := new ParamDict();
      sourceFile := None;
      new;
      params.entries := m;
    }

    /** `keys()`. */
    function Keys(): set<string>
      reads params
    {
      params.entries.Keys
    }

    /** `add_param(param, safe, overwrite)`. */
    method AddParam(p: Parameter, safe: bool, overwrite: bool) returns (r: Result<()>)
      modifies params
      ensures var spec := AddParamSpec(old(params.entries), p, safe, overwrite);
        (spec.Ok? ==> r.Ok? && params.entries == spec.value)
        && (spec.Err? ==> r == Err(spec.error) && params.entries == old(params.entries))
    {
      if safe && p.name !in params.entries {
        return Err(KeyError(p.name));
      }
      if !overwrite && p.name in params.entries {
        return Err(KeyError(p.name));
      }
      if p.name !in params.entries {
        params.entries := params.entries[p.name := p];
      } else {
        var stored := params.entries[p.name];
        var newValue: Number;
        if p.paramType.Some? {
          newValue := p.value;
        } else if stored.paramType.None? {
          newValue := p.value;
        } else if stored.paramType.value == INT32 {
          newValue := Int(IntOf(p.value));
        } else if stored.paramType.value == FLOAT {
          newValue := Float(AsReal(p.value));
        } else {
          return Err(ValueError("Unsupported parameter type " + stored.paramType.value + " for parameter " + p.name));
        }
        params.entries := params.entries[p.name := stored.(value := newValue)];
      }
      r := Ok(());
    }

    /** `remove_param(param, safe)`. */
    method RemoveParam(p: Parameter, safe: bool) returns (r: Result<()>)
      modifies params
      ensures var spec := RemoveParamSpec(old(params.entries), p.name, safe);
        (spec.Ok? ==> r.Ok? && params.entries == spec.value)
        && (spec.Err? ==> r == Err(spec.error) && params.entries == old(params.entries))
    {
      if safe && p.name !in params.entries {
        return Err(KeyError(p.name));
      }
      params.entries := params.entries - {p.name};
      r := Ok(());
    }

    /** `self - other`: a list sharing this list's dictionary, from which every
        name among `other`'s keys has been removed. When this list is not
        empty the removal therefore happens in this list too. */
    method Subtract(other: ParameterList) returns (res: ParameterList)
      requires params.Valid()
      modifies params
      ensures res.params.entries == old(params.entries) - old(other.params.entries).Keys
      ensures params.entries == res.params.entries
      ensures old(params.entries) != map[] ==> res.params == params
      ensures old(params.entries) == map[] ==> fresh(res.params)
      ensures other.params != params ==> other.params.entries == old(other.params.entries)
      ensures params.Valid()
    {
      ghost var o0 := other.params.entries.Keys;
      res := new ParameterList.Share(this);
      var names := SortedKeys(res.params.entries.Keys);
      SortedKeysDistinct(res.params.entries.Keys);
      ghost var m0 := res.params.entries;
      if res.params == params {
        res.RemoveNamesIn(names, other);
      }
      RemovedAll(m0, names, o0);
    }

    /** The loop of `__sub__`: visit `names` in order and remove each one that
        `other` holds at the time of the visit. */
    method RemoveNamesIn(names: seq<string>, other: ParameterList)
      requires params.Valid()
      requires Distinct(names) && forall x :: x in names <==> x in params.entries
      modifies params
      ensures params.entries == old(params.entries) - RemovedUpTo(names, old(other.params.entries).Keys, |names|)
      ensures params.Valid()
    {
      ghost var m0 := params.entries;
      ghost var o0 := other.params.entries.Keys;
      var i := 0;
      while i < |names|
        invariant 0 <= i <= |names|
        invariant params.entries == m0 - RemovedUpTo(names, o0, i)
        invariant other.params != params ==> other.params.entries.Keys == o0
        invariant other.params == params ==> o0 == m0.Keys
        decreases |names| - i
      {
        StillPresent(m0, names, o0, i);
        var p := params.entries[names[i]];
        if p.name in other.params.entries {
          var _ := RemoveParam(p, true);
        }
        i := i + 1;
      }
    }
  }
}

/** Parameters: the `Parameter` record of parasect, the rules by which a
    parameter dictionary is edited (`add_param`, `remove_param`), the
    printable form of a value (`get_pretty_value`) and the decoders that
    turn one already-split line of a parameter file into a `Parameter`. */
module Parameters {
  import opened Wrappers
  import opened Strings

  // ---------------------------------------------------------------------
  // Values
  // ---------------------------------------------------------------------

  /** A Python `int` or `float`; floats are modelled as exact reals. */
  datatype Number = Int(i: int) | Float(r: real)

  function AsReal(v: Number): real {
    match v
    case Int(i) => i as real
    case Float(r) => r
  }

  /** `x % 1 == 0`: the value has no fractional part. */
  predicate IsIntegral(v: Number) {
    v.Int? || v.r == v.r.Floor as real
  }

  /** `i` is `x` with its fractional part dropped, moving toward zero. */
  predicate TruncatesTo(x: real, i: int) {
    if x >= 0.0 then i as real <= x < i as real + 1.0
    else i as real - 1.0 < x <= i as real
  }

  /** Python `int(x)` on a float: truncation toward zero. */
  function TruncToInt(x: real): (i: int)
    ensures TruncatesTo(x, i)
  {
    if x >= 0.0 then x.Floor else -((-x).Floor)
  }

  /** Python `int(v)` on a number. */
  function IntOf(v: Number): (i: int)
    ensures TruncatesTo(AsReal(v), i)
    ensures v.Int? ==> i == v.i
  {
    match v
    case Int(i) => i
    case Float(r) => TruncToInt(r)
  }

  /** The type tags the core recognises (`param.param_type`). */
  const INT32: string := "INT32"
  const FLOAT: string := "FLOAT"

  // ---------------------------------------------------------------------
  // The Parameter record
  // ---------------------------------------------------------------------

  /** A parameter: its (upper-case) name, its value, its optional type tag,
      its optional group, its vehicle and component ids and the reasoning
      attached to it in a dish file. */
  datatype Parameter = Parameter(
    name: string,
    value: Number,
    paramType: Option<string>,
    group: Option<string>,
    vid: int,
    cid: int,
    reasoning: Option<string>)

  /** `Parameter(name, value)`: the name is upper-cased, the type and group are
      unset and both ids default to 1. */
  function NewParameter(name: string, value: Number): (p: Parameter)
    ensures IsUpper(p.name) && |p.name| == |name|
    ensures forall k :: 0 <= k < |name| && !('a' <= name[k] <= 'z') ==> p.name[k] == name[k]
    ensures p.value == value && p.paramType == None && p.group == None && p.reasoning == None
    ensures p.vid == 1 && p.cid == 1
  {
    Parameter(Upper(name), value, None, None, 1, 1, None)
  }

  /** Upper-casing the name of a constructed parameter changes nothing. */
  lemma NewParameterNameStable(name: string, value: Number)
    ensures Upper(NewParameter(name, value).name) == NewParameter(name, value).name
  {
    UpperOfUpper(NewParameter(name, value).name);
  }

  // ---------------------------------------------------------------------
  // Dictionary editing rules
  // ---------------------------------------------------------------------

  /** Every entry sits under its own name, as `add_param` stores it. */
  predicate KeyedByName(m: map<string, Parameter>) {
    forall k :: k in m ==> m[k].name == k
  }

  /** The value `add_param` writes into an existing entry `stored` when it
      receives `incoming` under the same name. */
  function MergedValue(stored: Parameter, incoming: Parameter): (r: Result<Number>)
    ensures incoming.paramType.Some? || stored.paramType.None? ==> r == Ok(incoming.value)
    ensures incoming.paramType.None? && stored.paramType == Some(INT32) ==>
      r.Ok? && r.value.Int? && TruncatesTo(AsReal(incoming.value), r.value.i)
    ensures incoming.paramType.None? && stored.paramType == Some(INT32) && incoming.value.Int? ==>
      r == Ok(incoming.value)
    ensures incoming.paramType.None? && stored.paramType == Some(FLOAT) ==>
      r == Ok(Float(AsReal(incoming.value)))
    ensures r.Err? <==>
      incoming.paramType.None? && stored.paramType.Some? && stored.paramType.value !in {INT32, FLOAT}
    ensures r.Err? ==> r.error.ValueError?
  {
    if incoming.paramType.Some? then Ok(incoming.value)
    else if stored.paramType.None? then Ok(incoming.value)
    else if stored.paramType.value == INT32 then Ok(Int(IntOf(incoming.value)))
    else if stored.paramType.value == FLOAT then Ok(Float(AsReal(incoming.value)))
    else Err(ValueError("Unsupported parameter type " + stored.paramType.value + " for parameter " + incoming.name))
  }

  /** `add_param(p, safe, overwrite)` on a dictionary `m`: the new dictionary,
      or the exception raised (in which case `m` is left as it was). */
  function AddParamSpec(m: map<string, Parameter>, p: Parameter, safe: bool, overwrite: bool)
    : (r: Result<map<string, Parameter>>)
    ensures safe && p.name !in m ==> r == Err(KeyError(p.name))
    ensures !overwrite && p.name in m ==> r == Err(KeyError(p.name))
    ensures !safe && p.name !in m ==> r == Ok(m[p.name := p])
    ensures r.Ok? ==> r.value.Keys == m.Keys + {p.name}
    ensures r.Ok? ==> forall k :: k in m && k != p.name ==> r.value[k] == m[k]
    ensures r.Ok? && p.name in m ==>
      r.value[p.name] == m[p.name].(value := r.value[p.name].value)
      && MergedValue(m[p.name], p) == Ok(r.value[p.name].value)
    ensures p.name in m && overwrite ==> (r.Err? <==> MergedValue(m[p.name], p).Err?)
  {
    if safe && p.name !in m then Err(KeyError(p.name))
    else if !overwrite && p.name in m then Err(KeyError(p.name))
    else if p.name !in m then Ok(m[p.name := p])
    else
      var v :- MergedValue(m[p.name], p);
      Ok(m[p.name := m[p.name].(value := v)])
  }

  /** Editing a dictionary through `add_param` keeps every entry under its name. */
  lemma AddParamKeyedByName(m: map<string, Parameter>, p: Parameter, safe: bool, overwrite: bool)
    requires KeyedByName(m)
    ensures AddParamSpec(m, p, safe, overwrite).Ok? ==> KeyedByName(AddParamSpec(m, p, safe, overwrite).value)
  {
  }

  /** `remove_param(p, safe)` on a dictionary `m`. */
  function RemoveParamSpec(m: map<string, Parameter>, name: string, safe: bool)
    : (r: Result<map<string, Parameter>>)
    ensures safe && name !in m ==> r == Err(KeyError(name))
    ensures r.Err? ==> safe && name !in m
    ensures r.Ok? ==> r.value.Keys == m.Keys - {name}
    ensures r.Ok? ==> forall k :: k in r.value ==> r.value[k] == m[k]
  {
    if safe && name !in m then Err(KeyError(name)) else Ok(m - {name})
  }

  // ---------------------------------------------------------------------
  // Printable value (`get_pretty_value`)
  // ---------------------------------------------------------------------

  /** `s` with every trailing '0' removed. */
  function DropTrailingZeros(s: string): (r: string)
    ensures |r| <= |s| && s[..|r|] == r
    ensures forall k :: |r| <= k < |s| ==> s[k] == '0'
    ensures r == [] || r[|r| - 1] != '0'
    decreases |s|
  {
    if s != [] && s[|s| - 1] == '0' then DropTrailingZeros(s[..|s| - 1]) else s
  }

  /** The tidying applied to a formatted float: when it has a decimal point,
      drop the trailing zeros, then restore one zero after a bare point. */
  function TidyDecimal(s: string): string {
    if '.' in s then
      var t := DropTrailingZeros(s);
      DotSurvives(s);
      if t[|t| - 1] == '.' then t + "0" else t
    else s
  }

  /** A decimal point is never among the dropped zeros. */
  lemma DotSurvives(s: string)
    requires '.' in s
    ensures '.' in DropTrailingZeros(s)
  {
    var t := DropTrailingZeros(s);
    var k :| 0 <= k < |s| && s[k] == '.';
    assert k < |t|;
    assert t[k] == s[k];
  }

  /** A tidied decimal string never ends in '.', and ends in a digit other
      than '0' unless it ends in ".0". */
  lemma {:induction false} TidyDecimalShape(s: string)
    requires '.' in s
    ensures var r := TidyDecimal(s);
      |r| >= 2 && r[|r| - 1] != '.' && '.' in r
      && (r[|r| - 1] != '0' || r[|r| - 2..] == ".0")
  {
    var t := DropTrailingZeros(s);
    DotSurvives(s);
    var k :| 0 <= k < |t| && t[k] == '.';
    if t[|t| - 1] == '.' {
      var r := t + "0";
      assert r[|r| - 2..] == ".0";
      assert r[k] == '.';
    } else {
      assert k < |t| - 1;
    }
  }

  /** Tidying is idempotent. */
  lemma {:induction false} TidyDecimalIdempotent(s: string)
    ensures TidyDecimal(TidyDecimal(s)) == TidyDecimal(s)
  {
    if '.' in s {
      var r := TidyDecimal(s);
      TidyDecimalShape(s);
      var t := DropTrailingZeros(s);
      if t[|t| - 1] == '.' {
        assert DropTrailingZeros(r[..|r| - 1]) == r[..|r| - 1] by { assert r[..|r| - 1] == t; }
        assert DropTrailingZeros(r) == t;
      } else {
        assert DropTrailingZeros(r) == r;
      }
    }
  }

  /** `param.get_pretty_value()`. `fixed` stands for the float formatting
      `f"{v:.{digits}f}"` including its choice of `digits`. */
  function PrettyValue(p: Parameter, fixed: real -> string): (r: Result<string>)
    ensures p.paramType == Some(INT32) ==>
      (r.Ok? <==> p.value.Int?) && (p.value.Int? ==> r.value == IntToString(p.value.i))
    ensures p.paramType == None && IsIntegral(p.value) ==> r == Ok(IntToString(IntOf(p.value)))
    ensures r.Err? ==> r.error.ValueError? && p.paramType == Some(INT32)
    ensures p.paramType != Some(INT32) && !(p.paramType == None && IsIntegral(p.value)) && AsReal(p.value) == 0.0
      ==> r == Ok("0.0")
  {
    if p.paramType == Some(INT32) then
      if p.value.Int? then Ok(IntToString(p.value.i))
      else Err(ValueError("Unknown format code 'd' for object of type 'float'"))
    else if p.paramType == None && IsIntegral(p.value) then Ok(IntToString(IntOf(p.value)))
    else if AsReal(p.value) == 0.0 then Ok("0.0")
    else Ok(TidyDecimal(fixed(AsReal(p.value))))
  }

  /** An untyped integral value prints as bare decimal digits, so an untyped
      zero prints as "0"; a non-integral zero prints as "0.0". */
  lemma PrettyValueZero(p: Parameter, fixed: real -> string)
    requires AsReal(p.value) == 0.0
    ensures p.paramType == None ==> PrettyValue(p, fixed) == Ok("0")
    ensures p.paramType.Some? && p.paramType != Some(INT32) ==> PrettyValue(p, fixed) == Ok("0.0")
  {
    if p.value.Int? { assert p.value.i == 0; }
  }

  /** In the float branch the printed value never ends in '.' and ends in a
      non-zero digit or in ".0" whenever the formatted string has a point. */
  lemma PrettyValueFloatShape(p: Parameter, fixed: real -> string)
    requires p.paramType != Some(INT32) && !(p.paramType == None && IsIntegral(p.value))
    requires AsReal(p.value) != 0.0 && '.' in fixed(AsReal(p.value))
    ensures var r := PrettyValue(p, fixed).value;
      |r| >= 2 && r[|r| - 1] != '.' && (r[|r| - 1] != '0' || r[|r| - 2..] == ".0")
  {
    TidyDecimalShape(fixed(AsReal(p.value)));
  }

  /** The stripping loop of `get_pretty_value`. */
  method StripDecimalZeros(s: string) returns (t: string)
    ensures t == TidyDecimal(s)
  {
    t := s;
    if '.' in t {
      DotSurvives(s);
      while t[|t| - 1] == '0'
        invariant |t| <= |s| && s[..|t|] == t
        invariant DropTrailingZeros(t) == DropTrailingZeros(s)
        invariant '.' in DropTrailingZeros(s)
        invariant |DropTrailingZeros(s)| <= |t|
        decreases |t|
      {
        t := t[..|t| - 1];
      }
      if t[|t| - 1] == '.' {
        t := t + "0";
      }
    }
  }

  /** `get_pretty_value` as the source writes it, with its stripping loop. */
  method GetPrettyValue(p: Parameter, fixed: real -> string) returns (r: Result<string>)
    ensures r == PrettyValue(p, fixed)
  {
    if p.paramType == Some(INT32) {
      if p.value.Int? {
        r := Ok(IntToString(p.value.i));
      } else {
        r := Err(ValueError("Unknown format code 'd' for object of type 'float'"));
      }
    } else if p.paramType == None && IsIntegral(p.value) {
      r := Ok(IntToString(IntOf(p.value)));
    } else if AsReal(p.value) == 0.0 {
      r := Ok("0.0");
    } else {
      var s := StripDecimalZeros(fixed(AsReal(p.value)));
      r := Ok(s);
    }
  }

  // ---------------------------------------------------------------------
  // Decoding one line of a parameter file
  // ---------------------------------------------------------------------

  /** Python's `int(s)` and `float(s)` on a string: `None` where they raise
      `ValueError`. */
  datatype NumberSyntax = NumberSyntax(parseInt: string -> Option<int>, parseFloat: string -> Option<real>)

  /** `get_param_from_str(string, param_type)` for a string type tag. */
  function GetParamFromStr(syn: NumberSyntax, s: string, paramType: string): (r: Result<Number>)
    ensures paramType == INT32 ==> (r.Ok? <==> syn.parseInt(s).Some?) && (r.Ok? ==> r.value == Int(syn.parseInt(s).value))
    ensures paramType == FLOAT ==> (r.Ok? <==> syn.parseFloat(s).Some?) && (r.Ok? ==> r.value == Float(syn.parseFloat(s).value))
    ensures paramType !in {INT32, FLOAT} ==> r.Err?
    ensures r.Err? ==> r.error.ValueError?
  {
    if paramType == INT32 then
      match syn.parseInt(s)
      case Some(i) => Ok(Int(i))
      case None => Err(ValueError("invalid literal for int(): " + s))
    else if paramType == FLOAT then
      match syn.parseFloat(s)
      case Some(x) => Ok(Float(x))
      case None => Err(ValueError("could not convert string to float: " + s))
    else Err(ValueError("Unhandled parameter type " + paramType))
  }

  function ParseIntField(syn: NumberSyntax, s: string): (r: Result<int>)
    ensures r.Ok? <==> syn.parseInt(s).Some?
    ensures r.Ok? ==> r.value == syn.parseInt(s).value
    ensures r.Err? ==> r.error.ValueError?
  {
    match syn.parseInt(s)
    case Some(i) => Ok(i)
    case None => Err(ValueError("invalid literal for int(): " + s))
  }

  /** The MAVLink `MAV_PARAM_TYPE` codes the tab-separated format uses. */
  const MAV_PARAM_TYPE_INT32: int := 6
  const MAV_PARAM_TYPE_REAL32: int := 9

  /** `build_param_from_qgc(row)`: vid, cid, name, value, type code. The
      fields are taken in the source's order: `int(row[0])`, `int(row[1])`,
      then `row[2]` and `int(row[4])`, so a short row whose leading fields do
      not parse fails with `ValueError` before its length is noticed. */
  function BuildParamFromQgc(syn: NumberSyntax, row: seq<string>): (r: Result<Parameter>)
    ensures (r.Err? && r.error.IndexError?) <==>
      |row| < 5 && (|row| < 1 || syn.parseInt(row[0]).Some?) && (|row| < 2 || syn.parseInt(row[1]).Some?)
    ensures |row| >= 1 && syn.parseInt(row[0]).None? ==> r.Err? && r.error.ValueError?
    ensures |row| >= 2 && syn.parseInt(row[0]).Some? && syn.parseInt(row[1]).None? ==> r.Err? && r.error.ValueError?
    ensures r.Ok? ==> |row| >= 5 && syn.parseInt(row[4]).Some?
    ensures r.Ok? ==> syn.parseInt(row[0]) == Some(r.value.vid) && syn.parseInt(row[1]) == Some(r.value.cid)
    ensures r.Ok? ==> r.value.name == Upper(row[2]) && r.value.group == None && r.value.reasoning == None
    ensures r.Ok? && syn.parseInt(row[4]).value == MAV_PARAM_TYPE_INT32 ==>
      r.value.paramType == Some(INT32) && r.value.value.Int? && syn.parseInt(row[3]) == Some(r.value.value.i)
    ensures r.Ok? && syn.parseInt(row[4]).value == MAV_PARAM_TYPE_REAL32 ==>
      r.value.paramType == Some(FLOAT) && r.value.value.Float? && syn.parseFloat(row[3]) == Some(r.value.value.r)
    ensures r.Ok? ==> syn.parseInt(row[4]).value in {MAV_PARAM_TYPE_INT32, MAV_PARAM_TYPE_REAL32}
    ensures |row| >= 5 && syn.parseInt(row[0]).Some? && syn.parseInt(row[1]).Some? && syn.parseInt(row[4]).Some?
      && syn.parseInt(row[4]).value !in {MAV_PARAM_TYPE_INT32, MAV_PARAM_TYPE_REAL32}
      ==> r.Err? && r.error.ValueError?
  {
    if |row| < 1 then Err(IndexError("list index out of range"))
    else
      var vid :- ParseIntField(syn, row[0]);
      if |row| < 2 then Err(IndexError("list index out of range"))
      else
        var cid :- ParseIntField(syn, row[1]);
        if |row| < 5 then Err(IndexError("list index out of range"))
        else
          var code :- ParseIntField(syn, row[4]);
          var paramType :- if code == MAV_PARAM_TYPE_INT32 then Ok(INT32)
                           else if code == MAV_PARAM_TYPE_REAL32 then Ok(FLOAT)
                           else Err(ValueError("Unknown parameter type: " + IntToString(code)));
          var value :- GetParamFromStr(syn, row[3], paramType);
          Ok(NewParameter(row[2], value).(paramType := Some(paramType), vid := vid, cid := cid))
  }

  /** `build_param_from_ulog_params(row)`: name, then a value read as an
      `int` if possible and as a `float` otherwise; no type tag is set. */
  function BuildParamFromUlog(syn: NumberSyntax, row: seq<string>): (r: Result<Parameter>)
    ensures |row| < 2 ==> r.Err? && r.error.IndexError?
    ensures |row| >= 2 ==>
      (r.Ok? <==> syn.parseInt(row[1]).Some? || syn.parseFloat(row[1]).Some?)
    ensures r.Ok? ==> |row| >= 2 && r.value == NewParameter(row[0], r.value.value)
    ensures r.Ok? && syn.parseInt(row[1]).Some? ==> r.value.value == Int(syn.parseInt(row[1]).value)
    ensures r.Ok? && syn.parseInt(row[1]).None? ==> r.value.value == Float(syn.parseFloat(row[1]).value)
    ensures r.Err? && |row| >= 2 ==> r.error.ValueError?
  {
    if |row| < 2 then Err(IndexError("list index out of range"))
    else
      var value :- match syn.parseInt(row[1])
                   case Some(i) => Ok(Int(i))
                   case None =>
                     match syn.parseFloat(row[1])
                     case Some(x) => Ok(Float(x))
                     case None => Err(ValueError("could not convert string to float: " + row[1]));
      Ok(NewParameter(row[0], value))
  }

  /** One `(name, value, reasoning)` triple of a dish file. */
  datatype Substance = Substance(name: string, value: Option<Number>, reasoning: Option<string>)

  /** `build_param_from_iter(item)`: a missing value becomes the integer 0. */
  function BuildParamFromIter(item: Substance): (p: Parameter)
    ensures p.name == Upper(item.name) && p.reasoning == item.reasoning
    ensures p.value == if item.value.Some? then item.value.value else Int(0)
    ensures p.paramType == None && p.group == None && p.vid == 1 && p.cid == 1
  {
    NewParameter(item.name, if item.value.None? then Int(0) else item.value.value).(reasoning := item.reasoning)
  }
}

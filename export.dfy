/** Export: the text a built meal is written out as, namely the header and
    footer boilerplate and one line per parameter in each output format,
    and the name of the file that text goes to. Each generator of
    `build_lib.py` becomes the sequence of lines it yields. An exception
    raised while the lines are produced becomes an `Err` that replaces the
    whole output. */
module Export {
  import opened Wrappers
  import opened Strings
  import opened Parameters
  import opened Documents
  import Meals

  /** The output formats `export` and `build_filename` dispatch on. */
  datatype Format = Csv | Px4 | Px4afV1 | Px4afV2

  /** The rows of an optional list of boilerplate lines. */
  function RowsOf(text: Option<seq<string>>): seq<string> {
    if text.Some? then text.value else []
  }

  /** Each row followed by a line break, as `yield row + "\n"` produces it. */
  function Terminated(rows: seq<string>): (r: seq<string>)
    ensures |r| == |rows| && forall i :: 0 <= i < |r| ==> r[i] == rows[i] + "\n"
  {
    seq(|rows|, i requires 0 <= i < |rows| => rows[i] + "\n")
  }

  // ---------------------------------------------------------------------
  // Header and footer boilerplate
  // ---------------------------------------------------------------------

  /** The rows a meal's own variant adds for one format: none without a
      variant name or without variants, `KeyError` for an unknown name. */
  function VariantText(f: FormatText, variant: Option<string>): (r: Result<Option<seq<string>>>)
    ensures r.Err? <==> variant.Some? && f.variants.Some? && variant.value !in f.variants.value
    ensures r.Err? ==> r.error == KeyError(variant.value)
    ensures r.Ok? && variant.Some? && f.variants.Some? ==> r.value == f.variants.value[variant.value].common
    ensures r.Ok? && (variant.None? || f.variants.None?) ==> r.value.None?
  {
    if variant.None? || f.variants.None? then Ok(None)
    else if variant.value !in f.variants.value then Err(KeyError(variant.value))
    else Ok(f.variants.value[variant.value].common)
  }

  /** `build_header_footer(boilerplate, variant_name, text_type)`: the rows
      common to every format, then the format's own rows, then the rows of
      the meal's variant of that format, each terminated by a line break. */
  function BuildHeaderFooter(b: BoilerplateText, variant: Option<string>, textType: string): (r: Result<seq<string>>)
    ensures textType !in b.formats ==> r == Err(KeyError(textType))
    ensures textType in b.formats ==> (r.Ok? <==> VariantText(b.formats[textType], variant).Ok?)
    ensures r.Err? ==> r.error.KeyError?
    ensures r.Ok? ==>
      var g := RowsOf(b.common);
      var f := RowsOf(b.formats[textType].common);
      var v := RowsOf(VariantText(b.formats[textType], variant).value);
      |r.value| == |g| + |f| + |v|
      && (forall i :: 0 <= i < |g| ==> r.value[i] == g[i] + "\n")
      && (forall i :: 0 <= i < |f| ==> r.value[|g| + i] == f[i] + "\n")
      && (forall i :: 0 <= i < |v| ==> r.value[|g| + |f| + i] == v[i] + "\n")
  {
    if textType !in b.formats then Err(KeyError(textType))
    else
      var f := b.formats[textType];
      var own :- VariantText(f, variant);
      Ok(Terminated(RowsOf(b.common)) + Terminated(RowsOf(f.common)) + Terminated(RowsOf(own)))
  }

  // ---------------------------------------------------------------------
  // Parameter lines
  // ---------------------------------------------------------------------

  /** How a format writes one parameter: the PX4 parameter file, a PX4
      airframe script (with its indentation and `param` directive) or CSV. */
  datatype Style = Px4Style | AirframeStyle(indentation: string, directive: string) | CsvStyle

  /** The name Python prints for an optional type tag. */
  function TypeName(t: Option<string>): string {
    if t.Some? then t.value else "None"
  }

  /** The `MAV_PARAM_TYPE` code of the PX4 parameter file: 9 for `FLOAT`,
      6 for `INT32`, `TypeError` for anything else. */
  function TypeCode(t: Option<string>, name: string): (r: Result<int>)
    ensures t == Some(FLOAT) ==> r == Ok(MAV_PARAM_TYPE_REAL32)
    ensures t == Some(INT32) ==> r == Ok(MAV_PARAM_TYPE_INT32)
    ensures r.Ok? <==> t == Some(FLOAT) || t == Some(INT32)
    ensures r.Err? ==> r.error.TypeError?
  {
    if t == Some(FLOAT) then Ok(MAV_PARAM_TYPE_REAL32)
    else if t == Some(INT32) then Ok(MAV_PARAM_TYPE_INT32)
    else Err(TypeError("Unknown parameter type " + TypeName(t) + " for parameter " + name))
  }

  /** The line one parameter becomes; the pretty value is computed first,
      so its error comes before a type error. */
  function ParamLine(style: Style, name: string, p: Parameter, fixed: real -> string): (r: Result<string>)
    ensures PrettyValue(p, fixed).Err? ==> r == Err(PrettyValue(p, fixed).error)
    ensures r.Ok? ==> PrettyValue(p, fixed).Ok? && |r.value| > 0 && r.value[|r.value| - 1] == '\n'
    ensures !style.Px4Style? ==> (r.Ok? <==> PrettyValue(p, fixed).Ok?)
    ensures style.Px4Style? && PrettyValue(p, fixed).Ok? ==> (r.Ok? <==> TypeCode(p.paramType, name).Ok?)
    ensures style.Px4Style? && PrettyValue(p, fixed).Ok? && r.Err? ==> r == Err(TypeCode(p.paramType, name).error)
  {
    var pretty :- PrettyValue(p, fixed);
    match style
    case Px4Style =>
      var code :- TypeCode(p.paramType, name);
      Ok(Join(Px4Fields(p, name, pretty, code), '\t') + "\n")
    case AirframeStyle(indentation, directive) =>
      Ok(AirframeLine(indentation, directive, name, pretty))
    case CsvStyle =>
      Ok(Join([name, pretty], ',') + "\n")
  }

  /** The tab-separated fields of a PX4 parameter line: vehicle id,
      component id, name, value and type code. */
  function Px4Fields(p: Parameter, name: string, pretty: string, code: int): seq<string> {
    [IntToString(p.vid), IntToString(p.cid), name, pretty, IntToString(code)]
  }

  /** An airframe-script line `param <directive> <name> <value>`. */
  function AirframeLine(indentation: string, directive: string, name: string, pretty: string): string {
    indentation + "param " + directive + " " + name + " " + pretty + "\n"
  }

  /** One line per name, in the order of `names`; the first failing line's
      error replaces the output. */
  function ParamLines(style: Style, m: map<string, Parameter>, names: seq<string>, fixed: real -> string)
    : (r: Result<seq<string>>)
    requires forall n :: n in names ==> n in m
    ensures r.Ok? <==> forall i :: 0 <= i < |names| ==> ParamLine(style, names[i], m[names[i]], fixed).Ok?
    ensures r.Ok? ==>
      |r.value| == |names| && forall i :: 0 <= i < |names| ==> ParamLine(style, names[i], m[names[i]], fixed) == Ok(r.value[i])
    ensures r.Err? ==> exists i :: 0 <= i < |names| && ParamLine(style, names[i], m[names[i]], fixed) == Err(r.error)
    decreases |names|
  {
    if names == [] then Ok([])
    else
      var first :- ParamLine(style, names[0], m[names[0]], fixed);
      var rest :- ParamLines(style, m, names[1..], fixed);
      Ok([first] + rest)
  }

  /** The parameter lines of a meal: its names in ascending order. */
  function MealLines(style: Style, m: Meals.MealState, fixed: real -> string): (r: Result<seq<string>>) {
    ParamLines(style, m.params, SortedKeys(m.params.Keys), fixed)
  }

  // ---------------------------------------------------------------------
  // The formats
  // ---------------------------------------------------------------------

  /** `export_to_px4()`: the `px4` header, then the parameter lines; a PX4
      parameter file has no footer. */
  function ExportPx4(m: Meals.MealState, header: BoilerplateText, fixed: real -> string): Result<seq<string>> {
    var head :- BuildHeaderFooter(header, m.header, "px4");
    var lines :- MealLines(Px4Style, m, fixed);
    Ok(head + lines)
  }

  /** The `param` directive and the boilerplate key of an airframe-script
      version; only versions 1 and 2 exist. */
  function AirframeVersion(version: int): (r: Result<(string, string)>)
    ensures version == 1 ==> r == Ok(("set", "px4afv1"))
    ensures version == 2 ==> r == Ok(("set-default", "px4afv2"))
    ensures version != 1 && version != 2 ==> r.Err? && r.error.ValueError?
  {
    if version == 1 then Ok(("set", "px4afv1"))
    else if version == 2 then Ok(("set-default", "px4afv2"))
    else Err(ValueError("PX4 aiframe version " + IntToString(version) + " not supported."))
  }

  /** The indentation of airframe-script lines: a tab, except for SITL. */
  function Indentation(m: Meals.MealState): string {
    if m.isSitl then "" else "\t"
  }

  /** `export_to_px4af(version)`: header, `param` lines, footer. */
  function ExportPx4af(m: Meals.MealState, version: int, header: BoilerplateText, footer: BoilerplateText,
                       fixed: real -> string): Result<seq<string>> {
    var v :- AirframeVersion(version);
    var head :- BuildHeaderFooter(header, m.header, v.1);
    var lines :- MealLines(AirframeStyle(Indentation(m), v.0), m, fixed);
    var foot :- BuildHeaderFooter(footer, m.footer, v.1);
    Ok(head + lines + foot)
  }

  /** `export_to_csv()`: header, `NAME,value` lines, footer. */
  function ExportCsv(m: Meals.MealState, header: BoilerplateText, footer: BoilerplateText,
                     fixed: real -> string): Result<seq<string>> {
    var head :- BuildHeaderFooter(header, m.header, "csv");
    var lines :- MealLines(CsvStyle, m, fixed);
    var foot :- BuildHeaderFooter(footer, m.footer, "csv");
    Ok(head + lines + foot)
  }

  /** `export(format)`. */
  function ExportAs(m: Meals.MealState, format: Format, header: BoilerplateText, footer: BoilerplateText,
                    fixed: real -> string): Result<seq<string>> {
    match format
    case Csv => ExportCsv(m, header, footer, fixed)
    case Px4 => ExportPx4(m, header, fixed)
    case Px4afV1 => ExportPx4af(m, 1, header, footer, fixed)
    case Px4afV2 => ExportPx4af(m, 2, header, footer, fixed)
  }

  /** `build_filename(format, meal)`. */
  function BuildFilename(format: Format, m: Meals.MealState): (r: string)
    ensures format == Csv ==> r == m.name + ".csv"
    ensures format == Px4 ==> r == m.name + ".params"
    ensures format == Px4afV1 || format == Px4afV2 ==>
      r == IntToString(m.frameId) + "_" + m.name + (if m.isHitl then ".hil" else "")
  {
    match format
    case Csv => m.name + ".csv"
    case Px4 => m.name + ".params"
    case _ =>
      var stem := IntToString(m.frameId) + "_" + m.name;
      if m.isHitl then stem + ".hil" else stem
  }

  // ---------------------------------------------------------------------
  // Properties of the exports
  // ---------------------------------------------------------------------

  /** The lines of a list of names that covers a map: one line per name, in
      the list's order, and every entry of the map has a line. */
  lemma {:induction false} CoveringLines(style: Style, m: map<string, Parameter>, names: seq<string>, fixed: real -> string)
    requires forall n :: n in names <==> n in m
    ensures ParamLines(style, m, names, fixed).Ok? <==>
      forall n :: n in m ==> ParamLine(style, n, m[n], fixed).Ok?
  {
    if ParamLines(style, m, names, fixed).Ok? {
      forall n | n in m ensures ParamLine(style, n, m[n], fixed).Ok? {
        var i :| 0 <= i < |names| && names[i] == n;
      }
    }
  }

  /** A meal's parameter lines follow its names in ascending order, one line
      per parameter, and exist exactly when every parameter has a line. */
  lemma SortedLines(style: Style, m: Meals.MealState, fixed: real -> string)
    ensures MealLines(style, m, fixed).Ok? <==>
      forall n :: n in m.params ==> ParamLine(style, n, m.params[n], fixed).Ok?
    ensures MealLines(style, m, fixed).Ok? ==>
      var names := SortedKeys(m.params.Keys);
      var lines := MealLines(style, m, fixed).value;
      StrictlySorted(names) && |lines| == |m.params|
      && forall i :: 0 <= i < |names| ==> ParamLine(style, names[i], m.params[names[i]], fixed) == Ok(lines[i])
  {
    SortedKeysAscending(m.params.Keys);
    CoveringLines(style, m.params, SortedKeys(m.params.Keys), fixed);
  }

  /** The PX4 parameter file is the `px4` header followed by the sorted
      parameter lines; nothing follows the last parameter line, and it
      exists only when every parameter is typed `FLOAT` or `INT32`. */
  lemma ExportPx4Layout(m: Meals.MealState, header: BoilerplateText, fixed: real -> string)
    ensures ExportPx4(m, header, fixed).Ok? <==>
      BuildHeaderFooter(header, m.header, "px4").Ok? && MealLines(Px4Style, m, fixed).Ok?
    ensures ExportPx4(m, header, fixed).Ok? ==>
      ExportPx4(m, header, fixed).value
        == BuildHeaderFooter(header, m.header, "px4").value + MealLines(Px4Style, m, fixed).value
    ensures ExportPx4(m, header, fixed).Ok? ==>
      forall n :: n in m.params ==> m.params[n].paramType in {Some(FLOAT), Some(INT32)}
  {
    SortedLines(Px4Style, m, fixed);
  }

  /** When every value prints, a parameter whose type is neither `FLOAT`
      nor `INT32` makes the PX4 export raise `TypeError`, provided its
      header exists. */
  lemma ExportPx4Untyped(m: Meals.MealState, header: BoilerplateText, fixed: real -> string, n: string)
    requires forall k :: k in m.params ==> PrettyValue(m.params[k], fixed).Ok?
    requires n in m.params && m.params[n].paramType !in {Some(FLOAT), Some(INT32)}
    requires BuildHeaderFooter(header, m.header, "px4").Ok?
    ensures ExportPx4(m, header, fixed).Err? && ExportPx4(m, header, fixed).error.TypeError?
  {
    ExportPx4Layout(m, header, fixed);
    PrintableLinesFail(m.params, SortedKeys(m.params.Keys), fixed);
  }

  /** The PX4 lines of printable values fail only with `TypeError`. */
  lemma PrintableLinesFail(m: map<string, Parameter>, names: seq<string>, fixed: real -> string)
    requires forall k :: k in names ==> k in m && PrettyValue(m[k], fixed).Ok?
    ensures ParamLines(Px4Style, m, names, fixed).Err? ==> ParamLines(Px4Style, m, names, fixed).error.TypeError?
  {
    var r := ParamLines(Px4Style, m, names, fixed);
    if r.Err? {
      var i :| 0 <= i < |names| && ParamLine(Px4Style, names[i], m[names[i]], fixed) == Err(r.error);
      assert names[i] in names;
    }
  }

  /** `int(s)` reads back every decimal rendering of an integer. */
  ghost predicate ReadsDecimals(syn: NumberSyntax) {
    forall i :: syn.parseInt(IntToString(i)) == Some(i)
  }

  lemma FreeOfSeparators(i: int)
    ensures '\t' !in IntToString(i) && '_' !in IntToString(i) && ',' !in IntToString(i)
  {
    var s := IntToString(i);
    forall k | 0 <= k < |s| ensures s[k] != '\t' && s[k] != '_' && s[k] != ',' {
      if i < 0 && k > 0 { assert s[k] == NatToString(-i)[k - 1]; }
    }
  }

  /** A PX4 parameter line, split on tabs once its line break is dropped,
      gives back its five fields. */
  lemma Px4LineFields(name: string, p: Parameter, fixed: real -> string)
    requires ParamLine(Px4Style, name, p, fixed).Ok?
    requires '\t' !in name && '\t' !in PrettyValue(p, fixed).value
    ensures var line := ParamLine(Px4Style, name, p, fixed).value;
      Split(line[..|line| - 1], '\t')
        == Px4Fields(p, name, PrettyValue(p, fixed).value, TypeCode(p.paramType, name).value)
  {
    var fields := Px4Fields(p, name, PrettyValue(p, fixed).value, TypeCode(p.paramType, name).value);
    FreeOfSeparators(p.vid);
    FreeOfSeparators(p.cid);
    FreeOfSeparators(TypeCode(p.paramType, name).value);
    var joined := Join(fields, '\t');
    assert (joined + "\n")[..|joined|] == joined;
    SplitJoin(fields, '\t');
  }

  /** The tab-separated reader takes a PX4 parameter line back to a
      parameter with the same ids and type and the upper-cased name, and it
      recovers an `INT32` value exactly. */
  lemma Px4LineReadBack(syn: NumberSyntax, name: string, p: Parameter, fixed: real -> string)
    requires ReadsDecimals(syn)
    requires ParamLine(Px4Style, name, p, fixed).Ok?
    requires '\t' !in name && '\t' !in PrettyValue(p, fixed).value
    requires p.paramType == Some(FLOAT) ==> syn.parseFloat(PrettyValue(p, fixed).value).Some?
    ensures var line := ParamLine(Px4Style, name, p, fixed).value;
      var q := BuildParamFromQgc(syn, Split(line[..|line| - 1], '\t'));
      q.Ok? && q.value.name == Upper(name) && q.value.vid == p.vid && q.value.cid == p.cid
      && q.value.paramType == p.paramType
      && (p.paramType == Some(INT32) ==> q.value.value == p.value)
  {
    Px4LineFields(name, p, fixed);
    var code := TypeCode(p.paramType, name).value;
    var row := Px4Fields(p, name, PrettyValue(p, fixed).value, code);
    assert syn.parseInt(row[0]) == Some(p.vid);
    assert syn.parseInt(row[1]) == Some(p.cid);
    assert syn.parseInt(row[4]) == Some(code);
    if p.paramType == Some(INT32) {
      assert syn.parseInt(row[3]) == Some(p.value.i);
    }
  }

  /** A CSV line, split on the comma once its line break is dropped, is a
      row the comma-separated reader accepts whenever the printed value
      parses as a number, and it names the same parameter. */
  lemma CsvLineReadBack(syn: NumberSyntax, name: string, p: Parameter, fixed: real -> string)
    requires ParamLine(CsvStyle, name, p, fixed).Ok?
    requires ',' !in name && ',' !in PrettyValue(p, fixed).value
    ensures var line := ParamLine(CsvStyle, name, p, fixed).value;
      var pretty := PrettyValue(p, fixed).value;
      var row := Split(line[..|line| - 1], ',');
      var q := BuildParamFromUlog(syn, row);
      row == [name, pretty]
      && (q.Ok? <==> syn.parseInt(pretty).Some? || syn.parseFloat(pretty).Some?)
      && (q.Ok? ==> q.value.name == Upper(name))
  {
    var joined := Join([name, PrettyValue(p, fixed).value], ',');
    assert (joined + "\n")[..|joined|] == joined;
    SplitJoin([name, PrettyValue(p, fixed).value], ',');
  }

  /** An airframe-script line starts with a tab exactly when the meal is not
      SITL; otherwise it starts with the `param` command. */
  lemma AirframeIndentation(m: Meals.MealState, directive: string, name: string, pretty: string)
    ensures var line := AirframeLine(Indentation(m), directive, name, pretty);
      |line| > 0 && (line[0] == '\t' <==> !m.isSitl) && (m.isSitl ==> line[..6] == "param ")
  {
    var line := AirframeLine(Indentation(m), directive, name, pretty);
    if m.isSitl {
      assert line == "param " + (directive + " " + name + " " + pretty + "\n");
    } else {
      assert line == "\t" + ("param " + directive + " " + name + " " + pretty + "\n");
    }
  }

  /** Airframe scripts exist in versions 1 and 2 only; a script is the
      header, the sorted parameter lines with the version's directive, and
      the footer, and it exists exactly when all three do. */
  lemma ExportPx4afLayout(m: Meals.MealState, version: int, header: BoilerplateText, footer: BoilerplateText,
                          fixed: real -> string)
    ensures version != 1 && version != 2 ==>
      ExportPx4af(m, version, header, footer, fixed).Err?
      && ExportPx4af(m, version, header, footer, fixed).error.ValueError?
    ensures version == 1 || version == 2 ==>
      var v := AirframeVersion(version).value;
      var head := BuildHeaderFooter(header, m.header, v.1);
      var lines := MealLines(AirframeStyle(Indentation(m), v.0), m, fixed);
      var foot := BuildHeaderFooter(footer, m.footer, v.1);
      var r := ExportPx4af(m, version, header, footer, fixed);
      (r.Ok? <==> head.Ok? && lines.Ok? && foot.Ok?)
      && (r.Ok? ==> r.value == head.value + lines.value + foot.value)
      && (lines.Ok? <==> forall n :: n in m.params ==> PrettyValue(m.params[n], fixed).Ok?)
  {
    if version == 1 || version == 2 {
      var v := AirframeVersion(version).value;
      SortedLines(AirframeStyle(Indentation(m), v.0), m, fixed);
    }
  }

  /** The CSV file is the `csv` header, the sorted `NAME,value` lines and
      the `csv` footer; only a missing boilerplate entry or a value that
      cannot be printed makes it fail. */
  lemma ExportCsvLayout(m: Meals.MealState, header: BoilerplateText, footer: BoilerplateText, fixed: real -> string)
    ensures var head := BuildHeaderFooter(header, m.header, "csv");
      var foot := BuildHeaderFooter(footer, m.footer, "csv");
      var r := ExportCsv(m, header, footer, fixed);
      (r.Ok? <==> head.Ok? && foot.Ok? && forall n :: n in m.params ==> PrettyValue(m.params[n], fixed).Ok?)
      && (r.Ok? ==> r.value == head.value + MealLines(CsvStyle, m, fixed).value + foot.value)
  {
    SortedLines(CsvStyle, m, fixed);
  }

  /** The lines of any style fail only with the `ValueError` of a value
      that cannot be printed or, in a PX4 parameter file, a `TypeError`. */
  lemma LineErrors(style: Style, m: map<string, Parameter>, names: seq<string>, fixed: real -> string)
    requires forall k :: k in names ==> k in m
    ensures ParamLines(style, m, names, fixed).Err? ==>
      ParamLines(style, m, names, fixed).error.ValueError?
      || (style.Px4Style? && ParamLines(style, m, names, fixed).error.TypeError?)
  {
    var r := ParamLines(style, m, names, fixed);
    if r.Err? {
      var i :| 0 <= i < |names| && ParamLine(style, names[i], m[names[i]], fixed) == Err(r.error);
    }
  }

  /** A meal's lines fail only as `LineErrors` says. */
  lemma MealLineErrors(style: Style, m: Meals.MealState, fixed: real -> string)
    ensures MealLines(style, m, fixed).Err? ==>
      MealLines(style, m, fixed).error.ValueError? || (style.Px4Style? && MealLines(style, m, fixed).error.TypeError?)
  {
    LineErrors(style, m.params, SortedKeys(m.params.Keys), fixed);
  }

  /** `export(format)` fails only with a `KeyError` for missing boilerplate,
      a `ValueError` for an `INT32` parameter holding a fraction, or, in a
      PX4 parameter file, a `TypeError` for an untyped parameter. */
  lemma ExportErrors(m: Meals.MealState, format: Format, header: BoilerplateText, footer: BoilerplateText,
                     fixed: real -> string)
    ensures ExportAs(m, format, header, footer, fixed).Err? ==>
      var e := ExportAs(m, format, header, footer, fixed).error;
      e.KeyError? || e.ValueError? || (format == Px4 && e.TypeError?)
  {
    match format
    case Csv => MealLineErrors(CsvStyle, m, fixed);
    case Px4 => MealLineErrors(Px4Style, m, fixed);
    case Px4afV1 => MealLineErrors(AirframeStyle(Indentation(m), "set"), m, fixed);
    case Px4afV2 => MealLineErrors(AirframeStyle(Indentation(m), "set-default"), m, fixed);
  }

  /** The airframe file name starts with the frame id up to its first
      underscore, so the id can be read back from the name. */
  lemma AirframeFilenameFrameId(format: Format, m: Meals.MealState)
    requires format == Px4afV1 || format == Px4afV2
    ensures Split(BuildFilename(format, m), '_')[0] == IntToString(m.frameId)
  {
    FreeOfSeparators(m.frameId);
    var rest := m.name + (if m.isHitl then ".hil" else "");
    assert BuildFilename(format, m) == IntToString(m.frameId) + ['_'] + rest;
    SplitAtFirst(IntToString(m.frameId), rest, '_');
  }
}

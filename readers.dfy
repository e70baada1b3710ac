/** Readers: the two text readers of parasect (the tab-separated format
    written by QGroundControl and the comma-separated printout of
    `ulog_params`) and the dispatcher `read_params`, which accepts a file
    only when exactly one reader recognises it. A file arrives already split
    into rows of fields, once per delimiter; the XML reader is represented
    by its outcome. */
module Readers {
  import opened Wrappers
  import opened Strings
  import opened Parameters
  import opened ParamLists

  // ---------------------------------------------------------------------
  // One row
  // ---------------------------------------------------------------------

  /** The two text formats. */
  datatype TextFormat = Qgc | Ulog

  /** A tab-separated row the reader passes over: an empty row, or one whose
      first field starts with '#'. */
  predicate QgcSkipped(row: seq<string>) {
    |row| == 0 || (|row[0]| > 0 && row[0][0] == '#')
  }

  /** One row of `read_params_qgc` applied to the dictionary built so far. */
  function QgcRow(syn: NumberSyntax, m: map<string, Parameter>, row: seq<string>): (r: Result<map<string, Parameter>>)
    ensures QgcSkipped(row) ==> r == Ok(m)
    ensures |row| > 0 && |row[0]| == 0 ==> r.Err? && r.error.IndexError?
    ensures !QgcSkipped(row) && |row[0]| > 0 && (|row| != 5 || syn.parseFloat(row[2]).Some?) ==>
      r.Err? && r.error.SyntaxError?
    ensures r.Ok? && !QgcSkipped(row) ==>
      |row| == 5 && syn.parseFloat(row[2]).None? && BuildParamFromQgc(syn, row).Ok?
      && r == AddParamSpec(m, BuildParamFromQgc(syn, row).value, false, true)
  {
    if |row| == 0 then Ok(m)
    else if |row[0]| == 0 then Err(IndexError("string index out of range"))
    else if row[0][0] == '#' then Ok(m)
    else if |row| != 5 then Err(SyntaxError("Wrong number of line elements"))
    else if syn.parseFloat(row[2]).Some? then Err(SyntaxError("First element must be a parameter name string"))
    else
      var p :- BuildParamFromQgc(syn, row);
      AddParamSpec(m, p, false, true)
  }

  /** One row of `read_params_ulog_param`. */
  function UlogRow(syn: NumberSyntax, m: map<string, Parameter>, row: seq<string>): (r: Result<map<string, Parameter>>)
    ensures |row| != 2 || syn.parseFloat(row[0]).Some? ==> r.Err? && r.error.SyntaxError?
    ensures r.Ok? ==>
      |row| == 2 && syn.parseFloat(row[0]).None? && BuildParamFromUlog(syn, row).Ok?
      && r == AddParamSpec(m, BuildParamFromUlog(syn, row).value, false, true)
  {
    if |row| != 2 then Err(SyntaxError("Invalid number of elements for ulog param decoder: " + IntToString(|row|)))
    else if syn.parseFloat(row[0]).Some? then Err(SyntaxError("First element must be a parameter name string"))
    else
      var p :- BuildParamFromUlog(syn, row);
      AddParamSpec(m, p, false, true)
  }

  function ReadRow(syn: NumberSyntax, fmt: TextFormat, m: map<string, Parameter>, row: seq<string>): Result<map<string, Parameter>> {
    match fmt
    case Qgc => QgcRow(syn, m, row)
    case Ulog => UlogRow(syn, m, row)
  }

  /** The rows read one after the other into `m`; the first exception ends
      the reading. */
  function ReadRows(syn: NumberSyntax, fmt: TextFormat, rows: seq<seq<string>>, m: map<string, Parameter>)
    : Result<map<string, Parameter>>
    decreases |rows|
  {
    if rows == [] then Ok(m)
    else
      var m' :- ReadRow(syn, fmt, m, rows[0]);
      ReadRows(syn, fmt, rows[1..], m')
  }

  // ---------------------------------------------------------------------
  // Properties of a whole file
  // ---------------------------------------------------------------------

  /** Reading `a + b` reads `a`, then reads `b` into the result. */
  lemma {:induction false} ReadRowsAppend(syn: NumberSyntax, fmt: TextFormat, a: seq<seq<string>>, b: seq<seq<string>>, m: map<string, Parameter>)
    ensures ReadRows(syn, fmt, a + b, m) ==
      match ReadRows(syn, fmt, a, m)
      case Ok(m') => ReadRows(syn, fmt, b, m')
      case Err(e) => Err(e)
    decreases |a|
  {
    if a == [] {
      assert a + b == b;
    } else {
      assert (a + b)[0] == a[0];
      assert (a + b)[1..] == a[1..] + b;
      match ReadRow(syn, fmt, m, a[0])
      case Ok(m') => ReadRowsAppend(syn, fmt, a[1..], b, m');
      case Err(_) =>
    }
  }

  /** Empty rows and comment rows of a tab-separated file change nothing. */
  lemma QgcSkippedRowIgnored(syn: NumberSyntax, a: seq<seq<string>>, row: seq<string>, b: seq<seq<string>>, m: map<string, Parameter>)
    requires QgcSkipped(row)
    ensures ReadRows(syn, Qgc, a + [row] + b, m) == ReadRows(syn, Qgc, a + b, m)
  {
    ReadRowsAppend(syn, Qgc, a, [row] + b, m);
    ReadRowsAppend(syn, Qgc, a, b, m);
    assert a + [row] + b == a + ([row] + b);
    assert ([row] + b)[0] == row && ([row] + b)[1..] == b;
  }

  /** Every entry a reader stores sits under its name. */
  lemma {:induction false} ReadRowsKeyedByName(syn: NumberSyntax, fmt: TextFormat, rows: seq<seq<string>>, m: map<string, Parameter>)
    requires KeyedByName(m)
    ensures ReadRows(syn, fmt, rows, m).Ok? ==> KeyedByName(ReadRows(syn, fmt, rows, m).value)
    decreases |rows|
  {
    if rows != [] {
      var r := ReadRow(syn, fmt, m, rows[0]);
      if r.Ok? {
        ReadRowsKeyedByName(syn, fmt, rows[1..], r.value);
      }
    }
  }

  /** The name a row that is read contributes, upper-cased as `Parameter`
      does (a row too short to be read has none). */
  function RowName(fmt: TextFormat, row: seq<string>): string {
    match fmt
    case Qgc => if |row| >= 3 then Upper(row[2]) else []
    case Ulog => if |row| >= 1 then Upper(row[0]) else []
  }

  /** A row that carries a parameter. */
  predicate DataRow(fmt: TextFormat, row: seq<string>) {
    fmt == Ulog || !QgcSkipped(row)
  }

  /** One row that is read: a data row has the right field count and a
      name that is not a number, and adds exactly its name; any other row
      changes nothing. */
  lemma ReadRowAccepted(syn: NumberSyntax, fmt: TextFormat, m: map<string, Parameter>, row: seq<string>)
    requires ReadRow(syn, fmt, m, row).Ok?
    ensures DataRow(fmt, row) ==>
      |row| == (if fmt == Qgc then 5 else 2) && syn.parseFloat(row[if fmt == Qgc then 2 else 0]).None?
      && ReadRow(syn, fmt, m, row).value.Keys == m.Keys + {RowName(fmt, row)}
    ensures !DataRow(fmt, row) ==> ReadRow(syn, fmt, m, row).value == m
  {
    if DataRow(fmt, row) {
      if fmt == Qgc {
        assert ReadRow(syn, fmt, m, row).value.Keys == m.Keys + {BuildParamFromQgc(syn, row).value.name};
      } else {
        assert ReadRow(syn, fmt, m, row).value.Keys == m.Keys + {BuildParamFromUlog(syn, row).value.name};
      }
    }
  }

  /** A successful read has checked every data row: the field count, and a
      name that is not a number. */
  lemma {:induction false} ReadRowsWellFormed(syn: NumberSyntax, fmt: TextFormat, rows: seq<seq<string>>, m: map<string, Parameter>)
    requires ReadRows(syn, fmt, rows, m).Ok?
    ensures forall k :: 0 <= k < |rows| && DataRow(fmt, rows[k]) ==>
      |rows[k]| == (if fmt == Qgc then 5 else 2)
      && syn.parseFloat(rows[k][if fmt == Qgc then 2 else 0]).None?
    decreases |rows|
  {
    if rows != [] {
      var m' := ReadRow(syn, fmt, m, rows[0]).value;
      ReadRowsWellFormed(syn, fmt, rows[1..], m');
      ReadRowAccepted(syn, fmt, m, rows[0]);
      forall k | 0 <= k < |rows| && DataRow(fmt, rows[k])
        ensures |rows[k]| == (if fmt == Qgc then 5 else 2)
          && syn.parseFloat(rows[k][if fmt == Qgc then 2 else 0]).None?
      {
        if k > 0 { assert rows[k] == rows[1..][k - 1]; }
      }
    }
  }

  /** A successful read holds exactly the names of the data rows, besides
      what it started from. */
  lemma {:induction false} ReadRowsAccepted(syn: NumberSyntax, fmt: TextFormat, rows: seq<seq<string>>, m: map<string, Parameter>)
    requires ReadRows(syn, fmt, rows, m).Ok?
    ensures forall k :: 0 <= k < |rows| && DataRow(fmt, rows[k]) ==>
      RowName(fmt, rows[k]) in ReadRows(syn, fmt, rows, m).value
    ensures forall x :: x in ReadRows(syn, fmt, rows, m).value ==>
      x in m || exists k :: 0 <= k < |rows| && DataRow(fmt, rows[k]) && RowName(fmt, rows[k]) == x
    decreases |rows|
  {
    if rows != [] {
      var m' := ReadRow(syn, fmt, m, rows[0]).value;
      ReadRowsAccepted(syn, fmt, rows[1..], m');
      ReadRowsKeepsKeys(syn, fmt, rows[1..], m');
      ReadRowAccepted(syn, fmt, m, rows[0]);
      var res := ReadRows(syn, fmt, rows, m).value;
      assert res == ReadRows(syn, fmt, rows[1..], m').value;
      forall k | 0 <= k < |rows| && DataRow(fmt, rows[k])
        ensures RowName(fmt, rows[k]) in res
      {
        if k > 0 { assert rows[k] == rows[1..][k - 1]; }
      }
      forall x | x in res
        ensures x in m || exists k :: 0 <= k < |rows| && DataRow(fmt, rows[k]) && RowName(fmt, rows[k]) == x
      {
        if x !in m' {
          var j :| 0 <= j < |rows[1..]| && DataRow(fmt, rows[1..][j]) && RowName(fmt, rows[1..][j]) == x;
          assert rows[j + 1] == rows[1..][j];
        } else if x !in m {
          assert DataRow(fmt, rows[0]) && RowName(fmt, rows[0]) == x;
        }
      }
    }
  }

  /** Reading only adds keys. */
  lemma {:induction false} ReadRowsKeepsKeys(syn: NumberSyntax, fmt: TextFormat, rows: seq<seq<string>>, m: map<string, Parameter>)
    ensures ReadRows(syn, fmt, rows, m).Ok? ==> m.Keys <= ReadRows(syn, fmt, rows, m).value.Keys
    decreases |rows|
  {
    if rows != [] {
      var r := ReadRow(syn, fmt, m, rows[0]);
      if r.Ok? {
        ReadRowsKeepsKeys(syn, fmt, rows[1..], r.value);
      }
    }
  }

  /** A data row with the wrong number of fields, or whose name field parses
      as a number, makes the reader raise `SyntaxError` once the rows before
      it have been read. */
  lemma RejectsMalformedRow(syn: NumberSyntax, fmt: TextFormat, rows: seq<seq<string>>, k: nat, m: map<string, Parameter>)
    requires k < |rows| && ReadRows(syn, fmt, rows[..k], m).Ok?
    requires fmt == Qgc ==> !QgcSkipped(rows[k]) && |rows[k][0]| > 0 && (|rows[k]| != 5 || syn.parseFloat(rows[k][2]).Some?)
    requires fmt == Ulog ==> |rows[k]| != 2 || syn.parseFloat(rows[k][0]).Some?
    ensures ReadRows(syn, fmt, rows, m).Err? && ReadRows(syn, fmt, rows, m).error.SyntaxError?
  {
    assert rows == rows[..k] + rows[k..];
    ReadRowsAppend(syn, fmt, rows[..k], rows[k..], m);
    assert rows[k..][0] == rows[k];
  }

  // ---------------------------------------------------------------------
  // The readers as the source writes them
  // ---------------------------------------------------------------------

  /** The reading loop shared by both readers: each row in turn, into `list`. */
  method ReadInto(syn: NumberSyntax, fmt: TextFormat, rows: seq<seq<string>>, list: ParameterList) returns (r: Result<()>)
    modifies list.params
    ensures match ReadRows(syn, fmt, rows, old(list.params.entries))
      case Ok(m) => r.Ok? && list.params.entries == m
      case Err(e) => r == Err(e)
  {
    ghost var spec := ReadRows(syn, fmt, rows, list.params.entries);
    var i := 0;
    while i < |rows|
      invariant 0 <= i <= |rows|
      invariant ReadRows(syn, fmt, rows[i..], list.params.entries) == spec
      decreases |rows| - i
    {
      assert rows[i..][0] == rows[i] && rows[i..][1..] == rows[i + 1..];
      var row := rows[i];
      var p: Parameter;
      if fmt == Qgc {
        if |row| == 0 {
          i := i + 1;
          continue;
        }
        if |row[0]| == 0 {
          return Err(IndexError("string index out of range"));
        }
        if row[0][0] == '#' {
          i := i + 1;
          continue;
        }
        if |row| != 5 {
          return Err(SyntaxError("Wrong number of line elements"));
        }
        if syn.parseFloat(row[2]).Some? {
          return Err(SyntaxError("First element must be a parameter name string"));
        }
        p :- BuildParamFromQgc(syn, row);
      } else {
        if |row| != 2 {
          return Err(SyntaxError("Invalid number of elements for ulog param decoder: " + IntToString(|row|)));
        }
        if syn.parseFloat(row[0]).Some? {
          return Err(SyntaxError("First element must be a parameter name string"));
        }
        p :- BuildParamFromUlog(syn, row);
      }
      var added := list.AddParam(p, false, true);
      if added.Err? {
        return Err(added.error);
      }
      i := i + 1;
    }
    r := Ok(());
  }

  /** `read_params_qgc(path)` on the file's tab-separated rows. */
  method ReadParamsQgc(syn: NumberSyntax, rows: seq<seq<string>>) returns (r: Result<ParameterList>)
    ensures match ReadRows(syn, Qgc, rows, map[])
      case Ok(m) => r.Ok? && fresh(r.value) && fresh(r.value.params) && r.value.params.entries == m && r.value.sourceFile == None
      case Err(e) => r == Err(e)
  {
    var list := new ParameterList.Empty();
    var done := ReadInto(syn, Qgc, rows, list);
    if done.Err? {
      return Err(done.error);
    }
    r := Ok(list);
  }

  /** `read_params_ulog_param(path)` on the file's comma-separated rows. */
  method ReadParamsUlog(syn: NumberSyntax, rows: seq<seq<string>>) returns (r: Result<ParameterList>)
    ensures match ReadRows(syn, Ulog, rows, map[])
      case Ok(m) => r.Ok? && fresh(r.value) && fresh(r.value.params) && r.value.params.entries == m && r.value.sourceFile == None
      case Err(e) => r == Err(e)
  {
    var list := new ParameterList.Empty();
    var done := ReadInto(syn, Ulog, rows, list);
    if done.Err? {
      return Err(done.error);
    }
    r := Ok(list);
  }

  // ---------------------------------------------------------------------
  // The dispatcher
  // ---------------------------------------------------------------------

  /** What `read_params_xml` does with a file: it raises `ParseError` on a
      non-XML file, raises some other exception, or returns the entries it
      read. */
  datatype XmlOutcome = NotXml | XmlRaised(error: Error) | XmlRead(entries: map<string, Parameter>)

  /** A parameter file: its path, the XML reader's outcome on it and its
      rows split at ',' and at tabs. */
  datatype ParamFile = ParamFile(path: string, xml: XmlOutcome, commaRows: seq<seq<string>>, tabRows: seq<seq<string>>)

  /** How one reader fares inside `read_params`: it recognises the file, its
      failure is caught (`ParseError` for XML, `SyntaxError` for the text
      readers) or its exception escapes. */
  datatype Attempt = Recognized(entries: map<string, Parameter>) | Declined | Raised(error: Error)

  function XmlAttempt(x: XmlOutcome): Attempt {
    match x
    case NotXml => Declined
    case XmlRaised(e) => Raised(e)
    case XmlRead(m) => Recognized(m)
  }

  function TextAttempt(syn: NumberSyntax, fmt: TextFormat, rows: seq<seq<string>>): Attempt {
    match ReadRows(syn, fmt, rows, map[])
    case Ok(m) => Recognized(m)
    case Err(e) => if e.SyntaxError? then Declined else Raised(e)
  }

  /** The three readers in the order `read_params` tries them. */
  function Attempts(syn: NumberSyntax, f: ParamFile): seq<Attempt> {
    [XmlAttempt(f.xml), TextAttempt(syn, Ulog, f.commaRows), TextAttempt(syn, Qgc, f.tabRows)]
  }

  /** `read_params(path)`: the dictionary of the one reader that recognises
      the file, or the exception. */
  function ReadParamsSpec(syn: NumberSyntax, f: ParamFile): Result<map<string, Parameter>> {
    Dispatch(Attempts(syn, f))
  }

  /** The first escaping exception, else the one recognising reader's
      dictionary, else a `SyntaxError` for none or several. */
  function Dispatch(a: seq<Attempt>): Result<map<string, Parameter>>
    requires |a| == 3
  {
    if a[0].Raised? then Err(a[0].error)
    else if a[1].Raised? then Err(a[1].error)
    else if a[2].Raised? then Err(a[2].error)
    else
      var hits := Hits(a);
      if |hits| == 0 then Err(SyntaxError("Could not recognize log protocol."))
      else if |hits| > 1 then Err(SyntaxError("Protocol ambiguous, fits more than one parser."))
      else Ok(hits[0])
  }

  /** The dictionaries of the readers that recognise the file, in order. */
  function Hits(a: seq<Attempt>): seq<map<string, Parameter>>
    requires |a| == 3
  {
    (if a[0].Recognized? then [a[0].entries] else [])
      + (if a[1].Recognized? then [a[1].entries] else [])
      + (if a[2].Recognized? then [a[2].entries] else [])
  }

  /** `read_params` succeeds exactly when no reader lets an exception escape
      and exactly one recognises the file, and then returns that reader's
      dictionary. */
  lemma ReadParamsExactlyOne(syn: NumberSyntax, f: ParamFile)
    ensures var a := Attempts(syn, f);
      ReadParamsSpec(syn, f).Ok? <==>
        (forall k :: 0 <= k < 3 ==> !a[k].Raised?)
        && exists k :: 0 <= k < 3 && a[k].Recognized? && forall j :: 0 <= j < 3 && j != k ==> a[j].Declined?
    ensures var a := Attempts(syn, f);
      forall k :: 0 <= k < 3 && a[k].Recognized? && ReadParamsSpec(syn, f).Ok? ==> ReadParamsSpec(syn, f).value == a[k].entries
  {
    var a := Attempts(syn, f);
    if ReadParamsSpec(syn, f).Ok? {
      if a[0].Recognized? {
        assert forall j :: 0 <= j < 3 && j != 0 ==> a[j].Declined?;
      } else if a[1].Recognized? {
        assert forall j :: 0 <= j < 3 && j != 1 ==> a[j].Declined?;
      } else {
        assert forall j :: 0 <= j < 3 && j != 2 ==> a[j].Declined?;
      }
    }
  }

  /** A file no reader recognises, and one that several recognise, are both
      rejected with `SyntaxError`. */
  lemma ReadParamsRejects(syn: NumberSyntax, f: ParamFile)
    requires var a := Attempts(syn, f); forall k :: 0 <= k < 3 ==> !a[k].Raised?
    ensures var a := Attempts(syn, f);
      (forall k :: 0 <= k < 3 ==> a[k].Declined?) ==>
        ReadParamsSpec(syn, f) == Err(SyntaxError("Could not recognize log protocol."))
    ensures var a := Attempts(syn, f);
      (exists i, j :: 0 <= i < j < 3 && a[i].Recognized? && a[j].Recognized?) ==>
        ReadParamsSpec(syn, f) == Err(SyntaxError("Protocol ambiguous, fits more than one parser."))
  {
  }

  /** The exception of an earlier reader wins over everything after it; a
      `ValueError` of the comma reader therefore escapes `read_params`. */
  lemma ReadParamsFirstEscape(syn: NumberSyntax, f: ParamFile)
    ensures f.xml.XmlRaised? ==> ReadParamsSpec(syn, f) == Err(f.xml.error)
    ensures (!f.xml.XmlRaised? && ReadRows(syn, Ulog, f.commaRows, map[]).Err?
             && !ReadRows(syn, Ulog, f.commaRows, map[]).error.SyntaxError?) ==>
      ReadParamsSpec(syn, f) == Err(ReadRows(syn, Ulog, f.commaRows, map[]).error)
  {
  }

  /** A dictionary `read_params` returns keeps every entry under its name,
      given that the XML reader, which fills its list through `add_param`
      like the text readers, does. */
  lemma ReadParamsKeyedByName(syn: NumberSyntax, f: ParamFile)
    requires f.xml.XmlRead? ==> KeyedByName(f.xml.entries)
    ensures ReadParamsSpec(syn, f).Ok? ==> KeyedByName(ReadParamsSpec(syn, f).value)
  {
    ReadRowsKeyedByName(syn, Ulog, f.commaRows, map[]);
    ReadRowsKeyedByName(syn, Qgc, f.tabRows, map[]);
  }

  /** One text reader inside `read_params`'s `try`: the list it returns,
      or whether its exception is caught (`SyntaxError`) or escapes. */
  method TryText(syn: NumberSyntax, fmt: TextFormat, rows: seq<seq<string>>) returns (att: Attempt, list: ParameterList?)
    ensures att == TextAttempt(syn, fmt, rows)
    ensures att.Recognized? <==> list != null
    ensures list != null ==> fresh(list) && fresh(list.params) && list.params.entries == att.entries
  {
    var res: Result<ParameterList>;
    if fmt == Ulog {
      res := ReadParamsUlog(syn, rows);
    } else {
      res := ReadParamsQgc(syn, rows);
    }
    if res.Ok? {
      return Recognized(res.value.params.entries), res.value;
    } else if res.error.SyntaxError? {
      return Declined, null;
    }
    return Raised(res.error), null;
  }

  /** `read_params(path)`: try each reader, count the ones that recognise the
      file, keep the last list read and name it after the file. */
  method ReadParams(syn: NumberSyntax, f: ParamFile) returns (r: Result<ParameterList>)
    ensures match ReadParamsSpec(syn, f)
      case Ok(m) => r.Ok? && fresh(r.value) && fresh(r.value.params)
        && r.value.params.entries == m && r.value.sourceFile == Some(BaseName(f.path))
      case Err(e) => r == Err(e)
  {
    var recognized := 0;
    var list: ParameterList? := null;
    if f.xml.XmlRaised? {
      return Err(f.xml.error);
    } else if f.xml.XmlRead? {
      list := new ParameterList.FromEntries(f.xml.entries);
      recognized := recognized + 1;
    }
    var ulog, ulogList := TryText(syn, Ulog, f.commaRows);
    if ulog.Raised? {
      return Err(ulog.error);
    } else if ulogList != null {
      list := ulogList;
      recognized := recognized + 1;
    }
    var qgc, qgcList := TryText(syn, Qgc, f.tabRows);
    if qgc.Raised? {
      return Err(qgc.error);
    } else if qgcList != null {
      list := qgcList;
      recognized := recognized + 1;
    }
    ghost var a := [XmlAttempt(f.xml), ulog, qgc];
    assert Attempts(syn, f) == a;
    assert recognized == |Hits(a)|;
    if recognized == 0 {
      return Err(SyntaxError("Could not recognize log protocol."));
    }
    if recognized > 1 {
      return Err(SyntaxError("Protocol ambiguous, fits more than one parser."));
    }
    assert list.params.entries == Hits(a)[0];
    list.sourceFile := Some(BaseName(f.path));
    r := Ok(list);
  }
}

// Concrete cases of the comparison report: the column widths of a few
// rows, the title of a section and the first line of a report.

module CompareExamples {
  import opened Wrappers
  import opened Strings
  import opened Parameters
  import opened Compare
  import opened CompareReport

  /** Rows that hold only a parameter of the second list. */
  function SecondOnly(): seq<Pair> {
    [Pair(None, Some(NewParameter("P", Int(0)))), Pair(None, Some(NewParameter("P1", Int(10)))),
     Pair(None, Some(NewParameter("Q", Int(1))))]
  }

  /** The same parameters on the first list's side. */
  function FirstOnly(): seq<Pair> {
    [Pair(Some(NewParameter("P", Int(0))), None), Pair(Some(NewParameter("P1", Int(10))), None),
     Pair(Some(NewParameter("Q", Int(1))), None)]
  }

  /** Names "P", "P1" and "Q" need two columns, the values 0, 10 and 1 two
      columns on the side they are on, and the empty side keeps width 1. */
  lemma ColumnLengthsSecondOnly(fixed: real -> string)
    ensures ColumnLengths(SecondOnly(), fixed) == Ok(Widths(2, 1, 2))
  {
    var l := SecondOnly();
    var f := PairWidthsOf(fixed);
    assert IntToString(10) == NatToString(1) + [DigitChar(0)];
    assert f(l[0]) == Ok(Widths(1, 0, 1));
    assert f(l[1]) == Ok(Widths(2, 0, 2));
    assert f(l[2]) == Ok(Widths(1, 0, 1));
    assert l[..0] == [];
    WidenOk(l, Widths(1, 1, 1), f, 0, Widths(1, 1, 1), Widths(1, 0, 1));
    WidenOk(l, Widths(1, 1, 1), f, 1, Widths(1, 1, 1), Widths(2, 0, 2));
    WidenOk(l, Widths(1, 1, 1), f, 2, Widths(2, 1, 2), Widths(1, 0, 1));
    assert l[..3] == l;
  }

  lemma ColumnLengthsFirstOnly(fixed: real -> string)
    ensures ColumnLengths(FirstOnly(), fixed) == Ok(Widths(2, 2, 1))
  {
    var l := FirstOnly();
    var f := PairWidthsOf(fixed);
    assert IntToString(10) == NatToString(1) + [DigitChar(0)];
    assert f(l[0]) == Ok(Widths(1, 1, 0));
    assert f(l[1]) == Ok(Widths(2, 2, 0));
    assert f(l[2]) == Ok(Widths(1, 1, 0));
    assert l[..0] == [];
    WidenOk(l, Widths(1, 1, 1), f, 0, Widths(1, 1, 1), Widths(1, 1, 0));
    WidenOk(l, Widths(1, 1, 1), f, 1, Widths(1, 1, 1), Widths(2, 2, 0));
    WidenOk(l, Widths(1, 1, 1), f, 2, Widths(2, 2, 1), Widths(1, 1, 0));
    assert l[..3] == l;
  }

  /** A section of default-id parameters is titled "Component 1-1:" on its
      second line, whichever side its first row's parameter is on. */
  lemma SectionTitle(q: Pair, w: Widths, fixed: real -> string)
    requires q == Pair(Some(NewParameter("P", Int(0))), None) || q == Pair(None, Some(NewParameter("P", Int(0))))
    requires ComparisonStrings([q], w, fixed).Ok?
    ensures var s := ComparisonStrings([q], w, fixed).value;
      |s| >= 95 && s[80] == '\n' && s[81..95] == "Component 1-1:" && s[95] == '\n'
  {
    var s := ComparisonStrings([q], w, fixed).value;
    var rows := Rows([q], w, fixed).value;
    assert s == Banner(1, 1) + rows;
    assert ComponentTitle(1, 1) == "Component 1-1:";
    assert Banner(1, 1)[81..95] == ComponentTitle(1, 1);
  }

  /** One row whose parameter is absent from the first list. */
  function OneRow(): seq<seq<Pair>> { [[Pair(None, Some(NewParameter("P", Int(0))))]] }

  lemma OneRowWidths(fixed: real -> string)
    ensures ReportWidths(OneRow(), "List 1", "List 2", fixed) == Ok(Widths(1, 6, 6))
  {
    var lists := OneRow();
    var f := PairWidthsOf(fixed);
    assert f(lists[0][0]) == Ok(Widths(1, 0, 1));
    assert lists[0][..0] == [];
    WidenOk(lists[0], Widths(1, 1, 1), f, 0, Widths(1, 1, 1), Widths(1, 0, 1));
    assert lists[0][..1] == lists[0];
    assert lists[..0] == [];
    WidenOk(lists, Widths(1, 6, 6), ListWidthsOf(fixed), 0, Widths(1, 6, 6), Widths(1, 1, 1));
    assert lists[..1] == lists;
  }

  lemma DefaultHeading()
    ensures Heading(Widths(1, 6, 6), "List 1", "List 2") == "File comparison : List 1 | List 2\n"
  {
    assert PadRight("File comparison", 1) == "File comparison";
  }

  /** Without file names the report's first line names "List 1" and
      "List 2", and "File comparison" is not cut to the name column. */
  lemma DefaultLabels(fixed: real -> string)
    ensures var r := ComparisonString(OneRow(), None, None, fixed);
      r.Ok? && |r.value| >= 34 && r.value[..34] == "File comparison : List 1 | List 2\n"
  {
    OneRowWidths(fixed);
    DefaultHeading();
    ComparisonStringFacts(OneRow(), None, None, fixed);
    var r := ComparisonString(OneRow(), None, None, fixed).value;
    var h := Heading(Widths(1, 6, 6), "List 1", "List 2");
    assert |h| == 34;
    assert r[..34] == h;
  }

  /** Two-sided rows whose values are two digits wide. */
  function TwoRows(): seq<seq<Pair>> {
    [[Pair(Some(NewParameter("P10", Int(20))), Some(NewParameter("P10", Int(10)))),
      Pair(Some(NewParameter("P", Int(2))), Some(NewParameter("P", Int(1))))]]
  }

  lemma TwoRowsWidths(fixed: real -> string)
    ensures ReportWidths(TwoRows(), "1", "2", fixed) == Ok(Widths(3, 2, 2))
  {
    var lists := TwoRows();
    var l := lists[0];
    var f := PairWidthsOf(fixed);
    assert IntToString(10) == NatToString(1) + [DigitChar(0)];
    assert IntToString(20) == NatToString(2) + [DigitChar(0)];
    assert f(l[0]) == Ok(Widths(3, 2, 2));
    assert f(l[1]) == Ok(Widths(1, 1, 1));
    assert l[..0] == [];
    WidenOk(l, Widths(1, 1, 1), f, 0, Widths(1, 1, 1), Widths(3, 2, 2));
    WidenOk(l, Widths(1, 1, 1), f, 1, Widths(3, 2, 2), Widths(1, 1, 1));
    assert l[..2] == l;
    assert lists[..0] == [];
    WidenOk(lists, Widths(1, 1, 1), ListWidthsOf(fixed), 0, Widths(1, 1, 1), Widths(3, 2, 2));
    assert lists[..1] == lists;
  }

  lemma ShortHeading()
    ensures Heading(Widths(3, 2, 2), "1", "2") == "File comparison : 1  | 2 \n"
  {
    assert PadRight("File comparison", 3) == "File comparison";
    assert PadRight("1", 2) == "1 " && PadRight("2", 2) == "2 ";
  }

  /** File labels narrower than the values are padded to the value
      columns. */
  lemma ShortLabels(fixed: real -> string)
    ensures var r := ComparisonString(TwoRows(), Some("1"), Some("2"), fixed);
      r.Ok? && |r.value| >= 26 && r.value[..26] == "File comparison : 1  | 2 \n"
  {
    TwoRowsWidths(fixed);
    ShortHeading();
    ComparisonStringFacts(TwoRows(), Some("1"), Some("2"), fixed);
    var r := ComparisonString(TwoRows(), Some("1"), Some("2"), fixed).value;
    var h := Heading(Widths(3, 2, 2), "1", "2");
    assert |h| == 26;
    assert r[..26] == h;
  }
}

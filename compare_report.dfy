/** CompareReport: the text `compare_lib` prints for a comparison. It
    covers the column widths found over the rows, one row per pair, the
    section of one (vid, cid) and the whole report with its header and
    its closing count. Every loop of the source raises at the first bad
    row; the specifications are left folds that stop at the first error. */
module CompareReport {
  import opened Wrappers
  import opened Strings
  import opened Parameters
  import opened Compare

  // ---------------------------------------------------------------------
  // Folds that stop at the first error
  // ---------------------------------------------------------------------

  /** `step` applied along `xs` from `init`, giving the first error met. */
  function Fold<T, A>(xs: seq<T>, init: A, step: (A, T) -> Result<A>): Result<A>
    decreases |xs|
  {
    if xs == [] then Ok(init)
    else
      var acc :- Fold(xs[..|xs| - 1], init, step);
      step(acc, xs[|xs| - 1])
  }

  /** One more element: the fold of `xs[..i + 1]` from the fold of `xs[..i]`. */
  lemma FoldPrefix<T, A>(xs: seq<T>, init: A, step: (A, T) -> Result<A>, i: int)
    requires 0 <= i < |xs|
    ensures Fold(xs[..i + 1], init, step)
         == if Fold(xs[..i], init, step).Err? then Fold(xs[..i], init, step)
            else step(Fold(xs[..i], init, step).value, xs[i])
  {
    assert xs[..i + 1][..i] == xs[..i];
  }

  /** Once a prefix fails, the whole fold fails with the same error. */
  lemma {:induction false} FoldErrorStays<T, A>(xs: seq<T>, init: A, step: (A, T) -> Result<A>, i: int)
    requires 0 <= i <= |xs|
    requires Fold(xs[..i], init, step).Err?
    ensures Fold(xs, init, step) == Fold(xs[..i], init, step)
    decreases |xs| - i
  {
    if i < |xs| {
      FoldPrefix(xs, init, step, i);
      FoldErrorStays(xs, init, step, i + 1);
    } else {
      assert xs[..i] == xs;
    }
  }

  /** The fold step that appends what `g` prints of an element. */
  function AppendBy<T>(g: T -> Result<string>): (string, T) -> Result<string> {
    (acc: string, x: T) => (var y :- g(x); Ok(acc + y))
  }

  /** One more printed element is appended. */
  lemma AppendOk<T>(xs: seq<T>, g: T -> Result<string>, i: int, acc: string, y: string)
    requires 0 <= i < |xs| && Fold(xs[..i], "", AppendBy(g)) == Ok(acc) && g(xs[i]) == Ok(y)
    ensures Fold(xs[..i + 1], "", AppendBy(g)) == Ok(acc + y)
  {
    FoldPrefix(xs, "", AppendBy(g), i);
  }

  /** An element that cannot be printed is the error of the whole fold. */
  lemma AppendFails<T>(xs: seq<T>, g: T -> Result<string>, i: int, acc: string, e: Error)
    requires 0 <= i < |xs| && Fold(xs[..i], "", AppendBy(g)) == Ok(acc) && g(xs[i]) == Err(e)
    ensures Fold(xs, "", AppendBy(g)) == Err(e)
  {
    FoldPrefix(xs, "", AppendBy(g), i);
    FoldErrorStays(xs, "", AppendBy(g), i + 1);
  }

  /** An appending fold succeeds exactly when every element prints. */
  lemma {:induction false} AppendFoldOk<T>(xs: seq<T>, g: T -> Result<string>)
    ensures Fold(xs, "", AppendBy(g)).Ok? <==> forall k :: 0 <= k < |xs| ==> g(xs[k]).Ok?
    decreases |xs|
  {
    if xs != [] {
      var init := xs[..|xs| - 1];
      AppendFoldOk(init, g);
      assert forall k :: 0 <= k < |init| ==> init[k] == xs[k];
    }
  }

  /** A successful appending fold is that of all but the last element
      followed by the last one printed. */
  lemma AppendFoldLast<T>(xs: seq<T>, g: T -> Result<string>)
    requires xs != [] && Fold(xs, "", AppendBy(g)).Ok?
    ensures Fold(xs[..|xs| - 1], "", AppendBy(g)).Ok? && g(xs[|xs| - 1]).Ok?
    ensures Fold(xs, "", AppendBy(g)).value == Fold(xs[..|xs| - 1], "", AppendBy(g)).value + g(xs[|xs| - 1]).value
  {
  }

  // ---------------------------------------------------------------------
  // get_column_lengths
  // ---------------------------------------------------------------------

  /** The three column widths: names, values of the first list, values of
      the second list. */
  datatype Widths = Widths(name: int, value1: int, value2: int)

  function Max(a: int, b: int): int { if a < b then b else a }

  /** The column-wise larger of two sets of widths. */
  function Widen(w: Widths, c: Widths): Widths {
    Widths(Max(w.name, c.name), Max(w.value1, c.value1), Max(w.value2, c.value2))
  }

  /** Every column of `w` is at least as wide as that of `c`. */
  predicate Covers(w: Widths, c: Widths) {
    c.name <= w.name && c.value1 <= w.value1 && c.value2 <= w.value2
  }

  /** The fold step that widens by what `f` measures of an element. */
  function WidenBy<T>(f: T -> Result<Widths>): (Widths, T) -> Result<Widths> {
    (w: Widths, x: T) => (var c :- f(x); Ok(Widen(w, c)))
  }

  /** One more measured element widens the columns. */
  lemma WidenOk<T>(xs: seq<T>, init: Widths, f: T -> Result<Widths>, i: int, w: Widths, c: Widths)
    requires 0 <= i < |xs| && Fold(xs[..i], init, WidenBy(f)) == Ok(w) && f(xs[i]) == Ok(c)
    ensures Fold(xs[..i + 1], init, WidenBy(f)) == Ok(Widen(w, c))
  {
    FoldPrefix(xs, init, WidenBy(f), i);
  }

  /** An element that cannot be measured is the error of the whole fold. */
  lemma WidenFails<T>(xs: seq<T>, init: Widths, f: T -> Result<Widths>, i: int, w: Widths, e: Error)
    requires 0 <= i < |xs| && Fold(xs[..i], init, WidenBy(f)) == Ok(w) && f(xs[i]) == Err(e)
    ensures Fold(xs, init, WidenBy(f)) == Err(e)
  {
    FoldPrefix(xs, init, WidenBy(f), i);
    FoldErrorStays(xs, init, WidenBy(f), i + 1);
  }

  /** Each column of `w` is that of `init` or is reached by some element. */
  predicate Attained<T>(w: Widths, init: Widths, xs: seq<T>, f: T -> Result<Widths>) {
    (w.name == init.name || exists k :: 0 <= k < |xs| && f(xs[k]).Ok? && f(xs[k]).value.name == w.name)
    && (w.value1 == init.value1 || exists k :: 0 <= k < |xs| && f(xs[k]).Ok? && f(xs[k]).value.value1 == w.value1)
    && (w.value2 == init.value2 || exists k :: 0 <= k < |xs| && f(xs[k]).Ok? && f(xs[k]).value.value2 == w.value2)
  }

  /** A widening fold succeeds exactly when every element can be measured;
      it fails with the first element's error; its result covers the start
      and every element, and each column is attained. */
  lemma {:induction false} WidestFold<T>(xs: seq<T>, init: Widths, f: T -> Result<Widths>)
    ensures var r := Fold(xs, init, WidenBy(f));
      (r.Ok? <==> forall k :: 0 <= k < |xs| ==> f(xs[k]).Ok?)
      && (r.Err? ==> exists k :: 0 <= k < |xs| && f(xs[k]) == Err(r.error)
                       && forall j :: 0 <= j < k ==> f(xs[j]).Ok?)
      && (r.Ok? ==> Covers(r.value, init) && forall k :: 0 <= k < |xs| ==> Covers(r.value, f(xs[k]).value))
      && (r.Ok? ==> Attained(r.value, init, xs, f))
    decreases |xs|
  {
    if xs != [] {
      var init' := xs[..|xs| - 1];
      var last := xs[|xs| - 1];
      WidestFold(init', init, f);
      var r0 := Fold(init', init, WidenBy(f));
      if r0.Ok? {
        assert forall k :: 0 <= k < |init'| ==> xs[k] == init'[k];
        var c := f(last);
        if c.Ok? {
          var w := Widen(r0.value, c.value);
          assert Fold(xs, init, WidenBy(f)) == Ok(w);
          assert forall k :: 0 <= k < |init'| ==> Covers(r0.value, f(init'[k]).value);
          assert Attained(w, init, xs, f) by {
            if w.name != init.name && w.name != c.value.name {
              var k :| 0 <= k < |init'| && f(init'[k]).Ok? && f(init'[k]).value.name == r0.value.name;
              assert xs[k] == init'[k];
            }
            if w.value1 != init.value1 && w.value1 != c.value.value1 {
              var k :| 0 <= k < |init'| && f(init'[k]).Ok? && f(init'[k]).value.value1 == r0.value.value1;
              assert xs[k] == init'[k];
            }
            if w.value2 != init.value2 && w.value2 != c.value.value2 {
              var k :| 0 <= k < |init'| && f(init'[k]).Ok? && f(init'[k]).value.value2 == r0.value.value2;
              assert xs[k] == init'[k];
            }
          }
        } else {
          assert Fold(xs, init, WidenBy(f)) == Err(c.error);
        }
      } else {
        var k :| 0 <= k < |init'| && f(init'[k]) == Err(r0.error) && forall j :: 0 <= j < k ==> f(init'[j]).Ok?;
        assert xs[k] == init'[k];
        assert forall j :: 0 <= j < k ==> xs[j] == init'[j];
      }
    }
  }

  /** What one pair contributes to the widths: the name of the first
      parameter when present, else of the second, and the printed length
      of each present value (0 for an absent one). A pair of two absent
      parameters is refused; a value that cannot be printed raises. */
  function PairWidths(q: Pair, fixed: real -> string): Result<Widths> {
    if q.first.None? && q.second.None? then Err(RuntimeError("At least one parameter must not be None"))
    else
      var v1 :- if q.first.Some? then PrettyValue(q.first.value, fixed) else Ok("");
      var v2 :- if q.second.Some? then PrettyValue(q.second.value, fixed) else Ok("");
      Ok(Widths(|PairName(q)|, |v1|, |v2|))
  }

  function PairWidthsOf(fixed: real -> string): Pair -> Result<Widths> {
    q => PairWidths(q, fixed)
  }

  /** `get_column_lengths(comparison_list)`: each column starts at 1. */
  function ColumnLengths(list: seq<Pair>, fixed: real -> string): Result<Widths> {
    Fold(list, Widths(1, 1, 1), WidenBy(PairWidthsOf(fixed)))
  }

  /** The widths found by `get_column_lengths`: at least 1, at least the
      name of every row and every printed value of it, and each reached by
      some row unless it is still 1. The error is that of the first row
      that has no parameter (a `RuntimeError`) or a value that cannot be
      printed (a `ValueError`). */
  lemma ColumnLengthsFacts(list: seq<Pair>, fixed: real -> string)
    ensures var r := ColumnLengths(list, fixed);
      (r.Ok? <==> forall k :: 0 <= k < |list| ==> PairWidths(list[k], fixed).Ok?)
      && (r.Err? ==> r.error.RuntimeError? || r.error.ValueError?)
      && (r.Ok? ==>
            r.value.name >= 1 && r.value.value1 >= 1 && r.value.value2 >= 1
            && (forall k :: 0 <= k < |list| ==> |PairName(list[k])| <= r.value.name)
            && (forall k :: 0 <= k < |list| && list[k].first.Some? ==>
                  PrettyValue(list[k].first.value, fixed).Ok?
                  && |PrettyValue(list[k].first.value, fixed).value| <= r.value.value1)
            && (forall k :: 0 <= k < |list| && list[k].second.Some? ==>
                  PrettyValue(list[k].second.value, fixed).Ok?
                  && |PrettyValue(list[k].second.value, fixed).value| <= r.value.value2)
            && Attained(r.value, Widths(1, 1, 1), list, PairWidthsOf(fixed)))
  {
    WidestFold(list, Widths(1, 1, 1), PairWidthsOf(fixed));
    var r := ColumnLengths(list, fixed);
    if r.Err? {
      var k :| 0 <= k < |list| && PairWidthsOf(fixed)(list[k]) == Err(r.error);
      assert PairWidths(list[k], fixed) == Err(r.error);
    } else {
      assert forall k :: 0 <= k < |list| ==> PairWidthsOf(fixed)(list[k]) == PairWidths(list[k], fixed);
    }
  }

  /** The body of `get_column_lengths`' loop for one pair: the name of the
      first parameter when present, else of the second, then the printed
      value of each present parameter, in that order. */
  method MeasurePair(q: Pair, fixed: real -> string) returns (c: Result<Widths>)
    ensures c == PairWidths(q, fixed)
  {
    if q.first.None? && q.second.None? {
      return Err(RuntimeError("At least one parameter must not be None"));
    }
    var name := if q.first.Some? then |q.first.value.name| else |q.second.value.name|;
    var v1, v2 := 0, 0;
    if q.first.Some? {
      var pretty := GetPrettyValue(q.first.value, fixed);
      if pretty.Err? {
        return Err(pretty.error);
      }
      v1 := |pretty.value|;
    }
    if q.second.Some? {
      var pretty := GetPrettyValue(q.second.value, fixed);
      if pretty.Err? {
        return Err(pretty.error);
      }
      v2 := |pretty.value|;
    }
    c := Ok(Widths(name, v1, v2));
  }

  /** `get_column_lengths` as the source writes it: a loop that keeps the
      three maxima and raises at the first bad row. */
  method GetColumnLengths(list: seq<Pair>, fixed: real -> string) returns (r: Result<Widths>)
    ensures r == ColumnLengths(list, fixed)
  {
    var w := Widths(1, 1, 1);
    var i := 0;
    while i < |list|
      invariant 0 <= i <= |list|
      invariant ColumnLengths(list[..i], fixed) == Ok(w)
    {
      var c := MeasurePair(list[i], fixed);
      assert PairWidthsOf(fixed)(list[i]) == c;
      if c.Err? {
        WidenFails(list, Widths(1, 1, 1), PairWidthsOf(fixed), i, w, c.error);
        return Err(c.error);
      }
      WidenOk(list, Widths(1, 1, 1), PairWidthsOf(fixed), i, w, c.value);
      w := Widths(Max(w.name, c.value.name), Max(w.value1, c.value.value1), Max(w.value2, c.value.value2));
      i := i + 1;
    }
    assert list[..|list|] == list;
    r := Ok(w);
  }

  // ---------------------------------------------------------------------
  // build_comparison_row
  // ---------------------------------------------------------------------

  /** The printed value of a parameter, or "X" for an absent one. */
  function Cell(p: Option<Parameter>, fixed: real -> string): Result<string> {
    if p.None? then Ok("X") else PrettyValue(p.value, fixed)
  }

  /** '<' when only the second list has the parameter, '>' when only the
      first does, '|' when both do. */
  function Divider(q: Pair): char {
    if q.first.None? then '<' else if q.second.None? then '>' else '|'
  }

  /** `f"{a:{n}} : {b:{m}} {d} {c:{k}}\n"`: three left-aligned columns. */
  function Line(a: string, n: int, b: string, m: int, d: string, c: string, k: int): string {
    PadRight(a, n) + " : " + PadRight(b, m) + " " + d + " " + PadRight(c, k) + "\n"
  }

  /** `build_comparison_row(param_1, param_2, name_len, value_1_len,
      value_2_len)`. */
  function ComparisonRow(q: Pair, w: Widths, fixed: real -> string): Result<string> {
    if q.first.None? && q.second.None? then Err(RuntimeError("at least one parameter must be non-None."))
    else
      var v1 :- Cell(q.first, fixed);
      var v2 :- Cell(q.second, fixed);
      Ok(Line(PairName(q), w.name, v1, w.value1, [Divider(q)], v2, w.value2))
  }

  /** The layout of a line whose fields fit their widths: the name, " : ",
      the first value, the divider in column `n + m + 4`, the second value
      and a newline, at total length `n + m + k + 7`. */
  lemma LineLayout(a: string, n: int, b: string, m: int, d: string, c: string, k: int, l: string)
    requires |a| <= n && |b| <= m && |c| <= k && |d| == 1
    requires l == Line(a, n, b, m, d, c, k)
    ensures |l| == n + m + k + 7
    ensures l[..|a|] == a && l[n..n + 3] == " : " && l[n + 3..n + 3 + |b|] == b
    ensures l[n + m + 3] == ' ' && l[n + m + 4] == d[0] && l[n + m + 5] == ' '
    ensures l[n + m + 6..n + m + 6 + |c|] == c && l[|l| - 1] == '\n'
  {
    var pa, pb, pc := PadRight(a, n), PadRight(b, m), PadRight(c, k);
    var head := pa + " : " + pb;
    var tail := " " + pc + "\n";
    assert |pa| == n && |pb| == m && |pc| == k && |head| == n + m + 3 && |tail| == k + 2;
    assert l == head + " " + d + tail;
    assert l[..|a|] == head[..|a|] == pa[..|a|];
    assert l[n..n + 3] == head[n..n + 3] == " : ";
    assert l[n + 3..n + 3 + |b|] == head[n + 3..n + 3 + |b|] == pb[..|b|];
    assert l[n + m + 6..n + m + 6 + |c|] == tail[1..1 + |c|] == pc[..|c|];
  }

  /** A row exists exactly when some parameter is present and every present
      value can be printed; both absent is a `RuntimeError`, an unprintable
      value a `ValueError`. An absent value prints as "X". */
  lemma ComparisonRowOutcome(q: Pair, w: Widths, fixed: real -> string)
    ensures var r := ComparisonRow(q, w, fixed);
      (r.Ok? <==> !(q.first.None? && q.second.None?) && Cell(q.first, fixed).Ok? && Cell(q.second, fixed).Ok?)
      && (q.first.None? && q.second.None? ==> r.Err? && r.error.RuntimeError?)
      && (r.Err? && !(q.first.None? && q.second.None?) ==> r.error.ValueError?)
      && (q.first.None? ==> Cell(q.first, fixed) == Ok("X"))
      && (q.second.None? ==> Cell(q.second, fixed) == Ok("X"))
  {
  }

  /** A row that prints is the line of its name, its cells and its divider. */
  lemma RowIsLine(q: Pair, w: Widths, fixed: real -> string, v1: string, v2: string)
    requires !(q.first.None? && q.second.None?)
    requires Cell(q.first, fixed) == Ok(v1) && Cell(q.second, fixed) == Ok(v2)
    ensures ComparisonRow(q, w, fixed) == Ok(Line(PairName(q), w.name, v1, w.value1, [Divider(q)], v2, w.value2))
  {
  }

  /** On widths that fit, the divider of a row is in column
      `w.name + w.value1 + 4` whatever the row, and the name and values
      appear untruncated. */
  lemma ComparisonRowLayout(q: Pair, w: Widths, fixed: real -> string, v1: string, v2: string, r: string)
    requires Cell(q.first, fixed) == Ok(v1) && Cell(q.second, fixed) == Ok(v2)
    requires ComparisonRow(q, w, fixed) == Ok(r)
    requires |PairName(q)| <= w.name && |v1| <= w.value1 && |v2| <= w.value2
    ensures |r| == w.name + w.value1 + w.value2 + 7
    ensures r[w.name + w.value1 + 4] == Divider(q)
    ensures r[..|PairName(q)|] == PairName(q)
    ensures r[w.name + 3..w.name + 3 + |v1|] == v1
    ensures r[w.name + w.value1 + 6..w.name + w.value1 + 6 + |v2|] == v2
  {
    RowIsLine(q, w, fixed, v1, v2);
    LineLayout(PairName(q), w.name, v1, w.value1, [Divider(q)], v2, w.value2, r);
  }

  /** A name, or a printed value, never holds a line break. */
  predicate NoBreaks(list: seq<Pair>, fixed: real -> string) {
    forall k :: 0 <= k < |list| ==>
      '\n' !in PairName(list[k])
      && (Cell(list[k].first, fixed).Ok? ==> '\n' !in Cell(list[k].first, fixed).value)
      && (Cell(list[k].second, fixed).Ok? ==> '\n' !in Cell(list[k].second, fixed).value)
  }

  lemma PadRightNoBreak(s: string, w: int)
    requires '\n' !in s
    ensures '\n' !in PadRight(s, w)
  {
    var r := PadRight(s, w);
    forall i | 0 <= i < |r| ensures r[i] != '\n' {
      if i < |s| {
        assert r[i] == r[..|s|][i] == s[i];
      }
    }
  }

  /** A line of fields without breaks ends the only line it holds. */
  lemma LineBreaks(a: string, n: int, b: string, m: int, d: string, c: string, k: int)
    requires '\n' !in a && '\n' !in b && '\n' !in d && '\n' !in c
    ensures CountChar(Line(a, n, b, m, d, c, k), '\n') == 1
  {
    PadRightNoBreak(a, n);
    PadRightNoBreak(b, m);
    PadRightNoBreak(c, k);
    var body := PadRight(a, n) + " : " + PadRight(b, m) + " " + d + " " + PadRight(c, k);
    assert Line(a, n, b, m, d, c, k) == body + "\n";
    CountCharAbsent(body, '\n');
    CountCharConcat(body, "\n", '\n');
  }

  // ---------------------------------------------------------------------
  // generate_comparison_strings
  // ---------------------------------------------------------------------

  /** "Component {vid}-{cid}:", the title of a section. */
  function ComponentTitle(vid: int, cid: int): string {
    "Component " + IntToString(vid) + "-" + IntToString(cid) + ":"
  }

  /** The three lines that open the section of one id pair: the title
      between two lines of 80 '-' characters. */
  function Banner(vid: int, cid: int): string {
    Repeat('-', 80) + "\n" + ComponentTitle(vid, cid) + "\n" + Repeat('-', 80) + "\n"
  }

  function RowOf(w: Widths, fixed: real -> string): Pair -> Result<string> {
    q => ComparisonRow(q, w, fixed)
  }

  /** The rows of a list, one after the other. */
  function Rows(list: seq<Pair>, w: Widths, fixed: real -> string): Result<string> {
    Fold(list, "", AppendBy(RowOf(w, fixed)))
  }

  /** `generate_comparison_strings(comparison_list, column_lengths)`: nothing
      for an empty list, else a banner with the ids of the first pair's
      first present parameter, then the rows. */
  function ComparisonStrings(list: seq<Pair>, w: Widths, fixed: real -> string): Result<string> {
    if list == [] then Ok("")
    else if list[0].first.None? && list[0].second.None? then
      Err(ValueError("At least one of the two parameters must be non-None."))
    else
      var p := if list[0].first.Some? then list[0].first.value else list[0].second.value;
      var rows :- Rows(list, w, fixed);
      Ok(Banner(p.vid, p.cid) + rows)
  }

  /** The rows succeed exactly when every row does. */
  lemma RowsOk(list: seq<Pair>, w: Widths, fixed: real -> string)
    ensures Rows(list, w, fixed).Ok? <==> forall k :: 0 <= k < |list| ==> ComparisonRow(list[k], w, fixed).Ok?
  {
    AppendFoldOk(list, RowOf(w, fixed));
    assert forall k :: 0 <= k < |list| ==> RowOf(w, fixed)(list[k]) == ComparisonRow(list[k], w, fixed);
  }

  /** A row of fields without breaks is one line. */
  lemma RowBreaks(q: Pair, w: Widths, fixed: real -> string)
    requires ComparisonRow(q, w, fixed).Ok?
    requires NoBreaks([q], fixed)
    ensures CountChar(ComparisonRow(q, w, fixed).value, '\n') == 1
  {
    assert [q][0] == q;
    LineBreaks(PairName(q), w.name, Cell(q.first, fixed).value, w.value1, [Divider(q)],
               Cell(q.second, fixed).value, w.value2);
  }

  /** Without breaks in the fields, the rows hold one line per pair. */
  lemma {:induction false} RowsBreaks(list: seq<Pair>, w: Widths, fixed: real -> string)
    requires Rows(list, w, fixed).Ok? && NoBreaks(list, fixed)
    ensures CountChar(Rows(list, w, fixed).value, '\n') == |list|
    decreases |list|
  {
    if list != [] {
      var init := list[..|list| - 1];
      var q := list[|list| - 1];
      assert forall k :: 0 <= k < |init| ==> init[k] == list[k];
      AppendFoldLast(list, RowOf(w, fixed));
      var r0 := Rows(init, w, fixed);
      var row := ComparisonRow(q, w, fixed);
      assert RowOf(w, fixed)(q) == row;
      assert NoBreaks(init, fixed);
      RowsBreaks(init, w, fixed);
      assert NoBreaks([q], fixed) by { assert [q][0] == list[|list| - 1]; }
      RowBreaks(q, w, fixed);
      CountCharConcat(r0.value, row.value, '\n');
    }
  }

  /** Three lines without breaks of their own hold three breaks. */
  lemma ThreeLines(a: string, b: string, c: string)
    requires '\n' !in a && '\n' !in b && '\n' !in c
    ensures CountChar(a + "\n" + b + "\n" + c + "\n", '\n') == 3
  {
    var nl := "\n";
    CountCharAbsent(a, '\n');
    CountCharAbsent(b, '\n');
    CountCharAbsent(c, '\n');
    CountCharConcat(a, nl, '\n');
    CountCharConcat(a + nl, b, '\n');
    CountCharConcat(a + nl + b, nl, '\n');
    CountCharConcat(a + nl + b + nl, c, '\n');
    CountCharConcat(a + nl + b + nl + c, nl, '\n');
  }

  /** The banner is three lines. */
  lemma BannerBreaks(vid: int, cid: int)
    ensures CountChar(Banner(vid, cid), '\n') == 3
  {
    IntToStringNoNewline(vid);
    IntToStringNoNewline(cid);
    var dashes := Repeat('-', 80);
    var title := "Component ";
    assert forall k :: 0 <= k < |title| ==> title[k] != '\n';
    var mid := ComponentTitle(vid, cid);
    assert '\n' !in mid;
    ThreeLines(dashes, mid, dashes);
  }

  /** A section is empty for an empty list and otherwise opens with the
      banner of the first pair's ids; it is refused when the first pair has
      no parameter (a `ValueError`), and otherwise holds when every row
      does. */
  lemma ComparisonStringsFacts(list: seq<Pair>, w: Widths, fixed: real -> string)
    ensures var r := ComparisonStrings(list, w, fixed);
      (list == [] ==> r == Ok(""))
      && (list != [] && list[0].first.None? && list[0].second.None? ==> r.Err? && r.error.ValueError?)
      && (list != [] && list[0].first.Some? ==>
            (r.Ok? <==> forall k :: 0 <= k < |list| ==> ComparisonRow(list[k], w, fixed).Ok?)
            && (r.Ok? ==> r.value == Banner(list[0].first.value.vid, list[0].first.value.cid) + Rows(list, w, fixed).value))
      && (list != [] && list[0].first.None? && list[0].second.Some? ==>
            (r.Ok? <==> forall k :: 0 <= k < |list| ==> ComparisonRow(list[k], w, fixed).Ok?)
            && (r.Ok? ==> r.value == Banner(list[0].second.value.vid, list[0].second.value.cid) + Rows(list, w, fixed).value))
  {
    RowsOk(list, w, fixed);
  }

  /** Without breaks in the fields, a section holds three lines more than
      it has rows, and none when the list is empty. */
  lemma ComparisonStringsBreaks(list: seq<Pair>, w: Widths, fixed: real -> string)
    requires ComparisonStrings(list, w, fixed).Ok? && NoBreaks(list, fixed)
    ensures CountChar(ComparisonStrings(list, w, fixed).value, '\n') == if list == [] then 0 else 3 + |list|
  {
    if list != [] {
      var p := if list[0].first.Some? then list[0].first.value else list[0].second.value;
      BannerBreaks(p.vid, p.cid);
      RowsBreaks(list, w, fixed);
      CountCharConcat(Banner(p.vid, p.cid), Rows(list, w, fixed).value, '\n');
    }
  }

  /** `generate_comparison_strings` as the source writes it: the banner, then
      a loop appending one row per pair. */
  method GenerateComparisonStrings(list: seq<Pair>, w: Widths, fixed: real -> string) returns (r: Result<string>)
    ensures r == ComparisonStrings(list, w, fixed)
  {
    if |list| == 0 {
      return Ok("");
    }
    var p;
    if list[0].first.Some? {
      p := list[0].first.value;
    } else if list[0].second.Some? {
      p := list[0].second.value;
    } else {
      return Err(ValueError("At least one of the two parameters must be non-None."));
    }
    var rows := BuildRows(list, w, fixed);
    if rows.Err? {
      return Err(rows.error);
    }
    r := Ok(Banner(p.vid, p.cid) + rows.value);
  }

  /** The loop of `generate_comparison_strings`: one row per pair, in order. */
  method BuildRows(list: seq<Pair>, w: Widths, fixed: real -> string) returns (r: Result<string>)
    ensures r == Rows(list, w, fixed)
  {
    var rows := "";
    var i := 0;
    while i < |list|
      invariant 0 <= i <= |list|
      invariant Rows(list[..i], w, fixed) == Ok(rows)
    {
      var row := ComparisonRow(list[i], w, fixed);
      assert RowOf(w, fixed)(list[i]) == row;
      if row.Err? {
        AppendFails(list, RowOf(w, fixed), i, rows, row.error);
        return Err(row.error);
      }
      AppendOk(list, RowOf(w, fixed), i, rows, row.value);
      rows := rows + row.value;
      i := i + 1;
    }
    assert list[..|list|] == list;
    r := Ok(rows);
  }

  // ---------------------------------------------------------------------
  // build_comparison_string
  // ---------------------------------------------------------------------

  /** A file label: `fallback` when the name is missing or empty. */
  function FileLabel(file: Option<string>, fallback: string): (r: string)
    ensures file.None? || file.value == "" ==> r == fallback
    ensures file.Some? && file.value != "" ==> r == file.value
  {
    if file.None? || file.value == "" then fallback else file.value
  }

  function ListWidthsOf(fixed: real -> string): seq<Pair> -> Result<Widths> {
    l => ColumnLengths(l, fixed)
  }

  /** The widths of the whole report: those of every list, widened from 1
      for names and the two file labels for the values. */
  function ReportWidths(lists: seq<seq<Pair>>, f1: string, f2: string, fixed: real -> string): Result<Widths> {
    Fold(lists, Widths(1, |f1|, |f2|), WidenBy(ListWidthsOf(fixed)))
  }

  /** The number of rows over all lists, `compared_params`. */
  function ParamCount(lists: seq<seq<Pair>>): nat
    decreases |lists|
  {
    if lists == [] then 0 else ParamCount(lists[..|lists| - 1]) + |lists[|lists| - 1]|
  }

  function SectionOf(w: Widths, fixed: real -> string): seq<Pair> -> Result<string> {
    l => ComparisonStrings(l, w, fixed)
  }

  /** The sections of all lists, one after the other. */
  function Sections(lists: seq<seq<Pair>>, w: Widths, fixed: real -> string): Result<string> {
    Fold(lists, "", AppendBy(SectionOf(w, fixed)))
  }

  /** A line of 80 '=' characters. */
  function Rule(): string {
    Repeat('=', 80) + "\n"
  }

  /** The first line of the report, "File comparison" and the file labels
      in the three columns. */
  function Heading(w: Widths, f1: string, f2: string): string {
    Line("File comparison", w.name, f1, w.value1, "|", f2, w.value2)
  }

  /** The closing line, the count of rows. */
  function CountLine(n: nat): string {
    IntToString(n) + " parameters differ\n"
  }

  /** `build_comparison_string(comparison_lists, file1, file2)`. */
  function ComparisonString(lists: seq<seq<Pair>>, file1: Option<string>, file2: Option<string>,
                            fixed: real -> string): Result<string>
  {
    var f1 := FileLabel(file1, "List 1");
    var f2 := FileLabel(file2, "List 2");
    var w :- ReportWidths(lists, f1, f2, fixed);
    var body :- Sections(lists, w, fixed);
    Ok(Heading(w, f1, f2) + Rule() + body + Rule() + CountLine(ParamCount(lists)))
  }

  /** The report widths are at least 1 for names and the labels' lengths
      for values, and fit every name and printed value of every list; they
      fail exactly when some list's widths do. */
  lemma ReportWidthsFacts(lists: seq<seq<Pair>>, f1: string, f2: string, fixed: real -> string)
    ensures var r := ReportWidths(lists, f1, f2, fixed);
      (r.Ok? <==> forall i :: 0 <= i < |lists| ==> ColumnLengths(lists[i], fixed).Ok?)
      && (r.Err? ==> r.error.RuntimeError? || r.error.ValueError?)
      && (r.Ok? ==>
            r.value.name >= 1 && r.value.value1 >= |f1| && r.value.value2 >= |f2|
            && forall i :: 0 <= i < |lists| ==> Covers(r.value, ColumnLengths(lists[i], fixed).value))
  {
    WidestFold(lists, Widths(1, |f1|, |f2|), ListWidthsOf(fixed));
    var r := ReportWidths(lists, f1, f2, fixed);
    assert forall i :: 0 <= i < |lists| ==> ListWidthsOf(fixed)(lists[i]) == ColumnLengths(lists[i], fixed);
    if r.Err? {
      var i :| 0 <= i < |lists| && ListWidthsOf(fixed)(lists[i]) == Err(r.error);
      ColumnLengthsFacts(lists[i], fixed);
    }
  }

  /** Widths that fit a list let its row `k` print, with the divider in
      column `w.name + w.value1 + 4`. */
  lemma FittingRow(list: seq<Pair>, w: Widths, fixed: real -> string, k: int)
    requires ColumnLengths(list, fixed).Ok? && Covers(w, ColumnLengths(list, fixed).value)
    requires 0 <= k < |list|
    ensures var row := ComparisonRow(list[k], w, fixed);
      row.Ok? && |row.value| == w.name + w.value1 + w.value2 + 7 && row.value[w.name + w.value1 + 4] == Divider(list[k])
  {
    ColumnLengthsFacts(list, fixed);
    var q := list[k];
    assert PairWidths(q, fixed).Ok?;
    var v1, v2 := Cell(q.first, fixed).value, Cell(q.second, fixed).value;
    RowIsLine(q, w, fixed, v1, v2);
    ComparisonRowLayout(q, w, fixed, v1, v2, ComparisonRow(q, w, fixed).value);
  }

  /** Widths that fit a list let its section print. */
  lemma FittingRows(list: seq<Pair>, w: Widths, fixed: real -> string)
    requires ColumnLengths(list, fixed).Ok? && Covers(w, ColumnLengths(list, fixed).value)
    ensures ComparisonStrings(list, w, fixed).Ok?
  {
    forall k | 0 <= k < |list| ensures ComparisonRow(list[k], w, fixed).Ok? {
      FittingRow(list, w, fixed, k);
    }
    ComparisonStringsFacts(list, w, fixed);
    if list != [] {
      ColumnLengthsFacts(list, fixed);
      assert PairWidths(list[0], fixed).Ok?;
    }
  }

  /** Once the widths are found the sections cannot fail. */
  lemma {:induction false} SectionsOk(lists: seq<seq<Pair>>, w: Widths, fixed: real -> string)
    requires forall i :: 0 <= i < |lists| ==>
      ColumnLengths(lists[i], fixed).Ok? && Covers(w, ColumnLengths(lists[i], fixed).value)
    ensures Sections(lists, w, fixed).Ok?
    decreases |lists|
  {
    if lists != [] {
      var init := lists[..|lists| - 1];
      assert forall i :: 0 <= i < |init| ==> init[i] == lists[i];
      SectionsOk(init, w, fixed);
      FittingRows(lists[|lists| - 1], w, fixed);
    }
  }

  /** The report fails exactly when measuring some list fails (a
      `RuntimeError` or a `ValueError`); otherwise it is the heading, a
      rule, the sections, a rule and the count of all rows. */
  lemma ComparisonStringFacts(lists: seq<seq<Pair>>, file1: Option<string>, file2: Option<string>,
                              fixed: real -> string)
    ensures var f1 := FileLabel(file1, "List 1");
      var f2 := FileLabel(file2, "List 2");
      var r := ComparisonString(lists, file1, file2, fixed);
      var w := ReportWidths(lists, f1, f2, fixed);
      (r.Ok? <==> forall i :: 0 <= i < |lists| ==> ColumnLengths(lists[i], fixed).Ok?)
      && (r.Err? ==> r.error.RuntimeError? || r.error.ValueError?)
      && (r.Ok? ==>
            w.Ok? && Sections(lists, w.value, fixed).Ok?
            && r.value == Heading(w.value, f1, f2) + Rule() + Sections(lists, w.value, fixed).value + Rule()
                          + CountLine(ParamCount(lists)))
  {
    var f1 := FileLabel(file1, "List 1");
    var f2 := FileLabel(file2, "List 2");
    ReportWidthsFacts(lists, f1, f2, fixed);
    var w := ReportWidths(lists, f1, f2, fixed);
    if w.Ok? {
      SectionsOk(lists, w.value, fixed);
    }
  }

  /** The heading's '|' is in column `n + w.value1 + 4`, `n` the wider of
      the name column and "File comparison", and the labels appear whole
      when the value columns fit them. */
  lemma HeadingLayout(w: Widths, f1: string, f2: string)
    requires |f1| <= w.value1 && |f2| <= w.value2
    ensures var n := Max(15, w.name);
      var h := Heading(w, f1, f2);
      |h| == n + w.value1 + w.value2 + 7 && h[..15] == "File comparison" && h[n + w.value1 + 4] == '|'
      && h[n + 3..n + 3 + |f1|] == f1 && h[n + w.value1 + 6..n + w.value1 + 6 + |f2|] == f2
  {
    var n := Max(15, w.name);
    assert PadRight("File comparison", w.name) == PadRight("File comparison", n);
    assert Heading(w, f1, f2) == Line("File comparison", n, f1, w.value1, "|", f2, w.value2);
    LineLayout("File comparison", n, f1, w.value1, "|", f2, w.value2, Heading(w, f1, f2));
  }

  /** Every row of the report prints with its divider in column
      `w.name + w.value1 + 4` of the report widths `w`, the column of the
      heading's '|' once the names are as wide as "File comparison". */
  lemma RowsAligned(lists: seq<seq<Pair>>, f1: string, f2: string, fixed: real -> string, i: int, k: int)
    requires ReportWidths(lists, f1, f2, fixed).Ok?
    requires 0 <= i < |lists| && 0 <= k < |lists[i]|
    ensures var w := ReportWidths(lists, f1, f2, fixed).value;
      var row := ComparisonRow(lists[i][k], w, fixed);
      row.Ok? && |row.value| == w.name + w.value1 + w.value2 + 7 && row.value[w.name + w.value1 + 4] == Divider(lists[i][k])
  {
    ReportWidthsFacts(lists, f1, f2, fixed);
    var w := ReportWidths(lists, f1, f2, fixed).value;
    assert ColumnLengths(lists[i], fixed).Ok? && Covers(w, ColumnLengths(lists[i], fixed).value);
    FittingRow(lists[i], w, fixed, k);
  }

  /** The number of lists that get a section, the non-empty ones. */
  function SectionCount(lists: seq<seq<Pair>>): nat
    decreases |lists|
  {
    if lists == [] then 0 else SectionCount(lists[..|lists| - 1]) + (if lists[|lists| - 1] == [] then 0 else 1)
  }

  /** Without breaks in the fields, the sections hold three lines per
      non-empty list and one per row. */
  lemma {:induction false} SectionsBreaks(lists: seq<seq<Pair>>, w: Widths, fixed: real -> string)
    requires Sections(lists, w, fixed).Ok?
    requires forall i :: 0 <= i < |lists| ==> NoBreaks(lists[i], fixed)
    ensures CountChar(Sections(lists, w, fixed).value, '\n') == 3 * SectionCount(lists) + ParamCount(lists)
    decreases |lists|
  {
    if lists != [] {
      var init := lists[..|lists| - 1];
      var last := lists[|lists| - 1];
      assert forall i :: 0 <= i < |init| ==> init[i] == lists[i];
      AppendFoldLast(lists, SectionOf(w, fixed));
      var s0 := Sections(init, w, fixed);
      var sec := ComparisonStrings(last, w, fixed);
      assert SectionOf(w, fixed)(last) == sec;
      SectionsBreaks(init, w, fixed);
      ComparisonStringsBreaks(last, w, fixed);
      CountCharConcat(s0.value, sec.value, '\n');
    }
  }

  lemma HeadingBreaks(w: Widths, f1: string, f2: string)
    requires '\n' !in f1 && '\n' !in f2
    ensures CountChar(Heading(w, f1, f2), '\n') == 1
  {
    var title := "File comparison";
    assert forall k :: 0 <= k < |title| ==> title[k] != '\n';
    LineBreaks(title, w.name, f1, w.value1, "|", f2, w.value2);
  }

  lemma RuleBreaks()
    ensures CountChar(Rule(), '\n') == 1
  {
    var dashes := Repeat('=', 80);
    assert '\n' !in dashes;
    assert Rule() == dashes + "\n";
    CountCharAbsent(dashes, '\n');
    CountCharConcat(dashes, "\n", '\n');
  }

  lemma CountLineBreaks(n: nat)
    ensures CountChar(CountLine(n), '\n') == 1
  {
    IntToStringNoNewline(n);
    var text := IntToString(n) + " parameters differ";
    assert '\n' !in text;
    assert CountLine(n) == text + "\n";
    CountCharAbsent(text, '\n');
    CountCharConcat(text, "\n", '\n');
  }

  /** Without breaks in the fields and labels, the report holds four lines
      besides the sections: the heading, two rules and the count, which is
      the number of row lines. */
  lemma ComparisonStringBreaks(lists: seq<seq<Pair>>, file1: Option<string>, file2: Option<string>,
                               fixed: real -> string)
    requires ComparisonString(lists, file1, file2, fixed).Ok?
    requires forall i :: 0 <= i < |lists| ==> NoBreaks(lists[i], fixed)
    requires '\n' !in FileLabel(file1, "List 1") && '\n' !in FileLabel(file2, "List 2")
    ensures CountChar(ComparisonString(lists, file1, file2, fixed).value, '\n')
         == 4 + 3 * SectionCount(lists) + ParamCount(lists)
  {
    var f1 := FileLabel(file1, "List 1");
    var f2 := FileLabel(file2, "List 2");
    ComparisonStringFacts(lists, file1, file2, fixed);
    var w := ReportWidths(lists, f1, f2, fixed).value;
    var h, rule, body, count := Heading(w, f1, f2), Rule(), Sections(lists, w, fixed).value, CountLine(ParamCount(lists));
    HeadingBreaks(w, f1, f2);
    RuleBreaks();
    SectionsBreaks(lists, w, fixed);
    CountLineBreaks(ParamCount(lists));
    FivePartBreaks(h, rule, body, count);
  }

  lemma FivePartBreaks(h: string, rule: string, body: string, count: string)
    ensures CountChar(h + rule + body + rule + count, '\n')
         == CountChar(h, '\n') + 2 * CountChar(rule, '\n') + CountChar(body, '\n') + CountChar(count, '\n')
  {
    CountCharConcat(h, rule, '\n');
    CountCharConcat(h + rule, body, '\n');
    CountCharConcat(h + rule + body, rule, '\n');
    CountCharConcat(h + rule + body + rule, count, '\n');
  }

  /** The first loop of `build_comparison_string`: the widths over all lists
      and the number of rows. */
  method MeasureReport(lists: seq<seq<Pair>>, f1: string, f2: string, fixed: real -> string)
    returns (r: Result<Widths>, compared: nat)
    ensures r == ReportWidths(lists, f1, f2, fixed)
    ensures compared == ParamCount(lists)
  {
    var w := Widths(1, |f1|, |f2|);
    compared := 0;
    var i := 0;
    while i < |lists|
      invariant 0 <= i <= |lists|
      invariant ReportWidths(lists[..i], f1, f2, fixed) == Ok(w)
      invariant compared == ParamCount(lists[..i])
    {
      assert lists[..i + 1][..i] == lists[..i];
      var temp := GetColumnLengths(lists[i], fixed);
      assert ListWidthsOf(fixed)(lists[i]) == temp;
      if temp.Err? {
        WidenFails(lists, Widths(1, |f1|, |f2|), ListWidthsOf(fixed), i, w, temp.error);
        compared := ParamCount(lists);
        return Err(temp.error), compared;
      }
      WidenOk(lists, Widths(1, |f1|, |f2|), ListWidthsOf(fixed), i, w, temp.value);
      w := Widths(Max(w.name, temp.value.name), Max(w.value1, temp.value.value1), Max(w.value2, temp.value.value2));
      compared := compared + |lists[i]|;
      i := i + 1;
    }
    assert lists[..|lists|] == lists;
    r := Ok(w);
  }

  /** The second loop of `build_comparison_string`: each list's section. */
  method BuildSections(lists: seq<seq<Pair>>, w: Widths, fixed: real -> string) returns (r: Result<string>)
    ensures r == Sections(lists, w, fixed)
  {
    var body := "";
    var i := 0;
    while i < |lists|
      invariant 0 <= i <= |lists|
      invariant Sections(lists[..i], w, fixed) == Ok(body)
    {
      var section := GenerateComparisonStrings(lists[i], w, fixed);
      assert SectionOf(w, fixed)(lists[i]) == section;
      if section.Err? {
        AppendFails(lists, SectionOf(w, fixed), i, body, section.error);
        return Err(section.error);
      }
      AppendOk(lists, SectionOf(w, fixed), i, body, section.value);
      body := body + section.value;
      i := i + 1;
    }
    assert lists[..|lists|] == lists;
    r := Ok(body);
  }

  /** `build_comparison_string` as the source writes it: the file labels,
      the widths and count, the heading and rule, the sections, and the
      closing rule and count. */
  method BuildComparisonString(lists: seq<seq<Pair>>, file1: Option<string>, file2: Option<string>,
                               fixed: real -> string) returns (r: Result<string>)
    ensures r == ComparisonString(lists, file1, file2, fixed)
  {
    var f1 := FileLabel(file1, "List 1");
    var f2 := FileLabel(file2, "List 2");
    var w, compared := MeasureReport(lists, f1, f2, fixed);
    if w.Err? {
      return Err(w.error);
    }
    var body := BuildSections(lists, w.value, fixed);
    if body.Err? {
      return Err(body.error);
    }
    r := Ok(Heading(w.value, f1, f2) + Rule() + body.value + Rule() + CountLine(compared));
  }
}

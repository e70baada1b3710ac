/** Compare: `compare_lib`'s comparison of two parameter lists. It covers
    the vehicle and component ids found in the lists, the id filter that
    decides which parameters are compared for one (vid, cid), the sorted
    walk over the union of names, and the top-level loop over every
    collected id pair. */
module Compare {
  import opened Wrappers
  import opened Strings
  import opened Parameters
  import opened ParamLists
  import opened Documents
  import opened Dishes

  /** One row of a comparison: the parameter of each list, `None` where a
      list lacks the name. */
  datatype Pair = Pair(first: Option<Parameter>, second: Option<Parameter>)

  /** The name a row is about: from the first list when present. */
  function PairName(q: Pair): string {
    if q.first.Some? then q.first.value.name else if q.second.Some? then q.second.value.name else ""
  }

  // ---------------------------------------------------------------------
  // collect_vid_cid
  // ---------------------------------------------------------------------

  /** The vehicle ids of some parameters. */
  function Vids(ps: seq<Parameter>): set<int> {
    set p | p in ps :: p.vid
  }

  /** The component ids that occur with vehicle id `v`. */
  function CidsOf(ps: seq<Parameter>, v: int): set<int> {
    set p | p in ps && p.vid == v :: p.cid
  }

  /** Each vehicle id mapped to the component ids that occur with it. */
  function IdsOf(ps: seq<Parameter>): map<int, set<int>> {
    map v | v in Vids(ps) :: CidsOf(ps, v)
  }

  /** The vehicle ids in the order they first occur: the key order of the
      dictionary `collect_vid_cid` builds. */
  function VidOrder(ps: seq<Parameter>): seq<int>
    decreases |ps|
  {
    if ps == [] then []
    else
      var o := VidOrder(ps[..|ps| - 1]);
      if ps[|ps| - 1].vid in o then o else o + [ps[|ps| - 1].vid]
  }

  predicate DistinctInts(s: seq<int>) {
    forall i, j :: 0 <= i < j < |s| ==> s[i] != s[j]
  }

  /** Appending one parameter adds its vehicle id, or its component id to
      the vehicle id's set: the two branches of the loop body. */
  lemma IdsOfSnoc(ps: seq<Parameter>, p: Parameter)
    ensures IdsOf(ps + [p]) ==
      if p.vid in IdsOf(ps) then IdsOf(ps)[p.vid := IdsOf(ps)[p.vid] + {p.cid}] else IdsOf(ps)[p.vid := {p.cid}]
  {
    var qs := ps + [p];
    assert forall q :: q in qs <==> q in ps || q == p;
    assert Vids(qs) == Vids(ps) + {p.vid};
    var expected :=
      if p.vid in IdsOf(ps) then IdsOf(ps)[p.vid := IdsOf(ps)[p.vid] + {p.cid}] else IdsOf(ps)[p.vid := {p.cid}];
    assert IdsOf(qs).Keys == expected.Keys;
    forall v | v in Vids(qs) ensures IdsOf(qs)[v] == expected[v] {
      forall c ensures c in CidsOf(qs, v) <==> c in CidsOf(ps, v) || (v == p.vid && c == p.cid) {
        if c in CidsOf(qs, v) {
          var q :| q in qs && q.vid == v && q.cid == c;
        }
        if c in CidsOf(ps, v) {
          var q :| q in ps && q.vid == v && q.cid == c;
          assert q in qs;
        }
      }
    }
  }

  /** The first-occurrence order lists every vehicle id exactly once. */
  lemma {:induction false} VidOrderFacts(ps: seq<Parameter>)
    ensures DistinctInts(VidOrder(ps))
    ensures forall v :: v in VidOrder(ps) <==> v in IdsOf(ps)
    decreases |ps|
  {
    if ps != [] {
      var init := ps[..|ps| - 1];
      VidOrderFacts(init);
      assert ps == init + [ps[|ps| - 1]];
      assert forall q :: q in ps <==> q in init || q == ps[|ps| - 1];
      assert Vids(ps) == Vids(init) + {ps[|ps| - 1].vid};
    }
  }

  /** `collect_vid_cid(param_list_1, param_list_2)`: the id dictionary and
      its key order, over the first list's parameters and then the
      second's, each in ascending name order. */
  method CollectVidCid(list1: ParameterList, list2: ParameterList) returns (ids: map<int, set<int>>, order: seq<int>)
    ensures ids == IdsOf(Items(list1.params.entries) + Items(list2.params.entries))
    ensures order == VidOrder(Items(list1.params.entries) + Items(list2.params.entries))
  {
    ids, order := CollectIds(Items(list1.params.entries) + Items(list2.params.entries));
  }

  /** The loop of `collect_vid_cid` over the chained parameters. */
  method CollectIds(ps: seq<Parameter>) returns (ids: map<int, set<int>>, order: seq<int>)
    ensures ids == IdsOf(ps) && order == VidOrder(ps)
  {
    ids, order := map[], [];
    var i := 0;
    while i < |ps|
      invariant 0 <= i <= |ps|
      invariant ids == IdsOf(ps[..i]) && order == VidOrder(ps[..i])
    {
      var p := ps[i];
      assert ps[..i + 1] == ps[..i] + [p];
      assert ps[..i + 1][..i] == ps[..i];
      IdsOfSnoc(ps[..i], p);
      VidOrderFacts(ps[..i]);
      if p.vid !in ids {
        ids := ids[p.vid := {p.cid}];
        order := order + [p.vid];
      } else {
        ids := ids[p.vid := ids[p.vid] + {p.cid}];
      }
      i := i + 1;
    }
    assert ps[..|ps|] == ps;
  }

  /** The parameters of a list, as iteration yields them, are its values. */
  lemma ItemsAreValues(m: map<string, Parameter>)
    ensures forall p :: p in Items(m) <==> exists n :: n in m && m[n] == p
  {
    var names := SortedKeys(m.Keys);
    forall p | p in Items(m) ensures exists n :: n in m && m[n] == p {
      var k :| 0 <= k < |Items(m)| && Items(m)[k] == p;
      assert m[names[k]] == p;
    }
    forall n | n in m ensures m[n] in Items(m) {
      var k :| 0 <= k < |names| && names[k] == n;
      assert Items(m)[k] == m[n];
    }
  }

  /** In the id map of some parameters, a vehicle id maps to a component
      id exactly when one of the parameters carries both. */
  lemma IdsOfMeaning(ps: seq<Parameter>, v: int, c: int)
    ensures (v in IdsOf(ps) && c in IdsOf(ps)[v]) <==> exists p :: p in ps && p.vid == v && p.cid == c
    ensures v in IdsOf(ps) ==> IdsOf(ps)[v] != {}
  {
    if v in IdsOf(ps) {
      var p :| p in ps && p.vid == v;
      assert p.cid in CidsOf(ps, v);
    }
    if exists p :: p in ps && p.vid == v && p.cid == c {
      var p :| p in ps && p.vid == v && p.cid == c;
      assert v in Vids(ps);
      assert c in CidsOf(ps, v);
    }
  }

  /** `collect_vid_cid`'s result maps a vehicle id to a component id
      exactly when some parameter of either list carries both, and every
      vehicle id has at least one component id. */
  lemma IdsMeaning(a: map<string, Parameter>, b: map<string, Parameter>, v: int, c: int)
    ensures var ids := IdsOf(Items(a) + Items(b));
      (v in ids && c in ids[v]) <==>
        (exists n :: n in a && a[n].vid == v && a[n].cid == c) || (exists n :: n in b && b[n].vid == v && b[n].cid == c)
    ensures var ids := IdsOf(Items(a) + Items(b));
      v in ids ==> ids[v] != {}
  {
    var ps := Items(a) + Items(b);
    IdsOfMeaning(ps, v, c);
    ItemsAreValues(a);
    ItemsAreValues(b);
    assert forall p :: p in ps <==> p in Items(a) || p in Items(b);
  }

  // ---------------------------------------------------------------------
  // The id filter
  // ---------------------------------------------------------------------

  /** A parameter carries the requested ids. */
  predicate HasIds(p: Parameter, vid: int, cid: int) {
    p.vid == vid && p.cid == cid
  }

  /** `comparison_spec_1(vid, cid)`. */
  function ComparisonSpec1(vid: Option<int>, cid: Option<int>): (r: Result<bool>)
    ensures r.Err? <==> vid.None? != cid.None?
    ensures r.Err? ==> r.error.ValueError?
    ensures r.Ok? ==> (r.value <==> vid.None?)
  {
    if vid.None? != cid.None? then Err(ValueError("Unhandled input values")) else Ok(vid.None?)
  }

  /** `comparison_spec_2(param_1, param_2, vid, cid)`: a one-sided row
      whose parameter carries the ids. */
  function ComparisonSpec2(p1: Option<Parameter>, p2: Option<Parameter>, vid: Option<int>, cid: Option<int>)
    : (r: Result<bool>)
    ensures r.Err? <==> vid.None? || cid.None?
    ensures r.Err? ==> r.error.ValueError?
    ensures r.Ok? ==>
      (r.value <==> (p1.None? && p2.Some? && HasIds(p2.value, vid.value, cid.value))
                    || (p2.None? && p1.Some? && HasIds(p1.value, vid.value, cid.value)))
  {
    if vid.None? then Err(ValueError("vid must not be None"))
    else if cid.None? then Err(ValueError("cid must not be None"))
    else if p1.None? && p2.Some? then Ok(HasIds(p2.value, vid.value, cid.value))
    else if p2.None? && p1.Some? then Ok(HasIds(p1.value, vid.value, cid.value))
    else Ok(false)
  }

  /** `comparison_spec_3(param_1, param_2, vid, cid)`: a two-sided row whose
      parameters both carry the ids. */
  function ComparisonSpec3(p1: Option<Parameter>, p2: Option<Parameter>, vid: Option<int>, cid: Option<int>)
    : (r: Result<bool>)
    ensures r.Err? <==> vid.None? || cid.None?
    ensures r.Err? ==> r.error.ValueError?
    ensures r.Ok? ==>
      (r.value <==> p1.Some? && p2.Some? && HasIds(p1.value, vid.value, cid.value) && HasIds(p2.value, vid.value, cid.value))
  {
    if vid.None? then Err(ValueError("vid must not be None"))
    else if cid.None? then Err(ValueError("cid must not be None"))
    else if p1.None? || p2.None? then Ok(false)
    else Ok(p1.value.vid == p2.value.vid == vid.value && p1.value.cid == p2.value.cid == cid.value)
  }

  /** The rows the id filter is meant to keep: every present parameter
      carries the requested ids. */
  predicate Selected(p1: Option<Parameter>, p2: Option<Parameter>, vid: int, cid: int) {
    (p1.Some? ==> HasIds(p1.value, vid, cid)) && (p2.Some? ==> HasIds(p2.value, vid, cid))
  }

  /** `param_id_test(param_1, param_2, vid, cid)` as written: all three
      specs are evaluated before they are combined, so the second one's
      guard fires whenever no ids are requested. */
  function ParamIdTestAsWritten(p1: Option<Parameter>, p2: Option<Parameter>, vid: Option<int>, cid: Option<int>)
    : (r: Result<bool>)
  {
    if p1.None? && p2.None? then Err(ValueError("Unhandled input values"))
    else
      var s1, s2, s3 := ComparisonSpec1(vid, cid), ComparisonSpec2(p1, p2, vid, cid), ComparisonSpec3(p1, p2, vid, cid);
      if s1.Err? then s1 else if s2.Err? then s2 else if s3.Err? then s3
      else Ok(s1.value || s2.value || s3.value)
  }

  /** As written, the filter fails for every row once no ids are requested,
      although the first spec answers "compare" for exactly that case. */
  lemma ParamIdTestAsWrittenRejectsUnfiltered(p1: Option<Parameter>, p2: Option<Parameter>)
    requires p1.Some? || p2.Some?
    ensures ComparisonSpec1(None, None) == Ok(true)
    ensures ParamIdTestAsWritten(p1, p2, None, None) == Err(ValueError("vid must not be None"))
  {
  }

  /** `param_id_test` with the intended short circuit: the first spec's
      "compare" stands without consulting the other two. */
  function ParamIdTest(p1: Option<Parameter>, p2: Option<Parameter>, vid: Option<int>, cid: Option<int>)
    : (r: Result<bool>)
  {
    if p1.None? && p2.None? then Err(ValueError("Unhandled input values"))
    else
      var s1 :- ComparisonSpec1(vid, cid);
      if s1 then Ok(true)
      else
        var s2, s3 := ComparisonSpec2(p1, p2, vid, cid), ComparisonSpec3(p1, p2, vid, cid);
        if s2.Err? then s2 else if s3.Err? then s3 else Ok(s2.value || s3.value)
  }

  /** The filter fails only for a row without parameters or when exactly
      one of the ids is requested; without ids it keeps every row, and with
      both it keeps exactly the rows whose present parameters carry them. */
  lemma ParamIdTestOutcome(p1: Option<Parameter>, p2: Option<Parameter>, vid: Option<int>, cid: Option<int>)
    ensures var r := ParamIdTest(p1, p2, vid, cid);
      (r.Err? <==> (p1.None? && p2.None?) || vid.None? != cid.None?)
      && (r.Err? ==> r.error.ValueError?)
      && (r.Ok? && vid.None? ==> r.value)
      && (r.Ok? && vid.Some? ==> (r.value <==> Selected(p1, p2, vid.value, cid.value)))
  {
  }

  /** With both ids requested the corrected filter agrees with the code as
      written, so the top-level comparison, which always requests both, is
      unaffected. */
  lemma ParamIdTestAgrees(p1: Option<Parameter>, p2: Option<Parameter>, vid: int, cid: int)
    ensures ParamIdTest(p1, p2, Some(vid), Some(cid)) == ParamIdTestAsWritten(p1, p2, Some(vid), Some(cid))
  {
  }

  // ---------------------------------------------------------------------
  // compare_parameter_lists
  // ---------------------------------------------------------------------

  /** What `compare_parameter_lists` keeps for one name of the union: a
      one-sided row that passes the id filter, or a two-sided row that
      passes it and whose values differ. A name of neither list, which the
      union never holds, has no row. */
  function PairFor(a: map<string, Parameter>, b: map<string, Parameter>, n: string, vid: Option<int>,
                   cid: Option<int>, differ: (Number, Number) -> bool): Result<Option<Pair>>
  {
    if n in a && n !in b then
      var keep :- ParamIdTest(Some(a[n]), None, vid, cid);
      Ok(if keep then Some(Pair(Some(a[n]), None)) else None)
    else if n in b && n !in a then
      var keep :- ParamIdTest(None, Some(b[n]), vid, cid);
      Ok(if keep then Some(Pair(None, Some(b[n]))) else None)
    else if n in a && n in b then
      var keep :- ParamIdTest(Some(a[n]), Some(b[n]), vid, cid);
      Ok(if keep && differ(a[n].value, b[n].value) then Some(Pair(Some(a[n]), Some(b[n]))) else None)
    else Ok(None)
  }

  function Kept(o: Option<Pair>): seq<Pair> {
    if o.Some? then [o.value] else []
  }

  /** The rows of the names `names`, walked in order; the first failing
      name's error replaces the result. */
  function ComparePairs(a: map<string, Parameter>, b: map<string, Parameter>, names: seq<string>,
                        vid: Option<int>, cid: Option<int>, differ: (Number, Number) -> bool): Result<seq<Pair>>
    decreases |names|
  {
    if names == [] then Ok([])
    else
      var init :- ComparePairs(a, b, names[..|names| - 1], vid, cid, differ);
      var last :- PairFor(a, b, names[|names| - 1], vid, cid, differ);
      Ok(init + Kept(last))
  }

  /** `compare_parameter_lists` on the two dictionaries. */
  function CompareLists(a: map<string, Parameter>, b: map<string, Parameter>, vid: Option<int>, cid: Option<int>,
                        differ: (Number, Number) -> bool): Result<seq<Pair>>
  {
    ComparePairs(a, b, SortedKeys(a.Keys + b.Keys), vid, cid, differ)
  }

  /** Whether `n` gets a row: every present parameter passes the filter,
      and a two-sided row also needs differing values. */
  predicate Wanted(a: map<string, Parameter>, b: map<string, Parameter>, n: string, vid: Option<int>,
                   cid: Option<int>, differ: (Number, Number) -> bool)
  {
    (vid.Some? && cid.Some? ==>
      Selected(if n in a then Some(a[n]) else None, if n in b then Some(b[n]) else None, vid.value, cid.value))
    && (n in a && n in b ==> differ(a[n].value, b[n].value))
  }

  /** The row of `n`: each list's parameter, `None` where it has none. */
  function RowOf(a: map<string, Parameter>, b: map<string, Parameter>, n: string): Pair {
    Pair(if n in a then Some(a[n]) else None, if n in b then Some(b[n]) else None)
  }

  /** One name gives its row exactly when it is wanted; with a consistent
      id request it never fails. */
  lemma PairForOutcome(a: map<string, Parameter>, b: map<string, Parameter>, n: string, vid: Option<int>,
                       cid: Option<int>, differ: (Number, Number) -> bool)
    requires n in a || n in b
    requires vid.None? == cid.None?
    ensures PairFor(a, b, n, vid, cid, differ) ==
      Ok(if Wanted(a, b, n, vid, cid, differ) then Some(RowOf(a, b, n)) else None)
  {
    var p1 := if n in a then Some(a[n]) else None;
    var p2 := if n in b then Some(b[n]) else None;
    ParamIdTestOutcome(p1, p2, vid, cid);
  }

  /** A malformed id request (exactly one id given) fails as soon as there
      is a name to compare. */
  lemma ComparePairsHalfIds(a: map<string, Parameter>, b: map<string, Parameter>, names: seq<string>,
                            vid: Option<int>, cid: Option<int>, differ: (Number, Number) -> bool)
    requires forall n :: n in names ==> n in a || n in b
    requires vid.None? != cid.None? && names != []
    ensures ComparePairs(a, b, names, vid, cid, differ) == Err(ValueError("Unhandled input values"))
    decreases |names|
  {
    if |names| > 1 {
      ComparePairsHalfIds(a, b, names[..|names| - 1], vid, cid, differ);
    }
  }

  /** The reference for the walk: the rows of the wanted names, in the
      names' order. */
  function FilterRows(a: map<string, Parameter>, b: map<string, Parameter>, names: seq<string>,
                      vid: Option<int>, cid: Option<int>, differ: (Number, Number) -> bool): seq<Pair>
    decreases |names|
  {
    if names == [] then []
    else
      var n := names[|names| - 1];
      FilterRows(a, b, names[..|names| - 1], vid, cid, differ)
        + (if Wanted(a, b, n, vid, cid, differ) then [RowOf(a, b, n)] else [])
  }

  /** Under a consistent id request the walk never fails and keeps exactly
      the wanted names' rows. */
  lemma {:induction false} ComparePairsIsFilter(a: map<string, Parameter>, b: map<string, Parameter>,
                                                names: seq<string>, vid: Option<int>, cid: Option<int>,
                                                differ: (Number, Number) -> bool)
    requires forall n :: n in names ==> n in a || n in b
    requires vid.None? == cid.None?
    ensures ComparePairs(a, b, names, vid, cid, differ) == Ok(FilterRows(a, b, names, vid, cid, differ))
    decreases |names|
  {
    if names != [] {
      ComparePairsIsFilter(a, b, names[..|names| - 1], vid, cid, differ);
      PairForOutcome(a, b, names[|names| - 1], vid, cid, differ);
    }
  }

  /** Every kept row holds the two lists' parameters of a wanted name of
      the list, and every wanted name has a row. */
  lemma {:induction false} FilterRowsMembers(a: map<string, Parameter>, b: map<string, Parameter>,
                                             names: seq<string>, vid: Option<int>, cid: Option<int>,
                                             differ: (Number, Number) -> bool)
    requires KeyedByName(a) && KeyedByName(b)
    requires forall n :: n in names ==> n in a || n in b
    ensures var r := FilterRows(a, b, names, vid, cid, differ);
      (forall i :: 0 <= i < |r| ==>
         PairName(r[i]) in names && Wanted(a, b, PairName(r[i]), vid, cid, differ) && r[i] == RowOf(a, b, PairName(r[i])))
      && (forall n :: n in names && Wanted(a, b, n, vid, cid, differ) ==> exists i :: 0 <= i < |r| && PairName(r[i]) == n)
    decreases |names|
  {
    if names != [] {
      var init := names[..|names| - 1];
      var n := names[|names| - 1];
      assert forall x :: x in names <==> x in init || x == n;
      FilterRowsMembers(a, b, init, vid, cid, differ);
      assert PairName(RowOf(a, b, n)) == n;
      var r0 := FilterRows(a, b, init, vid, cid, differ);
      var r := FilterRows(a, b, names, vid, cid, differ);
      assert forall i :: 0 <= i < |r0| ==>
        PairName(r0[i]) in init && Wanted(a, b, PairName(r0[i]), vid, cid, differ) && r0[i] == RowOf(a, b, PairName(r0[i]));
      forall i | 0 <= i < |r|
        ensures PairName(r[i]) in names && Wanted(a, b, PairName(r[i]), vid, cid, differ)
          && r[i] == RowOf(a, b, PairName(r[i]))
      {
        if i < |r0| {
          assert r[i] == r0[i];
        } else {
          assert r[i] == RowOf(a, b, n);
        }
      }
      forall x | x in names && Wanted(a, b, x, vid, cid, differ)
        ensures exists i :: 0 <= i < |r| && PairName(r[i]) == x
      {
        if x in init {
          var i :| 0 <= i < |r0| && PairName(r0[i]) == x;
          assert PairName(r[i]) == x;
        } else {
          assert PairName(r[|r0|]) == x;
        }
      }
    }
  }

  /** The rows of strictly ascending names come in strictly ascending name
      order. */
  lemma {:induction false} FilterRowsAscending(a: map<string, Parameter>, b: map<string, Parameter>,
                                               names: seq<string>, vid: Option<int>, cid: Option<int>,
                                               differ: (Number, Number) -> bool)
    requires KeyedByName(a) && KeyedByName(b)
    requires forall n :: n in names ==> n in a || n in b
    requires StrictlySorted(names)
    ensures var r := FilterRows(a, b, names, vid, cid, differ);
      forall i, j :: 0 <= i < j < |r| ==> StrLess(PairName(r[i]), PairName(r[j]))
    decreases |names|
  {
    if names != [] {
      var init := names[..|names| - 1];
      var n := names[|names| - 1];
      FilterRowsAscending(a, b, init, vid, cid, differ);
      FilterRowsMembers(a, b, init, vid, cid, differ);
      var r0 := FilterRows(a, b, init, vid, cid, differ);
      var r := FilterRows(a, b, names, vid, cid, differ);
      assert PairName(RowOf(a, b, n)) == n;
      assert forall i :: 0 <= i < |r0| ==>
        PairName(r0[i]) in init && Wanted(a, b, PairName(r0[i]), vid, cid, differ) && r0[i] == RowOf(a, b, PairName(r0[i]));
      assert forall i, j :: 0 <= i < j < |r0| ==> StrLess(PairName(r0[i]), PairName(r0[j]));
      forall i, j | 0 <= i < j < |r| ensures StrLess(PairName(r[i]), PairName(r[j])) {
        assert r[i] == r0[i];
        if j == |r0| {
          var k :| 0 <= k < |init| && init[k] == PairName(r0[i]);
          assert names[k] == init[k];
          assert StrLess(names[k], names[|names| - 1]);
          assert PairName(r[j]) == n;
        } else {
          assert r[j] == r0[j];
          assert StrLess(PairName(r0[i]), PairName(r0[j]));
        }
      }
    }
  }

  /** `compare_parameter_lists` on its own terms: under a consistent id
      request it never fails; the rows come in strictly ascending name
      order; every row names a key of either list and holds each list's
      parameter under it (`None` for the list without it); and a name has a
      row exactly when every present parameter carries the requested ids
      and, when both lists have it, the values differ. */
  lemma CompareListsFacts(a: map<string, Parameter>, b: map<string, Parameter>, vid: Option<int>, cid: Option<int>,
                          differ: (Number, Number) -> bool)
    requires KeyedByName(a) && KeyedByName(b)
    requires vid.None? == cid.None?
    ensures CompareLists(a, b, vid, cid, differ).Ok?
    ensures var r := CompareLists(a, b, vid, cid, differ).value;
      (forall i, j :: 0 <= i < j < |r| ==> StrLess(PairName(r[i]), PairName(r[j])))
      && (forall i :: 0 <= i < |r| ==>
            (PairName(r[i]) in a || PairName(r[i]) in b) && Wanted(a, b, PairName(r[i]), vid, cid, differ)
            && r[i] == RowOf(a, b, PairName(r[i])))
      && (forall n :: (n in a || n in b) && Wanted(a, b, n, vid, cid, differ) ==>
            exists i :: 0 <= i < |r| && PairName(r[i]) == n)
  {
    var names := SortedKeys(a.Keys + b.Keys);
    SortedKeysAscending(a.Keys + b.Keys);
    ComparePairsIsFilter(a, b, names, vid, cid, differ);
    FilterRowsMembers(a, b, names, vid, cid, differ);
    FilterRowsAscending(a, b, names, vid, cid, differ);
  }

  /** With `cid=2`, lists of parameters that all keep the default component
      id 1 give no rows. */
  lemma DefaultIdsNotComponentTwo(a: map<string, Parameter>, b: map<string, Parameter>, vid: int,
                                  differ: (Number, Number) -> bool)
    requires KeyedByName(a) && KeyedByName(b)
    requires forall n :: n in a ==> a[n].cid == 1
    requires forall n :: n in b ==> b[n].cid == 1
    ensures CompareLists(a, b, Some(vid), Some(2), differ) == Ok([])
  {
    var names := SortedKeys(a.Keys + b.Keys);
    ComparePairsIsFilter(a, b, names, Some(vid), Some(2), differ);
    forall n | n in names ensures !Wanted(a, b, n, Some(vid), Some(2), differ) {
    }
    FilterRowsNoneWanted(a, b, names, Some(vid), Some(2), differ);
  }

  /** Without a wanted name there are no rows. */
  lemma {:induction false} FilterRowsNoneWanted(a: map<string, Parameter>, b: map<string, Parameter>,
                                                names: seq<string>, vid: Option<int>, cid: Option<int>,
                                                differ: (Number, Number) -> bool)
    requires forall n :: n in names ==> !Wanted(a, b, n, vid, cid, differ)
    ensures FilterRows(a, b, names, vid, cid, differ) == []
    decreases |names|
  {
    if names != [] {
      FilterRowsNoneWanted(a, b, names[..|names| - 1], vid, cid, differ);
    }
  }

  /** One more name extends the walk by that name's outcome. */
  lemma ComparePairsStep(a: map<string, Parameter>, b: map<string, Parameter>, names: seq<string>, i: nat,
                         vid: Option<int>, cid: Option<int>, differ: (Number, Number) -> bool)
    requires i < |names|
    ensures ComparePairs(a, b, names[..i + 1], vid, cid, differ) ==
      match ComparePairs(a, b, names[..i], vid, cid, differ)
      case Err(e) => Err(e)
      case Ok(rows) =>
        match PairFor(a, b, names[i], vid, cid, differ)
        case Err(e) => Err(e)
        case Ok(o) => Ok(rows + Kept(o))
  {
    assert names[..i + 1][..i] == names[..i];
  }

  /** An error in a prefix of the names is the error of the whole walk. */
  lemma {:induction false} ComparePairsErrorStays(a: map<string, Parameter>, b: map<string, Parameter>,
                                                  names: seq<string>, i: nat, vid: Option<int>, cid: Option<int>,
                                                  differ: (Number, Number) -> bool)
    requires i <= |names| && ComparePairs(a, b, names[..i], vid, cid, differ).Err?
    ensures ComparePairs(a, b, names, vid, cid, differ) == ComparePairs(a, b, names[..i], vid, cid, differ)
    decreases |names| - i
  {
    if i < |names| {
      ComparePairsStep(a, b, names, i, vid, cid, differ);
      ComparePairsErrorStays(a, b, names, i + 1, vid, cid, differ);
    } else {
      assert names[..i] == names;
    }
  }

  /** One iteration of the walk: a failing name ends the whole walk with
      its error, any other name extends the rows by its outcome. */
  lemma WalkStep(a: map<string, Parameter>, b: map<string, Parameter>, names: seq<string>, i: nat,
                 vid: Option<int>, cid: Option<int>, differ: (Number, Number) -> bool, rows: seq<Pair>)
    requires i < |names| && ComparePairs(a, b, names[..i], vid, cid, differ) == Ok(rows)
    ensures var item := PairFor(a, b, names[i], vid, cid, differ);
      (item.Err? ==> ComparePairs(a, b, names, vid, cid, differ) == Err(item.error))
      && (item.Ok? ==> ComparePairs(a, b, names[..i + 1], vid, cid, differ) == Ok(rows + Kept(item.value)))
  {
    ComparePairsStep(a, b, names, i, vid, cid, differ);
    if PairFor(a, b, names[i], vid, cid, differ).Err? {
      ComparePairsErrorStays(a, b, names, i + 1, vid, cid, differ);
    }
  }

  /** `compare_parameter_lists(param_list_1, param_list_2, vid, cid)`. */
  method CompareParameterLists(list1: ParameterList, list2: ParameterList, vid: Option<int>, cid: Option<int>,
                               differ: (Number, Number) -> bool) returns (r: Result<seq<Pair>>)
    ensures r == CompareLists(list1.params.entries, list2.params.entries, vid, cid, differ)
  {
    var a, b := list1.params.entries, list2.params.entries;
    r := WalkNames(a, b, SortedKeys(a.Keys + b.Keys), vid, cid, differ);
  }

  /** The loop of `compare_parameter_lists` over the sorted union of names. */
  method WalkNames(a: map<string, Parameter>, b: map<string, Parameter>, names: seq<string>, vid: Option<int>,
                   cid: Option<int>, differ: (Number, Number) -> bool) returns (r: Result<seq<Pair>>)
    ensures r == ComparePairs(a, b, names, vid, cid, differ)
  {
    var rows: seq<Pair> := [];
    var i := 0;
    while i < |names|
      invariant 0 <= i <= |names|
      invariant ComparePairs(a, b, names[..i], vid, cid, differ) == Ok(rows)
    {
      var item := PairFor(a, b, names[i], vid, cid, differ);
      WalkStep(a, b, names, i, vid, cid, differ, rows);
      if item.Err? {
        return Err(item.error);
      }
      rows := rows + Kept(item.value);
      i := i + 1;
    }
    assert names[..|names|] == names;
    r := Ok(rows);
  }

  // ---------------------------------------------------------------------
  // compare_parameter_lists with the filter as written
  // ---------------------------------------------------------------------

  /** One name's outcome in `compare_parameter_lists` as written: the same
      walk step as `PairFor`, with `ParamIdTestAsWritten` as the filter. */
  function PairForAsWritten(a: map<string, Parameter>, b: map<string, Parameter>, n: string, vid: Option<int>,
                            cid: Option<int>, differ: (Number, Number) -> bool): Result<Option<Pair>>
  {
    if n in a && n !in b then
      var keep :- ParamIdTestAsWritten(Some(a[n]), None, vid, cid);
      Ok(if keep then Some(Pair(Some(a[n]), None)) else None)
    else if n in b && n !in a then
      var keep :- ParamIdTestAsWritten(None, Some(b[n]), vid, cid);
      Ok(if keep then Some(Pair(None, Some(b[n]))) else None)
    else if n in a && n in b then
      var keep :- ParamIdTestAsWritten(Some(a[n]), Some(b[n]), vid, cid);
      Ok(if keep && differ(a[n].value, b[n].value) then Some(Pair(Some(a[n]), Some(b[n]))) else None)
    else Ok(None)
  }

  function ComparePairsAsWritten(a: map<string, Parameter>, b: map<string, Parameter>, names: seq<string>,
                                 vid: Option<int>, cid: Option<int>, differ: (Number, Number) -> bool)
    : Result<seq<Pair>>
    decreases |names|
  {
    if names == [] then Ok([])
    else
      var init :- ComparePairsAsWritten(a, b, names[..|names| - 1], vid, cid, differ);
      var last :- PairForAsWritten(a, b, names[|names| - 1], vid, cid, differ);
      Ok(init + Kept(last))
  }

  /** `compare_parameter_lists` exactly as written. */
  function CompareListsAsWritten(a: map<string, Parameter>, b: map<string, Parameter>, vid: Option<int>,
                                 cid: Option<int>, differ: (Number, Number) -> bool): Result<seq<Pair>>
  {
    ComparePairsAsWritten(a, b, SortedKeys(a.Keys + b.Keys), vid, cid, differ)
  }

  /** As written, a walk over at least one name with no ids requested fails
      at its first name. */
  lemma {:induction false} ComparePairsAsWrittenRejects(a: map<string, Parameter>, b: map<string, Parameter>,
                                                        names: seq<string>, differ: (Number, Number) -> bool)
    requires forall n :: n in names ==> n in a || n in b
    requires names != []
    ensures ComparePairsAsWritten(a, b, names, None, None, differ) == Err(ValueError("vid must not be None"))
    decreases |names|
  {
    var n := names[|names| - 1];
    if |names| > 1 {
      ComparePairsAsWrittenRejects(a, b, names[..|names| - 1], differ);
    } else {
      ParamIdTestAsWrittenRejectsUnfiltered(if n in a then Some(a[n]) else None, if n in b then Some(b[n]) else None);
    }
  }

  /** As written, `compare_parameter_lists(l1, l2)` without ids fails with
      "vid must not be None" as soon as either list has a parameter, where
      the intended filter compares every name. */
  lemma CompareListsAsWrittenRejectsUnfiltered(a: map<string, Parameter>, b: map<string, Parameter>, n: string,
                                                differ: (Number, Number) -> bool)
    requires n in a || n in b
    ensures CompareListsAsWritten(a, b, None, None, differ) == Err(ValueError("vid must not be None"))
    ensures CompareLists(a, b, None, None, differ).Ok?
  {
    var names := SortedKeys(a.Keys + b.Keys);
    assert n in names;
    ComparePairsAsWrittenRejects(a, b, names, differ);
    ComparePairsIsFilter(a, b, names, None, None, differ);
  }

  /** With both ids requested, the walk as written and the corrected walk
      coincide name by name. */
  lemma {:induction false} ComparePairsAsWrittenAgrees(a: map<string, Parameter>, b: map<string, Parameter>,
                                                       names: seq<string>, vid: int, cid: int,
                                                       differ: (Number, Number) -> bool)
    ensures ComparePairsAsWritten(a, b, names, Some(vid), Some(cid), differ)
      == ComparePairs(a, b, names, Some(vid), Some(cid), differ)
    decreases |names|
  {
    if names != [] {
      var n := names[|names| - 1];
      ComparePairsAsWrittenAgrees(a, b, names[..|names| - 1], vid, cid, differ);
      var p1 := if n in a then Some(a[n]) else None;
      var p2 := if n in b then Some(b[n]) else None;
      ParamIdTestAgrees(p1, p2, vid, cid);
      assert PairForAsWritten(a, b, n, Some(vid), Some(cid), differ) == PairFor(a, b, n, Some(vid), Some(cid), differ);
    }
  }

  /** With both ids requested, as `get_vehicles_comparison` always does,
      `compare_parameter_lists` as written is the corrected comparison. */
  lemma CompareListsAsWrittenAgrees(a: map<string, Parameter>, b: map<string, Parameter>, vid: int, cid: int,
                                    differ: (Number, Number) -> bool)
    ensures CompareListsAsWritten(a, b, Some(vid), Some(cid), differ) == CompareLists(a, b, Some(vid), Some(cid), differ)
  {
    ComparePairsAsWrittenAgrees(a, b, SortedKeys(a.Keys + b.Keys), vid, cid, differ);
  }

  // ---------------------------------------------------------------------
  // get_vehicles_comparison
  // ---------------------------------------------------------------------

  /** The names a staple dish lists, as `Calibration()` or `Operator()`
      builds it from its dish file. */
  function StapleNames(dm: DishModel): Result<set<string>> {
    var d :- DishSpec(dm, None, None);
    Ok(d.params.Keys)
  }

  /** `param_list -= Staple().param_list`: the list without the staple's
      names. */
  function Without(m: map<string, Parameter>, dm: DishModel): Result<map<string, Parameter>> {
    var names :- StapleNames(dm);
    Ok(m - names)
  }

  /** A list after the optional removal of calibration and operator
      parameters. */
  function Stripped(m: map<string, Parameter>, nocal: bool, noop: bool, calibration: DishModel,
                    operator: DishModel): Result<map<string, Parameter>> {
    var m1 :- if nocal then Without(m, calibration) else Ok(m);
    if noop then Without(m1, operator) else Ok(m1)
  }

  /** What a list holds when the removals of `get_vehicles_comparison`
      raise: the staple loads raise before the `-=` they feed, so a list
      has lost the calibration parameters exactly when that stage ran and
      succeeded, and is untouched otherwise. */
  function AfterCalibration(m: map<string, Parameter>, nocal: bool, calibration: DishModel): map<string, Parameter> {
    if nocal && Without(m, calibration).Ok? then Without(m, calibration).value else m
  }

  /** One staple's removal from a list. Python rebinds the name to the
      difference, which shares the dictionary unless the list was empty. */
  method RemoveStapleNames(l: ParameterList, dm: DishModel) returns (r: Result<ParameterList>)
    requires l.params.Valid()
    modifies l.params
    ensures match Without(old(l.params.entries), dm)
      case Ok(m) => r.Ok? && r.value.params.entries == m && l.params.entries == m && r.value.params.Valid()
        && (r.value.params == l.params || (old(l.params.entries) == map[] && fresh(r.value.params)))
      case Err(e) => r == Err(e) && l.params.entries == old(l.params.entries)
  {
    var staple := NewDish(dm, None, None);
    if staple.Err? {
      return Err(staple.error);
    }
    var res := l.Subtract(staple.value.paramList);
    r := Ok(res);
  }

  /** An id pair the top-level loop visits: collected, and of the requested
      component when one is given. */
  predicate Target(ids: map<int, set<int>>, component: Option<int>, t: (int, int)) {
    t.0 in ids && t.1 in ids[t.0] && (component.None? || component.value == t.1)
  }

  predicate DistinctTargets(ts: seq<(int, int)>) {
    forall i, j :: 0 <= i < j < |ts| ==> ts[i] != ts[j]
  }

  /** The comparison of the two lists for an id pair, as a function of the pair. */
  function Comparison(a: map<string, Parameter>, b: map<string, Parameter>, differ: (Number, Number) -> bool)
    : ((int, int)) -> Result<seq<Pair>>
  {
    (t: (int, int)) => CompareLists(a, b, Some(t.0), Some(t.1), differ)
  }

  /** Each result is `f` of its id pair. */
  predicate Matches(f: ((int, int)) -> Result<seq<Pair>>, targets: seq<(int, int)>, results: seq<seq<Pair>>) {
    |results| == |targets| && forall k :: 0 <= k < |targets| ==> f(targets[k]) == Ok(results[k])
  }

  /** Each result is the comparison of the two lists for its id pair. */
  predicate Answers(a: map<string, Parameter>, b: map<string, Parameter>, targets: seq<(int, int)>,
                    results: seq<seq<Pair>>, differ: (Number, Number) -> bool) {
    Matches(Comparison(a, b, differ), targets, results)
  }

  lemma MatchesAppend(f: ((int, int)) -> Result<seq<Pair>>, t1: seq<(int, int)>, r1: seq<seq<Pair>>,
                      t2: seq<(int, int)>, r2: seq<seq<Pair>>)
    requires Matches(f, t1, r1) && Matches(f, t2, r2)
    ensures Matches(f, t1 + t2, r1 + r2)
  {
    forall k | 0 <= k < |t1 + t2| ensures f((t1 + t2)[k]) == Ok((r1 + r2)[k]) {
      if k >= |t1| {
        assert (t1 + t2)[k] == t2[k - |t1|] && (r1 + r2)[k] == r2[k - |t1|];
      }
    }
  }

  lemma DistinctAppend(t1: seq<(int, int)>, t2: seq<(int, int)>)
    requires DistinctTargets(t1) && DistinctTargets(t2)
    requires forall t :: t in t2 ==> t !in t1
    ensures DistinctTargets(t1 + t2)
  {
    forall i, j | 0 <= i < j < |t1 + t2| ensures (t1 + t2)[i] != (t1 + t2)[j] {
      if i < |t1| && j >= |t1| {
        assert (t1 + t2)[j] in t2;
      }
    }
  }

  /** Visiting component `cid` of vehicle `vid` extends the visited pairs by one. */
  lemma ComponentStep(vid: int, cid: int, cids: set<int>, rest: set<int>, component: Option<int>,
                      targets: seq<(int, int)>)
    requires cid in rest && cid in cids && (component.None? || component.value == cid)
    requires DistinctTargets(targets)
    requires forall t :: t in targets <==>
      t.0 == vid && t.1 in cids && t.1 !in rest && (component.None? || component.value == t.1)
    ensures DistinctTargets(targets + [(vid, cid)])
    ensures forall t :: t in targets + [(vid, cid)] <==>
      t.0 == vid && t.1 in cids && t.1 !in rest - {cid} && (component.None? || component.value == t.1)
  {
    DistinctAppend(targets, [(vid, cid)]);
  }

  /** The comparison for one more id pair extends the results by one. */
  lemma ComponentAnswer(a: map<string, Parameter>, b: map<string, Parameter>, vid: int, cid: int,
                        targets: seq<(int, int)>, results: seq<seq<Pair>>, differ: (Number, Number) -> bool)
    requires KeyedByName(a) && KeyedByName(b)
    requires Answers(a, b, targets, results, differ)
    ensures CompareLists(a, b, Some(vid), Some(cid), differ).Ok?
    ensures Answers(a, b, targets + [(vid, cid)],
                    results + [CompareLists(a, b, Some(vid), Some(cid), differ).value], differ)
  {
    CompareListsFacts(a, b, Some(vid), Some(cid), differ);
    var rows := CompareLists(a, b, Some(vid), Some(cid), differ).value;
    MatchesAppend(Comparison(a, b, differ), targets, results, [(vid, cid)], [rows]);
  }

  /** The inner loop of `get_vehicles_comparison`: the component ids of one
      vehicle id, in the order the set yields them, skipping components
      other than the requested one. `targets` records the pairs visited. */
  method CompareComponents(list1: ParameterList, list2: ParameterList, vid: int, cids: set<int>,
                           component: Option<int>, differ: (Number, Number) -> bool)
    returns (results: seq<seq<Pair>>, ghost targets: seq<(int, int)>)
    requires KeyedByName(list1.params.entries) && KeyedByName(list2.params.entries)
    ensures DistinctTargets(targets)
    ensures forall t :: t in targets <==> t.0 == vid && t.1 in cids && (component.None? || component.value == t.1)
    ensures Answers(list1.params.entries, list2.params.entries, targets, results, differ)
  {
    results, targets := [], [];
    var rest := cids;
    while exists c :: c in rest
      invariant rest <= cids
      invariant DistinctTargets(targets)
      invariant forall t :: t in targets <==>
        t.0 == vid && t.1 in cids && t.1 !in rest && (component.None? || component.value == t.1)
      invariant Answers(list1.params.entries, list2.params.entries, targets, results, differ)
      decreases |rest|
    {
      var cid :| cid in rest;
      if component.None? || component.value == cid {
        var rows := CompareParameterLists(list1, list2, Some(vid), Some(cid), differ);
        ComponentAnswer(list1.params.entries, list2.params.entries, vid, cid, targets, results, differ);
        ComponentStep(vid, cid, cids, rest, component, targets);
        results := results + [rows.value];
        targets := targets + [(vid, cid)];
      }
      rest := rest - {cid};
    }
  }

  /** Visiting vehicle `order[j]` extends the visited pairs by its components. */
  lemma VehicleStep(ids: map<int, set<int>>, order: seq<int>, j: int, component: Option<int>,
                    targets: seq<(int, int)>, ts: seq<(int, int)>)
    requires 0 <= j < |order| && order[j] in ids
    requires DistinctInts(order)
    requires DistinctTargets(targets) && DistinctTargets(ts)
    requires forall t :: t in targets <==> t.0 in order[..j] && Target(ids, component, t)
    requires forall t :: t in ts <==>
      t.0 == order[j] && t.1 in ids[order[j]] && (component.None? || component.value == t.1)
    ensures DistinctTargets(targets + ts)
    ensures forall t :: t in targets + ts <==> t.0 in order[..j + 1] && Target(ids, component, t)
  {
    assert forall k :: 0 <= k < j ==> order[..j][k] != order[j];
    assert order[j] !in order[..j];
    DistinctAppend(targets, ts);
    assert order[..j + 1] == order[..j] + [order[j]];
  }

  /** Where vehicle id `v` first occurs in `order` (`|order|` when absent). */
  function Position(order: seq<int>, v: int): (k: nat)
    ensures k <= |order|
    ensures k < |order| ==> order[k] == v
    ensures forall i :: 0 <= i < k ==> order[i] != v
    decreases |order|
  {
    if order == [] then 0 else if order[0] == v then 0 else 1 + Position(order[1..], v)
  }

  /** The results come vehicle by vehicle in the key order of the id
      dictionary: a later pair never has a vehicle id placed earlier. */
  predicate VehicleOrdered(order: seq<int>, targets: seq<(int, int)>) {
    forall i, j :: 0 <= i < j < |targets| ==> Position(order, targets[i].0) <= Position(order, targets[j].0)
  }

  /** The pairs of vehicle `order[j]` follow pairs of vehicles placed before it. */
  lemma VehicleOrderStep(order: seq<int>, j: int, targets: seq<(int, int)>, ts: seq<(int, int)>)
    requires 0 <= j < |order| && DistinctInts(order)
    requires VehicleOrdered(order, targets)
    requires forall t :: t in targets ==> t.0 in order[..j]
    requires forall t :: t in ts ==> t.0 == order[j]
    ensures VehicleOrdered(order, targets + ts)
  {
    assert Position(order, order[j]) == j;
    forall t | t in targets ensures Position(order, t.0) < j {
      var k :| 0 <= k < j && order[..j][k] == t.0;
      assert order[k] == t.0;
    }
    var all := targets + ts;
    forall i, k | 0 <= i < k < |all| ensures Position(order, all[i].0) <= Position(order, all[k].0) {
      if k < |targets| {
        assert all[i] == targets[i] && all[k] == targets[k];
      } else if i < |targets| {
        assert all[i] in targets && all[k] in ts;
      } else {
        assert all[i] in ts && all[k] in ts;
      }
    }
  }

  /** The outer loop of `get_vehicles_comparison`: the vehicle ids in the
      dictionary's key order `order`. */
  method CompareAllIds(list1: ParameterList, list2: ParameterList, ids: map<int, set<int>>, order: seq<int>,
                       component: Option<int>, differ: (Number, Number) -> bool)
    returns (results: seq<seq<Pair>>, ghost targets: seq<(int, int)>)
    requires forall v :: v in order <==> v in ids
    requires DistinctInts(order)
    requires KeyedByName(list1.params.entries) && KeyedByName(list2.params.entries)
    ensures DistinctTargets(targets)
    ensures forall t :: t in targets <==> Target(ids, component, t)
    ensures VehicleOrdered(order, targets)
    ensures Answers(list1.params.entries, list2.params.entries, targets, results, differ)
  {
    results, targets := [], [];
    var j := 0;
    while j < |order|
      invariant 0 <= j <= |order|
      invariant DistinctTargets(targets)
      invariant forall t :: t in targets <==> t.0 in order[..j] && Target(ids, component, t)
      invariant VehicleOrdered(order, targets)
      invariant Answers(list1.params.entries, list2.params.entries, targets, results, differ)
    {
      var vid := order[j];
      var rs, ts := CompareComponents(list1, list2, vid, ids[vid], component, differ);
      MatchesAppend(Comparison(list1.params.entries, list2.params.entries, differ), targets, results, ts, rs);
      VehicleOrderStep(order, j, targets, ts);
      VehicleStep(ids, order, j, component, targets, ts);
      results := results + rs;
      targets := targets + ts;
      j := j + 1;
    }
    AllVehicles(ids, order, component, targets);
  }

  lemma AllVehicles(ids: map<int, set<int>>, order: seq<int>, component: Option<int>, targets: seq<(int, int)>)
    requires forall v :: v in order <==> v in ids
    requires forall t :: t in targets <==> t.0 in order[..|order|] && Target(ids, component, t)
    ensures forall t :: t in targets <==> Target(ids, component, t)
  {
    assert order[..|order|] == order;
    forall t ensures t in targets <==> Target(ids, component, t) {
      if Target(ids, component, t) {
        var v: int := t.0;
        assert v in ids;
        assert v in order;
      }
    }
  }

  /** One removal stage of `get_vehicles_comparison`, `param_list_1 -=
      Staple().param_list` and then the same for the second list. */
  method RemoveStapleFromBoth(l1: ParameterList, l2: ParameterList, dm: DishModel)
    returns (r: Result<(ParameterList, ParameterList)>)
    requires l1.params.Valid() && l2.params.Valid() && l1.params != l2.params
    modifies l1.params, l2.params
    ensures var a := Without(old(l1.params.entries), dm);
      var b := Without(old(l2.params.entries), dm);
      (a.Err? ==> r == Err(a.error)
                  && l1.params.entries == old(l1.params.entries) && l2.params.entries == old(l2.params.entries))
      && (a.Ok? ==>
            b.Ok? && r.Ok? && l1.params.entries == a.value && l2.params.entries == b.value
            && r.value.0.params.entries == a.value && r.value.1.params.entries == b.value
            && r.value.0.params.Valid() && r.value.1.params.Valid() && r.value.0.params != r.value.1.params
            && (r.value.0.params == l1.params || (old(l1.params.entries) == map[] && fresh(r.value.0.params)))
            && (r.value.1.params == l2.params || (old(l2.params.entries) == map[] && fresh(r.value.1.params))))
  {
    var s1 := RemoveStapleNames(l1, dm);
    if s1.Err? {
      return Err(s1.error);
    }
    var s2 := RemoveStapleNames(l2, dm);
    r := Ok((s1.value, s2.value));
  }

  /** The removals of `get_vehicles_comparison`: calibration parameters from
      both lists when `nocal`, then operator parameters when `noop`. The
      caller's lists end with the same entries as the lists returned. */
  method StripBoth(list1: ParameterList, list2: ParameterList, nocal: bool, noop: bool,
                   calibration: DishModel, operator: DishModel)
    returns (r: Result<(ParameterList, ParameterList)>)
    requires list1.params.Valid() && list2.params.Valid() && list1.params != list2.params
    modifies list1.params, list2.params
    ensures var a := Stripped(old(list1.params.entries), nocal, noop, calibration, operator);
      var b := Stripped(old(list2.params.entries), nocal, noop, calibration, operator);
      (a.Err? ==> r == Err(a.error)
                  && list1.params.entries == AfterCalibration(old(list1.params.entries), nocal, calibration)
                  && list2.params.entries == AfterCalibration(old(list2.params.entries), nocal, calibration))
      && (a.Ok? ==>
            b.Ok? && r.Ok? && list1.params.entries == a.value && list2.params.entries == b.value
            && r.value.0.params.entries == a.value && r.value.1.params.entries == b.value
            && r.value.0.params.Valid() && r.value.1.params.Valid())
  {
    var l1, l2 := list1, list2;
    if nocal {
      var s := RemoveStapleFromBoth(l1, l2, calibration);
      if s.Err? {
        return Err(s.error);
      }
      l1, l2 := s.value.0, s.value.1;
    }
    assert l1.params == list1.params || (list1.params.entries == map[] && fresh(l1.params));
    assert l2.params == list2.params || (list2.params.entries == map[] && fresh(l2.params));
    if noop {
      var s := RemoveStapleFromBoth(l1, l2, operator);
      if s.Err? {
        return Err(s.error);
      }
      l1, l2 := s.value.0, s.value.1;
    }
    r := Ok((l1, l2));
  }

  /** `get_vehicles_comparison(param_list_1, param_list_2, nocal, noop,
      component)`: the ids are collected first, then the calibration and
      operator parameters are removed when asked (through the lists' shared
      dictionaries, so the caller's lists lose them too), then one result is
      produced per collected id pair of the requested component. */
  method GetVehiclesComparison(list1: ParameterList, list2: ParameterList, nocal: bool, noop: bool,
                               component: Option<int>, calibration: DishModel, operator: DishModel,
                               differ: (Number, Number) -> bool)
    returns (r: Result<seq<seq<Pair>>>, ghost targets: seq<(int, int)>)
    requires list1.params.Valid() && list2.params.Valid() && list1.params != list2.params
    modifies list1.params, list2.params
    ensures var a := Stripped(old(list1.params.entries), nocal, noop, calibration, operator);
      var b := Stripped(old(list2.params.entries), nocal, noop, calibration, operator);
      var ids := IdsOf(Items(old(list1.params.entries)) + Items(old(list2.params.entries)));
      var order := VidOrder(Items(old(list1.params.entries)) + Items(old(list2.params.entries)));
      (a.Err? ==> r == Err(a.error)
                  && list1.params.entries == AfterCalibration(old(list1.params.entries), nocal, calibration)
                  && list2.params.entries == AfterCalibration(old(list2.params.entries), nocal, calibration))
      && (a.Ok? ==>
            b.Ok? && r.Ok? && list1.params.entries == a.value && list2.params.entries == b.value
            && DistinctTargets(targets) && (forall t :: t in targets <==> Target(ids, component, t))
            && VehicleOrdered(order, targets)
            && Answers(a.value, b.value, targets, r.value, differ))
  {
    var ids, order := CollectVidCid(list1, list2);
    VidOrderFacts(Items(list1.params.entries) + Items(list2.params.entries));
    var lists := StripBoth(list1, list2, nocal, noop, calibration, operator);
    if lists.Err? {
      return Err(lists.error), [];
    }
    var results;
    results, targets := CompareAllIds(lists.value.0, lists.value.1, ids, order, component, differ);
    r := Ok(results);
  }
}

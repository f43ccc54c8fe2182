/**
  Whole runs of the engine of SRC/uchrabvr.py on small inputs, as the
  repository's unit tests set them up.
*/
module Scenarios {
  import opened Wrappers
  import opened Money
  import opened PayCodes
  import opened Grouping
  import opened Matching
  import opened Engine

  const Jan1: string := "2025-01-01"
  const Jan31: string := "2025-01-31"

  /** A January row of an employee with the given sum to add. */
  function JanRow(nrec: string, tabn: string, vidop: string, summaval: string, clsch: string): Row
  {
    Row(nrec, tabn, "01", "Январь", vidop, Zero, summaval, Jan1, Jan31, clsch)
  }

  /** The state of a freshly constructed engine whose configuration gives
      return code 0. */
  const Fresh: EngineState := EngineState([], {}, [], 0, [], false)

  lemma NotSecondary(c: string)
    requires c != "305" && c != "306" && c != "315" && c != "316" && c != "313" && c != "314"
    requires c != "309" && c != "310" && c != "311" && c != "312" && c != "303" && c != "304"
    requires c != "307" && c != "308" && c != "318" && c != "319"
    ensures forall k :: 0 <= k < |CommonTable| ==> c !in ToTuple(CommonTable[k].secondary)
  {
  }

  lemma SumIntoZero()
    ensures SumStr("0.00", "100.00") == Some("100.00")
  {
    var d := Dec(false, 10000, -2);
    assert Format(d) == "100.00";
    ZeroIsIdentity(d);
  }

  lemma FirstRunsSplit(p: Row, s: Row, o: Row)
    requires p.clsch == s.clsch != o.clsch
    ensures Runs([p, s, o], ClschOf) == [[p, s], [o]]
  {
    assert [p, s, o] == [p, s] + [o] && [p, s] == [p] + [s] && [p] == [] + [p];
    RunsSnoc([], p, ClschOf);
    assert Runs([p], ClschOf) == [[p]];
    RunsSnoc([p], s, ClschOf);
    assert Runs([p, s], ClschOf) == [[p, s]];
    RunsSnoc([p, s], o, ClschOf);
  }

  const Ps18: seq<string> := ["18", "48", "87", "204"]

  /** The linear lookup scans one more row at the end. */
  lemma FindSnoc(g: seq<Row>, r: Row, ps: seq<string>, datan: string, datok: string)
    ensures FindLinear(g + [r], ps, datan, datok) == FindLinear(g, ps, datan, datok) + Hits(KeyOf(r), |g|, ps, datan, datok)
  {
    assert DropLast(g + [r]) == g;
  }

  /** A row of the period whose code is listed once is hit once. */
  lemma HitOnce(r: Row, i: nat, ps: seq<string>, datan: string, datok: string)
    requires r.datan == datan && r.datok == datok && multiset(ps)[r.vidop] == 1
    ensures Hits(KeyOf(r), i, ps, datan, datok) == [i]
  {
    HitsCount(KeyOf(r), i, ps, datan, datok);
    assert Repeat(1, i) == [i];
  }

  /** A row whose code is not listed is not hit. */
  lemma HitNone(r: Row, i: nat, ps: seq<string>, datan: string, datok: string)
    requires r.vidop !in ps
    ensures Hits(KeyOf(r), i, ps, datan, datok) == []
  {
    HitsCount(KeyOf(r), i, ps, datan, datok);
  }

  /** Of a listed primary followed by an unlisted secondary, the lookup
      finds the primary alone. */
  lemma FindPrimaryOfPair(p: Row, s: Row, ps: seq<string>)
    requires s.datan == p.datan && s.datok == p.datok && multiset(ps)[p.vidop] == 1 && s.vidop !in ps
    ensures FindLinear([p, s], ps, s.datan, s.datok) == [0]
  {
    assert [p, s] == [p] + [s] && [p] == [] + [p];
    FindSnoc([], p, ps, s.datan, s.datok);
    FindSnoc([p], s, ps, s.datan, s.datok);
    HitOnce(p, 0, ps, s.datan, s.datok);
    HitNone(s, 1, ps, s.datan, s.datok);
  }

  /** A row resolved to a mapping goes to its primaries. */
  lemma StepVia(a: EngineState, t: seq<Mapping>, row: Row, k: nat, ps: seq<string>)
    requires FirstMatch(t, row.vidop) == Some(k) && ToTuple(t[k].primary) == ps
    ensures Step(a, t, row) == UpdateRow(a, row, ps)
  {
  }

  /** With no candidate the error is logged and the return code set. */
  lemma NoneFound(a: EngineState, s: Row, ps: seq<string>)
    requires FindLinear(a.group, ps, s.datan, s.datok) == []
    ensures UpdateRow(a, s, ps) == a.(log := a.log + [NoPrimary(s.tabn, s.vidop, s.datan, s.datok, ps)], returnCode := 1)
  {
  }

  /** With one candidate, it receives the amount. */
  lemma OneFound(a: EngineState, s: Row, ps: seq<string>, j: nat)
    requires FindLinear(a.group, ps, s.datan, s.datok) == [j] && j < |a.group|
    ensures UpdateRow(a, s, ps) == UpdatePrimary(a, j, s)
  {
  }

  /** The first row of a pair receives the second's amount. */
  lemma AddedIntoFirst(a: EngineState, p: Row, s: Row, v: string)
    requires a.group == [p, s] && SumStr(p.summa, s.summaval) == Some(v)
    ensures UpdatePrimary(a, 0, s) == a.(processed := a.processed + {p.vidop, s.vidop}, group := [p.(summa := v), s])
  {
    var r := UpdatePrimary(a, 0, s);
    assert r.group[0] == p.(summa := v) && r.group[1] == s;
    assert r.group == [p.(summa := v), s];
  }

  /** Of two rows whose codes are not listed, the lookup finds nothing. */
  lemma FindNoneOfPair(p: Row, s: Row, ps: seq<string>)
    requires p.vidop !in ps && s.vidop !in ps
    ensures FindLinear([p, s], ps, s.datan, s.datok) == []
  {
    assert [p, s] == [p] + [s] && [p] == [] + [p];
    FindSnoc([], p, ps, s.datan, s.datok);
    FindSnoc([p], s, ps, s.datan, s.datok);
    HitNone(p, 0, ps, s.datan, s.datok);
    HitNone(s, 1, ps, s.datan, s.datok);
  }

  lemma Ps18Counts()
    ensures multiset(Ps18)["18"] == 1 && multiset(Ps18)["48"] == 1 && "305" !in Ps18
  {
  }

  /** 305 resolves to the first mapping, whose primaries are 18, 48, 87, 204. */
  lemma CommonMatch305()
    ensures FirstMatch(CommonTable, "305") == Some(0) && ToTuple(CommonTable[0].primary) == Ps18
  {
    FirstMatchIsFirst(CommonTable, "305", 0);
  }

  /** A code listed as nobody's secondary is skipped. */
  lemma CommonMiss(c: string)
    requires c != "305" && c != "306" && c != "315" && c != "316" && c != "313" && c != "314"
    requires c != "309" && c != "310" && c != "311" && c != "312" && c != "303" && c != "304"
    requires c != "307" && c != "308" && c != "318" && c != "319"
    ensures FirstMatch(CommonTable, c) == None
  {
    NotSecondary(c);
  }

  /** In an employee holding an 18 and a 305 of one period, the 305's
      lookup finds the 18 alone. */
  lemma FindTheEighteen(p: Row, s: Row)
    requires p.vidop == "18" && s.vidop == "305" && s.datan == p.datan && s.datok == p.datok
    ensures FindLinear([p, s], Ps18, s.datan, s.datok) == [0]
  {
    Ps18Counts();
    FindPrimaryOfPair(p, s, Ps18);
  }

  lemma StatementText(r: Row)
    requires r.nrec == "10" && r.summa == "100.00"
    ensures Statement(r) == "UPDATE uchrabvr WHERE nrec=10 SET summa:=100.00;"
  {
  }

  /** Of a rewritten primary and an untouched secondary only the primary is
      written. */
  lemma SqlForPair(x: Row, y: Row)
    requires x.summa == "100.00" && y.summa == Zero
    ensures SqlFor([x, y]) == [Statement(x)]
  {
    assert DropLast([x, y]) == [x] && DropLast([x]) == [] && Last([x, y]) == y && Last([x]) == x;
    assert |x.summa| != |Zero|;
    assert SqlFor([x]) == [Statement(x)];
  }

  lemma UncoveredPair(x: Row, y: Row)
    requires x.vidop == "18" && y.vidop == "305"
    ensures Uncovered([x, y], {"18", "305"}) == []
  {
    assert DropLast([x, y]) == [x] && DropLast([x]) == [] && Last([x, y]) == y && Last([x]) == x;
    assert Uncovered([x], {"18", "305"}) == [];
  }

  /** The step for the 305 adds its amount into the 18. */
  lemma StepOfSecondary(a: EngineState, p: Row, s: Row)
    requires a.group == [p, s] && p.vidop == "18" && s.vidop == "305" && s.datan == p.datan && s.datok == p.datok
    requires SumStr(p.summa, s.summaval) == Some("100.00")
    ensures Step(a, CommonTable, s) == a.(processed := a.processed + {"18", "305"}, group := [p.(summa := "100.00"), s])
  {
    CommonMatch305();
    StepVia(a, CommonTable, s, 0, Ps18);
    FindTheEighteen(p, s);
    OneFound(a, s, Ps18, 0);
    AddedIntoFirst(a, p, s, "100.00");
  }

  /** An employee whose vidops loop ends without a failed amount gets its
      statements and the control. */
  lemma PersonOf(s: EngineState, t: seq<Mapping>, v: EngineState)
    requires s.group != [] && ProcessVidops(s, t) == v && !v.aborted
    ensures ProcessPerson(s, t) == Coverage(v.(sql := v.sql + SqlFor(v.group)))
  {
  }

  /** With every code processed the control changes nothing. */
  lemma CoverageClean(s: EngineState)
    requires Uncovered(s.group, s.processed) == []
    ensures Coverage(s) == s
  {
    assert s.log + [] == s.log;
  }

  /** A single run is processed as one employee. */
  lemma OneRun(s: EngineState, r: seq<Row>, t: seq<Mapping>)
    requires !s.aborted
    ensures ProcessRuns(s, [r], t) == ProcessPerson(s.(group := r), t)
  {
    assert DropLast([r]) == [] && Last([r]) == r;
  }

  /** Employee A: its 305 is added into its 18, one statement is written and
      both codes count as processed. */
  lemma EmployeeA(a: EngineState, p: Row, s: Row)
    requires a.group == [p, s] && !a.aborted && p.vidop == "18" && s.vidop == "305"
    requires s.datan == p.datan && s.datok == p.datok
    requires p.summa == Zero && s.summa == Zero && SumStr(Zero, s.summaval) == Some("100.00")
    ensures ProcessPerson(a, CommonTable)
         == a.(group := [p.(summa := "100.00"), s], processed := {"18", "305"}, sql := a.sql + [Statement(p.(summa := "100.00"))])
  {
    var p' := p.(summa := "100.00");
    var v := a.(processed := {"18", "305"}, group := [p', s]);
    VidopsOfA(a, p, s);
    PersonOf(a, CommonTable, v);
    SqlForPair(p', s);
    UncoveredPair(p', s);
    CoverageClean(v.(sql := v.sql + [Statement(p')]));
  }

  lemma VidopsOfA(a: EngineState, p: Row, s: Row)
    requires a.group == [p, s] && !a.aborted && p.vidop == "18" && s.vidop == "305"
    requires s.datan == p.datan && s.datok == p.datok
    requires p.summa == Zero && SumStr(Zero, s.summaval) == Some("100.00")
    ensures ProcessVidops(a, CommonTable) == a.(processed := {"18", "305"}, group := [p.(summa := "100.00"), s])
  {
    var a0 := a.(processed := {});
    CommonMiss("18");
    assert Step(a0, CommonTable, p) == a0;
    StepOfSecondary(a0, p, s);
    SkipThenStep(a, CommonTable, p, s, a0.(processed := a0.processed + {"18", "305"}, group := [p.(summa := "100.00"), s]));
  }

  /** The vidops loop over a pair whose first row is skipped. */
  lemma SkipThenStep(a: EngineState, t: seq<Mapping>, p: Row, s: Row, r: EngineState)
    requires a.group == [p, s] && !a.aborted
    requires Step(a.(processed := {}), t, p) == a.(processed := {}) && Step(a.(processed := {}), t, s) == r
    ensures ProcessVidops(a, t) == r
  {
    var a0 := a.(processed := {});
    ProcessFromUnfold(a0, t, 0);
    if !r.aborted {
      ProcessFromUnfold(a0, t, 1);
    }
  }

  /** Employee B: its 999 is in no mapping and is reported. */
  lemma EmployeeB(b: EngineState, o: Row)
    requires b.group == [o] && !b.aborted && o.vidop == "999" && o.summa == Zero
    ensures ProcessPerson(b, CommonTable)
         == b.(processed := {}, log := b.log + [UnprocessedMarker("999"), Unprocessed(o.tabn, "999")], returnCode := 1)
  {
    var b1 := b.(processed := {});
    VidopsOfB(b, o);
    PersonOf(b, CommonTable, b1);
    UnprocessedAlone(o, {});
    assert b1.sql + [] == b1.sql;
  }

  lemma VidopsOfB(b: EngineState, o: Row)
    requires b.group == [o] && !b.aborted && o.vidop == "999"
    ensures ProcessVidops(b, CommonTable) == b.(processed := {})
  {
    var b1 := b.(processed := {});
    CommonMiss("999");
    assert Step(b1, CommonTable, o) == b1;
    ProcessFromUnfold(b1, CommonTable, 0);
  }

  /** The two employees of the test, one after the other. */
  lemma TwoEmployees(p: Row, s: Row, o: Row)
    requires p.vidop == "18" && s.vidop == "305" && o.vidop == "999"
    requires p.clsch == s.clsch != o.clsch && s.datan == p.datan && s.datok == p.datok
    requires p.summa == s.summa == o.summa == Zero && SumStr(Zero, s.summaval) == Some("100.00")
    ensures StartSpec(Fresh, [p, s, o], CommonTable)
         == EngineState([o], {}, [Statement(p.(summa := "100.00"))], 1, [UnprocessedMarker("999"), Unprocessed(o.tabn, "999")], false)
  {
    var p' := p.(summa := "100.00");
    var a := Fresh.(group := [p', s], processed := {"18", "305"}, sql := [Statement(p')]);
    FirstEmployee(p, s);
    StartSplits(p, s, o, CommonTable);
    EmployeeB(a.(group := [o]), o);
  }

  lemma StartSplits(p: Row, s: Row, o: Row, t: seq<Mapping>)
    requires p.clsch == s.clsch != o.clsch && p.summa == s.summa == o.summa == Zero
    requires !ProcessRuns(Fresh, [[p, s]], t).aborted
    ensures StartSpec(Fresh, [p, s, o], t) == ProcessPerson(ProcessRuns(Fresh, [[p, s]], t).(group := [o]), t)
  {
    ZeroedTriple(p, s, o);
    FirstRunsSplit(p, s, o);
    assert DropLast([[p, s], [o]]) == [[p, s]] && Last([[p, s], [o]]) == [o];
  }

  lemma ZeroedTriple(p: Row, s: Row, o: Row)
    requires p.summa == s.summa == o.summa == Zero
    ensures Zeroed([p, s, o]) == [p, s, o]
  {
    var z := Zeroed([p, s, o]);
    assert z[0] == p && z[1] == s && z[2] == o;
  }

  lemma FirstEmployee(p: Row, s: Row)
    requires p.vidop == "18" && s.vidop == "305" && s.datan == p.datan && s.datok == p.datok
    requires p.summa == s.summa == Zero && SumStr(Zero, s.summaval) == Some("100.00")
    ensures ProcessRuns(Fresh, [[p, s]], CommonTable)
         == Fresh.(group := [p.(summa := "100.00"), s], processed := {"18", "305"}, sql := [Statement(p.(summa := "100.00"))])
  {
    OneRun(Fresh, [p, s], CommonTable);
    EmployeeA(Fresh.(group := [p, s]), p, s);
  }

  /** A secondary 305 of employee A goes into A's primary 18; the other
      employee's code 999 is in no mapping, so it is reported and the return
      code becomes 1 (test_processing_updates_primary_and_generates_sql). */
  lemma SecondaryIsAddedIntoPrimary()
    ensures var r := StartSpec(Fresh, [JanRow("10", "001", "18", "0.00", "A"), JanRow("11", "001", "305", "100.00", "A"),
                                      JanRow("20", "002", "999", "0.00", "B")], CommonTable);
      && r.sql == ["UPDATE uchrabvr WHERE nrec=10 SET summa:=100.00;"]
      && r.returnCode == 1
      && r.log == [UnprocessedMarker("999"), Unprocessed("002", "999")]
      && !r.aborted
  {
    var p, s, o := JanRow("10", "001", "18", "0.00", "A"), JanRow("11", "001", "305", "100.00", "A"), JanRow("20", "002", "999", "0.00", "B");
    SumIntoZero();
    TwoEmployees(p, s, o);
    StatementText(p.(summa := "100.00"));
  }

  /** A lone 305 finds no primary: the error is logged, the row stays
      unprocessed and the return code becomes 1
      (test_error_when_no_primary_found). */
  lemma LoneSecondaryFindsNoPrimary(s: Row)
    requires s.vidop == "305"
    ensures var r := StartSpec(Fresh, [s], CommonTable);
      && r.returnCode == 1 && r.sql == [] && !r.aborted
      && r.log == [NoPrimary(s.tabn, "305", s.datan, s.datok, Ps18), UnprocessedMarker("305"), Unprocessed(s.tabn, "305")]
  {
    var z := s.(summa := Zero);
    LoneStart(s, CommonTable);
    LonePerson(Fresh.(group := [z]), z);
    var e, m, u := NoPrimary(s.tabn, "305", s.datan, s.datok, Ps18), UnprocessedMarker("305"), Unprocessed(s.tabn, "305");
    assert Fresh.log + [e, m, u] == [e, m, u];
  }

  /** A single row is one employee, with its sum zeroed. */
  lemma LoneStart(s: Row, t: seq<Mapping>)
    ensures StartSpec(Fresh, [s], t) == ProcessPerson(Fresh.(group := [s.(summa := Zero)]), t)
  {
    var z := s.(summa := Zero);
    assert Zeroed([s]) == [z];
    assert Runs([z], ClschOf) == [[z]] by { assert DropLast([z]) == []; }
    OneRun(Fresh, [z], t);
  }

  lemma LonePerson(a: EngineState, z: Row)
    requires a.group == [z] && !a.aborted && z.vidop == "305" && z.summa == Zero
    ensures ProcessPerson(a, CommonTable) == a.(processed := {}, returnCode := 1,
      log := a.log + [NoPrimary(z.tabn, "305", z.datan, z.datok, Ps18), UnprocessedMarker("305"), Unprocessed(z.tabn, "305")])
  {
    LoneVidops(a, z);
    LoggedAlone(a, CommonTable, z, NoPrimary(z.tabn, "305", z.datan, z.datok, Ps18));
  }

  /** A lone zero row whose vidops loop logged one error and set the return
      code: no statement, and both warning lines after the error. */
  lemma LoggedAlone(a: EngineState, t: seq<Mapping>, z: Row, e: Event)
    requires a.group == [z] && z.summa == Zero
    requires ProcessVidops(a, t) == a.(processed := {}, log := a.log + [e], returnCode := 1)
    ensures ProcessPerson(a, t) == a.(processed := {}, returnCode := 1, log := a.log + [e, UnprocessedMarker(z.vidop), Unprocessed(z.tabn, z.vidop)])
  {
    var v := a.(processed := {}, log := a.log + [e], returnCode := 1);
    PersonOf(a, t, v);
    ControlOfLone(v, z);
    assert (a.log + [e]) + [UnprocessedMarker(z.vidop), Unprocessed(z.tabn, z.vidop)] == a.log + [e, UnprocessedMarker(z.vidop), Unprocessed(z.tabn, z.vidop)];
  }

  /** After the loop, a lone zero row with nothing processed gets no
      statement and both warning lines. */
  lemma ControlOfLone(v: EngineState, z: Row)
    requires v.group == [z] && z.summa == Zero && v.processed == {}
    ensures Coverage(v.(sql := v.sql + SqlFor(v.group))) == v.(log := v.log + [UnprocessedMarker(z.vidop), Unprocessed(z.tabn, z.vidop)], returnCode := 1)
  {
    UnprocessedAlone(z, {});
    assert v.sql + [] == v.sql;
  }

  /** A lone row with a zero sum and an unprocessed code gets no statement
      and both warning lines. */
  lemma UnprocessedAlone(z: Row, processed: set<string>)
    requires z.summa == Zero && z.vidop !in processed
    ensures SqlFor([z]) == [] && Uncovered([z], processed) == [UnprocessedMarker(z.vidop), Unprocessed(z.tabn, z.vidop)]
  {
    assert DropLast([z]) == [] && Last([z]) == z;
  }

  lemma LoneVidops(a: EngineState, s: Row)
    requires a.group == [s] && !a.aborted && s.vidop == "305"
    ensures ProcessVidops(a, CommonTable)
         == a.(processed := {}, log := a.log + [NoPrimary(s.tabn, "305", s.datan, s.datok, Ps18)], returnCode := 1)
  {
    var a0 := a.(processed := {});
    CommonMatch305();
    assert FindLinear([s], Ps18, s.datan, s.datok) == [] by {
      assert [s] == [] + [s];
      FindSnoc([], s, Ps18, s.datan, s.datok);
      Ps18Counts();
      HitNone(s, 0, Ps18, s.datan, s.datok);
    }
    StepVia(a0, CommonTable, s, 0, Ps18);
    NoneFound(a0, s, Ps18);
    ProcessFromUnfold(a0, CommonTable, 0);
  }

  /** An 18 and a 48 of the same period both qualify for a 305: the lookup
      is ambiguous, the error is logged, nothing is written and the return
      code becomes 1 (test_ambiguous_primary_for_single_secondary_sets_error). */
  lemma TwoCandidatesAreAmbiguous(p: Row, q: Row, s: Row)
    requires p.vidop == "18" && q.vidop == "48" && s.vidop == "305"
    requires p.datan == q.datan == s.datan && p.datok == q.datok == s.datok
    ensures FindLinear([p, q, s], Ps18, s.datan, s.datok) == [0, 1]
    ensures var a := Fresh.(group := [p, q, s]);
      UpdateRow(a, s, Ps18) == a.(log := [ManyPrimaries(s.tabn, "305", s.datan, s.datok, Ps18)], returnCode := 1)
  {
    TwoPrimariesFound(p, q, s);
    var a := Fresh.(group := [p, q, s]);
    assert |FindLinear(a.group, Ps18, s.datan, s.datok)| == 2;
    assert a.log + [ManyPrimaries(s.tabn, "305", s.datan, s.datok, Ps18)] == [ManyPrimaries(s.tabn, "305", s.datan, s.datok, Ps18)];
  }

  lemma TwoPrimariesFound(p: Row, q: Row, s: Row)
    requires p.vidop == "18" && q.vidop == "48" && s.vidop == "305"
    requires p.datan == q.datan == s.datan && p.datok == q.datok == s.datok
    ensures FindLinear([p, q, s], Ps18, s.datan, s.datok) == [0, 1]
  {
    var d, e := s.datan, s.datok;
    Ps18Counts();
    BothListed(p, q, Ps18, d, e);
    assert [p, q, s] == [p, q] + [s];
    FindSnoc([p, q], s, Ps18, d, e);
    HitNone(s, 2, Ps18, d, e);
  }

  /** Two rows of the period whose codes are listed once are both found. */
  lemma BothListed(p: Row, q: Row, ps: seq<string>, d: string, e: string)
    requires p.datan == q.datan == d && p.datok == q.datok == e
    requires multiset(ps)[p.vidop] == 1 && multiset(ps)[q.vidop] == 1
    ensures FindLinear([p, q], ps, d, e) == [0, 1]
  {
    assert [p, q] == [p] + [q] && [p] == [] + [p];
    FindSnoc([], p, ps, d, e);
    HitOnce(p, 0, ps, d, e);
    FindSnoc([p], q, ps, d, e);
    HitOnce(q, 1, ps, d, e);
  }

  // ------------------------------------------------------------ 303 and 304 in SRC/otpusk.py

  /** As written: with the table of SRC/otpusk.py a 303 only ever looks for
      a 106, so an employee whose primary is 104 gets the not-found error
      and the amount is lost. */
  lemma Otpusk303MissesPrimary104(a: EngineState, p: Row, s: Row)
    requires a.group == [p, s] && p.vidop == "104" && s.vidop == "303"
    requires s.datan == p.datan && s.datok == p.datok
    ensures Step(a, OtpuskTable, s) == a.(log := a.log + [NoPrimary(s.tabn, "303", s.datan, s.datok, ["106"])], returnCode := 1)
  {
    OtpuskMatch303();
    StepVia(a, OtpuskTable, s, 5, ["106"]);
    assert "104" !in ["106"] && "303" !in ["106"];
    FindNoneOfPair(p, s, ["106"]);
    NoneFound(a, s, ["106"]);
  }

  lemma OtpuskMatch303()
    ensures FirstMatch(OtpuskTable, "303") == Some(5) && ToTuple(OtpuskTable[5].primary) == ["106"]
  {
    OtpuskTableFirstWins("303");
  }

  const Ps106: seq<string> := ["106", "104", "110", "112"]

  lemma CommonMatch303()
    ensures FirstMatch(CommonTable, "303") == Some(5) && ToTuple(CommonTable[5].primary) == Ps106
  {
    var t := CommonTable;
    assert forall k :: 0 <= k < 5 ==> "303" !in ToTuple(t[k].secondary);
    FirstMatchIsFirst(t, "303", 5);
  }

  lemma FindTheHundredFour(p: Row, s: Row)
    requires p.vidop == "104" && s.vidop == "303" && s.datan == p.datan && s.datok == p.datok
    ensures FindLinear([p, s], Ps106, s.datan, s.datok) == [0]
  {
    assert multiset(Ps106)["104"] == 1 && "303" !in Ps106;
    FindPrimaryOfPair(p, s, Ps106);
  }

  /** Corrected: in the merged table of SRC/common.py, 303 resolves to the
      one mapping listing 106, 104, 110 and 112, so the same employee's 104
      receives the amount. */
  lemma Common303ReachesPrimary104(a: EngineState, p: Row, s: Row)
    requires a.group == [p, s] && p.vidop == "104" && s.vidop == "303"
    requires s.datan == p.datan && s.datok == p.datok
    requires SumStr(p.summa, s.summaval).Some?
    ensures Step(a, CommonTable, s)
         == a.(processed := a.processed + {"104", "303"}, group := [p.(summa := SumStr(p.summa, s.summaval).value), s])
  {
    CommonMatch303();
    StepVia(a, CommonTable, s, 5, Ps106);
    FindTheHundredFour(p, s);
    OneFound(a, s, Ps106, 0);
    AddedIntoFirst(a, p, s, SumStr(p.summa, s.summaval).value);
  }

  // ------------------------------------------------------------ test_bad_sum

  /** test_bad_sum: the secondary carries the amount "3t14". The handling
      the test expects logs the diagnostic and stops the run; as the code
      stands, the run stops with nothing logged. */
  lemma BadSumGoesUnlogged(s: EngineState, j: nat, sec: Row)
    requires j < |s.group| && sec.summaval == "3t14"
    ensures UpdatePrimaryAsWritten(s, j, sec).aborted && UpdatePrimaryAsWritten(s, j, sec).log == s.log
    ensures UpdatePrimary(s, j, sec).aborted
    ensures UpdatePrimary(s, j, sec).log == s.log + [SumNotNumeric(sec.tabn, s.group[j].vidop, s.group[j].summa, "3t14")]
  {
    SumStrRejectsBadAmount(s.group[j].summa);
  }
}

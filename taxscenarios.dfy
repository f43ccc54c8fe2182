/**
  The cases of TEST/test_uder.py, worked through the tax-checker model.
*/
module TaxScenarios {
  import opened Wrappers
  import opened Money
  import opened Grouping
  import opened TaxCheck

  // ------------------------------------------------------------ the amounts

  lemma ReadHundred()
    ensures Parse("100.00") == Some(Dec(false, 10000, -2))
  {
    assert Format(Dec(false, 10000, -2)) == "100.00";
    FormatRoundTrip(Dec(false, 10000, -2));
  }

  lemma ReadMinusNinety()
    ensures Parse("-90.00") == Some(Dec(true, 9000, -2))
  {
    assert Format(Dec(true, 9000, -2)) == "-90.00";
    FormatRoundTrip(Dec(true, 9000, -2));
  }

  /** The month total of the test: 0.00 + 100.00 == 100.00 ... */
  lemma MayFirstSum()
    ensures SumStr(Zero, "100.00") == Some("100.00")
  {
    assert Format(Dec(false, 10000, -2)) == "100.00";
    ZeroIsIdentity(Dec(false, 10000, -2));
  }

  lemma NinetyOffHundred()
    ensures Quantize(Add(Dec(false, 10000, -2), Dec(true, 9000, -2))) == Dec(false, 1000, -2)
  {
  }

  /** ... and 100.00 + -90.00 == 10.00. */
  lemma MaySecondSum()
    ensures SumStr("100.00", "-90.00") == Some("10.00")
  {
    ReadHundred();
    ReadMinusNinety();
    SumOf("100.00", "-90.00", Dec(false, 10000, -2), Dec(true, 9000, -2));
    NinetyOffHundred();
    PrintTen();
  }

  lemma PrintTen()
    ensures Format(Dec(false, 1000, -2)) == "10.00"
  {
    assert NatStr(1) == "1";
    assert NatStr(10) == "10";
    assert CentsText(1000) == "10" + ['.', '0', '0'];
  }

  // ------------------------------------------------------------ the months

  /** The cutoff of the tests: the default "6", normalised. */
  lemma Cutoff()
    ensures NormalizeMount(DefaultLastMount) == "06"
  {
  }

  lemma KeyOfMonth(u: Uder, mes: string, key: string)
    requires u.vidud in TaxCodes && NormalizeMount(mes) == key && u.mes == mes
    requires |key| == 2 && key[0] == '0' && '0' <= key[1] <= '6'
    ensures CreateGroupKey(u, "06") == Some(key)
  {
    LexLessPair(key, "06");
  }

  lemma NoKeyAfterCutoff(u: Uder)
    requires u.mes == "7"
    ensures CreateGroupKey(u, "06") == None
  {
    LexLessPair("06", "07");
  }

  lemma NoKeyForOtherCode(u: Uder)
    requires u.vidud == "999"
    ensures CreateGroupKey(u, "06") == None
  {
    assert u.vidud != TaxCodes[0] && u.vidud != TaxCodes[1];
  }

  lemma KeyedThree(us: seq<Uder>, a: Option<string>, b: Option<string>, c: Option<string>)
    requires |us| == 3
    requires CreateGroupKey(us[0], "06") == a && CreateGroupKey(us[1], "06") == b && CreateGroupKey(us[2], "06") == c
    ensures Keyed(us, "06") == KeyedPart(us[0], a) + KeyedPart(us[1], b) + KeyedPart(us[2], c)
  {
    var u0, u1, u2 := us[0], us[1], us[2];
    assert us == [u0, u1] + [u2];
    KeyedPair(u0, u1, a, b);
    KeyedStep([u0, u1], u2, c);
  }

  lemma KeyedPair(u0: Uder, u1: Uder, a: Option<string>, b: Option<string>)
    requires CreateGroupKey(u0, "06") == a && CreateGroupKey(u1, "06") == b
    ensures Keyed([u0, u1], "06") == KeyedPart(u0, a) + KeyedPart(u1, b)
  {
    assert [u0, u1] == [u0] + [u1];
    KeyedOne(u0, a);
    KeyedStep([u0], u1, b);
  }

  lemma KeyedOne(u0: Uder, a: Option<string>)
    requires CreateGroupKey(u0, "06") == a
    ensures Keyed([u0], "06") == KeyedPart(u0, a)
  {
    assert DropLast([u0]) == [] && Last([u0]) == u0;
    assert Keyed([], "06") == [];
  }

  /** What one row contributes: its keyed copy, or nothing. */
  function KeyedPart(u: Uder, k: Option<string>): seq<Grouped>
  {
    if k.Some? then [Grouped(u, k.value)] else []
  }

  /** One more row adds its keyed copy, or nothing. */
  lemma KeyedStep(p: seq<Uder>, u: Uder, k: Option<string>)
    requires CreateGroupKey(u, "06") == k
    ensures Keyed(p + [u], "06") == Keyed(p, "06") + KeyedPart(u, k)
  {
    assert DropLast(p + [u]) == p && Last(p + [u]) == u;
  }

  /** test_filter_sort_by_group: of a June deduction (13), an April one (182)
      and a May row of another code, the two tax rows remain, April first. */
  lemma FilterSortExample(us: seq<Uder>)
    requires |us| == 3
    requires us[0].mes == "6" && us[0].vidud == "13"
    requires us[1].mes == "4" && us[1].vidud == "182"
    requires us[2].mes == "5" && us[2].vidud == "999"
    ensures SortByMonth(Keyed(us, NormalizeMount(DefaultLastMount))) == [Grouped(us[1], "04"), Grouped(us[0], "06")]
  {
    Cutoff();
    KeyOfMonth(us[0], "6", "06");
    KeyOfMonth(us[1], "4", "04");
    NoKeyForOtherCode(us[2]);
    KeyedThree(us, Some("06"), Some("04"), None);
    var g0, g1 := Grouped(us[0], "06"), Grouped(us[1], "04");
    assert Keyed(us, "06") == [g0, g1];
    LexLessPair("04", "06");
    assert DropLast([g0, g1]) == [g0] && DropLast([g0]) == [];
    assert SortByMonth([g0]) == [g0];
    assert Insert([g0], g1) == Insert([], g1) + [g0];
  }

  // ------------------------------------------------------------ the month totals

  /** The two May amounts total 10.00. */
  lemma MayTotal(g1: Grouped, g2: Grouped)
    requires g1.uder.sumud == "100.00" && g2.uder.sumud == "-90.00"
    ensures Total([g1, g2]) == Some("10.00")
  {
    MayFirstSum();
    MaySecondSum();
    TotalPair(g1, g2, "100.00", "10.00");
  }

  lemma TotalPair(g1: Grouped, g2: Grouped, a: string, b: string)
    requires SumStr(Zero, g1.uder.sumud) == Some(a) && SumStr(a, g2.uder.sumud) == Some(b)
    ensures Total([g1, g2]) == Some(b)
  {
    assert Total([g1]) == Some(a) by {
      assert DropLast([g1]) == [] && Last([g1]) == g1;
    }
    assert DropLast([g1, g2]) == [g1] && Last([g1, g2]) == g2;
  }

  /** A month with a non-zero total is reported with its last row. */
  lemma CheckRunReports(t: TaxState, run: seq<Grouped>, sum: string)
    requires !t.aborted && run != [] && Total(run) == Some(sum) && sum != Zero
    ensures CheckRun(t, run) == t.(log := t.log + [Residual(Last(run).uder.tabn, Last(run).groupVidud, sum)])
  {
  }

  /** Two rows of one month stay in their order. */
  lemma MonthSorted(g1: Grouped, g2: Grouped)
    requires g1.groupVidud == g2.groupVidud
    ensures SortByMonth([g1, g2]) == [g1, g2]
  {
    LexLessIrreflexive(g1.groupVidud);
    assert DropLast([g1, g2]) == [g1] && Last([g1, g2]) == g2;
    assert DropLast([g1]) == [] && Last([g1]) == g1;
    assert SortByMonth([g1]) == Insert([], g1) == [g1];
    assert Insert([g1], g2) == [g1] + [g2];
  }

  lemma OneMonth(g1: Grouped, g2: Grouped)
    requires g1.groupVidud == g2.groupVidud
    ensures Runs([g1, g2], GroupOf) == [[g1, g2]]
  {
    RunsSnoc([], g1, GroupOf);
    assert [] + [g1] == [g1];
    RunsSnoc([g1], g2, GroupOf);
    assert Runs([g1], GroupOf) == [[g1]];
    assert Last([[g1]]) == [g1] && Last([g1]) == g1;
    assert DropLast([[g1]]) == [];
    assert [g1] + [g2] == [g1, g2];
  }

  lemma OneEmployee(us: seq<Uder>)
    requires |us| == 3 && us[0].clsch == us[1].clsch == us[2].clsch
    ensures Runs(us, ClschOf) == [us]
  {
    var p1, p2 := [us[0]], [us[0], us[1]];
    OneRow(us[0]);
    assert p1 + [us[1]] == p2 && p2 + [us[2]] == us;
    OneRunGrows(p1, us[1]);
    OneRunGrows(p2, us[2]);
  }

  lemma OneRow(u: Uder)
    ensures Runs([u], ClschOf) == [[u]]
  {
    RunsSnoc([], u, ClschOf);
    assert [] + [u] == [u];
  }

  /** A row of the same employee joins the one run. */
  lemma OneRunGrows(p: seq<Uder>, y: Uder)
    requires p != [] && Runs(p, ClschOf) == [p] && Last(p).clsch == y.clsch
    ensures Runs(p + [y], ClschOf) == [p + [y]]
  {
    RunsSnoc(p, y, ClschOf);
    assert Last([p]) == p && DropLast([p]) == [];
  }

  /** test_grouping_and_info_logged: one employee with 100.00 and -90.00
      of tax deducted in May (months "5" and "05") and 999.00 in July. July
      is after the cutoff and ignored; May is one month whose total 10.00
      is reported. */
  lemma GroupingExample(us: seq<Uder>)
    requires |us| == 3 && us[0].clsch == us[1].clsch == us[2].clsch
    requires us[0].mes == "5" && us[0].vidud == "13" && us[0].sumud == "100.00"
    requires us[1].mes == "05" && us[1].vidud == "13" && us[1].sumud == "-90.00"
    requires us[2].mes == "7" && us[2].vidud == "13"
    ensures TaxStartSpec(TaxState([], [], false), us, NormalizeMount(DefaultLastMount))
         == TaxState(us, [Residual(us[1].tabn, "05", "10.00")], false)
  {
    Cutoff();
    OneEmployee(us);
    var t := TaxState([], [], false);
    assert DropLast([us]) == [] && Last([us]) == us;
    assert TaxRuns(t, [], "06") == t;
    assert TaxRuns(t, [us], "06") == ProcessPersonSpec(t.(group := us), "06");
    MayEmployee(us);
  }

  /** processing_person for the employee of the test. */
  lemma MayEmployee(us: seq<Uder>)
    requires |us| == 3
    requires us[0].mes == "5" && us[0].vidud == "13" && us[0].sumud == "100.00"
    requires us[1].mes == "05" && us[1].vidud == "13" && us[1].sumud == "-90.00"
    requires us[2].mes == "7" && us[2].vidud == "13"
    ensures ProcessPersonSpec(TaxState(us, [], false), "06") == TaxState(us, [Residual(us[1].tabn, "05", "10.00")], false)
  {
    KeyOfMonth(us[0], "5", "05");
    KeyOfMonth(us[1], "05", "05");
    NoKeyAfterCutoff(us[2]);
    KeyedThree(us, Some("05"), Some("05"), None);
    var g1, g2 := Grouped(us[0], "05"), Grouped(us[1], "05");
    assert Keyed(us, "06") == [g1, g2];
    MonthSorted(g1, g2);
    OneMonth(g1, g2);
    var t := TaxState(us, [], false);
    MayTotal(g1, g2);
    assert "10.00"[0] != Zero[0];
    CheckRunReports(t, [g1, g2], "10.00");
    assert DropLast([[g1, g2]]) == [] && Last([[g1, g2]]) == [g1, g2];
    assert CheckRuns(t, [[g1, g2]]) == CheckRun(t, [g1, g2]);
  }
}

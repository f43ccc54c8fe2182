/**
  The tax-balance checker of SRC/uder.py; SRC/checkresult.py runs the same
  checking code through its own Common object and its own to_tuple. For every employee (a run of equal clsch) the income
  tax deductions (codes 13 and 182) of the months up to the cutoff are
  sorted by month, summed month by month with sum_str, and every month whose
  total is not 0.00 is reported.
*/
module TaxCheck {
  import opened Wrappers
  import opened Money
  import opened Grouping

  /** UderStructure: one deduction row, every field a string. */
  datatype Uder = Uder(
    nrec: string, tabn: string, mes: string, vidud: string, sumud: string,
    clsch: string, datav: string, vidoplud: string)

  /** UderGrouped: a deduction row with its month key group_vidud. */
  datatype Grouped = Grouped(uder: Uder, groupVidud: string)

  /** VIDOPS_OF_TAX */
  const TaxCodes: seq<string> := ["13", "182"]

  /** The default of the last_mount parameter. */
  const DefaultLastMount: string := "6"

  /** The report line of check_summa: tab number, month, residual. */
  datatype Residual = Residual(tabn: string, mount: string, summa: string)

  function ClschOf(u: Uder): string { u.clsch }

  function GroupOf(g: Grouped): string { g.groupVidud }

  // ------------------------------------------------------------ string order

  /** Python's < on str: lexicographic by code point, a proper prefix first. */
  function LexLess(a: string, b: string): bool
  {
    if b == [] then false
    else if a == [] then true
    else if a[0] != b[0] then a[0] < b[0]
    else LexLess(a[1..], b[1..])
  }

  lemma {:induction false} LexLessIrreflexive(a: string)
    ensures !LexLess(a, a)
    decreases |a|
  {
    if a != [] {
      LexLessIrreflexive(a[1..]);
    }
  }

  lemma {:induction false} LexLessTransitive(a: string, b: string, c: string)
    requires LexLess(a, b) && LexLess(b, c)
    ensures LexLess(a, c)
    decreases |a|
  {
    if a != [] && a[0] == b[0] && b[0] == c[0] {
      LexLessTransitive(a[1..], b[1..], c[1..]);
    }
  }

  /** Two different strings are ordered one way or the other, never both. */
  lemma {:induction false} LexLessTotal(a: string, b: string)
    ensures a != b <==> LexLess(a, b) || LexLess(b, a)
    ensures !(LexLess(a, b) && LexLess(b, a))
    decreases |a|
  {
    if a == [] || b == [] {
    } else if a[0] == b[0] {
      LexLessTotal(a[1..], b[1..]);
      assert a == [a[0]] + a[1..] && b == [b[0]] + b[1..];
    }
  }

  // ------------------------------------------------------------ months and keys

  /** normalize_mount: the month as two characters: "" becomes "00", one
      character is padded with a leading 0, longer text is cut to two. */
  function NormalizeMount(m: string): (r: string)
    ensures |r| == 2
    ensures |m| >= 2 ==> r == m[..2]
    ensures |m| < 2 ==> r == ['0', if |m| == 1 then m[0] else '0']
  {
    if |m| == 0 then "00"
    else if |m| == 1 then ("0" + m)[0..2]
    else m[0..2]
  }

  /** Normalising a normalised month changes nothing. */
  lemma NormalizeMountIdempotent(m: string)
    ensures NormalizeMount(NormalizeMount(m)) == NormalizeMount(m)
  {
  }

  /** On two-character strings the order compares the first characters,
      then the second. */
  lemma LexLessPair(x: string, y: string)
    requires |x| == 2 && |y| == 2
    ensures LexLess(x, y) <==> x[0] < y[0] || (x[0] == y[0] && x[1] < y[1])
  {
    var x', y' := x[1..], y[1..];
    assert x'[0] == x[1] && y'[0] == y[1] && |x'| == 1 && |y'| == 1;
    assert !LexLess(x'[1..], y'[1..]) by { assert y'[1..] == []; }
    assert LexLess(x', y') <==> x[1] < y[1];
  }

  /** For plain month numbers of one or two digits the string order of the
      normalised months is the numeric order. */
  lemma MonthOrderIsNumeric(a: string, b: string)
    requires IsDigits(a) && IsDigits(b) && |a| <= 2 && |b| <= 2
    ensures LexLess(NormalizeMount(a), NormalizeMount(b)) <==> DigitsValue(a) < DigitsValue(b)
  {
    var x, y := NormalizeMount(a), NormalizeMount(b);
    TwoDigits(a);
    TwoDigits(b);
    LexLessPair(x, y);
    DigitPairOrder(x[0], x[1], y[0], y[1]);
  }

  lemma DigitPairOrder(a0: char, a1: char, b0: char, b1: char)
    requires IsDigit(a0) && IsDigit(a1) && IsDigit(b0) && IsDigit(b1)
    ensures a0 < b0 || (a0 == b0 && a1 < b1) <==>
      10 * DigitValue(a0) + DigitValue(a1) < 10 * DigitValue(b0) + DigitValue(b1)
  {
  }

  /** A normalised one- or two-digit month is two digits with the same value. */
  lemma TwoDigits(a: string)
    requires IsDigits(a) && |a| <= 2
    ensures IsDigit(NormalizeMount(a)[0]) && IsDigit(NormalizeMount(a)[1])
    ensures DigitsValue(a) == 10 * DigitValue(NormalizeMount(a)[0]) + DigitValue(NormalizeMount(a)[1])
  {
    if |a| == 1 {
      assert a[..0] == [];
    } else {
      assert a[..1][..0] == [];
    }
  }

  lemma NormalizeMountExamples()
    ensures NormalizeMount("") == "00" && NormalizeMount("7") == "07"
    ensures NormalizeMount("11") == "11" && NormalizeMount("12XX") == "12"
  {
  }

  /** create_group_key: the normalised month, for a tax deduction of a month
      not after the (normalised) cutoff; no key otherwise. */
  function CreateGroupKey(u: Uder, lastMount: string): (r: Option<string>)
    ensures r.Some? ==> r.value == NormalizeMount(u.mes)
    ensures r.Some? <==> u.vidud in TaxCodes && (NormalizeMount(u.mes) == lastMount || LexLess(NormalizeMount(u.mes), lastMount))
  {
    LexLessTotal(NormalizeMount(u.mes), lastMount);
    var mount := NormalizeMount(u.mes);
    if u.vidud !in TaxCodes || LexLess(lastMount, mount) then None else Some(mount)
  }

  // ------------------------------------------------------------ filtering and sorting

  /** The filter loop of filter_sort_by_group: the rows that have a key,
      tagged with it, in their order. */
  function Keyed(us: seq<Uder>, lastMount: string): seq<Grouped>
  {
    if us == [] then []
    else
      Keyed(DropLast(us), lastMount)
        + match CreateGroupKey(Last(us), lastMount)
          case None => []
          case Some(k) => [Grouped(Last(us), k)]
  }

  /** Exactly the keyed rows are kept, each with its own key. */
  lemma {:induction false} KeyedSpec(us: seq<Uder>, lastMount: string, x: Grouped)
    ensures x in Keyed(us, lastMount) <==> x.uder in us && CreateGroupKey(x.uder, lastMount) == Some(x.groupVidud)
    decreases |us|
  {
    if us != [] {
      KeyedSpec(DropLast(us), lastMount, x);
      assert us == DropLast(us) + [Last(us)];
    }
  }

  /** Ascending by month, equal months in any order so far. */
  predicate Sorted(s: seq<Grouped>)
  {
    forall i, j :: 0 <= i < j < |s| ==> !LexLess(s[j].groupVidud, s[i].groupVidud)
  }

  /** The rows of month k, in order. */
  function OfMonth(s: seq<Grouped>, k: string): seq<Grouped>
  {
    if s == [] then [] else OfMonth(DropLast(s), k) + (if Last(s).groupVidud == k then [Last(s)] else [])
  }

  /** Insert x behind every element whose month is not after x's. */
  function Insert(s: seq<Grouped>, x: Grouped): seq<Grouped>
  {
    if s == [] || !LexLess(x.groupVidud, Last(s).groupVidud) then s + [x]
    else Insert(DropLast(s), x) + [Last(s)]
  }

  /** list.sort(key=group_vidud): Python's sort is stable, so it is the
      insertion sort that puts each row behind the rows of its month. */
  function SortByMonth(xs: seq<Grouped>): seq<Grouped>
  {
    if xs == [] then [] else Insert(SortByMonth(DropLast(xs)), Last(xs))
  }

  lemma {:induction false} InsertMultiset(s: seq<Grouped>, x: Grouped)
    ensures multiset(Insert(s, x)) == multiset(s) + multiset{x}
    decreases |s|
  {
    if !(s == [] || !LexLess(x.groupVidud, Last(s).groupVidud)) {
      InsertMultiset(DropLast(s), x);
      assert s == DropLast(s) + [Last(s)];
    }
  }

  /** Every element of a sorted sequence is not after its last one. */
  lemma SortedBelowLast(s: seq<Grouped>, i: nat)
    requires Sorted(s) && i < |s|
    ensures !LexLess(Last(s).groupVidud, s[i].groupVidud)
  {
    if i < |s| - 1 {
      assert !LexLess(s[|s| - 1].groupVidud, s[i].groupVidud);
    } else {
      LexLessIrreflexive(s[i].groupVidud);
    }
  }

  lemma {:induction false} InsertSorted(s: seq<Grouped>, x: Grouped)
    requires Sorted(s)
    ensures Sorted(Insert(s, x))
    decreases |s|
  {
    if s == [] || !LexLess(x.groupVidud, Last(s).groupVidud) {
      forall i | 0 <= i < |s| ensures !LexLess(x.groupVidud, s[i].groupVidud) {
        SortedBelowLast(s, i);
        if LexLess(x.groupVidud, s[i].groupVidud) {
          LexLessTotal(s[i].groupVidud, Last(s).groupVidud);
          if s[i].groupVidud != Last(s).groupVidud {
            LexLessTransitive(x.groupVidud, s[i].groupVidud, Last(s).groupVidud);
          }
        }
      }
      var r := s + [x];
      forall i, j | 0 <= i < j < |r| ensures !LexLess(r[j].groupVidud, r[i].groupVidud) {
        if j < |s| { assert r[i] == s[i] && r[j] == s[j]; }
      }
    } else {
      var p, l := DropLast(s), Last(s);
      InsertSorted(p, x);
      InsertMultiset(p, x);
      var q := Insert(p, x);
      forall i | 0 <= i < |q| ensures !LexLess(l.groupVidud, q[i].groupVidud) {
        assert q[i] in multiset(q);
        if q[i] == x {
          LexLessTotal(x.groupVidud, l.groupVidud);
        } else {
          assert q[i] in multiset(p);
          var a :| 0 <= a < |p| && p[a] == q[i];
          SortedBelowLast(s, a);
        }
      }
      var r := q + [l];
      forall i, j | 0 <= i < j < |r| ensures !LexLess(r[j].groupVidud, r[i].groupVidud) {
        if j < |q| { assert r[i] == q[i] && r[j] == q[j]; }
      }
    }
  }

  lemma {:induction false} InsertOfMonth(s: seq<Grouped>, x: Grouped, k: string)
    requires Sorted(s)
    ensures OfMonth(Insert(s, x), k) == OfMonth(s, k) + (if x.groupVidud == k then [x] else [])
    decreases |s|
  {
    if s == [] || !LexLess(x.groupVidud, Last(s).groupVidud) {
      assert DropLast(s + [x]) == s;
    } else {
      var p, l := DropLast(s), Last(s);
      assert s == p + [l];
      InsertOfMonth(p, x, k);
      var q := Insert(p, x);
      assert DropLast(q + [l]) == q;
      LexLessIrreflexive(x.groupVidud);
    }
  }

  /** The sort is stable: the result is ascending by month, holds the same
      rows, and keeps the rows of every month in their input order. */
  lemma {:induction false} SortByMonthSpec(xs: seq<Grouped>)
    ensures Sorted(SortByMonth(xs))
    ensures multiset(SortByMonth(xs)) == multiset(xs)
    ensures forall k :: OfMonth(SortByMonth(xs), k) == OfMonth(xs, k)
    decreases |xs|
  {
    if xs != [] {
      var p := DropLast(xs);
      SortByMonthSpec(p);
      InsertSorted(SortByMonth(p), Last(xs));
      InsertMultiset(SortByMonth(p), Last(xs));
      forall k ensures OfMonth(SortByMonth(xs), k) == OfMonth(xs, k) {
        InsertOfMonth(SortByMonth(p), Last(xs), k);
      }
      assert xs == p + [Last(xs)];
    }
  }

  // ------------------------------------------------------------ the month totals

  /** The running sum of validate_person_groups over one month: sum_str
      folded from 0.00 in row order; None once an amount is not a number
      (sum_str raises). */
  function Total(run: seq<Grouped>): Option<string>
  {
    if run == [] then Some(Zero)
    else match Total(DropLast(run))
      case None => None
      case Some(t) => SumStr(t, Last(run).uder.sumud)
  }

  /** The checker's state: the current employee's rows, the residuals
      reported, and whether a failed sum stopped the run (sum_str raising
      out of start). */
  datatype TaxState = TaxState(group: seq<Uder>, log: seq<Residual>, aborted: bool)

  /** check_summa for a finished month: report its total unless it is
      0.00, with the tab number and month of its last row. */
  function CheckRun(t: TaxState, run: seq<Grouped>): TaxState
  {
    if t.aborted || run == [] then t
    else match Total(run)
      case None => t.(aborted := true)
      case Some(sum) => if sum != Zero then t.(log := t.log + [Residual(Last(run).uder.tabn, Last(run).groupVidud, sum)]) else t
  }

  function CheckRuns(t: TaxState, rs: seq<seq<Grouped>>): TaxState
  {
    if rs == [] then t else CheckRun(CheckRuns(t, DropLast(rs)), Last(rs))
  }

  /** validate_person_groups: every month of the sorted rows, once. */
  function ValidateSpec(t: TaxState, f: seq<Grouped>): TaxState
  {
    CheckRuns(t, Runs(f, GroupOf))
  }

  /** processing_person: filter, sort, validate. */
  function ProcessPersonSpec(t: TaxState, lastMount: string): TaxState
  {
    ValidateSpec(t, SortByMonth(Keyed(t.group, lastMount)))
  }

  /** The employees of start, in order. */
  function TaxRuns(t: TaxState, rs: seq<seq<Uder>>, lastMount: string): TaxState
  {
    if rs == [] then t
    else
      var u := TaxRuns(t, DropLast(rs), lastMount);
      if u.aborted then u else ProcessPersonSpec(u.(group := Last(rs)), lastMount)
  }

  function TaxStartSpec(t: TaxState, rows: seq<Uder>, lastMount: string): TaxState
  {
    TaxRuns(t, Runs(rows, ClschOf), lastMount)
  }

  // ------------------------------------------------------------ properties of the checks

  /** The residuals only grow and the rows are not touched. */
  lemma {:induction false} CheckRunsGrows(t: TaxState, rs: seq<seq<Grouped>>)
    ensures t.log <= CheckRuns(t, rs).log && CheckRuns(t, rs).group == t.group
    ensures t.aborted ==> CheckRuns(t, rs) == t
    decreases |rs|
  {
    if rs != [] {
      CheckRunsGrows(t, DropLast(rs));
    }
  }

  /** Every residual reported is a month total that is not 0.00, of one of
      the months checked. */
  lemma {:induction false} CheckRunsReportsNonZero(t: TaxState, rs: seq<seq<Grouped>>, k: nat)
    requires |t.log| <= k < |CheckRuns(t, rs).log|
    ensures CheckRuns(t, rs).log[k].summa != Zero
    ensures exists i ::
      0 <= i < |rs| && |rs[i]| > 0 && Total(rs[i]) == Some(CheckRuns(t, rs).log[k].summa) && Last(rs[i]).groupVidud == CheckRuns(t, rs).log[k].mount
    decreases |rs|
  {
    var u := CheckRuns(t, DropLast(rs));
    CheckRunsGrows(t, DropLast(rs));
    CheckRunKeeps(u, Last(rs));
    if k < |u.log| {
      CheckRunsReportsNonZero(t, DropLast(rs), k);
      var i :|
        0 <= i < |DropLast(rs)| && |DropLast(rs)[i]| > 0 && Total(DropLast(rs)[i]) == Some(u.log[k].summa) && Last(DropLast(rs)[i]).groupVidud == u.log[k].mount;
      assert rs[i] == DropLast(rs)[i];
      assert CheckRuns(t, rs).log[k] == u.log[k];
    } else {
      CheckRunLogs(u, Last(rs), k);
      assert rs[|rs| - 1] == Last(rs);
    }
  }

  /** Checking one month only appends to the log. */
  lemma CheckRunKeeps(u: TaxState, run: seq<Grouped>)
    ensures u.log <= CheckRun(u, run).log
  {
  }

  /** What checking one month appends is its non-zero total. */
  lemma CheckRunLogs(u: TaxState, run: seq<Grouped>, k: nat)
    requires |u.log| <= k < |CheckRun(u, run).log|
    ensures var e := CheckRun(u, run).log[k];
      e.summa != Zero && |run| > 0 && Total(run) == Some(e.summa) && Last(run).groupVidud == e.mount
  {
  }

  /** The runs are non-empty and their months ascend strictly. */
  ghost predicate MonthsAscend(rs: seq<seq<Grouped>>)
  {
    forall i, j :: 0 <= i < j < |rs| ==> |rs[i]| > 0 && |rs[j]| > 0 && LexLess(rs[i][0].groupVidud, rs[j][0].groupVidud)
  }

  /** Sorted rows have one run per month, the months strictly ascending: each
      month is checked exactly once. */
  lemma {:induction false} SortedRunsAscend(f: seq<Grouped>)
    requires Sorted(f)
    ensures MonthsAscend(Runs(f, GroupOf))
    decreases |f|
  {
    if f != [] {
      var p, x := DropLast(f), Last(f);
      assert f == p + [x];
      assert Sorted(p);
      SortedRunsAscend(p);
      RunsSnoc(p, x, GroupOf);
      var rs := Runs(p, GroupOf);
      if |rs| > 0 && |Last(rs)| > 0 && GroupOf(Last(Last(rs))) == GroupOf(x) {
        SameRunAscends(rs, x);
      } else {
        NewRunAscends(p, x);
      }
    }
  }

  /** x joins the last run: the first rows of the runs stay as they were. */
  lemma SameRunAscends(rs: seq<seq<Grouped>>, x: Grouped)
    requires MonthsAscend(rs) && |rs| > 0 && |Last(rs)| > 0
    ensures MonthsAscend(DropLast(rs) + [Last(rs) + [x]])
  {
    var rs': seq<seq<Grouped>> := DropLast(rs) + [Last(rs) + [x]];
    forall i, j | 0 <= i < j < |rs'| ensures |rs'[i]| > 0 && |rs'[j]| > 0 && LexLess(rs'[i][0].groupVidud, rs'[j][0].groupVidud) {
      assert rs'[i][0] == rs[i][0] && rs'[j][0] == rs[j][0];
    }
  }

  /** x opens a new run, later than all the runs before it. */
  lemma NewRunAscends(p: seq<Grouped>, x: Grouped)
    requires Sorted(p + [x]) && MonthsAscend(Runs(p, GroupOf))
    requires var rs := Runs(p, GroupOf); !(|rs| > 0 && |Last(rs)| > 0 && GroupOf(Last(Last(rs))) == GroupOf(x))
    ensures MonthsAscend(Runs(p, GroupOf) + [[x]])
  {
    var rs := Runs(p, GroupOf);
    var rs': seq<seq<Grouped>> := rs + [[x]];
    RunsShape(p, GroupOf);
    forall i, j | 0 <= i < j < |rs'| ensures |rs'[i]| > 0 && |rs'[j]| > 0 && LexLess(rs'[i][0].groupVidud, rs'[j][0].groupVidud) {
      if j == |rs| {
        RunFirstIsBefore(p, i);
        NewRunIsLater(p, x, i);
      } else {
        assert rs'[i] == rs[i] && rs'[j] == rs[j];
      }
    }
  }

  /** A run that x starts after the runs of p has a later month than all
      of them. */
  lemma NewRunIsLater(p: seq<Grouped>, x: Grouped, i: nat)
    requires Sorted(p + [x]) && p != []
    requires i < |Runs(p, GroupOf)| && |Runs(p, GroupOf)[i]| > 0
    requires Last(Last(Runs(p, GroupOf))).groupVidud != x.groupVidud
    requires MonthsAscend(Runs(p, GroupOf))
    ensures LexLess(Runs(p, GroupOf)[i][0].groupVidud, x.groupVidud)
  {
    var f, rs := p + [x], Runs(p, GroupOf);
    RunsShape(p, GroupOf);
    // rs[i][0] lies in p, before x; the last run of rs already ends before x
    RunFirstIsBefore(p, i);
    var a :| 0 <= a < |p| && p[a] == rs[i][0];
    assert f[a] == p[a] && f[|f| - 1] == x;
    assert !LexLess(x.groupVidud, rs[i][0].groupVidud);
    var b := |p| - 1;
    assert f[b] == Last(Last(rs));
    assert !LexLess(x.groupVidud, f[b].groupVidud);
    LexLessTotal(Last(Last(rs)).groupVidud, x.groupVidud);
    if i < |rs| - 1 {
      // months ascend up to the last run, whose month is not x's
      RunFirstIsBefore(p, |rs| - 1);
      assert Uniform(rs[|rs| - 1], GroupOf);
      assert LexLess(rs[i][0].groupVidud, rs[|rs| - 1][0].groupVidud);
      LexLessTotal(rs[|rs| - 1][0].groupVidud, x.groupVidud);
    }
    LexLessTotal(rs[i][0].groupVidud, x.groupVidud);
  }

  /** The first row of every run is a row of the input. */
  lemma RunFirstIsBefore(p: seq<Grouped>, i: nat)
    requires i < |Runs(p, GroupOf)|
    ensures |Runs(p, GroupOf)[i]| > 0 && Runs(p, GroupOf)[i][0] in p
  {
    RunsShape(p, GroupOf);
    RunsFlatten(p, GroupOf);
    FlattenContains(Runs(p, GroupOf), i, 0);
  }

  // ------------------------------------------------------------ the month loop

  lemma TotalSnoc(run: seq<Grouped>, x: Grouped)
    ensures Total(run + [x]) == match Total(run) case None => None case Some(t) => SumStr(t, x.uder.sumud)
  {
    assert DropLast(run + [x]) == run;
  }

  /** What validate_person_groups has reported before row i: the months
      finished so far. */
  function VPending(t0: TaxState, f: seq<Grouped>, i: nat): TaxState
    requires 0 < i <= |f|
  {
    RunsShape(f[..i], GroupOf);
    CheckRuns(t0, DropLast(Runs(f[..i], GroupOf)))
  }

  /** The month being summed when row i comes: the last run so far. */
  function Current(f: seq<Grouped>, i: nat): seq<Grouped>
    requires 0 < i <= |f|
  {
    RunsShape(f[..i], GroupOf);
    Last(Runs(f[..i], GroupOf))
  }

  lemma CurrentEndsBefore(t0: TaxState, f: seq<Grouped>, i: nat)
    requires 0 < i <= |f|
    ensures |Current(f, i)| > 0 && Last(Current(f, i)) == f[i - 1]
    ensures CheckRuns(t0, Runs(f[..i], GroupOf)) == CheckRun(VPending(t0, f, i), Current(f, i))
  {
    RunsShape(f[..i], GroupOf);
  }

  lemma VFirst(t0: TaxState, f: seq<Grouped>)
    requires 0 < |f|
    ensures VPending(t0, f, 1) == t0 && Current(f, 1) == [f[0]]
  {
    assert f[..1] == [] + [f[0]];
    RunsSnoc([], f[0], GroupOf);
  }

  lemma VSameKey(t0: TaxState, f: seq<Grouped>, i: nat)
    requires 0 < i < |f| && f[i].groupVidud == f[i - 1].groupVidud
    ensures VPending(t0, f, i + 1) == VPending(t0, f, i)
    ensures Current(f, i + 1) == Current(f, i) + [f[i]]
  {
    var p := f[..i];
    assert f[..i + 1] == p + [f[i]];
    RunsSnoc(p, f[i], GroupOf);
    RunsShape(p, GroupOf);
  }

  lemma VNewKey(t0: TaxState, f: seq<Grouped>, i: nat)
    requires 0 < i < |f| && f[i].groupVidud != f[i - 1].groupVidud
    ensures VPending(t0, f, i + 1) == CheckRun(VPending(t0, f, i), Current(f, i))
    ensures Current(f, i + 1) == [f[i]]
  {
    var p := f[..i];
    assert f[..i + 1] == p + [f[i]];
    RunsSnoc(p, f[i], GroupOf);
    RunsShape(p, GroupOf);
    var rs := Runs(p, GroupOf);
    assert DropLast(rs + [[f[i]]]) == rs;
  }

  /** Once a sum has failed, further rows change nothing. */
  lemma CheckRunsExtendAborted(t: TaxState, rs: seq<seq<Grouped>>, x: Grouped)
    requires CheckRuns(t, rs).aborted
    ensures CheckRuns(t, Extend(rs, x, GroupOf)) == CheckRuns(t, rs)
  {
    if |rs| > 0 && |Last(rs)| > 0 && GroupOf(Last(Last(rs))) == GroupOf(x) {
      var l := Last(rs);
      var rs' := DropLast(rs) + [l + [x]];
      assert DropLast(rs') == DropLast(rs) && Last(rs') == l + [x];
      TotalSnoc(l, x);
    } else {
      assert DropLast(rs + [[x]]) == rs;
    }
  }

  lemma {:induction false} VAbortStays(t0: TaxState, f: seq<Grouped>, i: nat)
    requires i <= |f| && CheckRuns(t0, Runs(f[..i], GroupOf)).aborted
    ensures ValidateSpec(t0, f) == CheckRuns(t0, Runs(f[..i], GroupOf))
    decreases |f| - i
  {
    if i < |f| {
      assert f[..i + 1] == f[..i] + [f[i]];
      RunsSnoc(f[..i], f[i], GroupOf);
      CheckRunsExtendAborted(t0, Runs(f[..i], GroupOf), f[i]);
      VAbortStays(t0, f, i + 1);
    } else {
      assert f[..i] == f;
    }
  }

  // ------------------------------------------------------------ the employee loop

  function TaxPending(t0: TaxState, z: seq<Uder>, i: nat, lastMount: string): TaxState
    requires 0 < i <= |z|
  {
    RunsShape(z[..i], ClschOf);
    TaxRuns(t0, DropLast(Runs(z[..i], ClschOf)), lastMount).(group := Last(Runs(z[..i], ClschOf)))
  }

  function TaxCollected(t0: TaxState, z: seq<Uder>, i: nat, lastMount: string): TaxState
    requires i <= |z|
  {
    if i == 0 then t0 else TaxPending(t0, z, i, lastMount)
  }

  lemma TaxPendingFirst(t0: TaxState, z: seq<Uder>, lastMount: string)
    requires |z| > 0
    ensures TaxPending(t0, z, 1, lastMount) == t0.(group := [z[0]])
  {
    assert z[..1] == [] + [z[0]];
    RunsSnoc([], z[0], ClschOf);
  }

  lemma TaxPendingSameKey(t0: TaxState, z: seq<Uder>, i: nat, lastMount: string)
    requires 0 < i < |z| && z[i].clsch == z[i - 1].clsch
    ensures TaxPending(t0, z, i + 1, lastMount)
         == TaxPending(t0, z, i, lastMount).(group := TaxPending(t0, z, i, lastMount).group + [z[i]])
  {
    var p := z[..i];
    assert z[..i + 1] == p + [z[i]];
    RunsSnoc(p, z[i], ClschOf);
    RunsShape(p, ClschOf);
  }

  lemma TaxPendingNewKey(t0: TaxState, z: seq<Uder>, i: nat, lastMount: string)
    requires 0 < i < |z| && z[i].clsch != z[i - 1].clsch
    requires !TaxPending(t0, z, i, lastMount).aborted
    ensures TaxPending(t0, z, i + 1, lastMount)
         == ProcessPersonSpec(TaxPending(t0, z, i, lastMount), lastMount).(group := [z[i]])
  {
    var p := z[..i];
    assert z[..i + 1] == p + [z[i]];
    RunsSnoc(p, z[i], ClschOf);
    RunsShape(p, ClschOf);
    var rs := Runs(p, ClschOf);
    assert DropLast(rs + [[z[i]]]) == rs;
  }

  lemma TaxPendingProcessed(t0: TaxState, z: seq<Uder>, i: nat, lastMount: string)
    requires 0 < i <= |z|
    requires !TaxPending(t0, z, i, lastMount).aborted
    ensures ProcessPersonSpec(TaxPending(t0, z, i, lastMount), lastMount) == TaxRuns(t0, Runs(z[..i], ClschOf), lastMount)
  {
    RunsShape(z[..i], ClschOf);
  }

  lemma {:induction false} TaxAbortedStays(t: TaxState, rs: seq<seq<Uder>>, lastMount: string)
    requires t.aborted
    ensures TaxRuns(t, rs, lastMount) == t
    decreases |rs|
  {
    if rs != [] {
      TaxAbortedStays(t, DropLast(rs), lastMount);
    }
  }

  /** Checking the employees of a + b is checking those of a, then those of b. */
  lemma {:induction false} TaxRunsAppend(t: TaxState, a: seq<seq<Uder>>, b: seq<seq<Uder>>, lastMount: string)
    ensures TaxRuns(t, a + b, lastMount) == TaxRuns(TaxRuns(t, a, lastMount), b, lastMount)
    decreases |b|
  {
    if b == [] {
      assert a + b == a;
    } else {
      assert DropLast(a + b) == a + DropLast(b);
      assert Last(a + b) == Last(b);
      TaxRunsAppend(t, a, DropLast(b), lastMount);
    }
  }

  lemma TaxPendingAborts(t0: TaxState, z: seq<Uder>, i: nat, lastMount: string)
    requires 0 < i < |z| && z[i].clsch != z[i - 1].clsch
    requires TaxRuns(t0, Runs(z[..i], ClschOf), lastMount).aborted
    ensures TaxStartSpec(t0, z, lastMount) == TaxRuns(t0, Runs(z[..i], ClschOf), lastMount)
  {
    var p, q := z[..i], z[i..];
    assert z == p + q && Last(p) == z[i - 1] && q[0] == z[i];
    RunsAppend(p, q, ClschOf);
    TaxRunsAppend(t0, Runs(p, ClschOf), Runs(q, ClschOf), lastMount);
    TaxAbortedStays(TaxRuns(t0, Runs(p, ClschOf), lastMount), Runs(q, ClschOf), lastMount);
  }

  // ------------------------------------------------------------ the class

  /** Uder (SRC/uder.py) and CheckResult (SRC/checkresult.py). */
  class TaxChecker {
    /** person_uders */
    var personUders: seq<Uder>
    var log: seq<Residual>
    var aborted: bool
    /** normalize_last_mount */
    const normalizeLastMount: string

    ghost function State(): TaxState
      reads this
    {
      TaxState(personUders, log, aborted)
    }

    /** The constructor with the cutoff read from the configuration
        (_normalize_data). */
    constructor(lastMount: string)
      ensures normalizeLastMount == NormalizeMount(lastMount)
      ensures State() == TaxState([], [], false)
    {
      normalizeLastMount := NormalizeMount(lastMount);
      personUders, log, aborted := [], [], false;
    }

    /** start */
    method Start(rows: seq<Uder>)
      requires personUders == [] && !aborted
      modifies this
      ensures State() == TaxStartSpec(old(State()), rows, normalizeLastMount)
    {
      ghost var t0 := State();
      var current: Option<string> := None;
      var i := 0;
      while i < |rows|
        invariant 0 <= i <= |rows|
        invariant i == 0 <==> current == None
        invariant i > 0 ==> current == Some(rows[i - 1].clsch)
        invariant State() == TaxCollected(t0, rows, i, normalizeLastMount)
        invariant !aborted
      {
        var stop;
        current, stop := ReadRow(rows, current, t0, i);
        if stop {
          return;
        }
        i := i + 1;
      }
      ProcessingPerson();
      if i > 0 {
        TaxPendingProcessed(t0, rows, i, normalizeLastMount);
        assert rows[..i] == rows;
      } else {
        assert ValidateSpec(t0, SortByMonth(Keyed([], normalizeLastMount))) == t0;
      }
    }

    /** The body of the start loop for row i. */
    method ReadRow(rows: seq<Uder>, current: Option<string>, ghost t0: TaxState, i: nat)
      returns (next: Option<string>, stop: bool)
      requires i < |rows| && t0.group == []
      requires i == 0 <==> current == None
      requires i > 0 ==> current == Some(rows[i - 1].clsch)
      requires State() == TaxCollected(t0, rows, i, normalizeLastMount) && !aborted
      modifies this
      ensures stop ==> State() == TaxStartSpec(t0, rows, normalizeLastMount)
      ensures !stop ==> next == Some(rows[i].clsch) && State() == TaxCollected(t0, rows, i + 1, normalizeLastMount) && !aborted
    {
      var row := rows[i];
      next, stop := current, false;
      if next == None {
        next := Some(row.clsch);
      }
      if next != Some(row.clsch) {
        ProcessingPerson();
        if aborted {
          TaxPendingProcessed(t0, rows, i, normalizeLastMount);
          TaxPendingAborts(t0, rows, i, normalizeLastMount);
          return next, true;
        }
        TaxPendingNewKey(t0, rows, i, normalizeLastMount);
        personUders := [];
        next := Some(row.clsch);
      } else if i > 0 {
        TaxPendingSameKey(t0, rows, i, normalizeLastMount);
      } else {
        TaxPendingFirst(t0, rows, normalizeLastMount);
      }
      personUders := personUders + [row];
    }

    /** processing_person */
    method ProcessingPerson()
      requires !aborted
      modifies this
      ensures State() == ProcessPersonSpec(old(State()), normalizeLastMount)
    {
      var filtered := FilterSortByGroup();
      ValidatePersonGroups(filtered);
    }

    /** filter_sort_by_group: the keyed rows, stably sorted by month. */
    method FilterSortByGroup() returns (f: seq<Grouped>)
      ensures f == SortByMonth(Keyed(personUders, normalizeLastMount))
      ensures Sorted(f)
      ensures forall x :: x in f <==> x.uder in personUders && CreateGroupKey(x.uder, normalizeLastMount) == Some(x.groupVidud)
    {
      var filtered := [];
      for i := 0 to |personUders|
        invariant filtered == Keyed(personUders[..i], normalizeLastMount)
      {
        assert DropLast(personUders[..i + 1]) == personUders[..i];
        var key := CreateGroupKey(personUders[i], normalizeLastMount);
        if key.Some? {
          filtered := filtered + [Grouped(personUders[i], key.value)];
        }
      }
      assert personUders[..|personUders|] == personUders;
      f := SortByMonth(filtered);
      SortByMonthSpec(filtered);
      forall x ensures x in f <==> x.uder in personUders && CreateGroupKey(x.uder, normalizeLastMount) == Some(x.groupVidud) {
        KeyedSpec(personUders, normalizeLastMount, x);
        assert x in f <==> x in multiset(f);
      }
    }

    /** check_summa */
    method CheckSumma(summa: string, uder: Option<Grouped>)
      modifies this
      ensures State() == old(State()).(log := old(log) +
        if uder.Some? && summa != Zero then [Residual(uder.value.uder.tabn, uder.value.groupVidud, summa)] else [])
    {
      if uder == None {
        return;
      }
      if summa != Zero {
        log := log + [Residual(uder.value.uder.tabn, uder.value.groupVidud, summa)];
      }
    }

    /** validate_person_groups */
    method ValidatePersonGroups(f: seq<Grouped>)
      requires !aborted
      modifies this
      ensures State() == ValidateSpec(old(State()), f)
    {
      ghost var t0 := State();
      var current: Option<string> := None;
      var summa := Zero;
      for i := 0 to |f|
        invariant !aborted
        invariant i == 0 ==> current == None && summa == Zero && State() == t0
        invariant i > 0 ==>
          current == Some(f[i - 1].groupVidud) && State() == VPending(t0, f, i) && Total(Current(f, i)) == Some(summa)
      {
        var stop;
        current, summa, stop := ValidateRow(f, i, current, summa, t0);
        if stop {
          return;
        }
      }
      if |f| != 0 {
        CurrentEndsBefore(t0, f, |f|);
        CheckSumma(summa, Some(f[|f| - 1]));
        assert f[..|f|] == f;
      }
    }

    /** The body of the month loop for row i. */
    method ValidateRow(f: seq<Grouped>, i: nat, current: Option<string>, summa: string, ghost t0: TaxState)
      returns (current': Option<string>, summa': string, stop: bool)
      requires i < |f| && !aborted && !t0.aborted
      requires i == 0 ==> current == None && summa == Zero && State() == t0
      requires i > 0 ==>
        current == Some(f[i - 1].groupVidud) && State() == VPending(t0, f, i) && Total(Current(f, i)) == Some(summa)
      modifies this
      ensures stop ==> State() == ValidateSpec(t0, f)
      ensures !stop ==>
        !aborted && current' == Some(f[i].groupVidud) && State() == VPending(t0, f, i + 1) && Total(Current(f, i + 1)) == Some(summa')
    {
      current', summa' := SwitchMonth(f, i, current, summa, t0);
      var next := SumStr(summa', f[i].uder.sumud);
      if next.None? {
        aborted := true;
        CurrentEndsBefore(t0, f, i + 1);
        VAbortStays(t0, f, i + 1);
        return current', summa', true;
      }
      summa', stop := next.value, false;
    }

    /** The first half of that body: a new month reports the finished one
        and restarts the sum at 0.00. */
    method SwitchMonth(f: seq<Grouped>, i: nat, current: Option<string>, summa: string, ghost t0: TaxState)
      returns (current': Option<string>, summa': string)
      requires i < |f| && !aborted && !t0.aborted
      requires i == 0 ==> current == None && summa == Zero && State() == t0
      requires i > 0 ==>
        current == Some(f[i - 1].groupVidud) && State() == VPending(t0, f, i) && Total(Current(f, i)) == Some(summa)
      modifies this
      ensures !aborted && current' == Some(f[i].groupVidud) && State() == VPending(t0, f, i + 1)
      ensures Total(Current(f, i + 1)) == SumStr(summa', f[i].uder.sumud)
    {
      var row := f[i];
      current', summa' := current, summa;
      if current' == None {
        current' := Some(row.groupVidud);
      }
      if current' != Some(row.groupVidud) {
        CurrentEndsBefore(t0, f, i);
        CheckSumma(summa', Some(f[i - 1]));
        summa' := Zero;
        current' := Some(row.groupVidud);
        VNewKey(t0, f, i);
        TotalSnoc([], row);
      } else if i > 0 {
        VSameKey(t0, f, i);
        TotalSnoc(Current(f, i), row);
      } else {
        VFirst(t0, f);
        TotalSnoc([], row);
      }
    }
  }
}

/**
  The payment engine of SRC/uchrabvr.py and SRC/otpusk.py as functions on
  an engine state. Both classes run the same algorithm; they differ only in
  how they find the primary rows (an index or a linear scan), and
  Matching.SameDecision shows the two lookups decide alike, so one
  specification serves both. The classes in uchrabvr.dfy and otpusk.dfy are
  proved to compute exactly these functions.
*/
module Engine {
  import opened Wrappers
  import opened Money
  import opened PayCodes
  import opened Grouping
  import opened Matching

  /** The diagnostics the engine writes, one constructor per message of
      TEXT_ERROR (indexes 0, 1, 2, 4 and 3 of SRC/uchrabvr.py). */
  datatype Event =
    | NoPrimary(tabn: string, vidop: string, datan: string, datok: string, primaries: seq<string>)
    | ManyPrimaries(tabn: string, vidop: string, datan: string, datok: string, primaries: seq<string>)
    | SumNotNumeric(tabn: string, vidop: string, summa1: string, summa2: string)
    | UnprocessedMarker(vidop: string)
    | Unprocessed(tabn: string, vidop: string)
    | DuplicateCodes(codes: seq<string>)

  /** What the engine object holds: the current employee's rows, the codes
      processed for that employee, the statements so far, the return code,
      the diagnostics, and whether a bad amount has stopped the run (the
      ValueError re-raised out of update_primary_uchrabvr). */
  datatype EngineState = EngineState(
    group: seq<Row>, processed: set<string>, sql: seq<string>,
    returnCode: int, log: seq<Event>, aborted: bool)

  /** The rows as start reads them: every summa replaced by ZERO. */
  function Zeroed(rows: seq<Row>): (z: seq<Row>)
    ensures |z| == |rows|
    ensures forall i :: 0 <= i < |rows| ==> z[i].summa == Zero && z[i] == rows[i].(summa := z[i].summa)
  {
    seq(|rows|, i requires 0 <= i < |rows| => rows[i].(summa := Zero))
  }

  /** r differs from s at most in its summa. */
  predicate SameButSumma(r: Row, s: Row)
  {
    r == s.(summa := r.summa)
  }

  /** g' is g with some sums rewritten and nothing else. */
  predicate SumsOnly(g': seq<Row>, g: seq<Row>)
  {
    |g'| == |g| && forall i :: 0 <= i < |g| ==> SameButSumma(g'[i], g[i])
  }

  /** The index depends on the keys only: a group whose sums were rewritten
      indexes like the group before. */
  lemma IndexIgnoresSums(g': seq<Row>, g: seq<Row>)
    requires SumsOnly(g', g)
    ensures Index(g') == Index(g)
  {
    assert KeysOf(g') == KeysOf(g);
  }

  /** A code listed as primary somewhere in the table. */
  ghost predicate IsPrimaryCode(table: seq<Mapping>, c: string)
  {
    exists k :: 0 <= k < |table| && c in ToTuple(table[k].primary)
  }

  // ------------------------------------------------------------ one secondary row

  /** update_primary_uchrabvr: mark both codes processed, then add the
      secondary's summaval into primary row j, or log and stop when either
      amount is not a decimal, as its handler intends (UpdatePrimaryAsWritten
      is the code as it stands). */
  function UpdatePrimary(s: EngineState, j: nat, sec: Row): (r: EngineState)
    requires j < |s.group|
    ensures r.processed == s.processed + {s.group[j].vidop, sec.vidop}
    ensures SumsOnly(r.group, s.group)
    ensures forall i :: 0 <= i < |s.group| && i != j ==> r.group[i] == s.group[i]
    ensures r.sql == s.sql && r.returnCode == s.returnCode
    ensures r.aborted <==> s.aborted || SumStr(s.group[j].summa, sec.summaval).None?
    ensures SumStr(s.group[j].summa, sec.summaval).None? ==>
      r.group == s.group && r.log == s.log + [SumNotNumeric(sec.tabn, s.group[j].vidop, s.group[j].summa, sec.summaval)]
    ensures SumStr(s.group[j].summa, sec.summaval).Some? ==>
      r.group[j].summa == SumStr(s.group[j].summa, sec.summaval).value && r.log == s.log
  {
    var p := s.group[j];
    var s1 := s.(processed := s.processed + {p.vidop, sec.vidop});
    match SumStr(p.summa, sec.summaval)
    case None => s1.(log := s1.log + [SumNotNumeric(sec.tabn, p.vidop, p.summa, sec.summaval)], aborted := true)
    case Some(t) => s1.(group := s1.group[j := p.(summa := t)])
  }

  /** update_primary_uchrabvr as the code stands: Decimal reports a bad
      amount with decimal.InvalidOperation, an ArithmeticError and not a
      ValueError, so the `except ValueError` handler never runs. Nothing is
      logged, and the exception leaves start() with the run unfinished. */
  function UpdatePrimaryAsWritten(s: EngineState, j: nat, sec: Row): (r: EngineState)
    requires j < |s.group|
    ensures SumStr(s.group[j].summa, sec.summaval).Some? ==> r == UpdatePrimary(s, j, sec)
    ensures SumStr(s.group[j].summa, sec.summaval).None? ==>
      r == UpdatePrimary(s, j, sec).(log := s.log) && r.aborted && r.log == s.log
  {
    var p := s.group[j];
    var s1 := s.(processed := s.processed + {p.vidop, sec.vidop});
    match SumStr(p.summa, sec.summaval)
    case None => s1.(aborted := true)
    case Some(t) => s1.(group := s1.group[j := p.(summa := t)])
  }

  /** update_uchrabvr: with no candidate or with several, log and set the
      return code; with exactly one, update it. */
  function UpdateRow(s: EngineState, sec: Row, ps: seq<string>): (r: EngineState)
    ensures SumsOnly(r.group, s.group)
    ensures r.sql == s.sql
    ensures |FindLinear(s.group, ps, sec.datan, sec.datok)| != 1 ==>
      && r.group == s.group && r.processed == s.processed && r.aborted == s.aborted
      && r.returnCode == 1 && |r.log| == |s.log| + 1
    ensures |FindLinear(s.group, ps, sec.datan, sec.datok)| == 1 ==>
      FindLinear(s.group, ps, sec.datan, sec.datok)[0] < |s.group|
        && r == UpdatePrimary(s, FindLinear(s.group, ps, sec.datan, sec.datok)[0], sec)
  {
    var c := FindLinear(s.group, ps, sec.datan, sec.datok);
    FindLinearBound(s.group, ps, sec.datan, sec.datok);
    if |c| == 0 then
      s.(log := s.log + [NoPrimary(sec.tabn, sec.vidop, sec.datan, sec.datok, ps)], returnCode := 1)
    else if |c| > 1 then
      s.(log := s.log + [ManyPrimaries(sec.tabn, sec.vidop, sec.datan, sec.datok, ps)], returnCode := 1)
    else
      UpdatePrimary(s, c[0], sec)
  }

  lemma FindLinearBound(g: seq<Row>, ps: seq<string>, datan: string, datok: string)
    ensures forall k :: 0 <= k < |FindLinear(g, ps, datan, datok)| ==> FindLinear(g, ps, datan, datok)[k] < |g|
  {
    var c := FindLinear(g, ps, datan, datok);
    forall k | 0 <= k < |c| ensures c[k] < |g| {
      FindLinearSpec(g, ps, datan, datok, c[k]);
    }
  }

  /** The per-row step of processing_vidops: rows whose code is in no
      secondary tuple are skipped; the others go to the primaries of the
      first mapping listing them (the break). */
  function Step(s: EngineState, table: seq<Mapping>, row: Row): (r: EngineState)
    ensures SumsOnly(r.group, s.group)
    ensures r.sql == s.sql
    ensures (forall k :: 0 <= k < |table| ==> row.vidop !in ToTuple(table[k].secondary)) ==> r == s
  {
    match FirstMatch(table, row.vidop)
    case None => s
    case Some(k) => UpdateRow(s, row, ToTuple(table[k].primary))
  }

  /** A row goes to the primaries of the first mapping listing its code and
      of no other. */
  lemma StepUsesFirstMapping(s: EngineState, table: seq<Mapping>, row: Row, k: nat)
    requires k < |table| && row.vidop in ToTuple(table[k].secondary)
    requires forall k' :: 0 <= k' < k ==> row.vidop !in ToTuple(table[k'].secondary)
    ensures Step(s, table, row) == UpdateRow(s, row, ToTuple(table[k].primary))
  {
    FirstMatchIsFirst(table, row.vidop, k);
  }

  /** processing_vidops from row i on. The loop reads the group as it is
      now, and stops once an amount has failed. */
  function ProcessFrom(s: EngineState, table: seq<Mapping>, i: nat): (r: EngineState)
    requires i <= |s.group|
    ensures SumsOnly(r.group, s.group)
    ensures r.sql == s.sql
    decreases |s.group| - i
  {
    if s.aborted || i == |s.group| then s
    else ProcessFrom(Step(s, table, s.group[i]), table, i + 1)
  }

  lemma ProcessFromUnfold(s: EngineState, table: seq<Mapping>, i: nat)
    requires i < |s.group| && !s.aborted
    ensures ProcessFrom(s, table, i) == ProcessFrom(Step(s, table, s.group[i]), table, i + 1)
  {
  }

  /** processing_vidops: clear the processed set, then the loop. */
  function ProcessVidops(s: EngineState, table: seq<Mapping>): EngineState
  {
    ProcessFrom(s.(processed := {}), table, 0)
  }

  // ------------------------------------------------------------ output and control

  /** The statement create_SQL_request writes for a row. */
  function Statement(r: Row): string
  {
    "UPDATE uchrabvr WHERE nrec=" + r.nrec + " SET summa:=" + r.summa + ";"
  }

  /** create_SQL_request: one statement per row whose summa is not ZERO. */
  function SqlFor(g: seq<Row>): seq<string>
  {
    if g == [] then [] else SqlFor(DropLast(g)) + (if Last(g).summa != Zero then [Statement(Last(g))] else [])
  }

  /** The rows that get a statement, in order. */
  function Written(g: seq<Row>): seq<Row>
  {
    if g == [] then [] else Written(DropLast(g)) + (if Last(g).summa != Zero then [Last(g)] else [])
  }

  /** The two lines control_processing_completion writes per row whose code
      was not processed: the marker line and the employee's warning. */
  function Uncovered(g: seq<Row>, processed: set<string>): seq<Event>
  {
    if g == [] then []
    else
      var r := Last(g);
      Uncovered(DropLast(g), processed)
        + (if r.vidop in processed then [] else [UnprocessedMarker(r.vidop), Unprocessed(r.tabn, r.vidop)])
  }

  /** control_processing_completion */
  function Coverage(s: EngineState): EngineState
  {
    var u := Uncovered(s.group, s.processed);
    s.(log := s.log + u, returnCode := if u == [] then s.returnCode else 1)
  }

  /** processing_person: nothing for an empty group; otherwise the vidops
      loop, then (unless an amount failed) the statements and the control. */
  function ProcessPerson(s: EngineState, table: seq<Mapping>): EngineState
  {
    if s.group == [] then s
    else
      var v := ProcessVidops(s, table);
      if v.aborted then v else Coverage(v.(sql := v.sql + SqlFor(v.group)))
  }

  /** The employees of start, in order: each run becomes the group and is
      processed; a failed amount ends everything. */
  function ProcessRuns(s: EngineState, rs: seq<seq<Row>>, table: seq<Mapping>): EngineState
  {
    if rs == [] then s
    else
      var t := ProcessRuns(s, DropLast(rs), table);
      if t.aborted then t else ProcessPerson(t.(group := Last(rs)), table)
  }

  /** start: zero the sums, cut the rows into employees by clsch, process
      them in order. */
  function StartSpec(s: EngineState, rows: seq<Row>, table: seq<Mapping>): EngineState
  {
    ProcessRuns(s, Runs(Zeroed(rows), ClschOf), table)
  }

  // ------------------------------------------------------------ what a step may change

  /** A code listed on either side of some mapping. */
  ghost predicate InTable(table: seq<Mapping>, c: string)
  {
    exists k :: 0 <= k < |table| && c in MappingCodes(table[k])
  }

  /** What the vidops loop may do to the state: rewrite the sums of primary
      rows and nothing else of the group, leave the statements alone, only
      ever set the return code to 1, only append diagnostics, only add codes
      of the table to the processed set, and never resume after a failure. */
  ghost predicate Progress(s: EngineState, r: EngineState, table: seq<Mapping>)
  {
    && SumsOnly(r.group, s.group)
    && r.sql == s.sql
    && (r.returnCode == s.returnCode || r.returnCode == 1)
    && s.log <= r.log
    && s.processed <= r.processed
    && (forall c :: c in r.processed && c !in s.processed ==> InTable(table, c))
    && (forall j :: 0 <= j < |s.group| && r.group[j].summa != s.group[j].summa ==> IsPrimaryCode(table, s.group[j].vidop))
    && (s.aborted ==> r.aborted)
  }

  lemma ProgressTrans(a: EngineState, b: EngineState, c: EngineState, table: seq<Mapping>)
    requires Progress(a, b, table) && Progress(b, c, table)
    ensures Progress(a, c, table)
  {
    forall j | 0 <= j < |a.group| && c.group[j].summa != a.group[j].summa
      ensures IsPrimaryCode(table, a.group[j].vidop)
    {
      assert SameButSumma(b.group[j], a.group[j]);
      if b.group[j].summa == a.group[j].summa {
        assert IsPrimaryCode(table, b.group[j].vidop);
      }
    }
  }

  /** One row of the vidops loop keeps Progress. */
  lemma StepProgress(s: EngineState, table: seq<Mapping>, row: Row)
    ensures Progress(s, Step(s, table, row), table)
  {
    match FirstMatch(table, row.vidop)
    case None =>
    case Some(k) =>
      RowProgress(s, table, row, k);
  }

  /** Resolving a row against the primaries of a mapping listing it keeps
      Progress. */
  lemma RowProgress(s: EngineState, table: seq<Mapping>, row: Row, k: nat)
    requires k < |table| && row.vidop in ToTuple(table[k].secondary)
    ensures Progress(s, UpdateRow(s, row, ToTuple(table[k].primary)), table)
  {
    var ps := ToTuple(table[k].primary);
    var c := FindLinear(s.group, ps, row.datan, row.datok);
    if |c| == 1 {
      FindLinearSpec(s.group, ps, row.datan, row.datok, c[0]);
      PrimaryProgress(s, table, row, c[0], k);
    }
  }

  lemma PrimaryProgress(s: EngineState, table: seq<Mapping>, row: Row, j: nat, k: nat)
    requires k < |table| && j < |s.group|
    requires s.group[j].vidop in ToTuple(table[k].primary) && row.vidop in ToTuple(table[k].secondary)
    ensures Progress(s, UpdatePrimary(s, j, row), table)
  {
    assert s.group[j].vidop in MappingCodes(table[k]);
    assert row.vidop in MappingCodes(table[k]);
    assert IsPrimaryCode(table, s.group[j].vidop);
  }

  /** The whole vidops loop keeps Progress. */
  lemma {:induction false} ProcessFromProgress(s: EngineState, table: seq<Mapping>, i: nat)
    requires i <= |s.group|
    ensures Progress(s, ProcessFrom(s, table, i), table)
    decreases |s.group| - i
  {
    if !(s.aborted || i == |s.group|) {
      var t := Step(s, table, s.group[i]);
      StepProgress(s, table, s.group[i]);
      ProcessFromProgress(t, table, i + 1);
      ProgressTrans(s, t, ProcessFrom(t, table, i + 1), table);
    }
  }

  // ------------------------------------------------------------ statements and coverage

  /** The rows that get a statement are exactly the rows whose summa is not
      ZERO. */
  lemma {:induction false} WrittenSpec(g: seq<Row>, x: Row)
    ensures x in Written(g) <==> x in g && x.summa != Zero
    decreases |g|
  {
    if g != [] {
      WrittenSpec(DropLast(g), x);
      assert g == DropLast(g) + [Last(g)];
    }
  }

  /** create_SQL_request writes the statement of each such row, in row
      order, and nothing else. */
  lemma {:induction false} SqlForIsWritten(g: seq<Row>)
    ensures |SqlFor(g)| == |Written(g)|
    ensures forall k :: 0 <= k < |SqlFor(g)| ==> SqlFor(g)[k] == Statement(Written(g)[k])
    decreases |g|
  {
    if g != [] {
      SqlForIsWritten(DropLast(g));
    }
  }

  /** Groups write their statements one after the other. */
  lemma {:induction false} SqlForAppend(a: seq<Row>, b: seq<Row>)
    ensures SqlFor(a + b) == SqlFor(a) + SqlFor(b)
    decreases |b|
  {
    if b != [] {
      assert DropLast(a + b) == a + DropLast(b);
      assert Last(a + b) == Last(b);
      SqlForAppend(a, DropLast(b));
    } else {
      assert a + b == a;
    }
  }

  /** A row is reported iff its code was not processed; each reported row
      contributes its marker line and its warning. */
  lemma {:induction false} UncoveredSpec(g: seq<Row>, processed: set<string>, tabn: string, vidop: string)
    ensures Unprocessed(tabn, vidop) in Uncovered(g, processed) <==>
      exists i :: 0 <= i < |g| && g[i].tabn == tabn && g[i].vidop == vidop && vidop !in processed
    ensures UnprocessedMarker(vidop) in Uncovered(g, processed) <==>
      exists i :: 0 <= i < |g| && g[i].vidop == vidop && vidop !in processed
    ensures Uncovered(g, processed) == [] <==> forall i :: 0 <= i < |g| ==> g[i].vidop in processed
    decreases |g|
  {
    if g != [] {
      var p := DropLast(g);
      UncoveredSpec(p, processed, tabn, vidop);
      assert forall i :: 0 <= i < |p| ==> p[i] == g[i];
      assert g[|g| - 1] == Last(g);
    }
  }

  /** control_processing_completion sets the return code to 1 iff some row
      of the group is uncovered, and otherwise leaves it. */
  lemma CoverageReturnCode(s: EngineState)
    ensures (exists i :: 0 <= i < |s.group| && s.group[i].vidop !in s.processed) ==> Coverage(s).returnCode == 1
    ensures (forall i :: 0 <= i < |s.group| ==> s.group[i].vidop in s.processed) ==> Coverage(s) == s
  {
    UncoveredSpec(s.group, s.processed, "", "");
  }

  // ------------------------------------------------------------ employees and the whole run

  /** What processing an employee may do to the overall state: only set the
      return code to 1, and only append statements and diagnostics. */
  ghost predicate Grows(s: EngineState, r: EngineState)
  {
    && (r.returnCode == s.returnCode || r.returnCode == 1)
    && s.sql <= r.sql
    && s.log <= r.log
    && (s.aborted ==> r.aborted)
  }

  lemma ProcessPersonGrows(s: EngineState, table: seq<Mapping>)
    ensures Grows(s, ProcessPerson(s, table))
  {
    if s.group != [] {
      ProcessFromProgress(s.(processed := {}), table, 0);
    }
  }

  /** Once an amount has failed, nothing further happens. */
  lemma {:induction false} AbortedStays(s: EngineState, rs: seq<seq<Row>>, table: seq<Mapping>)
    requires s.aborted
    ensures ProcessRuns(s, rs, table) == s
    decreases |rs|
  {
    if rs != [] {
      AbortedStays(s, DropLast(rs), table);
    }
  }

  /** Processing employees in two batches is processing them all. */
  lemma {:induction false} ProcessRunsAppend(s: EngineState, a: seq<seq<Row>>, b: seq<seq<Row>>, table: seq<Mapping>)
    ensures ProcessRuns(s, a + b, table) == ProcessRuns(ProcessRuns(s, a, table), b, table)
    decreases |b|
  {
    if b == [] {
      assert a + b == a;
    } else {
      assert DropLast(a + b) == a + DropLast(b);
      assert Last(a + b) == Last(b);
      ProcessRunsAppend(s, a, DropLast(b), table);
    }
  }

  lemma {:induction false} ProcessRunsGrows(s: EngineState, rs: seq<seq<Row>>, table: seq<Mapping>)
    ensures Grows(s, ProcessRuns(s, rs, table))
    decreases |rs|
  {
    if rs != [] {
      var t := ProcessRuns(s, DropLast(rs), table);
      ProcessRunsGrows(s, DropLast(rs), table);
      if !t.aborted {
        ProcessPersonGrows(t.(group := Last(rs)), table);
      }
    }
  }

  /** A whole run never resets the return code to 0, never removes a
      statement or a diagnostic, and with no rows does nothing. */
  lemma StartNeverResets(s: EngineState, rows: seq<Row>, table: seq<Mapping>)
    ensures Grows(s, StartSpec(s, rows, table))
    ensures rows == [] ==> StartSpec(s, rows, table) == s
  {
    ProcessRunsGrows(s, Runs(Zeroed(rows), ClschOf), table);
  }

  /** Every row enters its employee's group with summa ZERO. */
  lemma GroupsStartAtZero(rows: seq<Row>, k: nat, j: nat)
    requires k < |Runs(Zeroed(rows), ClschOf)| && j < |Runs(Zeroed(rows), ClschOf)[k]|
    ensures Runs(Zeroed(rows), ClschOf)[k][j].summa == Zero
  {
    var z := Zeroed(rows);
    RunsFlatten(z, ClschOf);
    FlattenContains(Runs(z, ClschOf), k, j);
  }

  // ------------------------------------------------------------ the start loop, step by step

  /** The state the start loop holds after reading z[..i]: every employee
      but the last processed, the last one's rows collected. */
  function Pending(s0: EngineState, z: seq<Row>, i: nat, table: seq<Mapping>): EngineState
    requires 0 < i <= |z|
  {
    RunsShape(z[..i], ClschOf);
    ProcessRuns(s0, DropLast(Runs(z[..i], ClschOf)), table).(group := Last(Runs(z[..i], ClschOf)))
  }

  /** The loop state before any row (the initial state) or after some. */
  function Collected(s0: EngineState, z: seq<Row>, i: nat, table: seq<Mapping>): EngineState
    requires i <= |z|
  {
    if i == 0 then s0 else Pending(s0, z, i, table)
  }

  lemma PendingFirst(s0: EngineState, z: seq<Row>, table: seq<Mapping>)
    requires |z| > 0
    ensures Pending(s0, z, 1, table) == s0.(group := [z[0]])
  {
    assert z[..1] == [] + [z[0]];
    RunsSnoc([], z[0], ClschOf);
  }

  /** The same clsch again: the row joins the collected group. */
  lemma PendingSameKey(s0: EngineState, z: seq<Row>, i: nat, table: seq<Mapping>)
    requires 0 < i < |z| && z[i].clsch == z[i - 1].clsch
    ensures Pending(s0, z, i + 1, table) == Pending(s0, z, i, table).(group := Pending(s0, z, i, table).group + [z[i]])
  {
    var p := z[..i];
    assert z[..i + 1] == p + [z[i]];
    RunsSnoc(p, z[i], ClschOf);
    RunsShape(p, ClschOf);
  }

  /** A new clsch: the collected employee is processed and the row starts a
      new group. */
  lemma PendingNewKey(s0: EngineState, z: seq<Row>, i: nat, table: seq<Mapping>)
    requires 0 < i < |z| && z[i].clsch != z[i - 1].clsch
    requires !Pending(s0, z, i, table).aborted
    ensures Pending(s0, z, i + 1, table) == ProcessPerson(Pending(s0, z, i, table), table).(group := [z[i]])
  {
    var p := z[..i];
    assert z[..i + 1] == p + [z[i]];
    RunsSnoc(p, z[i], ClschOf);
    RunsShape(p, ClschOf);
    var rs := Runs(p, ClschOf);
    assert DropLast(rs + [[z[i]]]) == rs;
  }

  /** Processing the collected employee finishes the prefix read so far. */
  lemma PendingProcessed(s0: EngineState, z: seq<Row>, i: nat, table: seq<Mapping>)
    requires 0 < i <= |z|
    requires !Pending(s0, z, i, table).aborted
    ensures ProcessPerson(Pending(s0, z, i, table), table) == ProcessRuns(s0, Runs(z[..i], ClschOf), table)
  {
    RunsShape(z[..i], ClschOf);
  }

  /** A failed amount at a change of clsch ends the whole run there. */
  lemma PendingAborts(s0: EngineState, z: seq<Row>, i: nat, table: seq<Mapping>)
    requires 0 < i < |z| && z[i].clsch != z[i - 1].clsch
    requires ProcessRuns(s0, Runs(z[..i], ClschOf), table).aborted
    ensures ProcessRuns(s0, Runs(z, ClschOf), table) == ProcessRuns(s0, Runs(z[..i], ClschOf), table)
  {
    var p, q := z[..i], z[i..];
    assert z == p + q && Last(p) == z[i - 1] && q[0] == z[i];
    RunsAppend(p, q, ClschOf);
    ProcessRunsAppend(s0, Runs(p, ClschOf), Runs(q, ClschOf), table);
    AbortedStays(ProcessRuns(s0, Runs(p, ClschOf), table), Runs(q, ClschOf), table);
  }
}

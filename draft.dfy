/**
  The draft engine of the root otpusk.py. It keeps a status per nrec
  instead of a processed-code set, tries every mapping listing a code (there
  is no break), writes statements for written-down rows only, and keeps no
  return code. Its float sum_str is left uninterpreted: the class is given
  the summation as a function, None standing for the ValueError float()
  raises on a text that is not a number.
*/
module Draft {
  import opened Wrappers
  import opened PayCodes
  import opened Grouping
  import opened Matching
  import opened Engine

  /** StatusUchrabvr */
  datatype Status = Processed | WriteDown

  /** The draft's state: the employee's rows, the status of their nrecs, the
      statements, the diagnostics, and whether a failed sum stopped the run. */
  datatype DraftState = DraftState(
    group: seq<Row>, status: map<string, Status>, sql: seq<string>, log: seq<Event>, aborted: bool)

  /** The draft's sum_str, supplied from outside. */
  type SumFn = (string, string) -> Option<string>

  /** Mark the nrec of every candidate row as processed, in order (the
      candidates all lie inside the group; see FindLinearBound). */
  function MarkAll(status: map<string, Status>, g: seq<Row>, c: seq<nat>): map<string, Status>
  {
    if c == [] then status
    else if Last(c) < |g| then MarkAll(status, g, DropLast(c))[g[Last(c)].nrec := Processed]
    else MarkAll(status, g, DropLast(c))
  }

  lemma MarkAllSnoc(status: map<string, Status>, g: seq<Row>, c: seq<nat>, n: nat)
    requires n < |g|
    ensures MarkAll(status, g, c + [n]) == MarkAll(status, g, c)[g[n].nrec := Processed]
  {
    assert DropLast(c + [n]) == c;
  }

  /** Marking adds exactly the candidates' nrecs, all as processed, and
      keeps every other entry. */
  lemma {:induction false} MarkAllSpec(status: map<string, Status>, g: seq<Row>, c: seq<nat>, key: string)
    requires forall k :: 0 <= k < |c| ==> c[k] < |g|
    ensures key in MarkAll(status, g, c) <==> key in status || exists k :: 0 <= k < |c| && g[c[k]].nrec == key
    ensures (exists k :: 0 <= k < |c| && g[c[k]].nrec == key) ==> MarkAll(status, g, c)[key] == Processed
    ensures (forall k :: 0 <= k < |c| ==> g[c[k]].nrec != key) && key in status ==> MarkAll(status, g, c)[key] == status[key]
    decreases |c|
  {
    if c != [] {
      var c' := DropLast(c);
      MarkAllSpec(status, g, c', key);
      assert forall k :: 0 <= k < |c'| ==> c'[k] == c[k];
      assert c[|c| - 1] == Last(c);
    }
  }

  /** update_primary_uchrabvr of the draft: the sum, then status write_down
      for the primary's nrec; a failed sum is logged and raised. */
  function DraftUpdatePrimary(s: DraftState, j: nat, sec: Row, sum: SumFn): (r: DraftState)
    requires j < |s.group|
    ensures SumsOnly(r.group, s.group)
    ensures r.sql == s.sql
    ensures r.aborted <==> s.aborted || sum(s.group[j].summa, sec.summaval).None?
    ensures !r.aborted ==> (r.status == s.status[s.group[j].nrec := WriteDown]
      && r.group[j].summa == sum(s.group[j].summa, sec.summaval).value)
    ensures sum(s.group[j].summa, sec.summaval).None? ==>
      r.group == s.group && r.status == s.status
        && r.log == s.log + [SumNotNumeric(sec.tabn, s.group[j].vidop, s.group[j].summa, sec.summaval)]
    ensures sum(s.group[j].summa, sec.summaval).Some? ==> r.log == s.log
  {
    var p := s.group[j];
    match sum(p.summa, sec.summaval)
    case None => s.(log := s.log + [SumNotNumeric(sec.tabn, p.vidop, p.summa, sec.summaval)], aborted := true)
    case Some(t) => s.(status := s.status[p.nrec := WriteDown], group := s.group[j := p.(summa := t)])
  }

  /** update_uchrabvr of the draft: the lookup marks every candidate
      processed; none or several are logged (no return code); exactly one is
      updated. */
  function DraftUpdateRow(s: DraftState, sec: Row, ps: seq<string>, sum: SumFn): (r: DraftState)
    ensures SumsOnly(r.group, s.group)
    ensures r.sql == s.sql
    ensures |FindLinear(s.group, ps, sec.datan, sec.datok)| == 0 ==>
      r.group == s.group && r.status == s.status && r.aborted == s.aborted
        && r.log == s.log + [NoPrimary(sec.tabn, sec.vidop, sec.datan, sec.datok, ps)]
    ensures |FindLinear(s.group, ps, sec.datan, sec.datok)| > 1 ==>
      r.group == s.group && r.status == MarkAll(s.status, s.group, FindLinear(s.group, ps, sec.datan, sec.datok))
        && r.aborted == s.aborted && r.log == s.log + [ManyPrimaries(sec.tabn, sec.vidop, sec.datan, sec.datok, ps)]
    ensures |FindLinear(s.group, ps, sec.datan, sec.datok)| == 1 ==>
      FindLinear(s.group, ps, sec.datan, sec.datok)[0] < |s.group|
        && r == DraftUpdatePrimary(s.(status := MarkAll(s.status, s.group, FindLinear(s.group, ps, sec.datan, sec.datok))),
          FindLinear(s.group, ps, sec.datan, sec.datok)[0], sec, sum)
  {
    var c := FindLinear(s.group, ps, sec.datan, sec.datok);
    FindLinearBound(s.group, ps, sec.datan, sec.datok);
    var s1 := s.(status := MarkAll(s.status, s.group, c));
    if |c| == 0 then
      s1.(log := s1.log + [NoPrimary(sec.tabn, sec.vidop, sec.datan, sec.datok, ps)])
    else if |c| > 1 then
      s1.(log := s1.log + [ManyPrimaries(sec.tabn, sec.vidop, sec.datan, sec.datok, ps)])
    else
      DraftUpdatePrimary(s1, c[0], sec, sum)
  }

  /** The inner loop of processing_vidops from mapping k on: every mapping
      whose secondary tuple lists the row's code marks the row processed and
      updates against that mapping's primaries. */
  function TryMappings(s: DraftState, table: seq<Mapping>, row: Row, k: nat, sum: SumFn): (r: DraftState)
    requires k <= |table|
    ensures SumsOnly(r.group, s.group)
    ensures r.sql == s.sql
    decreases |table| - k
  {
    if s.aborted || k == |table| then s
    else if row.vidop in ToTuple(table[k].secondary) then
      TryMappings(DraftUpdateRow(s.(status := s.status[row.nrec := Processed]), row, ToTuple(table[k].primary), sum), table, row, k + 1, sum)
    else TryMappings(s, table, row, k + 1, sum)
  }

  /** processing_vidops of the draft from row i on. */
  function DraftProcessFrom(s: DraftState, table: seq<Mapping>, i: nat, sum: SumFn): (r: DraftState)
    requires i <= |s.group|
    ensures SumsOnly(r.group, s.group)
    ensures r.sql == s.sql
    decreases |s.group| - i
  {
    if s.aborted || i == |s.group| then s
    else DraftProcessFrom(TryMappings(s, table, s.group[i], 0, sum), table, i + 1, sum)
  }

  /** The statement the draft writes. */
  function DraftStatement(r: Row): string
  {
    "UPDATE secondary_uchrabvr WHERE nrec=" + r.nrec + " SET summa:=" + r.summa + ";"
  }

  /** create_SQL_request of the draft: a statement per row whose nrec is
      written down. */
  function DraftSqlFor(g: seq<Row>, status: map<string, Status>): seq<string>
  {
    if g == [] then []
    else
      var w := Last(g).nrec in status && status[Last(g).nrec] == WriteDown;
      DraftSqlFor(DropLast(g), status) + (if w then [DraftStatement(Last(g))] else [])
  }

  /** control_complet_processing: a line per row whose nrec has no status. */
  function Unmarked(g: seq<Row>, status: map<string, Status>): seq<Event>
  {
    if g == [] then []
    else Unmarked(DropLast(g), status) + (if Last(g).nrec in status then [] else [UnprocessedMarker(Last(g).vidop)])
  }

  /** processing_person of the draft. */
  function DraftProcessPerson(s: DraftState, table: seq<Mapping>, sum: SumFn): DraftState
  {
    if s.group == [] then s
    else
      var v := DraftProcessFrom(s, table, 0, sum);
      if v.aborted then v
      else v.(sql := v.sql + DraftSqlFor(v.group, v.status), log := v.log + Unmarked(v.group, v.status))
  }

  /** The employees in order, each with a fresh status map. */
  function DraftProcessRuns(s: DraftState, rs: seq<seq<Row>>, table: seq<Mapping>, sum: SumFn): DraftState
  {
    if rs == [] then s
    else
      var t := DraftProcessRuns(s, DropLast(rs), table, sum);
      if t.aborted then t else DraftProcessPerson(t.(group := Last(rs), status := map[]), table, sum)
  }

  function DraftStartSpec(s: DraftState, rows: seq<Row>, table: seq<Mapping>, sum: SumFn): DraftState
  {
    DraftProcessRuns(s, Runs(Zeroed(rows), ClschOf), table, sum)
  }

  // ------------------------------------------------------------ properties

  /** The lookup marks every candidate, ambiguous or not: with none or
      several candidates each candidate's nrec ends up processed (an earlier
      write_down is overwritten), and nothing else changes but the log. */
  lemma AmbiguousLookupMarks(s: DraftState, sec: Row, ps: seq<string>, sum: SumFn, n: nat)
    requires n < |s.group| && s.group[n].vidop in ps && s.group[n].datan == sec.datan && s.group[n].datok == sec.datok
    requires |FindLinear(s.group, ps, sec.datan, sec.datok)| != 1
    ensures var st := DraftUpdateRow(s, sec, ps, sum).status; s.group[n].nrec in st && st[s.group[n].nrec] == Processed
    ensures DraftUpdateRow(s, sec, ps, sum).group == s.group
  {
    var c := FindLinear(s.group, ps, sec.datan, sec.datok);
    FindLinearBound(s.group, ps, sec.datan, sec.datok);
    FindLinearSpec(s.group, ps, sec.datan, sec.datok, n);
    var k :| 0 <= k < |c| && c[k] == n;
    MarkAllSpec(s.status, s.group, c, s.group[n].nrec);
  }

  /** With exactly one candidate that adds up, it is written down. */
  lemma UniqueLookupWritesDown(s: DraftState, sec: Row, ps: seq<string>, sum: SumFn)
    requires |FindLinear(s.group, ps, sec.datan, sec.datok)| == 1 && !s.aborted
    requires var j := FindLinear(s.group, ps, sec.datan, sec.datok)[0];
      j < |s.group| && sum(s.group[j].summa, sec.summaval).Some?
    ensures var j := FindLinear(s.group, ps, sec.datan, sec.datok)[0];
      && DraftUpdateRow(s, sec, ps, sum).status[s.group[j].nrec] == WriteDown
      && DraftUpdateRow(s, sec, ps, sum).group == s.group[j := s.group[j].(summa := sum(s.group[j].summa, sec.summaval).value)]
  {
  }

  /** Status entries are never removed. */
  lemma {:induction false} TryMappingsKeepsMarks(s: DraftState, table: seq<Mapping>, row: Row, k: nat, sum: SumFn, key: string)
    requires k <= |table| && key in s.status
    ensures key in TryMappings(s, table, row, k, sum).status
    decreases |table| - k
  {
    if !(s.aborted || k == |table|) {
      if row.vidop in ToTuple(table[k].secondary) {
        var s1 := s.(status := s.status[row.nrec := Processed]);
        var c := FindLinear(s1.group, ToTuple(table[k].primary), row.datan, row.datok);
        FindLinearBound(s1.group, ToTuple(table[k].primary), row.datan, row.datok);
        MarkAllSpec(s1.status, s1.group, c, key);
        TryMappingsKeepsMarks(DraftUpdateRow(s1, row, ToTuple(table[k].primary), sum), table, row, k + 1, sum, key);
      } else {
        TryMappingsKeepsMarks(s, table, row, k + 1, sum, key);
      }
    }
  }

  /** A row whose code some mapping lists as secondary gets a status,
      whatever the lookups find. */
  lemma {:induction false} SecondaryIsMarked(s: DraftState, table: seq<Mapping>, row: Row, k: nat, sum: SumFn, m: nat)
    requires k <= m < |table| && row.vidop in ToTuple(table[m].secondary) && !s.aborted
    ensures row.nrec in TryMappings(s, table, row, k, sum).status
    decreases m - k
  {
    if row.vidop in ToTuple(table[k].secondary) {
      var s1 := s.(status := s.status[row.nrec := Processed]);
      var ps := ToTuple(table[k].primary);
      var c := FindLinear(s1.group, ps, row.datan, row.datok);
      FindLinearBound(s1.group, ps, row.datan, row.datok);
      MarkAllSpec(s1.status, s1.group, c, row.nrec);
      TryMappingsKeepsMarks(DraftUpdateRow(s1, row, ps, sum), table, row, k + 1, sum, row.nrec);
    } else {
      SecondaryIsMarked(s, table, row, k + 1, sum, m);
    }
  }

  /** Statements go exactly to the rows whose nrec is written down. */
  lemma {:induction false} DraftSqlForSpec(g: seq<Row>, status: map<string, Status>, x: Row)
    ensures DraftStatement(x) in DraftSqlFor(g, status) <==>
      exists y :: y in g && DraftStatement(y) == DraftStatement(x) && y.nrec in status && status[y.nrec] == WriteDown
    decreases |g|
  {
    if g != [] {
      DraftSqlForSpec(DropLast(g), status, x);
      assert g == DropLast(g) + [Last(g)];
    }
  }

  /** A row is reported iff its nrec has no status. */
  lemma {:induction false} UnmarkedSpec(g: seq<Row>, status: map<string, Status>, vidop: string)
    ensures UnprocessedMarker(vidop) in Unmarked(g, status) <==>
      exists i :: 0 <= i < |g| && g[i].vidop == vidop && g[i].nrec !in status
    decreases |g|
  {
    if g != [] {
      var p := DropLast(g);
      UnmarkedSpec(p, status, vidop);
      assert forall i :: 0 <= i < |p| ==> p[i] == g[i];
      assert g[|g| - 1] == Last(g);
    }
  }

  /** The draft keeps no return code and never removes a statement. */
  lemma {:induction false} DraftRunsGrow(s: DraftState, rs: seq<seq<Row>>, table: seq<Mapping>, sum: SumFn)
    ensures s.sql <= DraftProcessRuns(s, rs, table, sum).sql
    decreases |rs|
  {
    if rs != [] {
      DraftRunsGrow(s, DropLast(rs), table, sum);
    }
  }

  // ------------------------------------------------------------ the start loop

  function DraftPending(s0: DraftState, z: seq<Row>, i: nat, table: seq<Mapping>, sum: SumFn): DraftState
    requires 0 < i <= |z|
  {
    RunsShape(z[..i], ClschOf);
    DraftProcessRuns(s0, DropLast(Runs(z[..i], ClschOf)), table, sum).(group := Last(Runs(z[..i], ClschOf)), status := map[])
  }

  function DraftCollected(s0: DraftState, z: seq<Row>, i: nat, table: seq<Mapping>, sum: SumFn): DraftState
    requires i <= |z|
  {
    if i == 0 then s0 else DraftPending(s0, z, i, table, sum)
  }

  lemma DraftPendingFirst(s0: DraftState, z: seq<Row>, table: seq<Mapping>, sum: SumFn)
    requires |z| > 0 && s0.status == map[]
    ensures DraftPending(s0, z, 1, table, sum) == s0.(group := [z[0]])
  {
    assert z[..1] == [] + [z[0]];
    RunsSnoc([], z[0], ClschOf);
  }

  lemma DraftPendingSameKey(s0: DraftState, z: seq<Row>, i: nat, table: seq<Mapping>, sum: SumFn)
    requires 0 < i < |z| && z[i].clsch == z[i - 1].clsch
    ensures DraftPending(s0, z, i + 1, table, sum)
         == DraftPending(s0, z, i, table, sum).(group := DraftPending(s0, z, i, table, sum).group + [z[i]])
  {
    var p := z[..i];
    assert z[..i + 1] == p + [z[i]];
    RunsSnoc(p, z[i], ClschOf);
    RunsShape(p, ClschOf);
  }

  lemma DraftPendingNewKey(s0: DraftState, z: seq<Row>, i: nat, table: seq<Mapping>, sum: SumFn)
    requires 0 < i < |z| && z[i].clsch != z[i - 1].clsch
    requires !DraftPending(s0, z, i, table, sum).aborted
    ensures DraftPending(s0, z, i + 1, table, sum)
         == DraftProcessPerson(DraftPending(s0, z, i, table, sum), table, sum).(group := [z[i]], status := map[])
  {
    var p := z[..i];
    assert z[..i + 1] == p + [z[i]];
    RunsSnoc(p, z[i], ClschOf);
    RunsShape(p, ClschOf);
    var rs := Runs(p, ClschOf);
    assert DropLast(rs + [[z[i]]]) == rs;
  }

  lemma DraftPendingProcessed(s0: DraftState, z: seq<Row>, i: nat, table: seq<Mapping>, sum: SumFn)
    requires 0 < i <= |z|
    requires !DraftPending(s0, z, i, table, sum).aborted
    ensures DraftProcessPerson(DraftPending(s0, z, i, table, sum), table, sum)
         == DraftProcessRuns(s0, Runs(z[..i], ClschOf), table, sum)
  {
    RunsShape(z[..i], ClschOf);
  }

  lemma {:induction false} DraftAbortedStays(s: DraftState, rs: seq<seq<Row>>, table: seq<Mapping>, sum: SumFn)
    requires s.aborted
    ensures DraftProcessRuns(s, rs, table, sum) == s
    decreases |rs|
  {
    if rs != [] {
      DraftAbortedStays(s, DropLast(rs), table, sum);
    }
  }

  lemma {:induction false} DraftRunsAppend(s: DraftState, a: seq<seq<Row>>, b: seq<seq<Row>>, table: seq<Mapping>, sum: SumFn)
    ensures DraftProcessRuns(s, a + b, table, sum) == DraftProcessRuns(DraftProcessRuns(s, a, table, sum), b, table, sum)
    decreases |b|
  {
    if b == [] {
      assert a + b == a;
    } else {
      assert DropLast(a + b) == a + DropLast(b);
      assert Last(a + b) == Last(b);
      DraftRunsAppend(s, a, DropLast(b), table, sum);
    }
  }

  lemma DraftPendingAborts(s0: DraftState, z: seq<Row>, i: nat, table: seq<Mapping>, sum: SumFn)
    requires 0 < i < |z| && z[i].clsch != z[i - 1].clsch
    requires DraftProcessRuns(s0, Runs(z[..i], ClschOf), table, sum).aborted
    ensures DraftProcessRuns(s0, Runs(z, ClschOf), table, sum) == DraftProcessRuns(s0, Runs(z[..i], ClschOf), table, sum)
  {
    var p, q := z[..i], z[i..];
    assert z == p + q && Last(p) == z[i - 1] && q[0] == z[i];
    RunsAppend(p, q, ClschOf);
    DraftRunsAppend(s0, Runs(p, ClschOf), Runs(q, ClschOf), table, sum);
    DraftAbortedStays(DraftProcessRuns(s0, Runs(p, ClschOf), table, sum), Runs(q, ClschOf), table, sum);
  }

  // ------------------------------------------------------------ the class

  class OtpuskDraft {
    var group: seq<Row>
    /** person_status */
    var status: map<string, Status>
    var sql: seq<string>
    var log: seq<Event>
    var aborted: bool
    /** VARIABLE_VIDOPS of the draft */
    const table: seq<Mapping>
    /** the draft's sum_str */
    const sum: SumFn

    ghost function State(): DraftState
      reads this
    {
      DraftState(group, status, sql, log, aborted)
    }

    constructor(sum: SumFn)
      ensures table == DraftTable && this.sum == sum
      ensures State() == DraftState([], map[], [], [], false)
    {
      table := DraftTable;
      this.sum := sum;
      group, status, sql, log, aborted := [], map[], [], [], false;
    }

    /** start: on a new clsch the collected employee is processed and both
        the group and the status map start afresh; the tail is processed
        after the loop. */
    method Start(rows: seq<Row>)
      requires group == [] && status == map[] && !aborted
      modifies this
      ensures State() == DraftStartSpec(old(State()), rows, table, sum)
    {
      ghost var s0 := State();
      ghost var z := Zeroed(rows);
      var current := "-1";
      var i := 0;
      while i < |rows|
        invariant 0 <= i <= |rows|
        invariant i > 0 ==> current == z[i - 1].clsch
        invariant State() == DraftCollected(s0, z, i, table, sum)
        invariant !aborted
      {
        var row := rows[i].(summa := "0.00");
        assert row == z[i];
        var stop;
        current, stop := ReadRow(row, current, s0, z, i);
        if stop {
          return;
        }
        i := i + 1;
      }
      ProcessingPerson();
      if i > 0 {
        DraftPendingProcessed(s0, z, i, table, sum);
        assert z[..i] == z;
      }
    }

    /** The body of the start loop for row z[i]. */
    method ReadRow(row: Row, current: string, ghost s0: DraftState, ghost z: seq<Row>, i: nat)
      returns (next: string, stop: bool)
      requires i < |z| && row == z[i] && s0.group == [] && s0.status == map[]
      requires i > 0 ==> current == z[i - 1].clsch
      requires State() == DraftCollected(s0, z, i, table, sum) && !aborted
      modifies this
      ensures stop ==> State() == DraftProcessRuns(s0, Runs(z, ClschOf), table, sum)
      ensures !stop ==> next == row.clsch && State() == DraftCollected(s0, z, i + 1, table, sum) && !aborted
    {
      next, stop := current, false;
      if i == 0 {
        // the first row: the group is still empty, so processing it does nothing
        if row.clsch != current {
          ProcessingPerson();
          next := row.clsch;
          group, status := [], map[];
        }
        DraftPendingFirst(s0, z, table, sum);
      } else if row.clsch != current {
        ProcessingPerson();
        if aborted {
          DraftPendingProcessed(s0, z, i, table, sum);
          DraftPendingAborts(s0, z, i, table, sum);
          return next, true;
        }
        DraftPendingNewKey(s0, z, i, table, sum);
        next := row.clsch;
        group, status := [], map[];
      } else {
        DraftPendingSameKey(s0, z, i, table, sum);
      }
      group := group + [row];
    }

    /** processing_person */
    method ProcessingPerson()
      modifies this
      ensures State() == DraftProcessPerson(old(State()), table, sum)
    {
      if group == [] {
        return;
      }
      ProcessingVidops();
      if aborted {
        return;
      }
      CreateSqlRequest();
      ControlCompletProcessing();
    }

    /** processing_vidops: every row against every mapping. */
    method ProcessingVidops()
      modifies this
      ensures State() == DraftProcessFrom(old(State()), table, 0, sum)
    {
      ghost var st := State();
      ghost var goal := DraftProcessFrom(st, table, 0, sum);
      var i := 0;
      while i < |group| && !aborted
        invariant State() == st && i <= |st.group|
        invariant DraftProcessFrom(st, table, i, sum) == goal
        decreases |group| - i
      {
        st := TryMappings(st, table, st.group[i], 0, sum);
        TryAllMappings(group[i]);
        i := i + 1;
      }
    }

    /** The inner loop of processing_vidops for one row; it goes on after a
        match, so every mapping listing the code is applied. */
    method TryAllMappings(row: Row)
      modifies this
      ensures State() == TryMappings(old(State()), table, row, 0, sum)
    {
      ghost var st := State();
      ghost var goal := TryMappings(st, table, row, 0, sum);
      var k := 0;
      while k < |table| && !aborted
        invariant k <= |table|
        invariant State() == st && TryMappings(st, table, row, k, sum) == goal
        decreases |table| - k
      {
        if row.vidop in ToTuple(table[k].secondary) {
          st := DraftUpdateRow(st.(status := st.status[row.nrec := Processed]), row, ToTuple(table[k].primary), sum);
          status := status[row.nrec := Processed];
          UpdateUchrabvr(row, table[k].primary);
        }
        k := k + 1;
      }
    }

    /** update_uchrabvr of the draft */
    method UpdateUchrabvr(secondary: Row, primary: Codes)
      modifies this
      ensures State() == DraftUpdateRow(old(State()), secondary, ToTuple(primary), sum)
    {
      var ps := ToTuple(primary);
      var nums := FindUchrabvr([], ps, secondary.datan, secondary.datok);
      FindLinearBound(group, ps, secondary.datan, secondary.datok);
      if |nums| == 0 {
        log := log + [NoPrimary(secondary.tabn, secondary.vidop, secondary.datan, secondary.datok, ps)];
        return;
      }
      if |nums| > 1 {
        log := log + [ManyPrimaries(secondary.tabn, secondary.vidop, secondary.datan, secondary.datok, ps)];
        return;
      }
      UpdatePrimaryUchrabvr(nums[0], secondary);
    }

    /** find_uchrabvr of the draft: appends the positions to the list it is
        given and marks each candidate's nrec processed. */
    method FindUchrabvr(nums: seq<nat>, ps: seq<string>, datan: string, datok: string) returns (found: seq<nat>)
      modifies this
      ensures found == nums + FindLinear(group, ps, datan, datok)
      ensures State() == old(State()).(status := MarkAll(old(status), group, FindLinear(group, ps, datan, datok)))
    {
      found := nums;
      var g, st := group, status;
      for n := 0 to |g|
        invariant State() == old(State()) && g == group
        invariant found == nums + FindLinear(g[..n], ps, datan, datok)
        invariant st == MarkAll(status, g, FindLinear(g[..n], ps, datan, datok))
      {
        found, st := ScanRow(g, n, ps, datan, datok, nums, status, found, st);
      }
      assert g[..|g|] == g;
      status := st;
    }

    /** The inner loop of find_uchrabvr for row n. */
    static method ScanRow(g: seq<Row>, n: nat, ps: seq<string>, datan: string, datok: string,
                          ghost nums: seq<nat>, ghost st0: map<string, Status>, found0: seq<nat>, st1: map<string, Status>)
      returns (found: seq<nat>, st: map<string, Status>)
      requires n < |g|
      requires found0 == nums + FindLinear(g[..n], ps, datan, datok)
      requires st1 == MarkAll(st0, g, FindLinear(g[..n], ps, datan, datok))
      ensures found == nums + FindLinear(g[..n + 1], ps, datan, datok)
      ensures st == MarkAll(st0, g, FindLinear(g[..n + 1], ps, datan, datok))
    {
      found, st := found0, st1;
      var row := g[n];
      ghost var before := FindLinear(g[..n], ps, datan, datok);
      ghost var c := before;
      assert ps[..0] == [] && before + [] == before;
      for k := 0 to |ps|
        invariant c == before + Hits(KeyOf(row), n, ps[..k], datan, datok)
        invariant found == nums + c
        invariant st == MarkAll(st0, g, c)
      {
        HitsPrefix(KeyOf(row), n, ps, k, datan, datok);
        if row.vidop == ps[k] && row.datan == datan && row.datok == datok {
          found := found + [n];
          MarkAllSnoc(st0, g, c, n);
          st := st[row.nrec := Processed];
          SnocAssoc(nums, before, Hits(KeyOf(row), n, ps[..k], datan, datok), n);
          c := c + [n];
        }
      }
      assert ps[..|ps|] == ps;
      FindLinearPrefix(g, n, ps, datan, datok);
    }

    /** update_primary_uchrabvr of the draft */
    method UpdatePrimaryUchrabvr(j: nat, secondary: Row)
      requires j < |group|
      modifies this
      ensures State() == DraftUpdatePrimary(old(State()), j, secondary, sum)
    {
      var primary := group[j];
      match sum(primary.summa, secondary.summaval)
      case None =>
        log := log + [SumNotNumeric(secondary.tabn, primary.vidop, primary.summa, secondary.summaval)];
        aborted := true;
      case Some(summa) =>
        status := status[primary.nrec := WriteDown];
        group := group[j := primary.(summa := summa)];
    }

    /** create_SQL_request of the draft */
    method CreateSqlRequest()
      modifies this
      ensures State() == old(State()).(sql := old(sql) + DraftSqlFor(group, status))
    {
      for i := 0 to |group|
        invariant State() == old(State()).(sql := sql)
        invariant sql == old(sql) + DraftSqlFor(group[..i], status)
      {
        assert DropLast(group[..i + 1]) == group[..i];
        var row := group[i];
        if row.nrec in status && status[row.nrec] == WriteDown {
          sql := sql + [DraftStatement(row)];
        }
      }
      assert group[..|group|] == group;
    }

    /** control_complet_processing */
    method ControlCompletProcessing()
      modifies this
      ensures State() == old(State()).(log := old(log) + Unmarked(group, status))
    {
      for i := 0 to |group|
        invariant State() == old(State()).(log := log)
        invariant log == old(log) + Unmarked(group[..i], status)
      {
        assert DropLast(group[..i + 1]) == group[..i];
        if group[i].nrec !in status {
          log := log + [UnprocessedMarker(group[i].vidop)];
        }
      }
      assert group[..|group|] == group;
    }

    /** output_result */
    method OutputResult() returns (queries: seq<string>)
      ensures queries == sql
    {
      queries := sql;
    }
  }
}

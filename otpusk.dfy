/**
  The earlier engine of SRC/otpusk.py: the same algorithm as SRC/uchrabvr.py,
  over its own code table, finding primary rows by a linear scan instead of
  an index. Its methods are proved to compute the same Engine functions.
*/
module Otpusk {
  import opened Wrappers
  import opened Money
  import opened PayCodes
  import opened Grouping
  import opened Matching
  import opened Engine

  class Otpusk {
    /** person_uchrabvr */
    var group: seq<Row>
    /** processed_vidops */
    var processed: set<string>
    /** SQL_queries */
    var sql: seq<string>
    var returnCode: int
    var log: seq<Event>
    var aborted: bool
    /** VARIABLE_VIDOPS */
    const table: seq<Mapping>

    ghost function State(): EngineState
      reads this
    {
      EngineState(group, processed, sql, returnCode, log, aborted)
    }

    /** __init__: empty state over VARIABLE_VIDOPS, with the return code the
        configuration step reports (1 when the configuration file is
        missing). */
    constructor(configReturnCode: int)
      ensures table == OtpuskTable
      ensures State() == EngineState([], {}, [], configReturnCode, [], false)
    {
      table := OtpuskTable;
      group, processed, sql, returnCode, log, aborted := [], {}, [], configReturnCode, [], false;
    }

    /** start: as in SRC/uchrabvr.py, with a fresh list per employee. */
    method Start(rows: seq<Row>)
      requires group == [] && !aborted
      modifies this
      ensures State() == StartSpec(old(State()), rows, table)
    {
      ghost var s0 := State();
      ghost var st := s0;
      ghost var z := Zeroed(rows);
      var current := "-1";
      var i := 0;
      while i < |rows|
        invariant 0 <= i <= |rows|
        invariant i > 0 ==> current == z[i - 1].clsch
        invariant State() == st && st == Collected(s0, z, i, table)
        invariant !aborted
      {
        var row := rows[i].(summa := Zero);
        assert row == z[i];
        var stop;
        current, stop := ReadRow(row, current, s0, z, i);
        if stop {
          return;
        }
        st := State();
        i := i + 1;
      }
      ProcessingPerson();
      if i > 0 {
        PendingProcessed(s0, z, i, table);
        assert z[..i] == z;
      }
    }

    /** The body of the start loop for row z[i]. */
    method ReadRow(row: Row, current: string, ghost s0: EngineState, ghost z: seq<Row>, i: nat)
      returns (next: string, stop: bool)
      requires i < |z| && row == z[i] && s0.group == []
      requires i > 0 ==> current == z[i - 1].clsch
      requires State() == Collected(s0, z, i, table) && !aborted
      modifies this
      ensures stop ==> State() == ProcessRuns(s0, Runs(z, ClschOf), table)
      ensures !stop ==> next == row.clsch && State() == Collected(s0, z, i + 1, table) && !aborted
    {
      next, stop := current, false;
      if i == 0 {
        // the first row: the group is still empty, so processing it does nothing
        if row.clsch != current {
          ProcessingPerson();
          next := row.clsch;
          group := [];
        }
        PendingFirst(s0, z, table);
      } else if row.clsch != current {
        ProcessingPerson();
        if aborted {
          PendingProcessed(s0, z, i, table);
          PendingAborts(s0, z, i, table);
          return next, true;
        }
        PendingNewKey(s0, z, i, table);
        next := row.clsch;
        group := [];
      } else {
        PendingSameKey(s0, z, i, table);
      }
      group := group + [row];
    }

    /** processing_person */
    method ProcessingPerson()
      modifies this
      ensures State() == ProcessPerson(old(State()), table)
    {
      if group == [] {
        return;
      }
      ProcessingVidops();
      if aborted {
        return;
      }
      CreateSqlRequest();
      ControlProcessingCompletion();
    }

    /** processing_vidops */
    method ProcessingVidops()
      modifies this
      ensures State() == ProcessVidops(old(State()), table)
    {
      processed := {};
      ghost var st := State();
      ghost var goal := ProcessFrom(st, table, 0);
      var i := 0;
      while i < |group| && !aborted
        invariant State() == st && i <= |st.group|
        invariant ProcessFrom(st, table, i) == goal
        decreases |group| - i
      {
        ProcessFromUnfold(st, table, i);
        st := Step(st, table, st.group[i]);
        ResolveRow(group[i]);
        i := i + 1;
      }
    }

    /** The body of the vidops loop for one row (the break after the first
        mapping listing its code). */
    method ResolveRow(row: Row)
      modifies this
      ensures State() == Step(old(State()), table, row)
    {
      var k := 0;
      while k < |table|
        invariant k <= |table|
        invariant forall k' :: 0 <= k' < k ==> row.vidop !in ToTuple(table[k'].secondary)
        invariant State() == old(State())
      {
        if row.vidop in ToTuple(table[k].secondary) {
          StepUsesFirstMapping(State(), table, row, k);
          UpdateUchrabvr(row, table[k].primary);
          return;
        }
        k := k + 1;
      }
    }

    /** update_uchrabvr */
    method UpdateUchrabvr(secondary: Row, primary: Codes)
      modifies this
      ensures State() == UpdateRow(old(State()), secondary, ToTuple(primary))
    {
      var ps := ToTuple(primary);
      var nums := FindUchrabvr(primary, secondary.datan, secondary.datok);
      FindLinearBound(group, ps, secondary.datan, secondary.datok);
      if |nums| == 0 {
        log := log + [NoPrimary(secondary.tabn, secondary.vidop, secondary.datan, secondary.datok, ps)];
        returnCode := 1;
        return;
      }
      if |nums| > 1 {
        log := log + [ManyPrimaries(secondary.tabn, secondary.vidop, secondary.datan, secondary.datok, ps)];
        returnCode := 1;
        return;
      }
      UpdatePrimaryUchrabvr(nums[0], secondary);
    }

    /** find_uchrabvr: rows in order, the primary codes (a bare code as a
        one-element tuple) inside; a row matching k codes appears k times. */
    method FindUchrabvr(primary: Codes, datan: string, datok: string) returns (nums: seq<nat>)
      ensures nums == FindLinear(group, ToTuple(primary), datan, datok)
      ensures forall n: nat :: n in nums <==>
        n < |group| && group[n].vidop in ToTuple(primary) && group[n].datan == datan && group[n].datok == datok
    {
      var ps := ToTuple(primary);
      nums := [];
      for n := 0 to |group|
        invariant nums == FindLinear(group[..n], ps, datan, datok)
      {
        var row := group[n];
        assert DropLast(group[..n + 1]) == group[..n] && Last(group[..n + 1]) == row;
        for k := 0 to |ps|
          invariant nums == FindLinear(group[..n], ps, datan, datok) + Hits(KeyOf(row), n, ps[..k], datan, datok)
        {
          assert DropLast(ps[..k + 1]) == ps[..k];
          if row.vidop == ps[k] && row.datan == datan && row.datok == datok {
            nums := nums + [n];
          }
        }
        assert ps[..|ps|] == ps;
      }
      assert group[..|group|] == group;
      forall n: nat ensures n in nums <==> n < |group| && group[n].vidop in ps && group[n].datan == datan && group[n].datok == datok {
        FindLinearSpec(group, ps, datan, datok, n);
      }
    }

    /** update_primary_uchrabvr: both codes processed, then the sum. */
    method UpdatePrimaryUchrabvr(j: nat, secondary: Row)
      requires j < |group|
      modifies this
      ensures State() == UpdatePrimary(old(State()), j, secondary)
    {
      var primary := group[j];
      processed := processed + {primary.vidop};
      processed := processed + {secondary.vidop};
      assert processed == old(processed) + {primary.vidop, secondary.vidop};
      match SumStr(primary.summa, secondary.summaval)
      case None =>
        log := log + [SumNotNumeric(secondary.tabn, primary.vidop, primary.summa, secondary.summaval)];
        aborted := true;
      case Some(summa) =>
        group := group[j := primary.(summa := summa)];
    }

    /** create_SQL_request */
    method CreateSqlRequest()
      modifies this
      ensures State() == old(State()).(sql := old(sql) + SqlFor(group))
    {
      for i := 0 to |group|
        invariant State() == old(State()).(sql := sql)
        invariant sql == old(sql) + SqlFor(group[..i])
      {
        assert DropLast(group[..i + 1]) == group[..i];
        if group[i].summa != Zero {
          sql := sql + [Statement(group[i])];
        }
      }
      assert group[..|group|] == group;
    }

    /** control_processing_completion */
    method ControlProcessingCompletion()
      modifies this
      ensures State() == Coverage(old(State()))
    {
      for i := 0 to |group|
        invariant State() == old(State()).(log := log, returnCode := returnCode)
        invariant log == old(log) + Uncovered(group[..i], processed)
        invariant returnCode == if Uncovered(group[..i], processed) == [] then old(returnCode) else 1
      {
        var row := group[i];
        assert DropLast(group[..i + 1]) == group[..i];
        if row.vidop !in processed {
          log := log + [UnprocessedMarker(row.vidop)];
          log := log + [Unprocessed(row.tabn, row.vidop)];
          returnCode := 1;
        }
      }
      assert group[..|group|] == group;
    }

    /** output_result */
    method OutputResult() returns (queries: seq<string>)
      ensures queries == sql
    {
      queries := sql;
    }
  }
}

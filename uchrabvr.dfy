/**
  The payment engine of SRC/uchrabvr.py as a class over the engine state:
  the current employee's rows, the key index, the processed codes, the SQL
  statements, the return code and the diagnostics. Every method is proved
  to compute the function of Engine that specifies it, so the lemmas proved
  there hold of the class.
*/
module Uchrabvr {
  import opened Wrappers
  import opened Money
  import opened PayCodes
  import opened Grouping
  import opened Matching
  import opened Engine

  /** What _init_validate does with the validator's answer: no diagnostic
      when the table is clean; otherwise one diagnostic listing the repeats,
      and the constructor fails. */
  method InitValidate(table: seq<Mapping>) returns (logged: seq<Event>, raises: bool)
    ensures raises <==> !Distinct(AllCodes(table))
    ensures logged == if raises then [DuplicateCodes(Duplicates(AllCodes(table)))] else []
  {
    var codes := ValidateUniqueSecondaryCodes(table);
    NoDuplicatesIffDistinct(AllCodes(table));
    if codes != [] {
      logged, raises := [DuplicateCodes(codes)], true;
    } else {
      logged, raises := [], false;
    }
  }

  /** validate_unique_secondary_codes: every code of the table, primaries
      and secondaries, mapping by mapping; a code already seen is reported
      again each time it recurs. */
  method ValidateUniqueSecondaryCodes(table: seq<Mapping>) returns (duplicates: seq<string>)
    ensures duplicates == Duplicates(AllCodes(table))
  {
    var allCodes: set<string> := {};
    duplicates := [];
    ghost var seen: seq<string> := [];
    for i := 0 to |table|
      invariant seen == AllCodes(table[..i])
      invariant forall c :: c in allCodes <==> c in seen
      invariant duplicates == Duplicates(seen)
    {
      var codes := ToTuple(table[i].primary) + ToTuple(table[i].secondary);
      allCodes, duplicates := ScanCodes(allCodes, duplicates, seen, codes);
      AllCodesPrefix(table, i);
      seen := seen + codes;
    }
    assert table[..|table|] == table;
  }

  /** The inner loop of validate_unique_secondary_codes over the codes of
      one mapping, after the codes seen so far. */
  method ScanCodes(allCodes: set<string>, duplicates: seq<string>, ghost seen: seq<string>, codes: seq<string>)
    returns (allCodes': set<string>, duplicates': seq<string>)
    requires forall c :: c in allCodes <==> c in seen
    requires duplicates == Duplicates(seen)
    ensures forall c :: c in allCodes' <==> c in seen + codes
    ensures duplicates' == Duplicates(seen + codes)
  {
    allCodes', duplicates' := allCodes, duplicates;
    assert seen + codes[..0] == seen;
    for j := 0 to |codes|
      invariant forall c :: c in allCodes' <==> c in seen + codes[..j]
      invariant duplicates' == Duplicates(seen + codes[..j])
    {
      var code := codes[j];
      DuplicatesSnoc(seen + codes[..j], code);
      assert seen + codes[..j + 1] == (seen + codes[..j]) + [code];
      if code in allCodes' {
        duplicates' := duplicates' + [code];
      } else {
        allCodes' := allCodes' + {code};
      }
    }
    assert codes[..|codes|] == codes;
  }

  class Uchrabvr {
    /** person_uchrabvr */
    var group: seq<Row>
    /** _index_by_key */
    var index: KeyIndex
    /** processed_vidops */
    var processed: set<string>
    /** SQL_update_queries */
    var sql: seq<string>
    var returnCode: int
    /** the diagnostics written through Common.error */
    var log: seq<Event>
    /** a bad amount has raised out of the run */
    var aborted: bool
    /** PRIMARY_SECONDARY_PAYCODES */
    const table: seq<Mapping>

    ghost function State(): EngineState
      reads this
    {
      EngineState(group, processed, sql, returnCode, log, aborted)
    }

    /** __init__: the return code the configuration step reports, the
        validator (a repeated code fails construction), empty state. */
    constructor(table: seq<Mapping>, configReturnCode: int)
      ensures this.table == table
      ensures group == [] && index == map[] && processed == {} && sql == []
      ensures returnCode == configReturnCode
      ensures aborted <==> !Distinct(AllCodes(table))
      ensures log == if aborted then [DuplicateCodes(Duplicates(AllCodes(table)))] else []
    {
      this.table := table;
      returnCode := configReturnCode;
      var logged, raises := InitValidate(table);
      log, aborted := logged, raises;
      group, index, processed, sql := [], map[], {}, [];
    }

    /** start: rows arrive with summa zeroed; a new clsch sends the collected
        group to processing_person and starts a new group; the last group is
        processed after the loop. A failed amount ends the run. */
    method Start(rows: seq<Row>)
      requires group == [] && !aborted
      modifies this
      ensures State() == StartSpec(old(State()), rows, table)
    {
      ghost var s0 := State();
      ghost var st := s0;
      ghost var z := Zeroed(rows);
      var current := "-1";
      var i := 0;
      while i < |rows|
        invariant 0 <= i <= |rows|
        invariant i > 0 ==> current == z[i - 1].clsch
        invariant State() == st && st == Collected(s0, z, i, table)
        invariant !aborted
      {
        var row := rows[i].(summa := Zero);
        assert row == z[i];
        var stop;
        current, stop := ReadRow(row, current, s0, z, i);
        if stop {
          return;
        }
        st := State();
        i := i + 1;
      }
      ProcessingPerson();
      if i > 0 {
        PendingProcessed(s0, z, i, table);
        assert z[..i] == z;
      }
    }

    /** The body of the start loop for row z[i]: a new clsch first
        processes the collected group (stopping the run if an amount fails)
        and starts a new one; the row then joins the group. */
    method ReadRow(row: Row, current: string, ghost s0: EngineState, ghost z: seq<Row>, i: nat)
      returns (next: string, stop: bool)
      requires i < |z| && row == z[i] && s0.group == []
      requires i > 0 ==> current == z[i - 1].clsch
      requires State() == Collected(s0, z, i, table) && !aborted
      modifies this
      ensures stop ==> State() == ProcessRuns(s0, Runs(z, ClschOf), table)
      ensures !stop ==> next == row.clsch && State() == Collected(s0, z, i + 1, table) && !aborted
    {
      next, stop := current, false;
      if i == 0 {
        // the first row: the group is still empty, so processing it does nothing
        if row.clsch != current {
          ProcessingPerson();
          next := row.clsch;
          group := [];
        }
        PendingFirst(s0, z, table);
      } else if row.clsch != current {
        ProcessingPerson();
        if aborted {
          PendingProcessed(s0, z, i, table);
          PendingAborts(s0, z, i, table);
          return next, true;
        }
        PendingNewKey(s0, z, i, table);
        next := row.clsch;
        group := [];
      } else {
        PendingSameKey(s0, z, i, table);
      }
      group := group + [row];
    }

    /** processing_person: nothing for an empty group; otherwise index, the
        vidops loop, the statements and the control, stopping after a failed
        amount. */
    method ProcessingPerson()
      modifies this
      ensures State() == ProcessPerson(old(State()), table)
    {
      if group == [] {
        return;
      }
      CreateIndexByKey();
      ProcessingVidops();
      if aborted {
        return;
      }
      CreateSqlRequest();
      ControlProcessingCompletion();
    }

    /** create_index_by_key: the positions of the group under their keys. */
    method CreateIndexByKey()
      modifies this
      ensures index == Index(group)
      ensures State() == old(State())
    {
      var m: KeyIndex := map[];
      var g := group;
      for i := 0 to |g|
        invariant State() == old(State())
        invariant m == IndexOf(KeysOf(g[..i]))
      {
        var k := KeyOf(g[i]);
        assert g[..i + 1] == g[..i] + [g[i]];
        KeysOfSnoc(g[..i], g[i]);
        assert DropLast(KeysOf(g[..i + 1])) == KeysOf(g[..i]);
        m := m[k := Lookup(m, k) + [i]];
      }
      assert g[..|g|] == g;
      index := m;
    }

    /** processing_vidops: clear the processed set, then for each row (as it
        is now) the first mapping listing its code, if any. */
    method ProcessingVidops()
      requires index == Index(group)
      modifies this
      ensures State() == ProcessVidops(old(State()), table)
      ensures index == Index(group)
    {
      processed := {};
      ghost var st := State();
      ghost var goal := ProcessFrom(st, table, 0);
      var i := 0;
      while i < |group| && !aborted
        invariant State() == st && i <= |st.group|
        invariant index == Index(group)
        invariant ProcessFrom(st, table, i) == goal
        decreases |group| - i
      {
        ProcessFromUnfold(st, table, i);
        st := Step(st, table, st.group[i]);
        ResolveRow(group[i]);
        i := i + 1;
      }
    }

    /** The body of the vidops loop for one row: the first mapping whose
        secondary tuple lists the row's code, then stop looking (break). */
    method ResolveRow(row: Row)
      requires index == Index(group)
      modifies this
      ensures State() == Step(old(State()), table, row)
      ensures index == Index(group)
    {
      var k := 0;
      while k < |table|
        invariant k <= |table|
        invariant forall k' :: 0 <= k' < k ==> row.vidop !in ToTuple(table[k'].secondary)
        invariant State() == old(State()) && index == Index(group)
      {
        if row.vidop in ToTuple(table[k].secondary) {
          StepUsesFirstMapping(State(), table, row, k);
          UpdateUchrabvr(row, table[k].primary);
          return;
        }
        k := k + 1;
      }
    }

    /** update_uchrabvr: no candidate or several are an error; exactly one
        is updated. */
    method UpdateUchrabvr(secondary: Row, primary: Codes)
      requires index == Index(group)
      modifies this
      ensures State() == UpdateRow(old(State()), secondary, ToTuple(primary))
      ensures index == Index(group)
    {
      var ps := ToTuple(primary);
      var nums := FindUchrabvr(primary, secondary.datan, secondary.datok);
      SameDecision(group, ps, secondary.datan, secondary.datok);
      FindLinearBound(group, ps, secondary.datan, secondary.datok);
      if |nums| == 0 {
        log := log + [NoPrimary(secondary.tabn, secondary.vidop, secondary.datan, secondary.datok, ps)];
        returnCode := 1;
        return;
      }
      if |nums| > 1 {
        log := log + [ManyPrimaries(secondary.tabn, secondary.vidop, secondary.datan, secondary.datok, ps)];
        returnCode := 1;
        return;
      }
      ghost var g := group;
      UpdatePrimaryUchrabvr(nums[0], secondary);
      IndexIgnoresSums(group, g);
    }

    /** find_uchrabvr: the index lists of the primary codes with the given
        dates, concatenated in primary-code order. With an up-to-date index
        these are the positions the linear scan finds. */
    method FindUchrabvr(primary: Codes, datan: string, datok: string) returns (nums: seq<nat>)
      ensures nums == FindIndexed(index, ToTuple(primary), datan, datok)
      ensures index == Index(group) ==>
        multiset(nums) == multiset(FindLinear(group, ToTuple(primary), datan, datok))
    {
      var ps := ToTuple(primary);
      nums := [];
      for k := 0 to |ps|
        invariant nums == FindIndexed(index, ps[..k], datan, datok)
      {
        assert DropLast(ps[..k + 1]) == ps[..k];
        nums := nums + Lookup(index, Key(ps[k], datan, datok));
      }
      assert ps[..|ps|] == ps;
      IndexedMatchesLinear(group, ps, datan, datok);
    }

    /** update_primary_uchrabvr: both codes become processed before the
        addition; a failed addition is logged and raised. */
    method UpdatePrimaryUchrabvr(j: nat, secondary: Row)
      requires j < |group|
      modifies this
      ensures State() == UpdatePrimary(old(State()), j, secondary)
      ensures index == old(index)
    {
      var primary := group[j];
      AddVidopsToProcessedVidops(primary.vidop, secondary.vidop);
      match SumStr(primary.summa, secondary.summaval)
      case None =>
        log := log + [SumNotNumeric(secondary.tabn, primary.vidop, primary.summa, secondary.summaval)];
        aborted := true;
      case Some(summa) =>
        group := group[j := primary.(summa := summa)];
    }

    /** add_vidops_to_processed_vidops */
    method AddVidopsToProcessedVidops(vidop1: string, vidop2: string)
      modifies this
      ensures State() == old(State()).(processed := old(processed) + {vidop1, vidop2})
      ensures index == old(index)
    {
      processed := processed + {vidop1};
      processed := processed + {vidop2};
    }

    /** create_SQL_request: a statement per row whose summa is not ZERO,
        after the statements of earlier employees. */
    method CreateSqlRequest()
      modifies this
      ensures State() == old(State()).(sql := old(sql) + SqlFor(group))
    {
      for i := 0 to |group|
        invariant State() == old(State()).(sql := sql)
        invariant sql == old(sql) + SqlFor(group[..i])
      {
        assert DropLast(group[..i + 1]) == group[..i];
        if group[i].summa != Zero {
          sql := sql + [Statement(group[i])];
        }
      }
      assert group[..|group|] == group;
    }

    /** control_processing_completion: two lines and return code 1 per row
        whose code was not processed. */
    method ControlProcessingCompletion()
      modifies this
      ensures State() == Coverage(old(State()))
    {
      for i := 0 to |group|
        invariant State() == old(State()).(log := log, returnCode := returnCode)
        invariant log == old(log) + Uncovered(group[..i], processed)
        invariant returnCode == if Uncovered(group[..i], processed) == [] then old(returnCode) else 1
      {
        var row := group[i];
        assert DropLast(group[..i + 1]) == group[..i];
        if row.vidop !in processed {
          log := log + [UnprocessedMarker(row.vidop)];
          log := log + [Unprocessed(row.tabn, row.vidop)];
          returnCode := 1;
        }
      }
      assert group[..|group|] == group;
    }

    /** output_result */
    method OutputResult() returns (queries: seq<string>)
      ensures queries == sql
    {
      queries := sql;
    }
  }
}

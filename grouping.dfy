/**
  Cutting a stream of rows into maximal runs of consecutive rows with equal
  key. Every driver loop of the repository groups this way: the per-employee
  loops of start() in SRC/uchrabvr.py, SRC/otpusk.py, otpusk.py, SRC/uder.py
  and SRC/checkresult.py (key clsch), and the per-month loop of
  validate_person_groups (key group_vidud).
*/
module Grouping {

  function Last<T>(s: seq<T>): T
    requires |s| > 0
  {
    s[|s| - 1]
  }

  function DropLast<T>(s: seq<T>): seq<T>
    requires |s| > 0
  {
    s[..|s| - 1]
  }

  /** One more element: it joins the last run when its key is that run's key,
      and opens a new run otherwise. */
  function Extend<T>(rs: seq<seq<T>>, x: T, key: T -> string): seq<seq<T>>
  {
    if |rs| > 0 && |Last(rs)| > 0 && key(Last(Last(rs))) == key(x) then DropLast(rs) + [Last(rs) + [x]]
    else rs + [[x]]
  }

  /** The maximal runs of xs, in order. */
  function Runs<T>(xs: seq<T>, key: T -> string): seq<seq<T>>
  {
    if xs == [] then [] else Extend(Runs(DropLast(xs), key), Last(xs), key)
  }

  function Flatten<T>(rs: seq<seq<T>>): seq<T>
  {
    if rs == [] then [] else Flatten(DropLast(rs)) + Last(rs)
  }

  /** A non-empty run whose elements all carry the key of its first one. */
  ghost predicate Uniform<T>(r: seq<T>, key: T -> string)
  {
    |r| > 0 && forall a :: 0 <= a < |r| ==> key(r[a]) == key(r[0])
  }

  /** The key changes across the boundary in front of run i. */
  ghost predicate KeyChangesAt<T>(rs: seq<seq<T>>, i: int, key: T -> string)
  {
    0 < i < |rs| && |rs[i - 1]| > 0 && |rs[i]| > 0 && key(Last(rs[i - 1])) != key(rs[i][0])
  }

  /** rs is a split of xs into maximal runs: concatenated they give xs back,
      every run is non-empty with a constant key, and the key changes at each
      boundary between neighbouring runs. */
  ghost predicate IsRunSplit<T>(xs: seq<T>, rs: seq<seq<T>>, key: T -> string)
  {
    && Flatten(rs) == xs
    && (forall i :: 0 <= i < |rs| ==> Uniform(rs[i], key))
    && (forall i :: 0 < i < |rs| ==> KeyChangesAt(rs, i, key))
  }

  lemma FlattenSnoc<T>(rs: seq<seq<T>>, r: seq<T>)
    ensures Flatten(rs + [r]) == Flatten(rs) + r
  {
    assert DropLast(rs + [r]) == rs;
  }

  /** The runs of xs followed by one more element, spelled out. */
  lemma RunsSnoc<T>(xs: seq<T>, x: T, key: T -> string)
    ensures Runs(xs + [x], key) == Extend(Runs(xs, key), x, key)
  {
    assert DropLast(xs + [x]) == xs;
  }

  /** The runs of a non-empty stream end with its last element, and every run
      is uniform. */
  lemma {:induction false} RunsShape<T>(xs: seq<T>, key: T -> string)
    ensures |xs| > 0 <==> |Runs(xs, key)| > 0
    ensures |xs| > 0 ==> |Last(Runs(xs, key))| > 0 && Last(Last(Runs(xs, key))) == Last(xs)
    ensures forall i :: 0 <= i < |Runs(xs, key)| ==> Uniform(Runs(xs, key)[i], key)
    decreases |xs|
  {
    if xs != [] {
      var p, x := DropLast(xs), Last(xs);
      RunsShape(p, key);
      var rs := Runs(p, key);
      if |rs| > 0 && |Last(rs)| > 0 && key(Last(Last(rs))) == key(x) {
        var l := Last(rs);
        assert Uniform(rs[|rs| - 1], key);
        var rs' := DropLast(rs) + [l + [x]];
        assert Uniform(l + [x], key);
        forall i | 0 <= i < |rs'| ensures Uniform(rs'[i], key) {
          if i < |rs'| - 1 { assert rs'[i] == rs[i]; }
        }
      } else {
        var rs' := rs + [[x]];
        forall i | 0 <= i < |rs'| ensures Uniform(rs'[i], key) {
          if i < |rs| { assert rs'[i] == rs[i]; }
        }
      }
    }
  }

  /** Concatenating the runs gives the stream back. */
  lemma {:induction false} RunsFlatten<T>(xs: seq<T>, key: T -> string)
    ensures Flatten(Runs(xs, key)) == xs
    decreases |xs|
  {
    if xs != [] {
      var p, x := DropLast(xs), Last(xs);
      assert xs == p + [x];
      RunsFlatten(p, key);
      var rs := Runs(p, key);
      if |rs| > 0 && |Last(rs)| > 0 && key(Last(Last(rs))) == key(x) {
        var init, l := DropLast(rs), Last(rs);
        assert rs == init + [l];
        FlattenSnoc(init, l);
        FlattenSnoc(init, l + [x]);
      } else {
        FlattenSnoc(rs, [x]);
      }
    }
  }

  /** Neighbouring runs have different keys. */
  lemma {:induction false} RunsBoundaries<T>(xs: seq<T>, key: T -> string)
    ensures forall i :: 0 < i < |Runs(xs, key)| ==> KeyChangesAt(Runs(xs, key), i, key)
    decreases |xs|
  {
    if xs != [] {
      var p, x := DropLast(xs), Last(xs);
      RunsBoundaries(p, key);
      RunsShape(p, key);
      var rs := Runs(p, key);
      assert Runs(xs, key) == Extend(rs, x, key);
      if |rs| > 0 && |Last(rs)| > 0 && key(Last(Last(rs))) == key(x) {
        var rs' := DropLast(rs) + [Last(rs) + [x]];
        forall i | 0 < i < |rs'| ensures KeyChangesAt(rs', i, key) {
          assert KeyChangesAt(rs, i, key);
          assert rs'[i - 1] == rs[i - 1];
          if i < |rs'| - 1 { assert rs'[i] == rs[i]; } else { assert rs'[i][0] == rs[i][0]; }
        }
      } else {
        var rs' := rs + [[x]];
        forall i | 0 < i < |rs'| ensures KeyChangesAt(rs', i, key) {
          assert rs'[i - 1] == rs[i - 1];
          if i < |rs| {
            assert KeyChangesAt(rs, i, key);
            assert rs'[i] == rs[i];
          } else {
            assert rs'[i] == [x];
          }
        }
      }
    }
  }

  /** Runs computes a split into maximal runs. */
  lemma RunsAreMaximal<T>(xs: seq<T>, key: T -> string)
    ensures IsRunSplit(xs, Runs(xs, key), key)
  {
    RunsFlatten(xs, key);
    RunsShape(xs, key);
    RunsBoundaries(xs, key);
  }

  /** Extending only looks at the last run. */
  lemma ExtendAppend<T>(a: seq<seq<T>>, b: seq<seq<T>>, x: T, key: T -> string)
    requires |b| > 0
    ensures Extend(a + b, x, key) == a + Extend(b, x, key)
  {
    assert Last(a + b) == Last(b);
    assert DropLast(a + b) == a + DropLast(b);
  }

  /** Where two streams meet with different keys, their runs do not merge:
      the runs of the whole are the runs of the parts. */
  lemma {:induction false} RunsAppend<T>(p: seq<T>, q: seq<T>, key: T -> string)
    requires |p| > 0 && |q| > 0 && key(Last(p)) != key(q[0])
    ensures Runs(p + q, key) == Runs(p, key) + Runs(q, key)
    decreases |q|
  {
    var q', y := DropLast(q), Last(q);
    assert q == q' + [y];
    assert p + q == (p + q') + [y];
    RunsSnoc(p + q', y, key);
    RunsSnoc(q', y, key);
    if q' == [] {
      RunsShape(p, key);
      assert p + q' == p;
    } else {
      assert q'[0] == q[0];
      RunsAppend(p, q', key);
      RunsShape(q', key);
      ExtendAppend(Runs(p, key), Runs(q', key), y, key);
    }
  }

  /** Every element of a run is an element of the concatenation. */
  lemma {:induction false} FlattenContains<T>(rs: seq<seq<T>>, k: nat, j: nat)
    requires k < |rs| && j < |rs[k]|
    ensures rs[k][j] in Flatten(rs)
    decreases |rs|
  {
    if k < |rs| - 1 {
      FlattenContains(DropLast(rs), k, j);
    } else {
      assert Flatten(rs) == Flatten(DropLast(rs)) + rs[k];
    }
  }
}

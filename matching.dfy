/**
  Finding the primary rows a secondary row is added into. SRC/otpusk.py
  scans the employee's rows linearly (find_uchrabvr, rows outside, primary
  codes inside); SRC/uchrabvr.py first builds an index from
  (vidop, datan, datok) to positions (create_index_by_key) and concatenates
  the index lists of the primary codes. Both give the same positions up to
  order, so both engines take the same decision.
*/
module Matching {
  import opened Grouping

  /** UchrabvrStructure: one pre-posting row, every field a string. */
  datatype Row = Row(
    nrec: string, tabn: string, mes: string, mesn: string, vidop: string,
    summa: string, summaval: string, datan: string, datok: string, clsch: string)

  /** The grouping key of a row (start loop). */
  function ClschOf(r: Row): string { r.clsch }

  /** The lookup key of a row: its code and its payment period. */
  datatype Key = Key(vidop: string, datan: string, datok: string)

  function KeyOf(r: Row): Key { Key(r.vidop, r.datan, r.datok) }

  function KeysOf(g: seq<Row>): (ks: seq<Key>)
    ensures |ks| == |g| && forall i :: 0 <= i < |g| ==> ks[i] == KeyOf(g[i])
  {
    seq(|g|, i requires 0 <= i < |g| => KeyOf(g[i]))
  }

  lemma KeysOfSnoc(g: seq<Row>, r: Row)
    ensures KeysOf(g + [r]) == KeysOf(g) + [KeyOf(r)]
  {
  }

  // ------------------------------------------------------------ positions

  /** The positions, ascending, of the keys equal to k. */
  function Positions(ks: seq<Key>, k: Key): seq<nat>
  {
    if ks == [] then [] else Positions(DropLast(ks), k) + (if Last(ks) == k then [|ks| - 1] else [])
  }

  predicate Ascending(xs: seq<nat>)
  {
    forall a, b :: 0 <= a < b < |xs| ==> xs[a] < xs[b]
  }

  /** Positions lists exactly the positions holding k, each once, in order. */
  lemma {:induction false} PositionsSpec(ks: seq<Key>, k: Key)
    ensures forall i: nat :: i in Positions(ks, k) <==> i < |ks| && ks[i] == k
    ensures Ascending(Positions(ks, k))
    decreases |ks|
  {
    if ks != [] {
      var p := DropLast(ks);
      PositionsSpec(p, k);
      assert forall i: nat :: i < |p| ==> p[i] == ks[i];
      var ps := Positions(p, k);
      assert forall a :: 0 <= a < |ps| ==> ps[a] in ps;
    }
  }

  // ------------------------------------------------------------ the index

  /** _index_by_key: a defaultdict(list) from keys to positions. */
  type KeyIndex = map<Key, seq<nat>>

  /** self._index_by_key.get(k, []) */
  function Lookup(m: KeyIndex, k: Key): seq<nat>
  {
    if k in m then m[k] else []
  }

  /** The index create_index_by_key builds: position i is appended to the
      list of its key, for i ascending. */
  function IndexOf(ks: seq<Key>): KeyIndex
  {
    if ks == [] then map[]
    else
      var m, k := IndexOf(DropLast(ks)), Last(ks);
      m[k := Lookup(m, k) + [|ks| - 1]]
  }

  function Index(g: seq<Row>): KeyIndex
  {
    IndexOf(KeysOf(g))
  }

  /** The index maps every key to the ascending list of positions carrying
      it (so every position of the group lies under exactly its own key). */
  lemma {:induction false} IndexIsPositions(ks: seq<Key>, k: Key)
    ensures Lookup(IndexOf(ks), k) == Positions(ks, k)
    decreases |ks|
  {
    if ks != [] {
      IndexIsPositions(DropLast(ks), k);
    }
  }

  /** Every position sits under its own key and under no other. */
  lemma IndexPartitionsPositions(g: seq<Row>, k: Key, i: nat)
    ensures i in Lookup(Index(g), k) <==> i < |g| && KeyOf(g[i]) == k
    ensures Ascending(Lookup(Index(g), k))
  {
    IndexIsPositions(KeysOf(g), k);
    PositionsSpec(KeysOf(g), k);
  }

  // ------------------------------------------------------------ the lookups

  /** The hits of one row with key k at position i: i once per primary code
      matching it with the same dates (inner loop of the linear scan). */
  function Hits(k: Key, i: nat, ps: seq<string>, datan: string, datok: string): seq<nat>
  {
    if ps == [] then []
    else Hits(k, i, DropLast(ps), datan, datok) + (if k == Key(Last(ps), datan, datok) then [i] else [])
  }

  /** find_uchrabvr of SRC/otpusk.py: rows in order, primary codes inside. */
  function FindLinear(g: seq<Row>, ps: seq<string>, datan: string, datok: string): seq<nat>
  {
    if g == [] then []
    else FindLinear(DropLast(g), ps, datan, datok) + Hits(KeyOf(Last(g)), |g| - 1, ps, datan, datok)
  }

  /** find_uchrabvr of SRC/uchrabvr.py: the index lists of the primary codes,
      concatenated in primary-code order. */
  function FindIndexed(m: KeyIndex, ps: seq<string>, datan: string, datok: string): seq<nat>
  {
    if ps == [] then []
    else FindIndexed(m, DropLast(ps), datan, datok) + Lookup(m, Key(Last(ps), datan, datok))
  }

  /** The same concatenation read straight from the keys. */
  function CodeMajor(ks: seq<Key>, ps: seq<string>, datan: string, datok: string): seq<nat>
  {
    if ps == [] then []
    else CodeMajor(ks, DropLast(ps), datan, datok) + Positions(ks, Key(Last(ps), datan, datok))
  }

  lemma {:induction false} IndexedIsCodeMajor(ks: seq<Key>, ps: seq<string>, datan: string, datok: string)
    ensures FindIndexed(IndexOf(ks), ps, datan, datok) == CodeMajor(ks, ps, datan, datok)
    decreases |ps|
  {
    if ps != [] {
      IndexedIsCodeMajor(ks, DropLast(ps), datan, datok);
      IndexIsPositions(ks, Key(Last(ps), datan, datok));
    }
  }

  /** One more row adds its hits to the code-major concatenation. */
  lemma {:induction false} CodeMajorSnoc(ks: seq<Key>, k: Key, ps: seq<string>, datan: string, datok: string)
    ensures multiset(CodeMajor(ks + [k], ps, datan, datok))
         == multiset(CodeMajor(ks, ps, datan, datok)) + multiset(Hits(k, |ks|, ps, datan, datok))
    decreases |ps|
  {
    if ps != [] {
      var ps', q := DropLast(ps), Key(Last(ps), datan, datok);
      CodeMajorSnoc(ks, k, ps', datan, datok);
      assert DropLast(ks + [k]) == ks;
      assert Positions(ks + [k], q) == Positions(ks, q) + (if k == q then [|ks|] else []);
    }
  }

  lemma {:induction false} CodeMajorOfNothing(ps: seq<string>, datan: string, datok: string)
    ensures CodeMajor([], ps, datan, datok) == []
    decreases |ps|
  {
    if ps != [] {
      CodeMajorOfNothing(DropLast(ps), datan, datok);
    }
  }

  lemma {:induction false} LinearIsCodeMajor(g: seq<Row>, ps: seq<string>, datan: string, datok: string)
    ensures multiset(FindLinear(g, ps, datan, datok)) == multiset(CodeMajor(KeysOf(g), ps, datan, datok))
    decreases |g|
  {
    if g != [] {
      var g', r := DropLast(g), Last(g);
      assert g == g' + [r];
      LinearIsCodeMajor(g', ps, datan, datok);
      KeysOfSnoc(g', r);
      assert KeysOf(g) == KeysOf(g') + [KeyOf(r)];
      CodeMajorSnoc(KeysOf(g'), KeyOf(r), ps, datan, datok);
    } else {
      CodeMajorOfNothing(ps, datan, datok);
    }
  }

  /** The indexed lookup finds the same positions as the linear scan, each
      as often, only in another order. */
  lemma IndexedMatchesLinear(g: seq<Row>, ps: seq<string>, datan: string, datok: string)
    ensures multiset(FindIndexed(Index(g), ps, datan, datok)) == multiset(FindLinear(g, ps, datan, datok))
  {
    IndexedIsCodeMajor(KeysOf(g), ps, datan, datok);
    LinearIsCodeMajor(g, ps, datan, datok);
  }

  /** Hence both engines see the same number of candidates, and the same one
      when there is exactly one. */
  lemma SameDecision(g: seq<Row>, ps: seq<string>, datan: string, datok: string)
    ensures |FindIndexed(Index(g), ps, datan, datok)| == |FindLinear(g, ps, datan, datok)|
    ensures |FindLinear(g, ps, datan, datok)| == 1 ==>
      FindIndexed(Index(g), ps, datan, datok) == FindLinear(g, ps, datan, datok)
  {
    IndexedMatchesLinear(g, ps, datan, datok);
    SameMultiset(FindIndexed(Index(g), ps, datan, datok), FindLinear(g, ps, datan, datok));
  }

  lemma SameMultiset(a: seq<nat>, b: seq<nat>)
    requires multiset(a) == multiset(b)
    ensures |a| == |b| && (|b| == 1 ==> a == b)
  {
    assert |multiset(a)| == |a| && |multiset(b)| == |b|;
    if |b| == 1 {
      assert b == [b[0]];
      assert a[0] in multiset(b);
    }
  }

  /** n copies of position i. */
  function Repeat(n: nat, i: nat): (r: seq<nat>)
    ensures |r| == n && forall a :: 0 <= a < n ==> r[a] == i
  {
    if n == 0 then [] else Repeat(n - 1, i) + [i]
  }

  /** One more primary code of the list is tried. */
  lemma HitsPrefix(k: Key, i: nat, ps: seq<string>, j: nat, datan: string, datok: string)
    requires j < |ps|
    ensures Hits(k, i, ps[..j + 1], datan, datok) == Hits(k, i, ps[..j], datan, datok) + (if k == Key(ps[j], datan, datok) then [i] else [])
  {
    assert DropLast(ps[..j + 1]) == ps[..j] && Last(ps[..j + 1]) == ps[j];
  }

  /** One more row of the group is scanned. */
  lemma FindLinearPrefix(g: seq<Row>, n: nat, ps: seq<string>, datan: string, datok: string)
    requires n < |g|
    ensures FindLinear(g[..n + 1], ps, datan, datok) == FindLinear(g[..n], ps, datan, datok) + Hits(KeyOf(g[n]), n, ps, datan, datok)
  {
    assert DropLast(g[..n + 1]) == g[..n] && Last(g[..n + 1]) == g[n];
  }

  lemma SnocAssoc<T>(a: seq<T>, b: seq<T>, c: seq<T>, x: T)
    ensures (a + (b + c)) + [x] == a + ((b + c) + [x]) && (b + c) + [x] == b + (c + [x])
  {
  }

  /** A row is hit once per occurrence of its code among the primary codes,
      and not at all when its dates differ. */
  lemma {:induction false} HitsCount(k: Key, i: nat, ps: seq<string>, datan: string, datok: string)
    ensures Hits(k, i, ps, datan, datok) == Repeat(if k.datan == datan && k.datok == datok then multiset(ps)[k.vidop] else 0, i)
    decreases |ps|
  {
    if ps != [] {
      HitsCount(k, i, DropLast(ps), datan, datok);
      assert ps == DropLast(ps) + [Last(ps)];
    }
  }

  /** What the linear scan returns: a position appears iff its row carries
      one of the primary codes with the secondary's dates; rows come in
      ascending order. */
  lemma {:induction false} FindLinearSpec(g: seq<Row>, ps: seq<string>, datan: string, datok: string, i: nat)
    ensures i in FindLinear(g, ps, datan, datok) <==>
      i < |g| && g[i].vidop in ps && g[i].datan == datan && g[i].datok == datok
    decreases |g|
  {
    if g != [] {
      var g' := DropLast(g);
      FindLinearSpec(g', ps, datan, datok, i);
      HitsSpec(KeyOf(Last(g)), |g| - 1, ps, datan, datok, i);
      if i < |g'| { assert g[i] == g'[i]; }
    }
  }

  lemma {:induction false} HitsSpec(k: Key, n: nat, ps: seq<string>, datan: string, datok: string, i: nat)
    ensures i in Hits(k, n, ps, datan, datok) <==> i == n && k.vidop in ps && k.datan == datan && k.datok == datok
    decreases |ps|
  {
    if ps != [] {
      HitsSpec(k, n, DropLast(ps), datan, datok, i);
      assert ps == DropLast(ps) + [Last(ps)];
    }
  }
}

/**
  The table that pairs "primary" pay codes with the "secondary" (allowance)
  codes added into them, its normalisation and the uniqueness rule its
  validator enforces (PrimarySecondaryCodes and VARIABLE_VIDOPS in
  SRC/common.py, SRC/otpusk.py and otpusk.py; to_tuple in SRC/checkresult.py).
*/
module PayCodes {
  import opened Wrappers

  /** A side of a mapping: Python allows a bare code or a tuple of codes. */
  datatype Codes = Single(code: string) | Tuple(codes: seq<string>)

  datatype Mapping = Mapping(primary: Codes, secondary: Codes)

  /** to_tuple / normalize_tuple_str: a bare code becomes a one-element tuple. */
  function ToTuple(c: Codes): seq<string>
  {
    match c
    case Single(s) => [s]
    case Tuple(cs) => cs
  }

  /** normalize_codes: both sides as tuples, carrying the same codes. */
  function NormalizeCodes(m: Mapping): (r: Mapping)
    ensures r.primary.Tuple? && r.secondary.Tuple?
    ensures ToTuple(r.primary) == ToTuple(m.primary)
    ensures ToTuple(r.secondary) == ToTuple(m.secondary)
    ensures m.primary.Single? ==> r.primary == Tuple([m.primary.code])
    ensures m.secondary.Single? ==> r.secondary == Tuple([m.secondary.code])
  {
    Mapping(Tuple(ToTuple(m.primary)), Tuple(ToTuple(m.secondary)))
  }

  // ------------------------------------------------------------ the tables

  /** VARIABLE_VIDOPS of SRC/common.py (SRC/uchrabvr.py imports it under the
      name PRIMARY_SECONDARY_PAYCODES). */
  const CommonTable: seq<Mapping> := [
    Mapping(Tuple(["18", "48", "87", "204"]), Tuple(["305", "306"])),
    Mapping(Single("20"), Tuple(["315", "316"])),
    Mapping(Single("54"), Tuple(["313", "314"])),
    Mapping(Single("76"), Tuple(["309", "310"])),
    Mapping(Single("77"), Tuple(["311", "312"])),
    Mapping(Tuple(["106", "104", "110", "112"]), Tuple(["303", "304"])),
    Mapping(Tuple(["107", "111"]), Tuple(["307", "308"])),
    Mapping(Tuple(["108", "109"]), Tuple(["318", "319"]))
  ]

  /** VARIABLE_VIDOPS of SRC/otpusk.py: 303/304 appear in two entries. */
  const OtpuskTable: seq<Mapping> := [
    Mapping(Tuple(["18", "48", "87", "204"]), Tuple(["305", "306"])),
    Mapping(Single("20"), Tuple(["315", "316"])),
    Mapping(Single("54"), Tuple(["313", "314"])),
    Mapping(Single("76"), Tuple(["309", "310"])),
    Mapping(Single("77"), Tuple(["311", "312"])),
    Mapping(Single("106"), Tuple(["303", "304"])),
    Mapping(Tuple(["107", "111"]), Tuple(["307", "308"])),
    Mapping(Tuple(["108", "109"]), Tuple(["318", "319"])),
    Mapping(Tuple(["104", "110", "112"]), Tuple(["303", "304"]))
  ]

  /** VARIABLE_VIDOPS of the draft otpusk.py. */
  const DraftTable: seq<Mapping> := [
    Mapping(Tuple(["18", "48", "87"]), Tuple(["305", "306"])),
    Mapping(Single("20"), Tuple(["315", "316"])),
    Mapping(Single("54"), Tuple(["313", "314"])),
    Mapping(Single("76"), Tuple(["309", "310"])),
    Mapping(Single("77"), Tuple(["311", "312"])),
    Mapping(Single("106"), Tuple(["303", "304"])),
    Mapping(Single("107"), Tuple(["307", "308"])),
    Mapping(Tuple(["108", "109"]), Tuple(["318", "319"]))
  ]

  // ------------------------------------------------------------ lookup

  /** The first mapping whose secondary side lists the code. The engines stop
      at it (the break in processing_vidops), so later mappings listing the
      same code are never consulted for it. */
  function FirstMatch(table: seq<Mapping>, vidop: string): (r: Option<nat>)
    ensures r.Some? ==> r.value < |table| && vidop in ToTuple(table[r.value].secondary)
    ensures r.Some? ==> forall i :: 0 <= i < r.value ==> vidop !in ToTuple(table[i].secondary)
    ensures r.None? ==> forall i :: 0 <= i < |table| ==> vidop !in ToTuple(table[i].secondary)
  {
    if table == [] then None
    else if vidop in ToTuple(table[0].secondary) then Some(0)
    else match FirstMatch(table[1..], vidop)
      case None => None
      case Some(k) => Some(k + 1)
  }

  /** The first mapping listing the code is the one found. */
  lemma FirstMatchIsFirst(table: seq<Mapping>, vidop: string, k: nat)
    requires k < |table| && vidop in ToTuple(table[k].secondary)
    requires forall k' :: 0 <= k' < k ==> vidop !in ToTuple(table[k'].secondary)
    ensures FirstMatch(table, vidop) == Some(k)
  {
    var r := FirstMatch(table, vidop);
    assert r.Some?;
    assert !(r.value < k);
    assert !(r.value > k);
  }

  /** A mapping whose secondaries all appear in an earlier mapping is dead:
      no code ever resolves to it. */
  lemma ShadowedMappingIsUnused(table: seq<Mapping>, i: nat, j: nat, vidop: string)
    requires i < j < |table|
    requires forall c :: c in ToTuple(table[j].secondary) ==> c in ToTuple(table[i].secondary)
    ensures FirstMatch(table, vidop) != Some(j)
  {
  }

  /** In the table of SRC/otpusk.py, 303 and 304 resolve to primary 106, and
      the later entry (104, 110, 112) listing them again is never used. */
  lemma OtpuskTableFirstWins(vidop: string)
    ensures FirstMatch(OtpuskTable, "303") == Some(5) && FirstMatch(OtpuskTable, "304") == Some(5)
    ensures OtpuskTable[5].primary == Single("106")
    ensures FirstMatch(OtpuskTable, vidop) != Some(8)
  {
    var t := OtpuskTable;
    OtpuskHeadLacks303();
    FirstMatchIsFirst(t, "303", 5);
    FirstMatchIsFirst(t, "304", 5);
    assert ToTuple(t[5].secondary) == ToTuple(t[8].secondary) == ["303", "304"];
    ShadowedMappingIsUnused(t, 5, 8, vidop);
  }

  /** No mapping before the sixth of that table lists 303 or 304. */
  lemma OtpuskHeadLacks303()
    ensures forall i :: 0 <= i < 5 ==> "303" !in ToTuple(OtpuskTable[i].secondary) && "304" !in ToTuple(OtpuskTable[i].secondary)
  {
    var t := OtpuskTable;
    assert ToTuple(t[0].secondary) == ["305", "306"];
    assert ToTuple(t[1].secondary) == ["315", "316"];
    assert ToTuple(t[2].secondary) == ["313", "314"];
    assert ToTuple(t[3].secondary) == ["309", "310"];
    assert ToTuple(t[4].secondary) == ["311", "312"];
  }

  // ------------------------------------------------------------ uniqueness

  /** The codes of one mapping in the order the validator visits them:
      primaries, then secondaries. */
  function MappingCodes(m: Mapping): seq<string>
  {
    ToTuple(m.primary) + ToTuple(m.secondary)
  }

  /** Every code of the table, mapping by mapping. */
  function AllCodes(table: seq<Mapping>): seq<string>
  {
    if table == [] then [] else AllCodes(table[..|table| - 1]) + MappingCodes(table[|table| - 1])
  }

  predicate Distinct(xs: seq<string>)
  {
    forall i, j :: 0 <= i < j < |xs| ==> xs[i] != xs[j]
  }

  /** The repeats of xs in order: each occurrence of a code after its first. */
  function Duplicates(xs: seq<string>): seq<string>
  {
    if xs == [] then []
    else
      var p, y := xs[..|xs| - 1], xs[|xs| - 1];
      Duplicates(p) + (if y in p then [y] else [])
  }

  /** A code occurring k > 0 times in xs is reported k - 1 times. */
  lemma {:induction false} DuplicatesCount(xs: seq<string>, x: string)
    ensures multiset(Duplicates(xs))[x] == if x in xs then multiset(xs)[x] - 1 else 0
  {
    if xs != [] {
      var p, y := xs[..|xs| - 1], xs[|xs| - 1];
      assert xs == p + [y];
      DuplicatesCount(p, x);
      assert multiset(xs) == multiset(p) + multiset{y};
      assert multiset(Duplicates(xs)) == multiset(Duplicates(p)) + multiset(if y in p then [y] else []);
      assert x in xs <==> x in p || x == y;
    }
  }

  lemma DistinctSnoc(p: seq<string>, y: string)
    ensures Distinct(p + [y]) <==> Distinct(p) && y !in p
  {
    var xs := p + [y];
    if Distinct(xs) {
      assert forall i, j :: 0 <= i < j < |p| ==> p[i] == xs[i] && p[j] == xs[j];
      forall i | 0 <= i < |p| ensures p[i] != y {
        assert xs[i] == p[i] && xs[|p|] == y;
      }
    }
    if Distinct(p) && y !in p {
      forall i, j | 0 <= i < j < |xs| ensures xs[i] != xs[j] {
        if j == |p| { assert xs[i] == p[i]; }
      }
    }
  }

  /** The validator reports nothing exactly when all codes are distinct. */
  lemma {:induction false} NoDuplicatesIffDistinct(xs: seq<string>)
    ensures Duplicates(xs) == [] <==> Distinct(xs)
  {
    if xs != [] {
      var p, y := xs[..|xs| - 1], xs[|xs| - 1];
      assert xs == p + [y];
      NoDuplicatesIffDistinct(p);
      DistinctSnoc(p, y);
    }
  }

  /** Duplicates grows by one step per code read. */
  lemma DuplicatesSnoc(p: seq<string>, y: string)
    ensures Duplicates(p + [y]) == Duplicates(p) + (if y in p then [y] else [])
  {
    assert (p + [y])[..|p|] == p;
  }

  /** The codes of a table are those of its first k mappings followed by
      those of mapping k. */
  lemma AllCodesPrefix(t: seq<Mapping>, k: nat)
    requires k < |t|
    ensures AllCodes(t[..k + 1]) == AllCodes(t[..k]) + MappingCodes(t[k])
  {
    assert t[..k + 1][..k] == t[..k];
  }

  lemma AllCodesFirst(t: seq<Mapping>)
    requires |t| > 0
    ensures AllCodes(t[..1]) == MappingCodes(t[0])
  {
    var m := MappingCodes(t[0]);
    assert t[..1][..0] == [];
    assert [] + m == m;
  }

  lemma AllCodesOfThree(t: seq<Mapping>)
    requires |t| == 3
    ensures AllCodes(t) == MappingCodes(t[0]) + MappingCodes(t[1]) + MappingCodes(t[2])
  {
    AllCodesFirst(t);
    AllCodesPrefix(t, 1);
    AllCodesPrefix(t, 2);
    assert t[..3] == t;
  }

  lemma AllCodesOfEight(t: seq<Mapping>)
    requires |t| == 8
    ensures AllCodes(t) == MappingCodes(t[0]) + MappingCodes(t[1]) + MappingCodes(t[2]) + MappingCodes(t[3])
      + MappingCodes(t[4]) + MappingCodes(t[5]) + MappingCodes(t[6]) + MappingCodes(t[7])
  {
    AllCodesFirst(t);
    AllCodesPrefix(t, 1);
    AllCodesPrefix(t, 2);
    AllCodesPrefix(t, 3);
    AllCodesPrefix(t, 4);
    AllCodesPrefix(t, 5);
    AllCodesPrefix(t, 6);
    AllCodesPrefix(t, 7);
    assert t[..8] == t;
  }

  lemma AllCodesOfNine(t: seq<Mapping>)
    requires |t| == 9
    ensures AllCodes(t) == AllCodes(t[..8]) + MappingCodes(t[8])
  {
    AllCodesPrefix(t, 8);
    assert t[..9] == t;
  }

  /** The codes of SRC/common.py, mapping by mapping, joined. */
  lemma CommonJoin()
    ensures ["18", "48", "87", "204", "305", "306"]
      + ["20", "315", "316"]
      + ["54", "313", "314"]
      + ["76", "309", "310"]
      + ["77", "311", "312"]
      + ["106", "104", "110", "112", "303", "304"]
      + ["107", "111", "307", "308"]
      + ["108", "109", "318", "319"]
      == ["18", "48", "87", "204", "305", "306", "20", "315", "316", "54", "313", "314", "76", "309", "310", "77", "311", "312", "106", "104", "110", "112", "303", "304", "107", "111", "307", "308", "108", "109", "318", "319"]
  {
    assert ["18", "48", "87", "204", "305", "306"]
      + ["20", "315", "316"]
      == ["18", "48", "87", "204", "305", "306", "20", "315", "316"];
    assert ["18", "48", "87", "204", "305", "306", "20", "315", "316"]
      + ["54", "313", "314"]
      == ["18", "48", "87", "204", "305", "306", "20", "315", "316", "54", "313", "314"];
    assert ["18", "48", "87", "204", "305", "306", "20", "315", "316", "54", "313", "314"]
      + ["76", "309", "310"]
      == ["18", "48", "87", "204", "305", "306", "20", "315", "316", "54", "313", "314", "76", "309", "310"];
    assert ["18", "48", "87", "204", "305", "306", "20", "315", "316", "54", "313", "314", "76", "309", "310"]
      + ["77", "311", "312"]
      == ["18", "48", "87", "204", "305", "306", "20", "315", "316", "54", "313", "314", "76", "309", "310", "77", "311", "312"];
    assert ["18", "48", "87", "204", "305", "306", "20", "315", "316", "54", "313", "314", "76", "309", "310", "77", "311", "312"]
      + ["106", "104", "110", "112", "303", "304"]
      == ["18", "48", "87", "204", "305", "306", "20", "315", "316", "54", "313", "314", "76", "309", "310", "77", "311", "312", "106", "104", "110", "112", "303", "304"];
    assert ["18", "48", "87", "204", "305", "306", "20", "315", "316", "54", "313", "314", "76", "309", "310", "77", "311", "312", "106", "104", "110", "112", "303", "304"]
      + ["107", "111", "307", "308"]
      == ["18", "48", "87", "204", "305", "306", "20", "315", "316", "54", "313", "314", "76", "309", "310", "77", "311", "312", "106", "104", "110", "112", "303", "304", "107", "111", "307", "308"];
    assert ["18", "48", "87", "204", "305", "306", "20", "315", "316", "54", "313", "314", "76", "309", "310", "77", "311", "312", "106", "104", "110", "112", "303", "304", "107", "111", "307", "308"]
      + ["108", "109", "318", "319"]
      == ["18", "48", "87", "204", "305", "306", "20", "315", "316", "54", "313", "314", "76", "309", "310", "77", "311", "312", "106", "104", "110", "112", "303", "304", "107", "111", "307", "308", "108", "109", "318", "319"];
  }

  /** The codes of SRC/otpusk.py, mapping by mapping, joined. */
  lemma OtpuskJoin()
    ensures ["18", "48", "87", "204", "305", "306"]
      + ["20", "315", "316"]
      + ["54", "313", "314"]
      + ["76", "309", "310"]
      + ["77", "311", "312"]
      + ["106", "303", "304"]
      + ["107", "111", "307", "308"]
      + ["108", "109", "318", "319"]
      + ["104", "110", "112", "303", "304"]
      == ["18", "48", "87", "204", "305", "306", "20", "315", "316", "54", "313", "314", "76", "309", "310", "77", "311", "312", "106", "303", "304", "107", "111", "307", "308", "108", "109", "318", "319", "104", "110", "112", "303", "304"]
  {
    assert ["18", "48", "87", "204", "305", "306"]
      + ["20", "315", "316"]
      == ["18", "48", "87", "204", "305", "306", "20", "315", "316"];
    assert ["18", "48", "87", "204", "305", "306", "20", "315", "316"]
      + ["54", "313", "314"]
      == ["18", "48", "87", "204", "305", "306", "20", "315", "316", "54", "313", "314"];
    assert ["18", "48", "87", "204", "305", "306", "20", "315", "316", "54", "313", "314"]
      + ["76", "309", "310"]
      == ["18", "48", "87", "204", "305", "306", "20", "315", "316", "54", "313", "314", "76", "309", "310"];
    assert ["18", "48", "87", "204", "305", "306", "20", "315", "316", "54", "313", "314", "76", "309", "310"]
      + ["77", "311", "312"]
      == ["18", "48", "87", "204", "305", "306", "20", "315", "316", "54", "313", "314", "76", "309", "310", "77", "311", "312"];
    assert ["18", "48", "87", "204", "305", "306", "20", "315", "316", "54", "313", "314", "76", "309", "310", "77", "311", "312"]
      + ["106", "303", "304"]
      == ["18", "48", "87", "204", "305", "306", "20", "315", "316", "54", "313", "314", "76", "309", "310", "77", "311", "312", "106", "303", "304"];
    assert ["18", "48", "87", "204", "305", "306", "20", "315", "316", "54", "313", "314", "76", "309", "310", "77", "311", "312", "106", "303", "304"]
      + ["107", "111", "307", "308"]
      == ["18", "48", "87", "204", "305", "306", "20", "315", "316", "54", "313", "314", "76", "309", "310", "77", "311", "312", "106", "303", "304", "107", "111", "307", "308"];
    assert ["18", "48", "87", "204", "305", "306", "20", "315", "316", "54", "313", "314", "76", "309", "310", "77", "311", "312", "106", "303", "304", "107", "111", "307", "308"]
      + ["108", "109", "318", "319"]
      == ["18", "48", "87", "204", "305", "306", "20", "315", "316", "54", "313", "314", "76", "309", "310", "77", "311", "312", "106", "303", "304", "107", "111", "307", "308", "108", "109", "318", "319"];
    assert ["18", "48", "87", "204", "305", "306", "20", "315", "316", "54", "313", "314", "76", "309", "310", "77", "311", "312", "106", "303", "304", "107", "111", "307", "308", "108", "109", "318", "319"]
      + ["104", "110", "112", "303", "304"]
      == ["18", "48", "87", "204", "305", "306", "20", "315", "316", "54", "313", "314", "76", "309", "310", "77", "311", "312", "106", "303", "304", "107", "111", "307", "308", "108", "109", "318", "319", "104", "110", "112", "303", "304"];
  }

  /** The codes of the table of SRC/common.py in the validator's order. */
  lemma CommonTableCodes()
    ensures AllCodes(CommonTable) == ["18", "48", "87", "204", "305", "306", "20", "315", "316", "54", "313", "314", "76", "309", "310", "77", "311", "312", "106", "104", "110", "112", "303", "304", "107", "111", "307", "308", "108", "109", "318", "319"]
  {
    var t := CommonTable;
    AllCodesOfEight(t);
    assert MappingCodes(t[0]) == ["18", "48", "87", "204", "305", "306"];
    assert MappingCodes(t[1]) == ["20", "315", "316"];
    assert MappingCodes(t[2]) == ["54", "313", "314"];
    assert MappingCodes(t[3]) == ["76", "309", "310"];
    assert MappingCodes(t[4]) == ["77", "311", "312"];
    assert MappingCodes(t[5]) == ["106", "104", "110", "112", "303", "304"];
    assert MappingCodes(t[6]) == ["107", "111", "307", "308"];
    assert MappingCodes(t[7]) == ["108", "109", "318", "319"];
    CommonJoin();
  }

  lemma CommonCodesDistinct()
    ensures Distinct(["18", "48", "87", "204", "305", "306", "20", "315", "316", "54", "313", "314", "76", "309", "310", "77", "311", "312", "106", "104", "110", "112", "303", "304", "107", "111", "307", "308", "108", "109", "318", "319"])
  {
  }

  /** ... and none of them is repeated, so the validator returns []. */
  lemma CommonTableIsUnique()
    ensures Duplicates(AllCodes(CommonTable)) == []
  {
    CommonTableCodes();
    CommonCodesDistinct();
    NoDuplicatesIffDistinct(AllCodes(CommonTable));
  }

  /** The codes of the table of SRC/otpusk.py in the validator's order. */
  lemma OtpuskTableCodes()
    ensures AllCodes(OtpuskTable) == ["18", "48", "87", "204", "305", "306", "20", "315", "316", "54", "313", "314", "76", "309", "310", "77", "311", "312", "106", "303", "304", "107", "111", "307", "308", "108", "109", "318", "319", "104", "110", "112", "303", "304"]
  {
    var t := OtpuskTable;
    AllCodesOfNine(t);
    AllCodesOfEight(t[..8]);
    assert MappingCodes(t[0]) == ["18", "48", "87", "204", "305", "306"];
    assert MappingCodes(t[1]) == ["20", "315", "316"];
    assert MappingCodes(t[2]) == ["54", "313", "314"];
    assert MappingCodes(t[3]) == ["76", "309", "310"];
    assert MappingCodes(t[4]) == ["77", "311", "312"];
    assert MappingCodes(t[5]) == ["106", "303", "304"];
    assert MappingCodes(t[6]) == ["107", "111", "307", "308"];
    assert MappingCodes(t[7]) == ["108", "109", "318", "319"];
    assert MappingCodes(t[8]) == ["104", "110", "112", "303", "304"];
    OtpuskJoin();
  }

  /** Before the last two codes of that table, no code is repeated. */
  lemma OtpuskHeadDistinct()
    ensures Distinct(["18", "48", "87", "204", "305", "306", "20", "315", "316", "54", "313", "314", "76", "309", "310", "77", "311", "312", "106", "303", "304", "107", "111", "307", "308", "108", "109", "318", "319", "104", "110", "112"])
  {
  }

  /** Two repeats after a repeat-free prefix are reported in order. */
  lemma TwoRepeats(p: seq<string>, y: string, z: string)
    requires Distinct(p) && y in p && z in p
    ensures Duplicates(p + [y, z]) == [y, z]
  {
    NoDuplicatesIffDistinct(p);
    DuplicatesSnoc(p, y);
    DuplicatesSnoc(p + [y], z);
    assert p + [y] + [z] == p + [y, z];
  }

  /** The validator rejects the table of SRC/otpusk.py: 303 and 304 are
      repeated by its last entry. */
  lemma OtpuskTableDuplicates()
    ensures Duplicates(AllCodes(OtpuskTable)) == ["303", "304"]
  {
    OtpuskTableCodes();
    var p := ["18", "48", "87", "204", "305", "306", "20", "315", "316", "54", "313", "314", "76", "309", "310", "77", "311", "312", "106", "303", "304", "107", "111", "307", "308", "108", "109", "318", "319", "104", "110", "112"];
    assert AllCodes(OtpuskTable) == p + ["303", "304"];
    OtpuskHeadDistinct();
    assert p[19] == "303" && p[20] == "304";
    TwoRepeats(p, "303", "304");
  }

  /** The deliberately broken table of the validator's tests. */
  const BrokenTable: seq<Mapping> := [
    Mapping(Tuple(["18"]), Tuple(["305", "306"])),
    Mapping(Tuple(["20"]), Tuple(["315", "316"])),
    Mapping(Tuple(["54"]), Tuple(["305"]))
  ]

  lemma BrokenTableCodes()
    ensures AllCodes(BrokenTable) == ["18", "305", "306", "20", "315", "316", "54", "305"]
  {
    var t := BrokenTable;
    AllCodesOfThree(t);
    assert MappingCodes(t[0]) == ["18", "305", "306"];
    assert MappingCodes(t[1]) == ["20", "315", "316"];
    assert MappingCodes(t[2]) == ["54", "305"];
  }

  /** A single repeat after a repeat-free prefix is reported once. */
  lemma OneRepeat(p: seq<string>, y: string)
    requires Distinct(p) && y in p
    ensures Duplicates(p + [y]) == [y]
  {
    NoDuplicatesIffDistinct(p);
    DuplicatesSnoc(p, y);
  }

  /** ... reports the repeated secondary 305 exactly once. */
  lemma BrokenTableDuplicates()
    ensures Duplicates(AllCodes(BrokenTable)) == ["305"]
  {
    BrokenTableCodes();
    var p := ["18", "305", "306", "20", "315", "316", "54"];
    assert AllCodes(BrokenTable) == p + ["305"];
    assert p[1] == "305";
    OneRepeat(p, "305");
  }
}

/**
  Reading a log level from the configuration, as TuneLogger does in
  SRC/tune_logger.py: the raw parameter is normalised (_normalize_level),
  then turned into a number (level_str_int): a string of digits is taken as
  the number it spells, a level name is looked up case-insensitively, and
  anything else falls back to a default with a warning.
*/
module TuneLogger {
  import opened Wrappers
  import opened Money
  import opened Text

  /** A Python value handed in as a level parameter. PyText stands for a str,
      or any other object whose str() gives that text; PyUnprintable for an
      object whose __str__ raises. bool is a subclass of int in Python, so it
      takes the int branch of _normalize_level. */
  datatype PyValue = PyNone | PyInt(i: int) | PyBool(b: bool) | PyText(text: string) | PyUnprintable

  /** logging.DEBUG ... logging.CRITICAL */
  const Debug: int := 10
  const Info: int := 20
  const Warning: int := 30
  const Error: int := 40
  const Critical: int := 50

  /** LEVEL_STR_TO_INT */
  const LevelStrToInt: map<string, int> :=
    map["DEBUG" := Debug, "INFO" := Info, "WARNING" := Warning, "ERROR" := Error, "CRITICAL" := Critical]

  /** The default of level_default. */
  const DefaultLevel: int := Warning

  // ------------------------------------------------------------ str helpers

  /** str(i) of a Python int. */
  function IntStr(i: int): (s: string)
    ensures |s| > 0
    ensures i >= 0 ==> s == NatStr(i)
    ensures i < 0 ==> s == "-" + NatStr(-i)
  {
    if i >= 0 then NatStr(i) else "-" + NatStr(-i)
  }

  // ------------------------------------------------------------ the parse

  /** What _normalize_level gives: a level text, None, or the exception
      that str() raised. */
  datatype Normalized = NoLevel | LevelText(text: string) | StrRaised

  /** _normalize_level: None stays None, an int is printed as it is, and
      everything else is printed, stripped and upper-cased. */
  function NormalizeLevel(v: PyValue): (r: Normalized)
    ensures v.PyNone? <==> r == NoLevel
    ensures v.PyUnprintable? <==> r == StrRaised
    ensures v.PyInt? ==> r == LevelText(IntStr(v.i))
    ensures v.PyText? ==> r == LevelText(Upper(Strip(v.text)))
  {
    match v
    case PyNone => NoLevel
    case PyInt(i) => LevelText(IntStr(i))
    case PyBool(b) => LevelText(if b then "True" else "False")
    case PyText(t) => LevelText(Upper(Strip(t)))
    case PyUnprintable => StrRaised
  }

  /** _to_int_if_digit: the integer a string of ASCII digits spells; None
      for anything else, and None when str() raises. */
  function ToIntIfDigit(v: PyValue): (r: Option<int>)
    ensures r.Some? ==> r.value >= 0
    ensures v.PyText? ==> (r.Some? <==> IsDigits(v.text))
    ensures v.PyText? && IsDigits(v.text) ==> r == Some(DigitsValue(v.text) as int)
    ensures v.PyUnprintable? || v.PyNone? || v.PyBool? ==> r == None
  {
    match v
    case PyText(t) => if IsDigits(t) then Some(DigitsValue(t) as int) else None
    case PyInt(i) => if i >= 0 then Some(i) else None
    case _ => None
  }

  /** level_str_int's answer: the level, and whether the warning about an
      unknown level was emitted. */
  datatype LevelChoice = LevelChoice(level: int, warned: bool)

  /** level_str_int(level_str, level_default). */
  function LevelStrInt(levelStr: Option<string>, levelDefault: int): (r: LevelChoice)
    ensures r.warned <==>
      levelStr.Some? && levelStr.value != "" && !IsDigits(levelStr.value) && Upper(levelStr.value) !in LevelStrToInt
    ensures r.warned ==> r.level == levelDefault
  {
    if levelStr == None || levelStr.value == "" then LevelChoice(levelDefault, false)
    else match ToIntIfDigit(PyText(levelStr.value))
      case Some(n) => LevelChoice(n, false)
      case None =>
        var up := Upper(levelStr.value);
        if up in LevelStrToInt then LevelChoice(LevelStrToInt[up], false)
        else LevelChoice(levelDefault, true)
  }

  /** The level the constructor sets from a parameter:
      level_str_int(_normalize_level(v)) with the default WARNING; None
      when str() raises and the constructor fails. */
  function ConfiguredLevel(v: PyValue): (r: Option<LevelChoice>)
    ensures r == None <==> v.PyUnprintable?
  {
    match NormalizeLevel(v)
    case StrRaised => None
    case NoLevel => Some(LevelStrInt(None, DefaultLevel))
    case LevelText(t) => Some(LevelStrInt(Some(t), DefaultLevel))
  }

  // ------------------------------------------------------------ properties

  /** Whatever the text, the level is a known level, the number it spells,
      or the default. */
  lemma LevelIsKnownOrDefault(levelStr: Option<string>, levelDefault: int)
    ensures var r := LevelStrInt(levelStr, levelDefault);
      r.level in LevelStrToInt.Values || r.level == levelDefault
        || (levelStr.Some? && IsDigits(levelStr.value) && r.level == DigitsValue(levelStr.value))
  {
    var r := LevelStrInt(levelStr, levelDefault);
    if levelStr.Some? && levelStr.value != "" && !IsDigits(levelStr.value) && Upper(levelStr.value) in LevelStrToInt {
      assert r.level == LevelStrToInt[Upper(levelStr.value)];
    }
  }

  /** Digits and names never look alike: a name's first letter stays a
      letter under upper(). */
  lemma NameIsNotDigits(s: string)
    requires Upper(s) in LevelStrToInt
    ensures !IsDigits(s) && s != ""
  {
    var u := Upper(s);
    assert u[0] == 'D' || u[0] == 'I' || u[0] == 'W' || u[0] == 'E' || u[0] == 'C';
  }

  /** A level name in any letter case gives its number, without warning. */
  lemma NamesInAnyCase(s: string, levelDefault: int)
    requires Upper(s) in LevelStrToInt
    ensures LevelStrInt(Some(s), levelDefault) == LevelChoice(LevelStrToInt[Upper(s)], false)
  {
    NameIsNotDigits(s);
  }

  /** The decimal text of any natural number reads back as that number. */
  lemma NumbersRoundTrip(n: nat, levelDefault: int)
    ensures LevelStrInt(Some(NatStr(n)), levelDefault) == LevelChoice(n, false)
  {
    NatStrRoundTrip(n);
  }

  /** A non-negative int parameter is taken as the level itself. */
  lemma IntParameterIsItsLevel(n: int)
    requires n >= 0
    ensures ConfiguredLevel(PyInt(n)) == Some(LevelChoice(n, false))
  {
    NumbersRoundTrip(n, DefaultLevel);
  }

  /** A negative int parameter is printed with its minus sign, which is not
      a digit: the level falls back to WARNING with a warning. */
  lemma NegativeIntParameterWarns(n: int)
    requires n < 0
    ensures ConfiguredLevel(PyInt(n)) == Some(LevelChoice(Warning, true))
  {
    var t := IntStr(n);
    assert t[0] == '-' && !IsDigit(t[0]);
    assert Upper(t)[0] == '-';
  }

  /** A missing or blank parameter gives WARNING, without warning. */
  lemma BlankParameterIsDefault(v: PyValue)
    requires v.PyNone? || (v.PyText? && Strip(v.text) == "")
    ensures ConfiguredLevel(v) == Some(LevelChoice(Warning, false))
  {
  }

  /** Normalising a normalised text changes nothing, so passing a level
      through _normalize_level twice is harmless. */
  lemma NormalizeIsIdempotent(t: string)
    ensures NormalizeLevel(PyText(Upper(Strip(t)))) == NormalizeLevel(PyText(t))
  {
    UpperKeepsSpace(Strip(t));
    StripIdempotent(t);
    UpperIdempotent(Strip(t));
  }

  // ------------------------------------------------------------ the cases of TEST/test_tune_logger.py

  /** test_level_str_int: "DEBUG" gives 10 even with the default 101. */
  lemma DebugIgnoresDefault()
    ensures LevelStrInt(Some("DEBUG"), 101) == LevelChoice(Debug, false)
  {
    assert Upper("DEBUG") == "DEBUG";
    NamesInAnyCase("DEBUG", 101);
  }

  /** test_level_str_int_error: "Bad" warns and gives WARNING. */
  lemma BadLevelWarns()
    ensures ConfiguredLevel(PyText("Bad")) == Some(LevelChoice(Warning, true))
  {
    BadIsStripped();
    BadUpper();
    BadIsUnknown();
  }

  lemma BadIsStripped()
    ensures Strip("Bad") == "Bad"
  {
    assert !IsSpace("Bad"[0]) && !IsSpace("Bad"[2]);
  }

  lemma BadUpper()
    ensures Upper("Bad") == "BAD"
  {
  }

  lemma BadIsUnknown()
    ensures "BAD" !in LevelStrToInt && !IsDigits("BAD")
  {
    assert !IsDigit("BAD"[0]);
    assert |"BAD"| == 3;
  }

  /** test_to_int_if_digit: "21" gives 21; "-17", "21.3" and an object whose
      str() raises give None. */
  lemma ToIntIfDigitExamples()
    ensures ToIntIfDigit(PyText("21")) == Some(21)
    ensures ToIntIfDigit(PyText("-17")) == None
    ensures ToIntIfDigit(PyText("21.3")) == None
    ensures ToIntIfDigit(PyUnprintable) == None
  {
    assert "21"[..1] == "2" && "2"[..0] == [];
    assert !IsDigit("-17"[0]);
    assert !IsDigit("21.3"[2]);
  }
}

# Payroll pre-posting reconciliation, modelled in Dafny

The repository reconciles payroll pre-posting rows (UCHRABVR) and tax
deductions (UDER), one employee at a time. It has four parts.

- **Payment-code engine.** Rows are cut into contiguous runs by the employee
  key `clsch`, and every amount starts at `0.00`. Each secondary
  (allowance) row is resolved through the primary/secondary code table to a
  unique primary row with the same payment period (`datan`, `datok`). The
  secondary's `summaval` is added into that primary's `summa`, and the codes
  covered are recorded. No candidate, several candidates and an uncovered
  code are all reported, and each sets the return code to 1. An amount that
  is not a number stops the run. One `UPDATE` statement is produced per row
  whose sum is not `0.00`. There are three versions of the engine:
  - `SRC/uchrabvr.py`, which looks candidates up through an index;
  - `SRC/otpusk.py`, which scans the rows linearly;
  - the older draft `otpusk.py`, which keeps a status per `nrec` instead of
    a set of codes.
- **Money addition** (`sum_str`). Exact decimal addition, quantised to
  cents with banker's rounding (ROUND_HALF_EVEN) and printed as
  `[-]digits.dd`.
- **Tax-balance checker** (`SRC/uder.py`; `SRC/checkresult.py` runs the
  same checking code through its own `Common` object and its own `to_tuple`). For each employee, it keeps the tax codes
  13/182 of months up to a cutoff and stable-sorts them by month. It then
  sums each month and reports every month whose total is not `0.00`.
- **Logging helpers.** Parsing a configured log level
  (`SRC/tune_logger.py`), and two log handlers that collect codes carried by
  log messages into a set.

Modules and their sources:

| module (file) | models |
|---|---|
| `Wrappers` (wrappers.dfy) | Option type |
| `Money` (money.dfy) | `sum_str` of `SRC/common.py` and `SRC/otpusk.py`: decimals as sign, coefficient and exponent; parsing, exact addition, half-even quantisation, printing |
| `Text` (text.dfy) | `str.strip`, `str.upper`, `in`, `partition` and `split` on strings |
| `PayCodes` (paycodes.dfy) | the code tables (`SRC/common.py`, `SRC/otpusk.py`, `otpusk.py`), the normalisation of a scalar code to a one-element tuple, first-match lookup, the duplicate-code list |
| `Grouping` (grouping.dfy) | cutting a sequence into maximal runs of equal key (the `start` loops) |
| `Matching` (matching.dfy) | rows, keys, the index of `create_index_by_key`, the indexed and the linear `find_uchrabvr` |
| `Engine` (engine.dfy) | the engine of `SRC/uchrabvr.py` and `SRC/otpusk.py` as functions on an engine state |
| `Uchrabvr` (uchrabvr.dfy) | class `Uchrabvr` of `SRC/uchrabvr.py` and its validator, proved to compute `Engine`'s functions |
| `Otpusk` (otpusk.dfy) | class `Otpusk` of `SRC/otpusk.py`, proved against the same functions |
| `Draft` (draft.dfy) | class `Otpusk` of the root `otpusk.py`, with its own state functions |
| `Scenarios` (scenarios.dfy) | the engine cases of `TEST/test_uchrabvr.py`, and the table finding below |
| `TaxCheck` (taxcheck.dfy) | class `Uder` of `SRC/uder.py` (= `CheckResult` of `SRC/checkresult.py`) |
| `TaxScenarios` (taxscenarios.dfy) | the cases of `TEST/test_uder.py` |
| `TuneLogger` (tunelogger.dfy) | `_normalize_level`, `level_str_int`, `_to_int_if_digit`, `LEVEL_STR_TO_INT` |
| `Accumulate` (accumulate.dfy) | `AccumulateVidops` and `AccumulateNotProcessedVidops` |

The engine classes follow the source's form. Each one has fields for:

- the current employee's rows;
- the processed codes, or the status map in the draft;
- the index, in `Uchrabvr`;
- the statements, the return code and a log of diagnostic events;
- a flag recording that an amount failed. It stands for the exception that
  stops the run: the uncaught `decimal.InvalidOperation` in `SRC/`, and the
  re-raised `ValueError` of `float` in the draft.

Diagnostics are datatype events, not the Russian message texts. Each method
is proved to leave the object in the state a specification function gives
(`ensures State() == ProcessPerson(old(State()), table)`). The properties
are proved about those functions. `Matching.SameDecision` connects the
index-based lookup of `SRC/uchrabvr.py` to the linear one of
`SRC/otpusk.py`: they return the same multiset of positions, and therefore
make the same decision.

Where the `SRC/` engines import something that `SRC/common.py` does not
define, the model uses the nearest definition present:

- `PRIMARY_SECONDARY_PAYCODES` becomes the table `VARIABLE_VIDOPS` at
  `SRC/common.py:45-54` (`PayCodes.CommonTable`);
- `normalize_tuple_str` becomes `to_tuple` of `SRC/checkresult.py:147-152`
  (`PayCodes.ToTuple`).

## Model

| member | source | states |
|---|---|---|
| Money.Parse | SRC/common.py:158 | the model's `Decimal(s)` succeeds exactly on `[+-]digits[.digits]`, a subset of the texts `Decimal` accepts; the sign is the leading `-` and the exponent is the negated count of fraction digits |
| Money.Add | SRC/common.py:158 | the sum is exact at the smaller exponent; a zero sum is negative only when both operands are negative |
| Money.Quantize | SRC/common.py:159 | the result has exponent −2 and the operand's sign, and its coefficient is the half-even rounding of the operand's cents |
| Money.RoundingIsUnique | SRC/common.py:159 | half-even rounding picks exactly one cent value |
| Money.Format | SRC/common.py:159 | the printed text is always `[-]digits.dd` with no exponent, and begins with `-` iff the value is negative |
| Money.FormatRoundTrip | SRC/common.py:159 | reading back a printed two-place decimal gives the same decimal |
| Money.FormatInjective | SRC/common.py:159 | distinct two-place decimals print differently |
| Money.FormatIsZero | SRC/common.py:159 | the text is `0.00` iff the value is positive zero, so a negative zero prints as `-0.00`, which is not ZERO |
| Money.SumStr | SRC/common.py:152-159 | `sum_str` is defined iff both texts are decimals, and then it gives a money text; `sum_str` of SRC/otpusk.py is this same function |
| Money.SumStrIsRoundedExactSum | SRC/common.py:153-159 | the result reads back as the exact sum of the two decimals rounded half-even to cents, negative iff the exact sum is negative or both operands are negative zeros |
| Money.SumStrCommutes | SRC/common.py:158 | `sum_str(a, b) == sum_str(b, a)` for all texts |
| Money.ZeroIsIdentity | SRC/common.py:158-159 | adding to `0.00` gives back any printed two-place value, except a negative zero |
| Money.NatStrRoundTrip | SRC/tune_logger.py:166-174 | the decimal text of a natural number reads back as that number |
| Money.SumStrWholeNumbers | TEST/test_common.py:129-143 | `sum_str("7", "1") == "8.00"` |
| Money.SumStrMixedSigns | TEST/test_common.py:129-143 | `sum_str("5.321", "-3.617") == "1.70"` |
| Money.SumStrRejectsText | TEST/test_common.py:129-143 | `sum_str("3.t", "-3.617")` fails |
| Money.SumStrRejectsBadAmount | TEST/test_my_uchrabvr.py:98-100 | any sum with the amount `3t14` fails |
| Money.SumStrTieDown | SRC/common.py:159 | a tie rounds to the even cent: `0.005` gives `0.00` |
| Money.SumStrTieUp | SRC/common.py:159 | a tie rounds to the even cent: `0.015` gives `0.02` |
| Money.SumStrNegativeRoundsToZero | SRC/common.py:158-159 | a negative sum that rounds to zero prints `-0.00` |
| Money.SumStrNegativeZeros | SRC/common.py:158-159 | the sum of two negative zeros is `-0.00` |
| PayCodes.NormalizeCodes | SRC/checkresult.py:140-152 | both sides of a mapping become tuples listing the same codes; a scalar becomes a one-element tuple |
| PayCodes.FirstMatch | SRC/uchrabvr.py:241-248 | the mapping found is the first whose secondary tuple lists the code; none means no mapping lists it |
| PayCodes.FirstMatchIsFirst | SRC/uchrabvr.py:244-248 | any mapping that is first to list the code is the one found |
| PayCodes.ShadowedMappingIsUnused | SRC/otpusk.py:216-223 | a mapping whose secondaries all occur in an earlier mapping is never used |
| PayCodes.OtpuskTableFirstWins | SRC/otpusk.py:142-152 | 303 and 304 always resolve against primary 106, and the ("104", "110", "112") entry is never used |
| PayCodes.DuplicatesCount | SRC/uchrabvr.py:378-398 | a code occurring k > 0 times in the table is reported k − 1 times; other codes are not reported |
| PayCodes.NoDuplicatesIffDistinct | SRC/uchrabvr.py:378-398 | the report is empty iff all codes, primary and secondary, are distinct |
| PayCodes.CommonTableIsUnique | SRC/common.py:45-54 | the common table has no repeated code; the test expects `[]` from the validator on it |
| PayCodes.OtpuskTableDuplicates | SRC/otpusk.py:142-152 | the table of `SRC/otpusk.py` repeats 303 and 304 |
| PayCodes.BrokenTableDuplicates | SRC/uchrabvr.py:387-396 | a table repeating 305 gets the report `["305"]` |
| Grouping.RunsFlatten | SRC/uchrabvr.py:214-223 | the employee groups, concatenated in order, are exactly the input rows, so each row is processed once, in order |
| Grouping.RunsShape | SRC/uchrabvr.py:214-223 | there are groups iff there are rows; every group is non-empty and has one `clsch`; the last group ends with the last row |
| Grouping.RunsBoundaries | SRC/uchrabvr.py:217-220 | neighbouring groups have different `clsch` |
| Grouping.RunsAreMaximal | SRC/uchrabvr.py:214-223 | the groups are the maximal runs of equal `clsch` |
| Grouping.RunsAppend | SRC/otpusk.py:195-204 | when the key changes between two stretches of rows, grouping them together is grouping each separately |
| Matching.PositionsSpec | SRC/uchrabvr.py:236-239 | the positions listed for a key are exactly those carrying it, ascending |
| Matching.IndexIsPositions | SRC/uchrabvr.py:236-239 | the index maps each key to the ascending list of positions carrying it |
| Matching.IndexPartitionsPositions | SRC/uchrabvr.py:236-239 | a position lies under a key iff the row there has that key, so it lies under exactly one key |
| Matching.FindLinearSpec | SRC/otpusk.py:279-301 | the linear scan finds a position iff that row has one of the primary codes and the secondary's dates |
| Matching.HitsCount | SRC/otpusk.py:293-300 | a row is found once per occurrence of its code among the primary codes, and never when its dates differ |
| Matching.IndexedMatchesLinear | SRC/uchrabvr.py:308-325 | the indexed lookup returns the same multiset of positions as the linear scan of `SRC/otpusk.py` |
| Matching.SameDecision | SRC/otpusk.py:279-301 | both lookups see the same number of candidates, and the same candidate when there is exactly one |
| Engine.Zeroed | SRC/uchrabvr.py:208-211 | every row is read with `summa` ZERO and is otherwise unchanged |
| Engine.GroupsStartAtZero | SRC/uchrabvr.py:208-223 | every row of every employee group starts with `summa` ZERO |
| Engine.IndexIgnoresSums | SRC/uchrabvr.py:236-239 | the index depends on the keys only, so rewriting sums keeps it valid |
| Engine.UpdatePrimary | SRC/uchrabvr.py:327-352 | both codes are recorded as processed; only the primary's `summa` changes, to the decimal sum; a failed sum logs the amounts, keeps the rows and aborts, as the handler evidently intends |
| Engine.UpdatePrimaryAsWritten | SRC/uchrabvr.py:335-346 | as the code stands, a failed sum aborts with the same state as `UpdatePrimary` but logs nothing, because `Decimal` raises `InvalidOperation`, which `except ValueError` does not catch; a successful sum is `UpdatePrimary` |
| Engine.UpdateRow | SRC/uchrabvr.py:290-303 | with zero or several candidates, the return code becomes 1, a diagnostic is logged, and the rows and the processed set stay as they were; with exactly one, the state is `UpdatePrimary` on that candidate |
| Engine.Step | SRC/uchrabvr.py:244-248 | a row whose code is in no secondary tuple changes nothing; a row changes sums only |
| Engine.StepUsesFirstMapping | SRC/uchrabvr.py:244-248 | a row is resolved against the primaries of the first mapping listing its code |
| Engine.StepProgress | SRC/uchrabvr.py:241-248 | one row changes only sums of primary rows, only adds codes of the table, only appends diagnostics, only ever sets the return code to 1, and never resumes after a failure |
| Engine.ProcessFromProgress | SRC/uchrabvr.py:241-248 | the whole vidops loop keeps the same guarantees |
| Engine.WrittenSpec | SRC/uchrabvr.py:250-256 | a row gets a statement iff its `summa` is not ZERO |
| Engine.SqlForIsWritten | SRC/uchrabvr.py:250-256 | there is exactly one statement per such row, in row order, with the exact text |
| Engine.SqlForAppend | SRC/uchrabvr.py:252-254 | the statements of a longer group are those of its parts, in order |
| Engine.UncoveredSpec | SRC/uchrabvr.py:258-273 | a row is reported iff its code was not processed; there is no report iff every code was processed |
| Engine.CoverageReturnCode | SRC/uchrabvr.py:258-273 | an unprocessed code sets the return code to 1; with none, nothing changes |
| Engine.ProcessPersonGrows | SRC/uchrabvr.py:226-234 | processing an employee only appends statements and diagnostics and never resets the return code to 0 |
| Engine.AbortedStays | SRC/uchrabvr.py:346 | after a failed amount, no later employee is processed |
| Engine.ProcessRunsAppend | SRC/uchrabvr.py:215-223 | the employees are processed one after another |
| Engine.ProcessRunsGrows | SRC/uchrabvr.py:215-223 | the whole run only appends and never resets the return code |
| Engine.StartNeverResets | SRC/uchrabvr.py:200-223 | `start` never resets the return code, statements or log; on no rows it changes nothing |
| Uchrabvr.InitValidate | SRC/uchrabvr.py:371-377 | initialisation fails iff the table repeats a code, and then it logs the duplicate list |
| Uchrabvr.ValidateUniqueSecondaryCodes | SRC/uchrabvr.py:378-398 | the loop returns the list of repeated codes, as `PayCodes.Duplicates` specifies |
| Uchrabvr.Uchrabvr.constructor | SRC/uchrabvr.py:142-161 | the state starts empty with the configured return code; initialisation is aborted iff the table repeats a code |
| Uchrabvr.Uchrabvr.Start | SRC/uchrabvr.py:200-225 | the new state is that of processing the zeroed rows employee by employee |
| Uchrabvr.Uchrabvr.ReadRow | SRC/uchrabvr.py:215-221 | one pass of the loop: a key change processes the finished employee and starts a new group; otherwise the row is appended |
| Uchrabvr.Uchrabvr.ProcessingPerson | SRC/uchrabvr.py:226-235 | the new state is the specified processing of the employee |
| Uchrabvr.Uchrabvr.CreateIndexByKey | SRC/uchrabvr.py:236-240 | the index built is the index of the group; nothing else changes |
| Uchrabvr.Uchrabvr.ProcessingVidops | SRC/uchrabvr.py:241-249 | the state after the loop is the specified vidops pass from an empty processed set |
| Uchrabvr.Uchrabvr.ResolveRow | SRC/uchrabvr.py:244-248 | one row is resolved as the step function says |
| Uchrabvr.Uchrabvr.UpdateUchrabvr | SRC/uchrabvr.py:276-307 | zero, one or many candidates are handled as `Engine.UpdateRow` says |
| Uchrabvr.Uchrabvr.FindUchrabvr | SRC/uchrabvr.py:308-326 | the lists of the primary codes are concatenated in primary order, with the multiset of the linear scan |
| Uchrabvr.Uchrabvr.UpdatePrimaryUchrabvr | SRC/uchrabvr.py:327-353 | the primary is updated as `Engine.UpdatePrimary` says, and the index is kept |
| Uchrabvr.Uchrabvr.AddVidopsToProcessedVidops | SRC/uchrabvr.py:354-358 | both codes are added to the processed set; nothing else changes |
| Uchrabvr.Uchrabvr.CreateSqlRequest | SRC/uchrabvr.py:250-257 | the group's statements are appended after the earlier ones |
| Uchrabvr.Uchrabvr.ControlProcessingCompletion | SRC/uchrabvr.py:258-275 | the uncovered rows are reported and the return code set as `Engine.Coverage` says |
| Uchrabvr.Uchrabvr.OutputResult | SRC/uchrabvr.py:401-404 | the statements collected are returned |
| Otpusk.Otpusk.constructor | SRC/otpusk.py:167-185 | the table is the file's own table, and the state starts empty with the configured return code |
| Otpusk.Otpusk.Start | SRC/otpusk.py:188-205 | the new state is that of processing the zeroed rows employee by employee |
| Otpusk.Otpusk.ReadRow | SRC/otpusk.py:196-202 | one pass of the loop, as in `SRC/uchrabvr.py` |
| Otpusk.Otpusk.ProcessingPerson | SRC/otpusk.py:207-215 | the new state is the specified processing of the employee |
| Otpusk.Otpusk.ProcessingVidops | SRC/otpusk.py:216-224 | the state after the loop is the specified vidops pass |
| Otpusk.Otpusk.ResolveRow | SRC/otpusk.py:219-223 | one row is resolved against the first mapping listing its code |
| Otpusk.Otpusk.UpdateUchrabvr | SRC/otpusk.py:251-278 | zero, one or many candidates are handled as `Engine.UpdateRow` says |
| Otpusk.Otpusk.FindUchrabvr | SRC/otpusk.py:279-302 | a scalar code is one code; a position is returned iff its row has one of the codes and the dates |
| Otpusk.Otpusk.UpdatePrimaryUchrabvr | SRC/otpusk.py:303-324 | the primary is updated as `Engine.UpdatePrimary` says |
| Otpusk.Otpusk.CreateSqlRequest | SRC/otpusk.py:225-232 | the group's statements are appended |
| Otpusk.Otpusk.ControlProcessingCompletion | SRC/otpusk.py:233-250 | the uncovered rows are reported and the return code set |
| Otpusk.Otpusk.OutputResult | SRC/otpusk.py:351-354 | the statements collected are returned |
| Draft.MarkAllSpec | otpusk.py:149-157 | marking candidates sets `processed` on exactly the candidates' nrecs and keeps every other status |
| Draft.DraftUpdatePrimary | otpusk.py:160-178 | on success, the primary's `summa` becomes the sum, its status is overwritten with `write_down` and nothing is logged; a failed sum logs the not-a-number diagnostic with both amounts, keeps the rows and statuses, and aborts |
| Draft.DraftUpdateRow | otpusk.py:122-139 | a lookup only rewrites sums and never writes a statement; no candidate logs the no-primary diagnostic and changes no row and no status; several candidates log the many-primaries diagnostic, change no row and mark each candidate processed; exactly one goes to `DraftUpdatePrimary` after the marking |
| Draft.AmbiguousLookupMarks | otpusk.py:133-138 | with several candidates, each one is still marked `processed`, and no row changes |
| Draft.UniqueLookupWritesDown | otpusk.py:139 | with one candidate, only it changes, to the sum, and it ends `write_down` |
| Draft.TryMappings | otpusk.py:101-106 | trying the mappings only rewrites sums |
| Draft.TryMappingsKeepsMarks | otpusk.py:101-106 | an nrec once marked stays marked: no mapping removes a status |
| Draft.SecondaryIsMarked | otpusk.py:104-105 | a row whose code occurs in some secondary tuple ends with a status |
| Draft.DraftProcessFrom | otpusk.py:101-106 | the vidops loop only rewrites sums |
| Draft.DraftSqlForSpec | otpusk.py:108-113 | a statement is written for a row iff its status is exactly `write_down` |
| Draft.UnmarkedSpec | otpusk.py:115-120 | a row is reported iff its nrec has no status at all |
| Draft.DraftRunsGrow | otpusk.py:83-91 | processing employees only appends statements |
| Draft.DraftAbortedStays | otpusk.py:175 | after a failed sum nothing further happens |
| Draft.DraftRunsAppend | otpusk.py:84-91 | the employees are processed one after another |
| Draft.OtpuskDraft.constructor | otpusk.py:68-76 | the state starts empty with the draft's table and the supplied summation |
| Draft.OtpuskDraft.Start | otpusk.py:78-92 | the new state is that of processing the zeroed rows employee by employee, resetting rows and statuses at every key change |
| Draft.OtpuskDraft.ReadRow | otpusk.py:84-90 | one pass of the loop |
| Draft.OtpuskDraft.ProcessingPerson | otpusk.py:93-100 | the new state is the specified processing of the employee |
| Draft.OtpuskDraft.ProcessingVidops | otpusk.py:101-107 | every row is tried against every mapping, with no `break` |
| Draft.OtpuskDraft.TryAllMappings | otpusk.py:103-106 | one row is tried against all mappings, marking it before each lookup |
| Draft.OtpuskDraft.UpdateUchrabvr | otpusk.py:122-140 | one lookup, as `Draft.DraftUpdateRow` says |
| Draft.OtpuskDraft.FindUchrabvr | otpusk.py:141-159 | the candidates are appended to the list passed in, and every candidate is marked `processed` |
| Draft.OtpuskDraft.UpdatePrimaryUchrabvr | otpusk.py:160-179 | the primary is updated as `Draft.DraftUpdatePrimary` says |
| Draft.OtpuskDraft.CreateSqlRequest | otpusk.py:108-114 | the statements of the written-down rows are appended |
| Draft.OtpuskDraft.ControlCompletProcessing | otpusk.py:115-121 | a report is logged for every row without a status |
| Draft.OtpuskDraft.OutputResult | otpusk.py:200-203 | the statements collected are returned |
| Scenarios.SecondaryIsAddedIntoPrimary | TEST/test_uchrabvr.py:100-115 | rows 18 and 305 (amount 100.00) give the single statement for nrec=10, and a code 999 of another employee is reported |
| Scenarios.LoneSecondaryFindsNoPrimary | TEST/test_uchrabvr.py:123-145 | a lone 305 finds no primary: return code 1, no statement |
| Scenarios.TwoCandidatesAreAmbiguous | TEST/test_uchrabvr.py:148-207 | for the test's rows, one lookup of the 305 finds primaries 18 and 48 and is ambiguous: return code 1, nothing updated |
| Scenarios.Otpusk303MissesPrimary104 | SRC/otpusk.py:142-152 | with the table as written, a 303 row next to a 104 primary finds no primary |
| Scenarios.Common303ReachesPrimary104 | SRC/common.py:45-54 | with the corrected table, the same 303 is added into primary 104 |
| Scenarios.BadSumGoesUnlogged | TEST/test_my_uchrabvr.py:95-107 | with the amount `3t14`, the code as it stands stops with nothing logged, while the intended handling logs the not-a-number diagnostic with both amounts and stops |
| TaxCheck.NormalizeMount | SRC/uder.py:158-167 | the month always has two characters: `""` gives `00`, one character c gives `0c`, longer texts their first two characters; the copy at SRC/checkresult.py:153-162 runs the same code |
| TaxCheck.NormalizeMountIdempotent | SRC/uder.py:158-167 | normalising a normalised month changes nothing |
| TaxCheck.NormalizeMountExamples | TEST/test_uder.py:21-26 | `""`, `"7"`, `"11"`, `"12XX"` give `00`, `07`, `11`, `12` |
| TaxCheck.MonthOrderIsNumeric | SRC/uder.py:143-146 | for one- and two-digit months, string order of the normalised months is numeric order |
| TaxCheck.LexLessTotal | SRC/uder.py:178 | string order is a strict total order, so the sort is well defined |
| TaxCheck.CreateGroupKey | SRC/uder.py:135-150 | a row has a key iff its code is 13 or 182 and its normalised month is not after the cutoff; the key is the normalised month; the copy at SRC/checkresult.py:124-139 runs the same code |
| TaxCheck.KeyedSpec | SRC/uder.py:168-176 | the rows kept are exactly those with a key, tagged with it |
| TaxCheck.SortByMonthSpec | SRC/uder.py:178 | the sort is ordered by month, is a permutation, and keeps the order of each month's rows (stable) |
| TaxCheck.CheckRunsGrows | SRC/uder.py:191-211 | checking an employee only appends log lines, and does nothing once aborted |
| TaxCheck.CheckRunsReportsNonZero | SRC/uder.py:181-190 | every line logged has a total that is not ZERO, the month of a run, and that run's folded total |
| TaxCheck.SortedRunsAscend | SRC/uder.py:200-209 | in a sorted list, the month runs ascend strictly, so each month is checked exactly once |
| TaxCheck.TaxChecker.constructor | SRC/uder.py:72-103 | the cutoff is normalised once, and the state starts empty |
| TaxCheck.TaxChecker.Start | SRC/uder.py:104-129 | the new state is that of checking each employee's run of rows in order; the copy at SRC/checkresult.py:95-119 runs the same code |
| TaxCheck.TaxChecker.ReadRow | SRC/uder.py:115-125 | one pass of the loop: the first row sets the key, and a key change checks the finished employee |
| TaxCheck.TaxChecker.ProcessingPerson | SRC/uder.py:130-134 | the employee is filtered, sorted and validated as specified |
| TaxCheck.TaxChecker.FilterSortByGroup | SRC/uder.py:168-180 | the result is sorted by month and holds exactly the keyed rows, tagged with their month; the copy at SRC/checkresult.py:163-174 runs the same code |
| TaxCheck.TaxChecker.CheckSumma | SRC/uder.py:181-190 | a line with the tab number, month and total is logged iff there is a row and the total is not ZERO |
| TaxCheck.TaxChecker.ValidatePersonGroups | SRC/uder.py:191-211 | each month's total is the left fold of `sum_str` from ZERO over its amounts, and is checked once; an empty list checks nothing; a failed sum aborts; the copy at SRC/checkresult.py:184-204 runs the same code |
| TaxCheck.TaxChecker.ValidateRow | SRC/uder.py:200-208 | one pass of the loop: the row's amount is added to its month's total with `sum_str`, and a failed sum aborts |
| TaxCheck.TaxChecker.SwitchMonth | SRC/uder.py:201-206 | the first row sets the month; a month change checks the finished month with its last row and restarts the total at ZERO |
| TaxScenarios.FilterSortExample | TEST/test_uder.py:73-109 | months 6, 4 and 5 (code 999) give the rows for `04` and `06` |
| TaxScenarios.MayFirstSum | TEST/test_uder.py:29-70 | `0.00` plus `100.00` is `100.00` |
| TaxScenarios.MaySecondSum | TEST/test_uder.py:29-70 | `100.00` plus `-90.00` is `10.00` |
| TaxScenarios.GroupingExample | TEST/test_uder.py:29-70 | amounts 100.00 and −90.00 in month 5 log a residual of 10.00 for `05`; month 7 is past the default cutoff 6 |
| Text.StripLeft | SRC/accumulatevidops.py:76 | the result is a suffix with no leading white space, and what is dropped is white space |
| Text.StripRight | SRC/accumulatevidops.py:76 | the result is a prefix with no trailing white space, and what is dropped is white space |
| Text.StripIdempotent | SRC/tune_logger.py:72 | stripping twice is stripping once |
| Text.UpperKeepsSpace | SRC/tune_logger.py:72 | upper-casing keeps white space exactly where it was |
| Text.Find | SRC/accumulatevidops.py:74 | the position found is the first occurrence of the marker; none means no occurrence |
| Text.After | SRC/accumulatevidops.py:74 | the text is the part before the first marker, the marker, then the part returned |
| Text.FirstOccurrence | SRC/accumulatevidops.py:17-18 | a marker whose first character is not in the prefix is found right after it |
| TuneLogger.IntStr | SRC/tune_logger.py:70-71 | `str` of an int is its decimal text, with `-` for a negative |
| TuneLogger.NormalizeLevel | SRC/tune_logger.py:66-72 | None stays None; an int is printed as it is; anything else is printed, stripped and upper-cased; a failing `str` raises |
| TuneLogger.NormalizeIsIdempotent | SRC/tune_logger.py:66-72 | normalising a normalised text changes nothing |
| TuneLogger.ToIntIfDigit | SRC/tune_logger.py:166-174 | a text is a number iff it is all ASCII digits, and then it is their value; a failing `str` gives None |
| TuneLogger.ToIntIfDigitExamples | TEST/test_tune_logger.py:46-54 | `"21"` is 21; `"-17"`, `"21.3"` and an object whose `str` raises give None |
| TuneLogger.LevelStrInt | SRC/tune_logger.py:135-164 | the warning is given iff the text is non-empty, not digits and not a level name, and then the default is returned |
| TuneLogger.LevelIsKnownOrDefault | SRC/tune_logger.py:135-164 | the level is a named level, the number the text spells, or the default |
| TuneLogger.NamesInAnyCase | SRC/tune_logger.py:152-155 | a level name in any case gives its number, without warning |
| TuneLogger.NumbersRoundTrip | SRC/tune_logger.py:148-150 | the decimal text of a number gives that number |
| TuneLogger.BlankParameterIsDefault | SRC/tune_logger.py:143-145 | None or a blank parameter gives WARNING, without warning |
| TuneLogger.ConfiguredLevel | SRC/tune_logger.py:66-72 | normalising then converting fails iff `str` of the parameter raises |
| TuneLogger.IntParameterIsItsLevel | SRC/tune_logger.py:70-71 | a non-negative int parameter is the level itself |
| TuneLogger.NegativeIntParameterWarns | SRC/tune_logger.py:157-164 | a negative int parameter is not digits: WARNING, with a warning |
| TuneLogger.DebugIgnoresDefault | TEST/test_tune_logger.py:27-35 | `"DEBUG"` gives 10 even with the default 101 |
| TuneLogger.BadLevelWarns | TEST/test_tune_logger.py:13-24 | `"Bad"` gives WARNING, with a warning |
| Accumulate.VidopOf | SRC/accumulatevidops.py:72 | a message adds a code iff the marker is non-empty and occurs in it |
| Accumulate.VidopOfSpec | SRC/accumulatevidops.py:73-76 | the code is the stripped text after the first occurrence of the marker |
| Accumulate.VidopIsStripped | SRC/accumulatevidops.py:76 | a code never begins or ends with white space |
| Accumulate.EmitGrows | SRC/accumulatevidops.py:72-76 | emit adds at most one code and removes none; without the marker it changes nothing |
| Accumulate.GatherSpec | SRC/accumulatevidops.py:63-76 | after any messages, the set holds exactly the codes they carry, whatever their order and repetition |
| Accumulate.CollectSpec | SRC/accumulatevidops.py:63-76 | the set of `AccumulateVidops` holds exactly the codes of the messages that carry the marker |
| Accumulate.RepeatCollapses | SRC/accumulatevidops.py:76 | a repeated message changes nothing |
| Accumulate.AccumulateVidops.constructor | SRC/accumulatevidops.py:52-61 | the set starts empty |
| Accumulate.AccumulateVidops.Emit | SRC/accumulatevidops.py:63-76 | the new set is the old one plus the code of the message, if any |
| Accumulate.AccumulateVidops.OutputAccumulate | SRC/accumulatevidops.py:78-80 | the set itself is returned |
| Accumulate.DocExample | SRC/accumulatevidops.py:22-30 | two warnings carrying `VIDOP:1234` and `VIDOP:5678` leave `{1234, 5678}` |
| Accumulate.NotProcessedOf | accumulate_not_procesed_vidops.py:13 | a message adds a piece iff it contains `not_processing_vidop` |
| Accumulate.NotProcessedSpec | accumulate_not_procesed_vidops.py:14 | the piece is the untrimmed text right after the first marker, up to the next marker or the end, and holds no marker |
| Accumulate.NotProcessedGrows | accumulate_not_procesed_vidops.py:13-15 | emit never removes; without the marker it changes nothing |
| Accumulate.NotProcessedCollectSpec | accumulate_not_procesed_vidops.py:11-15 | after any messages, the set holds exactly the pieces of the messages that carry the marker |
| Accumulate.AccumulateNotProcessedVidops.constructor | accumulate_not_procesed_vidops.py:6-9 | the set starts empty; the marker is `not_processing_vidop` |
| Accumulate.AccumulateNotProcessedVidops.Emit | accumulate_not_procesed_vidops.py:11-15 | the new set is the old one plus the piece of the message, if any |
| Accumulate.AccumulateNotProcessedVidops.OutputAccumulate | accumulate_not_procesed_vidops.py:17-18 | the set itself is returned |

## Left out

- Reading the CSV input files and writing the output: the rows are a sequence parameter, and the statements are returned.
- Configuration loading (`fill_in_parameters`, `from_cfg_to_param`, and the parameters module). The code table, the cutoff month and the initial return code are constructor parameters.
- Logging plumbing: the `TuneLogger` constructor, its handlers and root configuration, the filtering handler, and `Common.error`. A diagnostic is an event appended to a log sequence. A log record reaching a handler is modelled by its formatted message, and the warning of `level_str_int`, whether it goes to the root logger or to stderr, is a boolean flag.
- The interactive start-up warning (`service_warning`, which waits on `input()`), `stop`, the header line logged at `SRC/uder.py:111-113`, and the `print` of the statuses at `otpusk.py:116`: they are output only.
- The Russian wording of the diagnostics, and the parameter values they carry beyond the tab number, codes, dates and amounts.
- Draft: the float `sum_str` of `otpusk.py:180-182` is a function supplied to the class and is not interpreted, so nothing about its rounding is claimed.
- Money: the bare-point forms `.5` and `5.`, exponents, NaN and Infinity, surrounding white space, underscores and the 28-digit context precision of `Decimal`. Only `[+-]digits[.digits]` is read, and any other text fails.
- Engine.UpdatePrimary: models the handling the code evidently intends, where a failing `Decimal` logs the diagnostic and stops the run. As written, `Decimal` raises `decimal.InvalidOperation`, an `ArithmeticError`, so the `except ValueError` handlers at `SRC/uchrabvr.py:337` and `SRC/otpusk.py:312` never run: nothing is logged, and the exception leaves `start()` and the command-line entry point uncaught. `Engine.UpdatePrimaryAsWritten` models that one call (see Findings); the rest of the model uses the intended handling, and an uncaught exception is modelled as the stopped run.
- The test case `("7", 1)` at `TEST/test_common.py:135` expects an error that `Decimal` does not raise for an int, so it is not part of this model.
- Text: `strip`, `upper` and `isdigit` are modelled for ASCII only. Other Unicode white space, case mappings and digits are not covered.
- PayCodes.FirstMatch: a bare-string secondary is matched by tuple membership, not with substring `in`. Every table in the repository uses tuples.
- TaxCheck.SortByMonthSpec: the in-place `list.sort` is modelled by a stable insertion sort on a sequence. What is proved is its result (ordered, a permutation, each month's order kept), not the algorithm Python uses.
- The module-level `common.sum_str` called by `SRC/uder.py` is modelled as `sum_str` of `SRC/common.py`.
- `SRC/uchrabvr.py` imports `PRIMARY_SECONDARY_PAYCODES` and `normalize_tuple_str`, which `SRC/common.py` does not define. The model uses `VARIABLE_VIDOPS` and `to_tuple` in their place.
- `prepare_string` (message formatting) and the command-line entry point are not part of this model.
- Uchrabvr.Uchrabvr.Start: the source raises in the constructor when the code table repeats a code, so no object exists to start. The model keeps the refusal as the constructor's `aborted` flag, and `Start` requires it to be false. `Start` also requires an empty group, because `start` is called once, on a fresh object.

## Findings

| source | as written | input that shows it | evidently intended | confidence | as-written member | corrected member |
|---|---|---|---|---|---|---|
| SRC/otpusk.py:142-152 | 303 and 304 are listed under primary `"106"` and again under `("104", "110", "112")`; resolution takes the first mapping, so the second entry is dead | an employee with a 104 primary and a 303 secondary of the same period: the 303 finds no primary, the return code becomes 1, and the amount is lost | one entry `(("106", "104", "110", "112"), ("303", "304"))`, as in `SRC/common.py:45-54` | not executed | Scenarios.Otpusk303MissesPrimary104 | Scenarios.Common303ReachesPrimary104 |
| SRC/uchrabvr.py:335-346 | `Decimal` raises `decimal.InvalidOperation` on a text that is not a number; it is an `ArithmeticError`, not a `ValueError`, so the `except ValueError` handler (also `SRC/otpusk.py:310-321`) never logs its diagnostic and the exception escapes `start()` | a secondary with `summaval` `3t14`, as in `TEST/test_my_uchrabvr.py:95-107`: no not-a-number line is logged | log the not-a-number diagnostic and stop, as the test expects | not executed; high, from the class hierarchy of the `decimal` module | Scenarios.BadSumGoesUnlogged | Engine.UpdatePrimary |

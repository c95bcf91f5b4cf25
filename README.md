# show_a_table refinement engine, modelled in Dafny

show_a_table runs a turn-based dialogue that narrows a loosely specified
attribute value, such as a birthday, down to a predicate. That predicate
later checks the answers an external question-answering engine gives.

The refinement engine in `show_a_table/model/refiner/` has these parts:

- `Candidate` is one selectable choice.
- `Candidates` is a key-unique choice set. It pages its keys out `n` at a time and ends a page with `"NEXT"` while keys remain.
- `KanaCandidates` is a two-level picker. Level 1 offers kana buckets. Level 2 offers the labels inside the chosen bucket.
- The phonetic bucketing `_gbh` and `make_n_dict` live in `util.py`, together with `_merge_dict`.
- The date refiners are state machines:
  - `JustOneDateRefiner` picks one date.
  - `DateRangeRefiner` picks a start and an end date.
  - `DateRefiner` asks which of the two the user wants.

  They end in a `FunQuery` whose `exam` tests an answer date and whose `get_query` renders the question.
- `CategorySelector` chooses a category, lists its attributes and dispatches each attribute to a refiner.

The older table-driven `JustOneDateRefiner` in `show_a_table/refiner/model/date.py` is modelled too.

## How the model is built

- **Python semantics.** Module `Base` holds `Option`, `Result` and Python's exception kinds. Module `Py` models the Python built-ins the code relies on on strings: `isdigit`, `int()`, `str()`, `split`, slices and `list.index`. Module `OrderedDict` models insertion-ordered dictionaries, with `pop`, `update` and construction from pairs, and a `PyDict` object that is updated in place.
- **Exceptions.** Every exception the source can raise on a path the model covers becomes an `Err` result. The state returned with it is the state the source has left at the raise point.
- **Classes with state.** Each such class keeps the fields of its Python counterpart:
  - `Candidates` (`_lk`)
  - `KanaCandidates` (`_last`, `_proposal`, `_kana`, `_cands_dict`)
  - the three date refiners
  - `CategorySelector`
  - the legacy refiner

  Each method is proved against a step function on a value of the object's state, for example `(State(), r) == JodRefine(old(State()), c)`. The properties are proved as lemmas about those step functions.
- **Closures.** The closures a query carries (`exam`, `gen_query`) become data:
  - `ExamCode` is `NeverPasses`, the point exam over the three chosen strings, or the range exam over two parsed bounds.
  - `QuestionCode` is either no question or the attribute's question.

  `Refiner.Exam` and `Refiner.GetQuery` evaluate them.
- **External inputs.** The answer date, which the source parses from free text with `dateutil`, is an input `Date`. The kana transliteration (pykakasi) is a function parameter `toKana`. The configuration tables (toml) are constructor arguments.

Some behaviour of the code that the model keeps:

- A `Candidates` page holds up to `n` keys. `"NEXT"` follows them while keys remain, so a full page has `n + 1` entries.
- `KanaCandidates` ends a page with `"NEXT"` only when keys are left over. It has no other navigation token.
- `set_category` never raises. It stores `None` for an unknown value.
- The range predicate is permissive. A month strictly between the two bounds passes in any year, so 2019-06-15 passes the range 2020-01-01..2020-12-31; see `DateExam.RangePermissiveExamples`.
- When `dateutil` fails to parse an answer, the source tests today's date instead.
- `JustOneDateRefiner` is always solo: `solo` is overwritten with `True` at date.py:169, so the non-solo `DQQuery()` branch of `_day` is dead.
- `_canbce` is never assigned when no start is given. The model uses `false`, which the source never reads in that case.

The defects listed under "## Findings" are modelled twice: once as written, and once corrected. The refiners and the selector run the corrected versions. "## Left out" names each member this affects.

## Model

| member | source | states |
|---|---|---|
| Refiner.ValueOf | show_a_table/model/refiner/refiner.py:23-28 | the member whose value is `v`; `None` exactly when no member has that value |
| Refiner.CategoryValuesInOrder | show_a_table/model/refiner/refiner.py:16-21 | the category values are listed in declaration order and every member is listed |
| Refiner.MkCandidate | show_a_table/model/refiner/refiner.py:59-70 | the key is kept; `ref` is the given ref when it is non-empty, otherwise the key |
| Refiner.Wrap | show_a_table/model/refiner/refiner.py:110-111 | `IndexError` exactly for an empty list; strings are wrapped one for one as `Candidate(s)`; candidates are kept as they are |
| Refiner.ExpectsOf | show_a_table/model/refiner/refiner.py:114 | the map's keys are exactly the candidates' keys, and each entry is filed under its own key |
| Refiner.ExpectsOfDistinct | show_a_table/model/refiner/refiner.py:114 | with distinct keys, every candidate is the entry under its key |
| Refiner.Validate | show_a_table/model/refiner/refiner.py:110-113 | construction succeeds exactly when wrapping succeeds and the keys are distinct; duplicates give `ValueError` |
| Refiner.DuplicateKeyRefused | show_a_table/model/refiner/refiner.py:112-113 | two candidates with one key are refused with `ValueError` |
| Refiner.CandidatesOfValid | show_a_table/model/refiner/refiner.py:110-115 | a fresh set has distinct keys in input order, and each maps to its own candidate |
| Refiner.Candidates.constructor | show_a_table/model/refiner/refiner.py:94-118 | the key map is built from the candidates; the remaining keys are their keys in order |
| Refiner.NewCandidates | show_a_table/model/refiner/refiner.py:94-118 | a fresh, valid set with those keys and map, or the exception construction raises |
| Refiner.Candidates.Cands | show_a_table/model/refiner/refiner.py:120-139 | page and new remainder are as the paging rule gives them; keys stay distinct and known |
| Refiner.Candidates.Select | show_a_table/model/refiner/refiner.py:141-164 | `"NEXT"` returns the next page; any key of the set, shown or not, returns its candidate and leaves the remainder alone; anything else is `ValueError` |
| Refiner.PagingSplits | show_a_table/model/refiner/refiner.py:122-139 | with `n = 0` or at most `n` keys left, all are returned and none consumed; otherwise exactly `n` keys, then `"NEXT"`, and exactly those `n` consumed |
| Refiner.PagingStallsAtZero | show_a_table/model/refiner/refiner.py:134-139 | as written, with `n = 0` and keys left, only `"NEXT"` comes back and nothing is consumed, on every call |
| Refiner.PagingAllAtZero | show_a_table/model/refiner/refiner.py:122-123 | corrected, `n = 0` returns every key on the first page, and paging ends there |
| Refiner.PagesCover | show_a_table/model/refiner/refiner.py:114-139 | successive pages have `n` keys and `"NEXT"`, except the last, which has at most `n` (every key when `n = 0`); stripping the tokens and concatenating gives the original keys in order |
| Refiner.MkQuery | show_a_table/model/refiner/refiner.py:312-316 | the query's priority is the given one, else `MIDDLE` |
| Refiner.GetQuery | show_a_table/model/refiner/refiner.py:405-406 | a `FunQuery` renders `"{tgt}の{attr}は?"`; a plain `DQQuery` renders `""` |
| Refiner.GetQueryExample | tests/model/refiner/test_date.py:37-44 | `"猫"` with attribute `"誕生日"` gives `"猫の誕生日は?"` |
| OrderedDict.Get | show_a_table/model/refiner/refiner.py:282 | a lookup finds a value exactly when the key is present |
| OrderedDict.Remove | show_a_table/model/refiner/util.py:40 | the key is gone; every other entry is unchanged; the result is still a dictionary |
| OrderedDict.Update | show_a_table/model/refiner/util.py:41 | the entries of the update win, all other lookups are unchanged, and the keys are the union |
| OrderedDict.FromPairs | show_a_table/model/refiner/refiner.py:279 | a dictionary over the pairs' keys, where a later pair wins |
| KanaUtil.Keyed | show_a_table/model/refiner/util.py:22-23 | every row paired with `row[key][idx]`; `IndexError` exactly when some row's field is too short |
| KanaUtil.InsertSorted | show_a_table/model/refiner/util.py:22 | inserting keeps the sequence sorted and adds exactly the new element |
| KanaUtil.SortByChar | show_a_table/model/refiner/util.py:22 | the sort's result is sorted and has the input's length |
| KanaUtil.WithOfSort | show_a_table/model/refiner/util.py:22 | the sort is stable: the rows of each character keep their input order |
| KanaUtil.TotalSizeOfRuns | show_a_table/model/refiner/util.py:22-23 | grouping loses and duplicates no row |
| KanaUtil.RunsShape | show_a_table/model/refiner/util.py:22-23 | on sorted input the group keys are one character each and strictly ascending |
| KanaUtil.RunsContents | show_a_table/model/refiner/util.py:22-23 | on sorted input each group holds exactly the rows of its character |
| KanaUtil.RunsCover | show_a_table/model/refiner/util.py:22-23 | every row's character is the key of some group |
| KanaUtil.GbhPartitions | show_a_table/model/refiner/util.py:8-23 | `_gbh` fails exactly when some field is too short; otherwise its result partitions the rows (ascending distinct keys, each bucket the rows with that character in input order, sizes summing to the row count) |
| KanaUtil.Transliterate | show_a_table/model/refiner/util.py:66 | every `(s, l)` becomes `(s, l, kana(l))`, in order |
| KanaUtil.MakeNDictBuckets | show_a_table/model/refiner/util.py:66-67 | fails exactly when some reading is empty; otherwise the keys are single kana characters in ascending order, each bucket is exactly the rows whose reading starts with its key, in input order, every row lands in some bucket, and the sizes sum to the input length |
| KanaUtil.MakeNDictIgnoresMaxCands | show_a_table/model/refiner/util.py:63-76 | the result does not depend on `max_cands` |
| KanaUtil.MergeDict | show_a_table/model/refiner/util.py:40-42 | a missing key is `KeyError` and changes nothing; otherwise `base` becomes itself without the key, updated by `additional`, and is returned |
| KanaUtil.MergedContents | show_a_table/model/refiner/util.py:40-42 | after the merge, keys from `additional` carry its values; `key` is gone unless `additional` has it; every other base entry is untouched |
| KanaChoice.PairsOf | show_a_table/model/refiner/refiner.py:230 | each candidate becomes `(ref, key)`, in order |
| KanaChoice.RowsToCands | show_a_table/model/refiner/refiner.py:233 | each row becomes `Candidate(key=label, ref=subject, kana=reading)`, in order |
| KanaChoice.ToCandidates | show_a_table/model/refiner/refiner.py:232-235 | the bucket keys are kept, and each bucket's rows become candidates |
| KanaChoice.LabelPairs | show_a_table/model/refiner/refiner.py:279 | the pairs are `(c.key, c)` in bucket order |
| KanaChoice.KanaCandsPages | show_a_table/model/refiner/refiner.py:214-252 | fails only when building the dictionary fails, and then changes nothing; otherwise shows at most `n` remaining keys in order (all of them when `n = 0`), appends `"NEXT"` exactly when keys are left, keeps the leftover, and records the page as the proposal |
| KanaChoice.KanaStallsAtZero | show_a_table/model/refiner/refiner.py:236-252 | as written, with `n = 0` and keys remaining, the page is just `"NEXT"` and the remaining keys stay, on every call |
| KanaChoice.KanaSelectRejects | show_a_table/model/refiner/refiner.py:275-276 | a string that is neither `"NEXT"` nor proposed is `ValueError` and changes nothing |
| KanaChoice.KanaFirstChoice | show_a_table/model/refiner/refiner.py:277-280 | the first accepted choice becomes `_kana` and returns every label of its bucket once; the proposal maps each label to a candidate of that bucket |
| KanaChoice.KanaLaterChoice | show_a_table/model/refiner/refiner.py:281-282 | later, an accepted label returns the candidate filed under it; once `"NEXT"` has replaced the proposal by a page of keys, an accepted key is `TypeError`; the state does not change |
| KanaChoice.KanaCandidates.constructor | show_a_table/model/refiner/refiner.py:206-212 | a new picker has no leftover keys, no bucket, an empty proposal and no dictionary |
| KanaChoice.NewKanaCandidates | show_a_table/model/refiner/refiner.py:188-212 | strings are wrapped as candidates; an empty list is `IndexError` |
| KanaChoice.KanaCandidates.Cands | show_a_table/model/refiner/refiner.py:214-252 | the new state and the page follow the kana paging step |
| KanaChoice.KanaCandidates.Select | show_a_table/model/refiner/refiner.py:254-282 | the new state and the result follow the kana select step |
| DateExam.MakeDate | show_a_table/model/refiner/date.py:178-180 | `datetime.date(int(y), int(m), int(d))` succeeds exactly for integer fields that name a real date, and fails with `ValueError` otherwise |
| DateExam.PointMatchesIff | show_a_table/model/refiner/date.py:172-186 | the point exam accepts exactly when every non-`"*"` field equals the answer's field (and, without wildcards, the date is real); it raises `ValueError` exactly for a malformed field |
| DateExam.PointMatchesExamples | tests/model/refiner/test_date.py:21-35 | 2020/9/1 and `*`/9/1 accept 2020-09-01; 2020/9/1 rejects 2020-09-02 |
| DateExam.RangeUnboundedRejects | show_a_table/model/refiner/date.py:95-131 | with no field bounded on both sides, nothing passes |
| DateExam.RangeYearBetween | show_a_table/model/refiner/date.py:111-113 | with both year bounds set, a year strictly between them passes |
| DateExam.RangeMonthBetween | show_a_table/model/refiner/date.py:124-128 | with both month bounds set, a month strictly between them passes in any year |
| DateExam.RangeYearOnly | show_a_table/model/refiner/date.py:95-131 | bounded on the year alone, the exam is the open interval of years |
| DateExam.RangeDayOnly | show_a_table/model/refiner/date.py:129-130 | bounded on the day alone, the exam is the open interval of days |
| DateExam.RangeComplete | show_a_table/model/refiner/date.py:111-131 | with all six bounds set, every date from start to end inclusive passes |
| DateExam.RangePermissiveExamples | show_a_table/model/refiner/date.py:111-131 | 2019-06-15 passes 2020-01-01..2020-12-31; 2020-06-01 passes 2020-06-15..2020-12-31; 2021-07-01 fails 2020-03-10..2020-05-20 |
| DateExam.RangeWholeYearAcceptsAll | show_a_table/model/refiner/date.py:124-128 | bounds `y1-1-1` and `y2-12-31` accept every month and day of every year |
| DateSteps.ParseParts | show_a_table/model/refiner/date.py:159 | one field per `"-"`-separated part: its integer when all digits, else `None` |
| DateSteps.RenderRoundTrip | show_a_table/model/refiner/date.py:156-162 | parsing a rendered `"[BCE]y-m-d"` back as a start bound gives the three fields (`None` for `"*"`) and sets `canbce` exactly when `BCE` was rendered |
| DateSteps.ParseFieldValues | show_a_table/model/refiner/date.py:159 | `"*"` parses to `None`; the decimal text of `n` parses to `n` |
| DateSteps.NewJod | show_a_table/model/refiner/date.py:143-170 | a new refiner is solo, with empty year, month and day, CE, and the parsed start bound |
| DateSteps.StartField | show_a_table/model/refiner/date.py:218-229 | `_start[i]` is the field when the start has one, else `IndexError` |
| DateSteps.MonthLowSpec | show_a_table/model/refiner/date.py:218-222 | the lowest month offered is the start month exactly when it is set and the chosen year equals the start year or the start year is a wildcard; a one-field start raises `IndexError` |
| DateSteps.DayLowSpec | show_a_table/model/refiner/date.py:226-229 | the lowest day offered is the start day exactly when it is set and the start month is a wildcard or equals the chosen month |
| DateSteps.DayLowAsWrittenIgnoresMonth | show_a_table/model/refiner/date.py:226 | as written, the chosen month never matters, and a set start month always gives 1 |
| DateSteps.DayLowCounterexample | show_a_table/model/refiner/date.py:226 | from start 2020-6-15 with month 6, as written the days start at 1 and corrected at 15 |
| DateSteps.Normalize | show_a_table/model/refiner/date.py:192-193 | a `"SKIP"` choice carries `"*"` as its ref |
| DateSteps.JodRefineFills | show_a_table/model/refiner/date.py:188-238 | choices fill year, then month, then day, each from the choice's ref (`"*"` for SKIP); era keys fill nothing; the day completes the point query; a complete refiner returns nothing; the start bound never changes |
| DateSteps.YearBounds | show_a_table/model/refiner/date.py:201-215 | BCE offers years 1 to the start year (else 4713), CE the start year (else 1) to 2030; `日付指定` offers the eras exactly when there is no start or it was BCE |
| DateSteps.JodPointExample | show_a_table/model/refiner/date.py:231-235 | year 2020 or `*`, month 9, day 1 gives a query accepting 2020-09-01 and asking `"猫の{attr}は?"` |
| DateSteps.NewRangeInv | show_a_table/model/refiner/date.py:46-51 | a new range refiner is in its first phase |
| DateSteps.RangeTitles | show_a_table/model/refiner/date.py:53-78 | the phases stay in order, and every title returned starts with `開始` until the start is complete and with `終了` from then on |
| DateSteps.RangeFirstOffer | show_a_table/model/refiner/date.py:54-58 | the first call offers the eras under `開始` |
| DateSteps.RangeEndFromStart | show_a_table/model/refiner/date.py:59-66 | when the start completes, its expression is stored and the end refiner is built from it: its bound is the start's fields, and it may offer eras only after a BCE start |
| DateSteps.MkExamSpec | show_a_table/model/refiner/date.py:80-93 | without `BCE`, the range exam compares against both parsed expressions; a `BCE` bound is `TypeError`; `_start` always ends up a parsed list |
| DateSteps.RangeExamOfExpressions | show_a_table/model/refiner/date.py:92-96 | bounds parsed from two expressions have three fields each, so the query's exam is the range predicate and never raises |
| DateSteps.DateRefineChains | show_a_table/model/refiner/date.py:34-42 | no choice offers `範囲` and `日付指定`; those two start a fresh sub-refiner; every other choice is forwarded to the current one (`AttributeError` when there is none) |
| DateRefiners.JustOneDateRefiner.constructor | show_a_table/model/refiner/date.py:143-170 | the fields hold the initial state |
| DateRefiners.JustOneDateRefiner.Refine | show_a_table/model/refiner/date.py:188-199 | the new fields and the result follow the single-date step |
| DateRefiners.JustOneDateRefiner.FillYear | show_a_table/model/refiner/date.py:201-222 | the fields and the result follow the year step |
| DateRefiners.JustOneDateRefiner.FillMonth | show_a_table/model/refiner/date.py:224-229 | the fields and the result follow the month step |
| DateRefiners.JustOneDateRefiner.FillDay | show_a_table/model/refiner/date.py:231-238 | the fields and the result follow the day step |
| DateRefiners.DateRangeRefiner.constructor | show_a_table/model/refiner/date.py:46-51 | no start, no end, no sub-refiners |
| DateRefiners.DateRangeRefiner.Refine | show_a_table/model/refiner/date.py:53-78 | the two sub-refiners stay distinct objects, and the new state and result follow the range step |
| DateRefiners.DateRangeRefiner.BuildExam | show_a_table/model/refiner/date.py:80-91 | `_start` and the exam follow `_mk_exam` |
| DateRefiners.DateRefiner.constructor | show_a_table/model/refiner/date.py:30-32 | no sub-refiner yet |
| DateRefiners.DateRefiner.Refine | show_a_table/model/refiner/date.py:34-42 | the new state and the result follow the date step |
| CategorySelection.RefinerForKindCases | show_a_table/model/refiner/category_selector.py:55-71 | `Date` and `Geo` build their refiner, `Free`, `Number` and `Data` raise `NotImplementedError`, any other kind gives `None` |
| CategorySelection.GeoDispatchAsWritten | show_a_table/model/refiner/category_selector.py:56-57 | as written only `Geo` differs: `GeoRefiner(attr)` raises `TypeError` |
| CategorySelection.CategoryTable | show_a_table/model/refiner/category_selector.py:40 | `KeyError` without an attributes table, `AttributeError` without a category, `KeyError` for an unconfigured category, else that category's table |
| CategorySelection.CategorySelector.constructor | show_a_table/model/refiner/category_selector.py:18-22 | `cat` and `attr` are `None` and `queries` is empty |
| CategorySelection.CategorySelector.Categories | show_a_table/model/refiner/category_selector.py:24-27 | `RuntimeError` exactly once a category is set; otherwise the five category values, each exactly once |
| CategorySelection.CategorySelector.SetCategory | show_a_table/model/refiner/category_selector.py:29-36 | `cat` is the member with value `v`, `None` exactly when there is none, and nothing is raised |
| CategorySelection.CategorySelector.Attributes | show_a_table/model/refiner/category_selector.py:38-40 | exactly the configured attribute names of the chosen category, in order and distinct, or the lookup's exception |
| CategorySelection.CategorySelector.Refiners | show_a_table/model/refiner/category_selector.py:42-71 | the lookup's exception, `KeyError` for an unknown attribute, else the dispatch on its configured kind |
| LegacyDate.Lookup | show_a_table/refiner/model/date.py:42-82 | `table[name]` (a section of the data, or a list of a section) is the entry when present, else `KeyError` |
| LegacyDate.YearsUpTo | show_a_table/refiner/model/date.py:64 | 25 year strings |
| LegacyDate.LegacyFirstCall | show_a_table/refiner/model/date.py:44-48 | the first year call offers the year origin and leaves a non-empty sentinel in `_last` |
| LegacyDate.LegacySkip | show_a_table/refiner/model/date.py:50-53 | SKIP stores year `"*"`, clears `_last` and offers the month origin |
| LegacyDate.LegacyOriginIndex | show_a_table/refiner/model/date.py:56-58 | another origin choice at its first position `idx` offers table `y{idx-1}` |
| LegacyDate.LegacyYearsBack | show_a_table/refiner/model/date.py:62-65 | `"-N"` offers the 25 years `N-24..N` in ascending order, each parsing back to its number |
| LegacyDate.LegacyYearThenMonth | show_a_table/refiner/model/date.py:66-73 | any other year choice sets the year, clears `_last` and offers the month origin; a month choice sets the month and offers the day origin |
| LegacyDate.LegacyDay | show_a_table/refiner/model/date.py:75-82 | a day choice with `"-"` offers `d{idx}` for its first position, or `ValueError` when it is not in the origin; any other choice completes `y-m-d` |
| LegacyDate.LegacyDone | show_a_table/refiner/model/date.py:39-40 | a complete date is answered again, and nothing changes |
| LegacyDate.LegacyTestExample | tests/refiner/test_date.py:9-18 | from 2020/9, `"1-10"` offers `d0` and `"1"` completes `"2020-9-1"` |
| LegacyDate.LegacyJustOneDateRefiner.constructor | show_a_table/refiner/model/date.py:25-30 | all fields empty |
| LegacyDate.LegacyJustOneDateRefiner.Refine | show_a_table/refiner/model/date.py:32-40 | the fields and the result follow the legacy step |
| LegacyDate.LegacyJustOneDateRefiner.Year | show_a_table/refiner/model/date.py:42-69 | the fields and the result follow the legacy year stage, `_last` included |
| LegacyDate.LegacyJustOneDateRefiner.Day | show_a_table/refiner/model/date.py:75-82 | the fields and the result follow the legacy day stage |

## Findings

| source | as written | input that shows it | evidently intended | confidence | as-written member | corrected member |
|---|---|---|---|---|---|---|
| show_a_table/model/refiner/date.py:226 | `self.month == self._start[1]` compares the chosen month (a string) with the start month (an int), so it is never true | start `"2020-6-15"`, then year `"2020"` and month `"6"`: days are offered from 1 | compare as text, `self.month == str(self._start[1])`, as `_year` does for the year at line 219, so that days start at 15 | not executed | DateSteps.DayLowCounterexample | DateSteps.DayLowSpec |
| show_a_table/model/refiner/refiner.py:134-139 | `cands(0)` returns `self._lk[:0] + ["NEXT"]` and keeps every key, although the docstring at lines 122-123 says `0` returns all | `cands(0)` on the keys `["a", "b"]`: `["NEXT"]` on every call, and the keys are never shown | `0` returns every remaining key | not executed | Refiner.PagingStallsAtZero | Refiner.PagingAllAtZero |
| show_a_table/model/refiner/refiner.py:236-252 | `KanaCandidates.cands(0)` shows `[:0]` and appends `"NEXT"`, although the docstring at lines 216-217 says `0` returns all | `cands(0)` with two kana buckets: `["NEXT"]` on every call | `0` returns every remaining key | not executed | KanaChoice.KanaStallsAtZero | KanaChoice.KanaCandsPages |
| show_a_table/model/refiner/category_selector.py:57 | `GeoRefiner(attr)`, but `GeoRefiner.__init__` (show_a_table/model/refiner/geo_refiner.py:13) takes no argument besides `self` | an attribute configured with kind `"Geo"`: `TypeError` | build the geographic refiner for the attribute | not executed | CategorySelection.GeoDispatchAsWritten | CategorySelection.RefinerForKindCases |

## Left out

- Answer parsing with `dateutil` (date.py:9-26) is a foreign call. The answer is an input `Date`. On a parse failure the source tests today's date, which the model treats as one more input date.
- The pykakasi transliteration (util.py:65-66) is the function parameter `toKana`.
- Configuration loading is I/O. The toml files (category_selector.py:22, util.py:63-64 and the legacy `date.toml`) become constructor arguments and parameters.
- `RegQuery` (refiner.py:348-376) is left out: regular-expression matching is a foreign call.
- `NumCandidates` is imported at date.py:6, but show_a_table/model/refiner/refiner.py does not define it. The model returns its arguments as the record `Numeric(title, lo, hi, skippable)`, whose paging is not modelled. As written, importing date.py would fail.
- `GeoRefiner`, the DrQA wrapper, the view layer, the superseded `show_a_table/refiner/util.py` and the empty refiner stubs are not part of this model.
- The legacy `DateRefiner` and `DateRangeRefiner` (show_a_table/refiner/model/date.py:7-21) are left out. Their `refine` lacks `self`, so calling it always fails.
- The `parent` back-references, `Candidates._last_idx`, the `__str__` methods, the base `Refiner` and `RefinerState` are left out: no operation of the core reads them.
- Of `Candidate`'s keyword arguments (`obj`), only the kana reading is kept.
- `str.isdigit` and `int()` are modelled on ASCII digits only. `int()` here accepts digits with an optional leading minus sign, not surrounding whitespace, `+` or `_`.
- A `ref` is a string. A non-string falsy `ref`, such as `0`, is not modelled.
- `JustOneDateRefiner.refine` takes a `Candidate`. A string choice is passed as `ChoiceOf(s)`, which is what the source's `Candidate(choice)` wrap builds.
- `DateRefiner.refine` takes `Option<Candidate>`. `None` is the only falsy choice, since a `Candidate` object is always truthy.
- A `cands` list that mixes strings and candidates is not modelled. The input is all strings or all candidates, which is the case the source's docstring requires.
- Refiner.MkQuery: `priori` is an `Option<Priority>`. A truthy value that is not a `Priority` is not modelled; the source replaces it with `MIDDLE`.
- Refiner.PagingSplits: stated for `n >= 0`. For negative `n` the step is still modelled, with Python's slice semantics, but no lemma covers it.
- Refiner.PagesCover: stated for `n >= 0`, for the same reason.
- KanaChoice.KanaCandsPages: stated for `n >= 0`, for the same reason.
- Refiner.Candidates.Cands: with `n = 0` it returns every remaining key, the corrected reading of refiner.py:134-139 (see "## Findings"). As written, the page is just `"NEXT"`, which Refiner.PagingStallsAtZero models.
- Refiner.Candidates.Select: `"NEXT"` pages with the corrected `cands`, so `n = 0` returns every remaining key.
- KanaChoice.KanaCandidates.Cands: with `n = 0` it returns every remaining key, the corrected reading of refiner.py:236-252. As written, the page is just `"NEXT"`, which KanaChoice.KanaStallsAtZero models.
- KanaChoice.KanaCandidates.Select: `"NEXT"` pages with the corrected `cands`, so `n = 0` returns every remaining key.
- DateSteps.MonthStep: the lowest day offered comes from the corrected DateSteps.DayLow, which compares the month as text. As written, date.py:226 never matches the month (DateSteps.DayLowAsWritten); see "## Findings". DateSteps.JodRefine, DateSteps.RangeRefine and DateSteps.DateRefine reach this bound through it.
- DateRefiners.JustOneDateRefiner.FillMonth: the day range starts at the corrected DateSteps.DayLow, not at the as-written bound of date.py:226.
- DateRefiners.JustOneDateRefiner.Refine: a month choice offers days from the corrected DateSteps.DayLow, not from the as-written bound of date.py:226.
- DateRefiners.DateRangeRefiner.Refine: its sub-refiners offer days from the corrected DateSteps.DayLow, not from the as-written bound of date.py:226.
- DateRefiners.DateRefiner.Refine: it forwards to single-date and range refiners that offer days from the corrected DateSteps.DayLow, not from the as-written bound of date.py:226.
- DateSteps.RenderRoundTrip: requires fields without `"-"` and, for a CE date, a year not starting with `"BCE"`. Choices from the refiners' own offers (numbers, or `"*"` for SKIP) meet this.
- DateSteps.MkExamSpec: the `BCE` bounds are modelled as the `TypeError` they raise, not with a corrected conversion. The overwrites of `self._start` are kept.
- CategorySelection.CategorySelector.Refiners: returns which refiner it builds, not the refiner object. For kind `"Geo"` it runs the corrected dispatch and gives the geographic refiner, where category_selector.py:57 as written raises `TypeError` (CategorySelection.GeoDispatchAsWritten); see "## Findings".
- CategorySelection.CategorySelector.Categories: returns the title and keys of the `Candidates` it builds. Constructing such a set is modelled by Refiner.NewCandidates.
- The legacy tables are maps from names to lists of strings. Table values of other types are not modelled.

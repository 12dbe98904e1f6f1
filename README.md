# Nurse rostering core, modelled in Dafny

This project models the scheduling core of a nurse-rostering system, together with the
helpers that prepare its input.

- **The `/solve` endpoint** (`Demo/GoogleOR/app.py`). A `SolveRequest` lists nurses, days,
  shifts and a demand per (day, shift), plus optional bounds, availability, preferences,
  skills, an explicit week index map and weights. The endpoint checks that the demand is
  complete. It buckets the days into weeks and builds a CP-SAT model with eight hard rules
  and a weighted objective. It then decodes the solver's values into assignments, shortfalls
  and per-nurse statistics, or answers INFEASIBLE.
- **The payload builder** (`backend/chatbot/normalizer.py`). It turns database rows (nurses,
  preference records) into such a request. Nurses get the codes `N001`, `N002`, …; each
  employment type gets its bounds; each day-off rank gets its penalty; every night shift needs
  one Senior nurse.
- **The configuration manager** (`backend/chatbot/manager/manager.py`). It normalises day
  lists and shift names, and synthesises the three coverage rows per day. `ensure_min_nurses`
  normalises every nurse entry of a configuration in place, then pads the roster with new
  nurses numbered after the largest existing id.
- **Two chatbot text helpers** (`backend/chatbot/app.py`): the employment-type aliases and
  the chatbot's own day-list normaliser.

The CP-SAT search is not modelled as an algorithm. The solver's answer is a `Values`
record (the x, under and over variables). `Model.Accepted` states the eight rules and the
variable domains, and `Model.Objective` gives the cost. `Model.IsOptimal` says that no
accepted schedule costs less. Every decoder and objective-building loop is a method
proved equal to a function of the request and the values. Lemmas then state what those
functions mean: membership, ordering, counts and the rules an accepted schedule obeys.

The modules are:

| module | models |
|---|---|
| `Base` | Option and Result values, plus sequence helpers: first-seen dedup, filter, sum |
| `Text` | Python's truthiness, `str()`, `int()`, `strip`, `lower`, `title` and `re.split`, on a JSON value type |
| `Request` | The request, the demand validator, the lookups and the bounds |
| `Weeks` | The week index map and the grouping of days into weeks |
| `Model` | The rules, the objective and its term list |
| `Decode` | The decoder and the endpoint |
| `Worked` | Two small requests worked through the model |
| `Normalizer` | The payload builder |
| `Manager` | The configuration manager |
| `Chatbot` | The two chatbot helpers |

Three worked results differ from what one might expect of a scheduler. Each follows from
the code as written.

- **Rule 7 caps a short week at zero.** Rule 7 lets a week of k days hold `max(0, k - 2)`
  shifts, so nobody can work in a week of one or two days.
  - With two nurses, demand 1 and a single day, the optimum assigns nobody. It reports the
    slot one nurse short, at objective 50, instead of assigning one nurse at objective 0.
  - With one nurse and demand 2 on one day, the shortfall would be 2. That is above its upper
    bound of one (the roster size), so the request is INFEASIBLE rather than solved with a
    shortfall.
- **A short horizon makes any full-time nurse infeasible.** A payload whose horizon has
  fewer than four days gives every full-time nurse a minimum of four shifts, which no
  accepted schedule can meet.

## Model

| member | source | states |
|---|---|---|
| Request.CheckDemand | Demo/GoogleOR/app.py:33-41 | Succeeds, returning the request unchanged, exactly when every day has a demand entry for every shift. Otherwise it reports the first missing day, or the first missing (day, shift) in day-then-shift order. |
| Request.PrefPenalty | Demo/GoogleOR/app.py:83-86 | The nurse's penalty for the (day, shift) when the nested preference entry exists, and 0 otherwise. |
| Request.IsAvailable | Demo/GoogleOR/app.py:89-92 | A slot is unavailable exactly when its nested entry exists and is 0. |
| Request.MaxBound | Demo/GoogleOR/app.py:131-137 | The maximum is `max_total_shifts_per_nurse`, else `max_shifts_per_nurse`, else the number of days. |
| Request.MinBound | Demo/GoogleOR/app.py:132 | The minimum is `min_total_shifts_per_nurse`, else 0. |
| Request.FirstMatch | Demo/GoogleOR/app.py:114-115 | Finds the first shift equal to the name up to whitespace and case (`shift_eq`), or None exactly when no shift matches. Every earlier shift does not match. |
| Weeks.WeekIndexMap | Demo/GoogleOR/app.py:103-111 | A non-empty explicit map is used as given. Otherwise the map covers exactly the horizon's days. |
| Weeks.IsoBucketsRange | Demo/GoogleOR/app.py:107-110 | ISO buckets are numbered from 0 to below the number of distinct ISO weeks. |
| Weeks.IsoBucketsSameWeek | Demo/GoogleOR/app.py:107-110 | Two days share a bucket if and only if they share an ISO week number. |
| Weeks.IsoBucketsFirstSeen | Demo/GoogleOR/app.py:109 | A day's bucket counts the distinct weeks seen before its week first appears. The first day is in bucket 0. |
| Weeks.IsoBucketsOnto | Demo/GoogleOR/app.py:109-110 | Every bucket number below the count of distinct weeks is used by some day. |
| Weeks.PositionalIndex | Demo/GoogleOR/app.py:111 | Without ISO dates, the day at position i (with no later repeat) is in bucket i / 7. |
| Weeks.GroupBuckets | Demo/GoogleOR/app.py:180-182 | The grouped weeks are exactly the non-empty buckets. Each lists its days in horizon order. |
| Weeks.GroupByWeek | Demo/GoogleOR/app.py:188-190 | Groups the days, or fails (the KeyError) exactly when a day has no bucket. The failure names the first such day. |
| Model.AcceptedStaffing | Demo/GoogleOR/app.py:143-149 | In an accepted schedule, staffing plus shortfall equals the demand. Staffing never exceeds the demand or the roster size. |
| Model.LoadAtMostDays | Demo/GoogleOR/app.py:151-154 | One shift per day bounds a nurse's total by the number of days. |
| Model.AcceptedBuckets | Demo/GoogleOR/app.py:177-194 | Within a nurse's week, shifts stay at or below `max(0, k - 2)` and nights at or below 2. |
| Model.ShortBucketIdle | Demo/GoogleOR/app.py:187-194 | Nobody works in a week of at most two days. |
| Model.OneDayIdle | Demo/GoogleOR/app.py:187-194 | On a one-day horizon, nobody works. |
| Model.EvalTermsConcat | Demo/GoogleOR/app.py:218 | The sum of concatenated term lists is the sum of their sums. |
| Model.UnderTermsValue | Demo/GoogleOR/app.py:207-209 | The understaffing terms sum to the weight times the total shortfall. |
| Model.OverTermsValue | Demo/GoogleOR/app.py:210-211 | The overtime terms sum to the weight times the total overtime. |
| Model.SlotPrefTermsValue | Demo/GoogleOR/app.py:212-217 | For one nurse and day, the preference terms sum to the weighted penalties of the worked shifts. Skipping zero penalties changes nothing. |
| Model.NursePrefTermsValue | Demo/GoogleOR/app.py:212-217 | For one nurse, the preference terms sum to the weighted preference cost over all days. |
| Model.PrefTermsValue | Demo/GoogleOR/app.py:212-217 | The preference terms of the whole roster sum to the weighted preference cost. |
| Model.ObjectiveTermsValue | Demo/GoogleOR/app.py:205-218 | The objective's term list evaluates to the objective on every set of values. |
| Model.AppendUnderTerms | Demo/GoogleOR/app.py:207-209 | The understaffing loop builds the understaffing term list. |
| Model.AppendOverTerms | Demo/GoogleOR/app.py:210-211 | The overtime loop builds the overtime term list. |
| Model.AppendNursePrefTerms | Demo/GoogleOR/app.py:213-217 | The preference loop for one nurse builds that nurse's preference terms. |
| Model.BuildObjective | Demo/GoogleOR/app.py:205-218 | The three loops build a term list whose value is the objective for all values. |
| Decode.SlotAssignmentsMember | Demo/GoogleOR/app.py:229-231 | A (day, shift) slot lists exactly the nurses with x = 1. |
| Decode.DayAssignmentsMember | Demo/GoogleOR/app.py:228-231 | A day lists exactly the (shift, nurse) pairs with x = 1. |
| Decode.AssignmentsMember | Demo/GoogleOR/app.py:227-231 | An assignment is listed if and only if its day, shift and nurse belong to the request and its x is 1. |
| Decode.DayShortfallsMember | Demo/GoogleOR/app.py:233-236 | A day lists exactly its shifts with a nonzero shortfall, carrying that shortfall. |
| Decode.ShortfallsMember | Demo/GoogleOR/app.py:232-236 | An understaffed item is listed if and only if its slot has a nonzero shortfall, and it carries that shortfall. |
| Decode.SlotAssignmentsOrdered | Demo/GoogleOR/app.py:229-231 | Within a slot, assignments follow the nurses' input order. |
| Decode.DayAssignmentsOrdered | Demo/GoogleOR/app.py:228-231 | Within a day, assignments are ordered by shift, then by nurse. |
| Decode.AssignmentsOrdered | Demo/GoogleOR/app.py:227-231 | Assignments are ordered by day, then shift, then the nurse's input position (distinct inputs). |
| Decode.SlotCount | Demo/GoogleOR/app.py:229-231 | A nurse appears in a slot's list as many times as its x. |
| Decode.DayCount | Demo/GoogleOR/app.py:228-231 | A nurse appears in a day's list as many times as it works shifts that day. |
| Decode.AssignedShiftsCount | Demo/GoogleOR/app.py:227-231 | A nurse appears in the assignment list as often as its total load. |
| Decode.DecodedStats | Demo/GoogleOR/app.py:238-245 | For an accepted schedule, a nurse's stats count its listed assignments. The count lies between the minimum and the maximum plus overtime, and is at most the number of days. |
| Decode.DecodeAssignments | Demo/GoogleOR/app.py:227-231 | The nested loops produce the assignment list. |
| Decode.DecodeShortfalls | Demo/GoogleOR/app.py:232-236 | The loops produce the understaffed list. |
| Decode.DecodeStats | Demo/GoogleOR/app.py:238-245 | The stats loop gives the load, the overtime and the night count (0 when there is no night label). |
| Decode.Solve | Demo/GoogleOR/app.py:120-261 | Fails exactly when a day has no week bucket (the KeyError), naming such a day. A solved status decodes the values. Any other status answers INFEASIBLE with empty lists. |
| Worked.TwoNursesDemandOne | Demo/GoogleOR/app.py:146-194 | With two nurses, demand 1 and one day, every accepted schedule assigns nobody, has one shortfall and costs at least 50. |
| Worked.IdleAccepted | Demo/GoogleOR/app.py:142-218 | The schedule with nobody working is accepted for two nurses against demand 1, at objective 50. |
| Worked.TwoNursesDemandOneOptimum | Demo/GoogleOR/app.py:142-218 | That idle schedule is optimal, at 50. |
| Worked.OneNurseDemandTwo | Demo/GoogleOR/app.py:143-149 | With one nurse, demand 2 and one day, no schedule is accepted (INFEASIBLE). |
| Normalizer.DayoffRankToPenalty | backend/chatbot/normalizer.py:9-18 | The penalty is 10, 25 or 40. It is 10 exactly for rank 1 and 40 exactly for rank 3; anything else, unparsable ranks included, gives 25. |
| Normalizer.PenaltyMonotone | backend/chatbot/normalizer.py:9-18 | A higher rank gives a strictly higher penalty. A rank written as digits is read like the integer. |
| Normalizer.LevelToSkills | backend/chatbot/normalizer.py:21-32 | The skills are ["Senior"] if and only if the level reads as an integer of at least 2, and empty otherwise. |
| Normalizer.Horizon | backend/chatbot/normalizer.py:35-43 | There are `horizon_days` days (none for a negative count), and day i is the base date plus i. |
| Normalizer.HorizonDistinct | backend/chatbot/normalizer.py:35-43 | Horizon days are distinct. |
| Normalizer.BuildWeekIndexMap | backend/chatbot/normalizer.py:46-56 | Succeeds exactly on ISO dates, and then equals the solver's own week map. |
| Normalizer.SortStrings | backend/chatbot/normalizer.py:92 | `sorted` returns a lexicographically sorted permutation. |
| Normalizer.SortDistinct | backend/chatbot/normalizer.py:92 | Sorting distinct codes keeps the same codes, strictly increasing. |
| Normalizer.CodeInjective | backend/chatbot/normalizer.py:83 | Distinct ids get distinct `N{id:03}` codes. |
| Normalizer.MetasLastWins | backend/chatbot/normalizer.py:81-90 | A nurse's meta comes from its last row. Missing fields default to "Nurse id", 1, "full_time" and "ER". |
| Normalizer.BoundsOrdered | backend/chatbot/normalizer.py:120-134 | Outside the full-time short-horizon case, 0 < min <= max. For full-time with fewer than 4 days, min > horizon. From 4 days on, max <= horizon. |
| Normalizer.PrefFoldKeys | backend/chatbot/normalizer.py:98-115 | A (nurse, date) pair is in the preferences exactly when some record contributes it. |
| Normalizer.PrefFoldLastWins | backend/chatbot/normalizer.py:98-115 | A (nurse, date) pair holds the last contributing record's penalty on all three shifts. |
| Normalizer.PrefFoldShape | backend/chatbot/normalizer.py:98-115 | Keys are codes of known nurses, dates lie in the horizon, and each date has exactly Morning, Evening and Night. |
| Normalizer.PayloadDemandComplete | backend/chatbot/normalizer.py:146-153 | The payload passes the solver's demand check, with the night demand on every day. |
| Normalizer.PayloadNurses | backend/chatbot/normalizer.py:92-139 | The nurse list is sorted and distinct, and holds exactly the row codes. Each nurse has bounds and skills. |
| Normalizer.PayloadWeeks | backend/chatbot/normalizer.py:155-156 | The solver buckets the payload's days by ISO week, matching the week number exactly. |
| Normalizer.FullTimeShortHorizon | backend/chatbot/normalizer.py:132-134 | With fewer than 4 ISO days and a full-time nurse, no schedule of the payload is accepted. |
| Normalizer.CollectNurses | backend/chatbot/normalizer.py:79-92 | The row loop builds the code table, the metas and the codes in first-seen order. |
| Normalizer.CollectPreferences | backend/chatbot/normalizer.py:95-115 | The record loop gives the preference fold. It raises exactly on a `preferred_days_off` record of a known nurse whose JSON is not an object. |
| Normalizer.BoundsTableValues | backend/chatbot/normalizer.py:124-134 | Each nurse's min and max are those of its employment type. |
| Normalizer.CollectBounds | backend/chatbot/normalizer.py:121-134 | The bounds loop fills both tables with each nurse's part-time, contract or full-time bounds. |
| Normalizer.CollectSkills | backend/chatbot/normalizer.py:137-139 | Each nurse's skills come from its level. |
| Normalizer.CollectDaily | backend/chatbot/normalizer.py:142-153 | Every day needs one Senior at night and has the given demand. |
| Normalizer.BuildPayload | backend/chatbot/normalizer.py:59-188 | Raises exactly on an unreadable day-off record, and otherwise returns the payload request. |
| Manager.NormDays | backend/chatbot/manager/manager.py:33-46 | The loops produce the day list. |
| Text.ReprApostrophe | backend/chatbot/manager/manager.py:36 | `str()` shows a printable ASCII string that holds an apostrophe and no double quote or backslash in double quotes, unescaped, as Python's `repr` does. |
| Manager.NormDaysShape | backend/chatbot/manager/manager.py:33-46 | The result has no repeats. It holds exactly the non-empty labels of the tokens, in first-occurrence order. |
| Manager.DayNameToken | backend/chatbot/manager/manager.py:17-25 | A known day name maps to its abbreviation. |
| Manager.NormShift | backend/chatbot/manager/manager.py:49-56 | A falsy value gives M. Otherwise it gives M, A or N, and fails (the IndexError) exactly for a truthy value that strips to nothing. |
| Manager.ShiftKey | backend/chatbot/manager/manager.py:52-56 | A SHIFT_MAP name gives its code. Any other non-empty key gives its upper-cased first character when that is M, A or N, and M otherwise. An empty key fails. |
| Manager.ShiftCodeFixed | backend/chatbot/manager/manager.py:26-30 | M, A and N normalise to themselves. |
| Manager.NormShiftIdempotent | backend/chatbot/manager/manager.py:49-56 | Normalising a normalised shift changes nothing. |
| Manager.CoverageAt | backend/chatbot/manager/manager.py:222-231 | There are three rows per day, and day i's rows are M, A, N for the start date plus i. |
| Manager.CoverageSlotsDistinct | backend/chatbot/manager/manager.py:222-231 | No (date, shift) slot repeats. |
| Manager.SynthCoverage | backend/chatbot/manager/manager.py:222-231 | The loop builds the coverage rows (none for a negative count). |
| Manager.NormNurseFields | backend/chatbot/manager/manager.py:148-166 | A normalised entry has an integer level, defaulted employment type and unit, and rebuilt preferences. Every other field is kept. |
| Manager.NormNurseRaised | backend/chatbot/manager/manager.py:148-166 | A failing entry is unchanged, except that a bad level keeps the already rebuilt preferences. |
| Manager.NormPrefsShifts | backend/chatbot/manager/manager.py:151-158 | Every rebuilt preferred shift carries M, A or N. |
| Manager.NormalizeFromAt | backend/chatbot/manager/manager.py:148-166 | Entries before the first failure are normalised. The failing entry holds its partial edit. |
| Manager.AllNormalAt | backend/chatbot/manager/manager.py:148-166 | The loop completes exactly when every entry normalises. |
| Manager.IdsHashableAt | backend/chatbot/manager/manager.py:168 | The id set can be built exactly when every truthy id is hashable. |
| Manager.MaxOfBound | backend/chatbot/manager/manager.py:170-176 | `max_idx` is at least every parsed id number. |
| Manager.MaxOfAttained | backend/chatbot/manager/manager.py:170-176 | `max_idx` is 0 or some parsed id number. |
| Manager.CodeNumber | backend/chatbot/manager/manager.py:174-182 | A generated id parses back to its number. |
| Manager.GroupedIdNumber | backend/chatbot/manager/manager.py:172-174 | `int()` accepts underscore digit groups, so the id "N1_000" counts as number 1000. |
| Manager.SampleDaysDistinct | backend/chatbot/manager/manager.py:179-185 | `random.sample` gives three distinct week days. |
| Manager.NewNurseShape | backend/chatbot/manager/manager.py:183-197 | A new nurse has level 2 when the roster length mod 5 is 0 or 1 (1 otherwise), full_time, ER, one preferred shift, three distinct days, a priority and the day-off date. |
| Manager.IdAbove | backend/chatbot/manager/manager.py:170-182 | An id number above `max_idx` differs from every existing id. |
| Manager.NewIdsDiffer | backend/chatbot/manager/manager.py:181-182 | New nurses with different numbers have different ids. |
| Manager.ExtendNewId | backend/chatbot/manager/manager.py:180-182 | The j-th new nurse is numbered `max_idx + j + 1`. |
| Manager.ExtendFreshIds | backend/chatbot/manager/manager.py:168-198 | A new nurse's id differs from every old entry's id. |
| Manager.ExtendDistinctIds | backend/chatbot/manager/manager.py:180-198 | New nurses have pairwise distinct ids. |
| Manager.ExtendNewNurse | backend/chatbot/manager/manager.py:180-198 | Every appended entry has the new-nurse shape. |
| Manager.PaddedRoster | backend/chatbot/manager/manager.py:144-200 | The roster has max(min_nurses, old length) entries and starts with the old entries normalised. |
| Manager.PaddedIds | backend/chatbot/manager/manager.py:144-200 | Every padded entry's id differs from every earlier entry's id, and padded entries have the new-nurse shape. |
| Manager.Config.NormalizeEntries | backend/chatbot/manager/manager.py:148-166 | Rewrites the entries in place. It raises exactly when some entry fails, keeping the edits up to there. |
| Manager.ScanIds | backend/chatbot/manager/manager.py:168-176 | Fails exactly on an unhashable id, and otherwise finds `max_idx`. |
| Manager.PadRoster | backend/chatbot/manager/manager.py:178-198 | The padding loop appends new nurses up to `min_nurses`. |
| Manager.Config.EnsureMinNurses | backend/chatbot/manager/manager.py:144-200 | Raises exactly when normalisation or the id set fails, leaving the in-place edits. Otherwise the configuration holds the padded roster. |
| Chatbot.EmploymentType | backend/chatbot/app.py:139-149 | None exactly for a falsy value. The result is stripped and lower-case. Text that is no alias comes back as the stripped, lower-cased text, and so does any result other than a canonical name. |
| Chatbot.EmploymentAliases | backend/chatbot/app.py:143-148 | Each alias, in any case and with whitespace, becomes full_time, part_time or contract. |
| Chatbot.SeparatorStripped | backend/chatbot/app.py:142-148 | `strip` drops Python's whitespace, the unit separator 0x1F included, so "\x1fft" gives full_time. |
| Chatbot.EmploymentTypeIdempotent | backend/chatbot/app.py:139-149 | Normalising a non-empty result again gives the same result. |
| Chatbot.BlankEmploymentType | backend/chatbot/app.py:140-142 | Any non-empty string that strips to nothing gives "", which normalises again to None. |
| Chatbot.DayLabelAgrees | backend/chatbot/app.py:221 | `t.title()[:3]` equals the manager's `t[:3].title()`. |
| Chatbot.NormalizeDayList | backend/chatbot/app.py:214-228 | The loops produce the day list, or fail for a value that is neither a list nor a string. |
| Chatbot.DayListShape | backend/chatbot/app.py:214-228 | The result has no repeats. It holds exactly the token labels, the empty label included, in first-occurrence order. |
| Chatbot.ManagerDropsEmpty | backend/chatbot/app.py:214-228 | The manager's day list is the chatbot's with "" removed. |

## Left out

- The CP-SAT search, its time limit and worker count, and the solver's telemetry (best
  bound, wall time, conflicts, branches). The solver is an oracle: `Values` plus a
  `Status`. The model states which values are acceptable and optimal, but not that the
  search finds them.
- `solver.ObjectiveValue()`. The response carries `Model.Objective` of the values, which
  is what the solver reports for them.
- FastAPI, Pydantic's type coercion, the database, JSON parsing failures, logging, LINE and
  Rasa. A preference record whose JSON does not parse is skipped; this is modelled as a
  record with no data.
- Dates and clocks:
  - `datetime.fromisoformat`, `isocalendar` and `isoformat` are the parameters `iso` and
    `fmt`, with dates as day ordinals;
  - `datetime.now()` is the caller's `base`, or a parsed `start_date` as an ordinal, so the
    ValueError of a malformed start date is not represented;
  - `_norm_date` is the parameter `normDate`.
- `random.choice` and `random.sample`. They are the parameter `pick`, giving indices into
  the option lists.
- Case mapping is ASCII only: `lower` and `title` leave non-ASCII letters unchanged (the
  Thai day names have no case). Whitespace is Python's full `str.isspace` set.
- `int()` reads ASCII digits only: other Unicode decimal digits (Thai digits, say) are not
  read as numbers.
- Chatbot.NormalizeDayList, Manager.NormDays: `repr` of a string inside a list leaves
  non-ASCII characters as they are, where Python escapes the non-printable ones (`\x85`,
  `\xa0`, `\u2028`). Quotes, backslashes and ASCII control characters are escaped as Python
  does.
- Normalizer.DayoffRankToPenalty, Normalizer.LevelToSkills, Manager.NormNurse: JSON numbers
  are integers only. A float rank, level or priority is not represented, so the truncation
  `int()` applies to a float is not modelled.
- `time_limit_sec` and the manager's float weights are not part of the model.
- The payload's extra keys (the extra weights, the time limits, the seed, the logging flag)
  are not part of the request.
- A truthy `cfg["nurses"]` that is not a list, and entries that are not objects. Both are
  the failing path of `Manager.NormNurse`.
- `existing_ids.add` inside the padding loop. It has no effect on the result.
- The chatbot's own SHIFT_MAP (backend/chatbot/app.py:208-212). Nothing in the modelled
  lines uses it.
- Chatbot.EmploymentTypeIdempotent: holds only for a non-empty result. A blank string
  normalises to "", and "" to None (see `Chatbot.BlankEmploymentType`).
- Manager.NormShift: the IndexError on a truthy value that strips to nothing is modelled as
  None.

/** The solver-payload normaliser of the chatbot backend: it turns nurse and preference rows
    read from the database into a `/solve` request. Dates are day ordinals; `fmt` renders an
    ordinal as an ISO date string and `iso` reads an ISO date's week number back. */
module Normalizer {
  import opened Base
  import opened Text
  import opened Request
  import opened Weeks
  import opened Model

  // ---------------------------------------------------------------------------------------
  // Small tables

  /** The solver penalty of a day-off rank: 1, 2 and 3 cost 10, 25 and 40; any other value,
      including one `int()` rejects, costs 25. */
  function DayoffRankToPenalty(rank: Json): (p: int)
    ensures p == 10 || p == 25 || p == 40
    ensures p == 10 <==> PyInt(rank) == Some(1)
    ensures p == 40 <==> PyInt(rank) == Some(3)
  {
    var r := match PyInt(rank) case Some(i) => i case None => 2;
    if r == 1 then 10 else if r == 2 then 25 else if r == 3 then 40 else 25
  }

  /** A stronger rank means a stronger "please keep me off": the penalty strictly grows
      over ranks 1, 2, 3; and a rank stored as decimal text costs what the number does. */
  lemma PenaltyMonotone(k: nat)
    ensures DayoffRankToPenalty(JInt(1)) < DayoffRankToPenalty(JInt(2)) < DayoffRankToPenalty(JInt(3))
    ensures DayoffRankToPenalty(JStr(Digits(k))) == DayoffRankToPenalty(JInt(k))
  {
    ParseDigits(Digits(k));
    DigitsRoundTrip(k);
  }

  /** Skills of a nurse level: ["Senior"] exactly when the level reads as an integer of at
      least 2, and no skills otherwise (an unreadable level counts as 1). */
  function LevelToSkills(level: Json): (r: seq<Skill>)
    ensures r == ["Senior"] <==> PyInt(level).Some? && PyInt(level).value >= 2
    ensures r == [] <==> !(PyInt(level).Some? && PyInt(level).value >= 2)
  {
    var lvl := match PyInt(level) case Some(i) => i case None => 1;
    if lvl >= 2 then ["Senior"] else []
  }

  /** The three shifts of every payload. */
  const PayloadShifts: seq<Shift> := ["Morning", "Evening", "Night"]

  /** `horizon` consecutive dates from `base` (none when `horizon` is not positive). */
  function Horizon(base: int, horizon: int, fmt: int -> string): (days: seq<Day>)
    ensures |days| == if horizon < 0 then 0 else horizon
    ensures forall i :: 0 <= i < |days| ==> days[i] == fmt(base + i)
  {
    seq(if horizon < 0 then 0 else horizon, i => fmt(base + i))
  }

  /** Different days render differently, so the horizon has no repeated date. */
  lemma HorizonDistinct(base: int, horizon: int, fmt: int -> string)
    requires forall a, b :: a != b ==> fmt(a) != fmt(b)
    ensures NoDup(Horizon(base, horizon, fmt))
  {
  }

  /** The normaliser's own week map: the ISO branch of the solver's indexer, None where a
      day is not an ISO date (the ValueError of `fromisoformat`). */
  function BuildWeekIndexMap(days: seq<Day>, iso: IsoCalendar): (r: Option<map<Day, int>>)
    ensures r.Some? <==> AllIso(days, iso)
    ensures r.Some? ==> r.value == WeekIndexMap(days, map[], iso)
  {
    if AllIso(days, iso) then Some(IsoBuckets(days, iso)) else None
  }

  // ---------------------------------------------------------------------------------------
  // Python's string order and `sorted`

  /** `a <= b` in Python's string order: code point by code point, a prefix first. */
  predicate LexLe(a: string, b: string)
    decreases |a|
  {
    a == [] || (b != [] && (a[0] < b[0] || (a[0] == b[0] && LexLe(a[1..], b[1..]))))
  }

  lemma {:induction false} LexLeTotal(a: string, b: string)
    ensures LexLe(a, b) || LexLe(b, a)
    decreases |a|
  {
    if a != [] && b != [] && a[0] == b[0] {
      LexLeTotal(a[1..], b[1..]);
    }
  }

  lemma {:induction false} LexLeTrans(a: string, b: string, c: string)
    requires LexLe(a, b) && LexLe(b, c)
    ensures LexLe(a, c)
    decreases |a|
  {
    if a != [] && b != [] && c != [] && a[0] == b[0] == c[0] {
      LexLeTrans(a[1..], b[1..], c[1..]);
    }
  }

  lemma {:induction false} LexLeAntisym(a: string, b: string)
    requires LexLe(a, b) && LexLe(b, a)
    ensures a == b
    decreases |a|
  {
    if a != [] {
      LexLeAntisym(a[1..], b[1..]);
      assert a == [a[0]] + a[1..] && b == [b[0]] + b[1..];
    }
  }

  predicate SortedLex(s: seq<string>) {
    forall i, j :: 0 <= i < j < |s| ==> LexLe(s[i], s[j])
  }

  function Insert(x: string, s: seq<string>): (r: seq<string>)
    requires SortedLex(s)
    ensures SortedLex(r)
    ensures multiset(r) == multiset(s) + multiset{x}
  {
    if s == [] then [x]
    else if LexLe(x, s[0]) then
      forall j | 0 <= j < |s| ensures LexLe(x, s[j]) {
        if j > 0 { LexLeTrans(x, s[0], s[j]); }
      }
      [x] + s
    else
      LexLeTotal(x, s[0]);
      var t := Insert(x, s[1..]);
      assert s == [s[0]] + s[1..];
      forall y | y in multiset(t) ensures LexLe(s[0], y) {
        if y != x {
          assert y in multiset(s[1..]);
          var j :| 0 <= j < |s[1..]| && s[1..][j] == y;
          assert s[j + 1] == y;
        }
      }
      forall j | 0 <= j < |t| ensures LexLe(s[0], t[j]) {
        assert t[j] in multiset(t);
      }
      [s[0]] + t
  }

  /** `sorted(keys)`: an ordered permutation of the keys. */
  function SortStrings(s: seq<string>): (r: seq<string>)
    ensures SortedLex(r)
    ensures multiset(r) == multiset(s)
  {
    if s == [] then [] else
      assert s == s[..|s| - 1] + [s[|s| - 1]];
      Insert(s[|s| - 1], SortStrings(s[..|s| - 1]))
  }

  /** Sorting distinct strings yields them in strictly increasing order, each once. */
  lemma SortDistinct(s: seq<string>)
    requires NoDup(s)
    ensures NoDup(SortStrings(s))
    ensures forall x :: x in SortStrings(s) <==> x in s
    ensures forall i, j :: 0 <= i < j < |SortStrings(s)| ==> LexLe(SortStrings(s)[i], SortStrings(s)[j]) && SortStrings(s)[i] != SortStrings(s)[j]
  {
    var r := SortStrings(s);
    forall x ensures x in r <==> x in s {
      assert x in r <==> x in multiset(r);
      assert x in s <==> x in multiset(s);
    }
    NoDupCount(s);
    forall i, j | 0 <= i < j < |r| ensures r[i] != r[j] {
      CountTwo(r, i, j);
    }
  }

  lemma {:induction false} NoDupCount(s: seq<string>)
    requires NoDup(s)
    ensures forall x :: multiset(s)[x] <= 1
  {
    if s != [] {
      var p := s[..|s| - 1];
      assert s == p + [s[|s| - 1]];
      NoDupCount(p);
      assert s[|s| - 1] !in p;
    }
  }

  /** A value occurring at most once in the multiset sits at no two positions. */
  lemma CountTwo(r: seq<string>, i: nat, j: nat)
    requires i < j < |r| && multiset(r)[r[i]] <= 1
    ensures r[i] != r[j]
  {
    assert r == r[..i] + [r[i]] + r[i + 1..j] + [r[j]] + r[j + 1..];
  }

  // ---------------------------------------------------------------------------------------
  // Rows and the per-nurse metadata

  /** A nurse row (id, name, level, employment_type, unit); the text columns may be NULL. */
  datatype NurseRow = NurseRow(id: int, name: Option<string>, level: Json, employmentType: Option<string>, unit: Option<string>)

  /** A preference row (nurse_id, preference_type, data); `data` is the parsed JSON, None
      when `json.loads` fails. */
  datatype PrefRow = PrefRow(nurseId: int, prefType: string, data: Option<Json>)

  datatype Meta = Meta(name: string, level: Json, employmentType: string, unit: string)

  /** `f"N{id:03}"`. */
  function Code(id: int): (c: string)
    ensures |c| >= 4 && c[0] == 'N'
  {
    "N" + Pad3(id)
  }

  /** Different ids get different codes. */
  lemma CodeInjective(i: int, j: int)
    requires Code(i) == Code(j)
    ensures i == j
  {
    assert Pad3(i) == Code(i)[1..] == Code(j)[1..] == Pad3(j);
    Pad3Injective(i, j);
  }

  /** `s or default` on a text column: None and "" give the default. */
  function TextOr(s: Option<string>, default: string): string {
    if s.Some? && s.value != "" then s.value else default
  }

  /** The metadata of a row, with `or` defaults for its empty columns. */
  function MetaOf(row: NurseRow): Meta {
    Meta(TextOr(row.name, "Nurse " + FormatInt(row.id)),
         if Truthy(row.level) then row.level else JInt(1),
         TextOr(row.employmentType, "full_time"),
         TextOr(row.unit, "ER"))
  }

  function RowCodes(rows: seq<NurseRow>): (r: seq<string>)
    ensures |r| == |rows| && forall i :: 0 <= i < |rows| ==> r[i] == Code(rows[i].id)
  {
    seq(|rows|, i requires 0 <= i < |rows| => Code(rows[i].id))
  }

  function Ids(rows: seq<NurseRow>): set<int> {
    set r | r in rows :: r.id
  }

  /** `nurse_meta` after the loop over the rows: a later row of the same id overwrites. */
  function Metas(rows: seq<NurseRow>): (m: map<string, Meta>)
    ensures m.Keys == set r | r in rows :: Code(r.id)
  {
    if rows == [] then map[]
    else
      var p := rows[..|rows| - 1];
      assert forall r :: r in rows <==> r in p || r == rows[|rows| - 1];
      Metas(p)[Code(rows[|rows| - 1].id) := MetaOf(rows[|rows| - 1])]
  }

  /** The metadata of a code is that of the last row with its id. */
  lemma {:induction false} MetasLastWins(rows: seq<NurseRow>, i: nat)
    requires i < |rows|
    requires forall j :: i < j < |rows| ==> rows[j].id != rows[i].id
    ensures Metas(rows)[Code(rows[i].id)] == MetaOf(rows[i])
  {
    var m := |rows| - 1;
    var p := rows[..m];
    MetasStep(rows);
    if i < m {
      assert p[i] == rows[i];
      MetasLastWins(p, i);
      if Code(rows[m].id) == Code(rows[i].id) {
        CodeInjective(rows[m].id, rows[i].id);
      }
    }
  }

  /** One step of the row loop: the last row's metadata is stored under its code. */
  lemma MetasStep(rows: seq<NurseRow>)
    requires rows != []
    ensures Metas(rows) == Metas(rows[..|rows| - 1])[Code(rows[|rows| - 1].id) := MetaOf(rows[|rows| - 1])]
  {
  }

  predicate PartTime(emp: string) {
    emp == "part_time" || emp == "part-time" || emp == "pt"
  }

  predicate Contract(emp: string) {
    emp == "contract" || emp == "temp"
  }

  /** Minimum and maximum total shifts for a normalised employment type over a horizon of h
      days: part-time (2, 4) or more, contract/temp (1, 3) or more, anything else full-time
      with at least 4 and at most h. */
  function EmploymentBounds(emp: string, h: int): (int, int) {
    if PartTime(emp) then (Max(2, h / 4), Max(4, h / 2))
    else if Contract(emp) then (Max(1, h / 5), Max(3, h / 2))
    else (Max(4, h / 2), h)
  }

  function Max(a: int, b: int): int {
    if a < b then b else a
  }

  /** The bounds are consistent for part-time and contract nurses on any horizon, and for
      full-time nurses from four days on; below four days a full-time minimum exceeds the
      horizon. The maximum never exceeds the horizon from four days on. */
  lemma BoundsOrdered(emp: string, h: int)
    requires h >= 0
    ensures !PartTime(emp) && !Contract(emp) && h < 4 ==> EmploymentBounds(emp, h).0 > h
    ensures PartTime(emp) || Contract(emp) || h >= 4 ==> 0 < EmploymentBounds(emp, h).0 <= EmploymentBounds(emp, h).1
    ensures h >= 4 ==> EmploymentBounds(emp, h).1 <= h
  {
  }

  function EmploymentOf(m: Meta): string {
    Lower(Strip(m.employmentType))
  }

  // ---------------------------------------------------------------------------------------
  // Preferences

  /** A `preferred_days_off` record of a known nurse whose JSON is not an object: `.get`
      raises AttributeError. */
  predicate BadRecord(row: PrefRow, ids: set<int>) {
    row.nurseId in ids && row.data.Some? && row.prefType == "preferred_days_off" && !row.data.value.JObj?
  }

  /** What a record contributes: the nurse code, the date and the penalty, when it is a
      readable `preferred_days_off` object of a known nurse whose non-empty date string lies
      in the horizon; the rank defaults to 2. */
  function Contribution(row: PrefRow, ids: set<int>, days: seq<Day>): Option<(string, Day, int)> {
    if row.nurseId !in ids || row.data.None? || row.prefType != "preferred_days_off" || !row.data.value.JObj? then None
    else
      var fields := row.data.value.fields;
      match Get(fields, "date")
      case Some(JStr(s)) =>
        if s != "" && s in days
        then Some((Code(row.nurseId), s, DayoffRankToPenalty(Get(fields, "rank").GetOr(JInt(2)))))
        else None
      case _ => None
  }

  /** The same penalty on all three shifts of a date. */
  function AllShifts(p: int): map<Shift, int> {
    map["Morning" := p, "Evening" := p, "Night" := p]
  }

  /** What each record contributes, as one function of the record. */
  function Contributions(ids: set<int>, days: seq<Day>): PrefRow -> Option<(Nurse, Day, int)> {
    row => Contribution(row, ids, days)
  }

  /** `preferences` after the loop over the records, given what each record contributes. */
  function PrefFold(rows: seq<PrefRow>, give: PrefRow -> Option<(Nurse, Day, int)>): map<Nurse, map<Day, map<Shift, int>>> {
    if rows == [] then map[]
    else
      var m := PrefFold(rows[..|rows| - 1], give);
      match give(rows[|rows| - 1])
      case None => m
      case Some((c, d, p)) => m[c := (if c in m then m[c] else map[])[d := AllShifts(p)]]
  }

  /** The record contributes a penalty for nurse code `c` on date `d`. */
  predicate Gives(g: Option<(Nurse, Day, int)>, c: string, d: Day) {
    g.Some? && g.value.0 == c && g.value.1 == d
  }

  /** A preference entry exists exactly for the (nurse, date) pairs some record contributes. */
  lemma {:induction false} PrefFoldKeys(rows: seq<PrefRow>, give: PrefRow -> Option<(Nurse, Day, int)>, c: string, d: Day)
    ensures c in PrefFold(rows, give) && d in PrefFold(rows, give)[c] <==>
            exists i :: 0 <= i < |rows| && Gives(give(rows[i]), c, d)
  {
    if rows != [] {
      var m := |rows| - 1;
      var p := rows[..m];
      PrefFoldKeys(p, give, c, d);
      assert forall i :: 0 <= i < m ==> p[i] == rows[i];
      if exists i :: 0 <= i < |rows| && Gives(give(rows[i]), c, d) {
        var i :| 0 <= i < |rows| && Gives(give(rows[i]), c, d);
        if i < m {
          assert Gives(give(p[i]), c, d);
        }
      }
    }
  }

  /** The last record for a (nurse, date) pair wins: its penalty sits on all three shifts. */
  lemma {:induction false} PrefFoldLastWins(rows: seq<PrefRow>, give: PrefRow -> Option<(Nurse, Day, int)>, i: nat, c: string, d: Day, p: int)
    requires i < |rows| && give(rows[i]) == Some((c, d, p))
    requires forall j :: i < j < |rows| ==> !Gives(give(rows[j]), c, d)
    ensures c in PrefFold(rows, give) && d in PrefFold(rows, give)[c]
    ensures PrefFold(rows, give)[c][d] == AllShifts(p)
  {
    var m := |rows| - 1;
    if i < m {
      var q := rows[..m];
      assert forall j :: 0 <= j < m ==> q[j] == rows[j];
      PrefFoldLastWins(q, give, i, c, d, p);
    }
  }

  /** Preferences only name known nurses and horizon dates, and always all three shifts. */
  lemma {:induction false} PrefFoldShape(rows: seq<PrefRow>, ids: set<int>, days: seq<Day>)
    ensures forall c :: c in PrefFold(rows, Contributions(ids, days)) ==> exists id :: id in ids && c == Code(id)
    ensures forall c, d :: c in PrefFold(rows, Contributions(ids, days)) && d in PrefFold(rows, Contributions(ids, days))[c] ==>
              d in days && PrefFold(rows, Contributions(ids, days))[c][d].Keys == {"Morning", "Evening", "Night"}
  {
    if rows != [] {
      PrefFoldShape(rows[..|rows| - 1], ids, days);
    }
  }

  // ---------------------------------------------------------------------------------------
  // The payload

  /** The demand row every day gets. */
  function DemandRow(morning: int, evening: int, night: int): map<Shift, int> {
    map["Morning" := morning, "Evening" := evening, "Night" := night]
  }

  /** Every night needs one Senior. */
  const NightNeedsSenior: map<Shift, map<Skill, int>> := map["Night" := map["Senior" := 1]]

  /** The weights the payload sends; its extra keys are not fields of the request and are
      dropped when the request is read. */
  const PayloadWeights := Weights(50, 10, 1)

  /** The request the normaliser produces, assembled from the per-step results. */
  function Payload(nurseRows: seq<NurseRow>, prefRows: seq<PrefRow>, days: seq<Day>, horizon: int,
                   morning: int, evening: int, night: int, iso: IsoCalendar): SolveRequest
    requires AllIso(days, iso)
  {
    var metas := Metas(nurseRows);
    var keys := Dedup(RowCodes(nurseRows));
    MetaKeys(nurseRows);
    var bounds := BoundsTable(keys, metas, horizon);
    SolveRequest(
      SortStrings(keys),
      days,
      PayloadShifts,
      map d | d in days :: DemandRow(morning, evening, night),
      bounds.0,
      bounds.1,
      map[],
      map[],
      PrefFold(prefRows, Contributions(Ids(nurseRows), days)),
      map c | c in metas :: LevelToSkills(metas[c].level),
      map d | d in days :: NightNeedsSenior,
      IsoBuckets(days, iso),
      Some(PayloadWeights))
  }

  /** `codes` after the loop over the rows: each id mapped to its code. */
  function CodeTable(rows: seq<NurseRow>): (t: map<int, string>)
    ensures t.Keys == Ids(rows)
  {
    if rows == [] then map[]
    else
      var p := rows[..|rows| - 1];
      assert forall r :: r in rows <==> r in p || r == rows[|rows| - 1];
      CodeTable(p)[rows[|rows| - 1].id := Code(rows[|rows| - 1].id)]
  }

  lemma {:induction false} CodeTableValues(rows: seq<NurseRow>)
    ensures forall id :: id in CodeTable(rows) ==> CodeTable(rows)[id] == Code(id)
  {
    if rows != [] {
      CodeTableValues(rows[..|rows| - 1]);
    }
  }

  /** The per-row updates of step 1, as facts about the prefix functions. */
  lemma NurseStep(rows: seq<NurseRow>, i: nat)
    requires i < |rows|
    ensures Metas(rows[..i + 1]) == Metas(rows[..i])[Code(rows[i].id) := MetaOf(rows[i])]
    ensures Dedup(RowCodes(rows[..i + 1])) ==
            if Code(rows[i].id) in Dedup(RowCodes(rows[..i])) then Dedup(RowCodes(rows[..i]))
            else Dedup(RowCodes(rows[..i])) + [Code(rows[i].id)]
    ensures CodeTable(rows[..i + 1]) == CodeTable(rows[..i])[rows[i].id := Code(rows[i].id)]
  {
    assert rows[..i + 1][..i] == rows[..i];
    assert RowCodes(rows[..i + 1])[..i] == RowCodes(rows[..i]);
    assert forall r :: r in rows[..i + 1] <==> r in rows[..i] || r == rows[i];
  }

  /** The metadata keys are exactly the codes in first-seen order. */
  lemma MetaKeys(rows: seq<NurseRow>)
    ensures forall c :: c in Metas(rows) <==> c in Dedup(RowCodes(rows))
  {
    forall c | c in RowCodes(rows) ensures c in Metas(rows) {
      var i :| 0 <= i < |rows| && RowCodes(rows)[i] == c;
      assert rows[i] in rows;
    }
  }

  /** The payload passes the solver's demand check: every day has a demand for each of its
      three shifts. */
  lemma PayloadDemandComplete(nurseRows: seq<NurseRow>, prefRows: seq<PrefRow>, days: seq<Day>, horizon: int,
                              morning: int, evening: int, night: int, iso: IsoCalendar)
    requires AllIso(days, iso)
    ensures DemandComplete(Payload(nurseRows, prefRows, days, horizon, morning, evening, night, iso))
    ensures forall d :: d in days ==>
              Payload(nurseRows, prefRows, days, horizon, morning, evening, night, iso).demand[d]["Night"] == night
  {
  }

  /** The roster is every nurse code once, in sorted order, and every nurse on it has bounds
      and a skill list. */
  lemma PayloadNurses(nurseRows: seq<NurseRow>, prefRows: seq<PrefRow>, days: seq<Day>, horizon: int,
                      morning: int, evening: int, night: int, iso: IsoCalendar)
    requires AllIso(days, iso)
    ensures var req := Payload(nurseRows, prefRows, days, horizon, morning, evening, night, iso);
            NoDup(req.nurses) && SortedLex(req.nurses) &&
            (forall c :: c in req.nurses <==> exists r :: r in nurseRows && c == Code(r.id)) &&
            (forall c :: c in req.nurses ==> c in req.minTotal && c in req.maxTotal && c in req.nurseSkills)
  {
    var keys := Dedup(RowCodes(nurseRows));
    SortDistinct(keys);
    MetaKeys(nurseRows);
  }

  /** The solver buckets the payload's days by ISO week (the map sent is its own ISO
      bucketing), knows a bucket for every day, and puts two days together exactly when they
      share an ISO week. */
  lemma PayloadWeeks(nurseRows: seq<NurseRow>, prefRows: seq<PrefRow>, days: seq<Day>, horizon: int,
                     morning: int, evening: int, night: int, iso: IsoCalendar)
    requires AllIso(days, iso)
    ensures var req := Payload(nurseRows, prefRows, days, horizon, morning, evening, night, iso);
            WeekIdx(req, iso) == IsoBuckets(days, iso) && Indexed(days, WeekIdx(req, iso)) &&
            forall d1, d2 :: d1 in days && d2 in days ==>
              (WeekIdx(req, iso)[d1] == WeekIdx(req, iso)[d2] <==> iso(d1) == iso(d2))
  {
    forall d1, d2 | d1 in days && d2 in days
      ensures IsoBuckets(days, iso)[d1] == IsoBuckets(days, iso)[d2] <==> iso(d1) == iso(d2)
    {
      IsoBucketsSameWeek(days, iso, d1, d2);
    }
  }

  /** A full-time nurse must work at least four shifts, but nobody works more than one shift
      a day: on a horizon shorter than four days no schedule satisfies the payload, and the
      solver answers INFEASIBLE whatever the demand. */
  lemma FullTimeShortHorizon(nurseRows: seq<NurseRow>, prefRows: seq<PrefRow>, days: seq<Day>, horizon: int,
                             morning: int, evening: int, night: int, iso: IsoCalendar, c: Nurse, v: Values)
    requires AllIso(days, iso) && |days| < 4
    requires c in Metas(nurseRows)
    requires !PartTime(EmploymentOf(Metas(nurseRows)[c])) && !Contract(EmploymentOf(Metas(nurseRows)[c]))
    ensures !Accepted(Payload(nurseRows, prefRows, days, horizon, morning, evening, night, iso), iso, v)
  {
    var req := Payload(nurseRows, prefRows, days, horizon, morning, evening, night, iso);
    var keys := Dedup(RowCodes(nurseRows));
    MetaKeys(nurseRows);
    assert c in multiset(keys);
    assert c in req.nurses by {
      assert c in multiset(req.nurses);
    }
    BoundsTableValues(keys, Metas(nurseRows), horizon, c);
    assert MinBound(req, c) >= 4;
    if Accepted(req, iso, v) {
      assert TotalBounds(req, v);
      LoadAtMostDays(req, iso, v, c);
    }
  }

  /** Step 1: nurse codes and metadata, one row at a time (`keys` is the dict's key order). */
  method CollectNurses(rows: seq<NurseRow>) returns (codes: map<int, string>, meta: map<string, Meta>, keys: seq<string>)
    ensures codes == CodeTable(rows)
    ensures meta == Metas(rows)
    ensures keys == Dedup(RowCodes(rows))
    ensures forall c :: c in meta <==> c in keys
  {
    codes, meta, keys := map[], map[], [];
    for i := 0 to |rows|
      invariant codes == CodeTable(rows[..i])
      invariant meta == Metas(rows[..i])
      invariant keys == Dedup(RowCodes(rows[..i]))
    {
      NurseStep(rows, i);
      MetaKeys(rows[..i]);
      var row := rows[i];
      var code := Code(row.id);
      codes := codes[row.id := code];
      if code !in meta {
        keys := keys + [code];
      }
      meta := meta[code := MetaOf(row)];
    }
    assert rows[..|rows|] == rows;
    MetaKeys(rows);
  }

  /** Step 2: the preference records, skipping what does not contribute; a non-object
      `preferred_days_off` record of a known nurse raises. */
  method CollectPreferences(rows: seq<PrefRow>, codes: map<int, string>, days: seq<Day>)
    returns (r: Result<map<Nurse, map<Day, map<Shift, int>>>, PrefRow>)
    requires forall id :: id in codes ==> codes[id] == Code(id)
    ensures r.Err? <==> exists i :: 0 <= i < |rows| && BadRecord(rows[i], codes.Keys)
    ensures r.Err? ==> r.error in rows && BadRecord(r.error, codes.Keys)
    ensures r.Ok? ==> r.value == PrefFold(rows, Contributions(codes.Keys, days))
  {
    var prefs := map[];
    for i := 0 to |rows|
      invariant prefs == PrefFold(rows[..i], Contributions(codes.Keys, days))
      invariant forall j :: 0 <= j < i ==> !BadRecord(rows[j], codes.Keys)
    {
      var row := rows[i];
      assert rows[..i + 1][..i] == rows[..i];
      if row.nurseId !in codes || row.data.None? {
        continue;
      }
      var code := codes[row.nurseId];
      var parsed := row.data.value;
      if row.prefType == "preferred_days_off" {
        if !parsed.JObj? {
          return Err(row);
        }
        var date := Get(parsed.fields, "date");
        var rank := Get(parsed.fields, "rank").GetOr(JInt(2));
        if date.Some? && date.value.JStr? && date.value.s != "" && date.value.s in days {
          var penalty := DayoffRankToPenalty(rank);
          var d := date.value.s;
          var forNurse := if code in prefs then prefs[code] else map[];
          prefs := prefs[code := forNurse[d := AllShifts(penalty)]];
        }
      }
    }
    assert rows[..|rows|] == rows;
    return Ok(prefs);
  }

  /** `min_total` and `max_total` after the loop over the codes in `keys`. */
  function BoundsTable(keys: seq<string>, meta: map<string, Meta>, horizon: int): (t: (map<Nurse, int>, map<Nurse, int>))
    requires forall c :: c in keys ==> c in meta
    ensures t.0.Keys == t.1.Keys == set c | c in keys
  {
    if keys == [] then (map[], map[])
    else
      var p := keys[..|keys| - 1];
      var c := keys[|keys| - 1];
      assert forall x :: x in keys <==> x in p || x == c;
      var t := BoundsTable(p, meta, horizon);
      var b := EmploymentBounds(EmploymentOf(meta[c]), horizon);
      (t.0[c := b.0], t.1[c := b.1])
  }

  /** Every nurse's bounds are those of its employment type. */
  lemma {:induction false} BoundsTableValues(keys: seq<string>, meta: map<string, Meta>, horizon: int, c: string)
    requires forall k :: k in keys ==> k in meta
    requires c in keys
    ensures BoundsTable(keys, meta, horizon).0[c] == EmploymentBounds(EmploymentOf(meta[c]), horizon).0
    ensures BoundsTable(keys, meta, horizon).1[c] == EmploymentBounds(EmploymentOf(meta[c]), horizon).1
  {
    var p := keys[..|keys| - 1];
    if keys[|keys| - 1] != c {
      assert c in p;
      BoundsTableValues(p, meta, horizon, c);
    }
  }

  /** Step 3: the bounds of every code, by its normalised employment type. */
  method CollectBounds(keys: seq<string>, meta: map<string, Meta>, horizon: int)
    returns (minTotal: map<Nurse, int>, maxTotal: map<Nurse, int>)
    requires forall c :: c in keys ==> c in meta
    ensures (minTotal, maxTotal) == BoundsTable(keys, meta, horizon)
  {
    minTotal, maxTotal := map[], map[];
    for i := 0 to |keys|
      invariant (minTotal, maxTotal) == BoundsTable(keys[..i], meta, horizon)
    {
      assert keys[..i + 1][..i] == keys[..i];
      var code := keys[i];
      var bounds := EmploymentBounds(EmploymentOf(meta[code]), horizon);
      minTotal := minTotal[code := bounds.0];
      maxTotal := maxTotal[code := bounds.1];
    }
    assert keys[..|keys|] == keys;
  }

  /** Step 4: the skills of every code, by its level. */
  method CollectSkills(keys: seq<string>, meta: map<string, Meta>) returns (skills: map<Nurse, seq<Skill>>)
    requires forall c :: c in meta <==> c in keys
    ensures skills == map c | c in meta :: LevelToSkills(meta[c].level)
  {
    skills := map[];
    for i := 0 to |keys|
      invariant skills.Keys == set c | c in keys[..i]
      invariant forall c :: c in skills ==> skills[c] == LevelToSkills(meta[c].level)
    {
      assert forall c :: c in keys[..i + 1] <==> c in keys[..i] || c == keys[i];
      skills := skills[keys[i] := LevelToSkills(meta[keys[i]].level)];
    }
    assert keys[..|keys|] == keys;
  }

  /** Steps 5 and 6: a Senior on every night, and the same demand every day. */
  method CollectDaily(days: seq<Day>, morning: int, evening: int, night: int)
    returns (required: map<Day, map<Shift, map<Skill, int>>>, demand: map<Day, map<Shift, int>>)
    ensures required == map d | d in days :: NightNeedsSenior
    ensures demand == map d | d in days :: DemandRow(morning, evening, night)
  {
    required := map[];
    for i := 0 to |days|
      invariant required.Keys == set d | d in days[..i]
      invariant forall d :: d in required ==> required[d] == NightNeedsSenior
    {
      assert forall d :: d in days[..i + 1] <==> d in days[..i] || d == days[i];
      var forDay := if days[i] in required then required[days[i]] else map[];
      assert forDay["Night" := map["Senior" := 1]] == NightNeedsSenior;
      required := required[days[i] := forDay["Night" := map["Senior" := 1]]];
    }
    assert days[..|days|] == days;
    demand := map[];
    for i := 0 to |days|
      invariant demand.Keys == set d | d in days[..i]
      invariant forall d :: d in demand ==> demand[d] == DemandRow(morning, evening, night)
    {
      assert forall d :: d in days[..i + 1] <==> d in days[..i] || d == days[i];
      demand := demand[days[i] := DemandRow(morning, evening, night)];
    }
    assert days[..|days|] == days;
  }

  /** Every horizon date is an ISO date. */
  lemma HorizonIso(base: int, horizon: int, fmt: int -> string, iso: IsoCalendar)
    requires forall o :: iso(fmt(o)).Some?
    ensures AllIso(Horizon(base, horizon, fmt), iso)
  {
    var days := Horizon(base, horizon, fmt);
    forall d | d in days ensures iso(d).Some? {
      var i :| 0 <= i < |days| && days[i] == d;
      assert d == fmt(base + i);
    }
  }

  /** `build_solver_payload_from_db_rows`: the horizon starts at ordinal `base` (the parsed
      start date, or today). A non-object day-off record of a known nurse raises
      AttributeError (Err with that record); otherwise the result is the payload above. */
  method BuildPayload(nurseRows: seq<NurseRow>, prefRows: seq<PrefRow>, base: int, horizon: int,
                      morning: int, evening: int, night: int, fmt: int -> string, iso: IsoCalendar)
    returns (r: Result<SolveRequest, PrefRow>)
    requires forall o :: iso(fmt(o)).Some?
    ensures AllIso(Horizon(base, horizon, fmt), iso)
    ensures r.Err? <==> exists i :: 0 <= i < |prefRows| && BadRecord(prefRows[i], Ids(nurseRows))
    ensures r.Ok? ==> r.value == Payload(nurseRows, prefRows, Horizon(base, horizon, fmt), horizon, morning, evening, night, iso)
  {
    var days := Horizon(base, horizon, fmt);
    HorizonIso(base, horizon, fmt, iso);
    var codes, meta, keys := CollectNurses(nurseRows);
    CodeTableValues(nurseRows);
    var nurses := SortStrings(keys);
    var prefs := CollectPreferences(prefRows, codes, days);
    if prefs.Err? {
      return Err(prefs.error);
    }
    var minTotal, maxTotal := CollectBounds(keys, meta, horizon);
    var skills := CollectSkills(keys, meta);
    var required, demand := CollectDaily(days, morning, evening, night);
    var weeks := BuildWeekIndexMap(days, iso);
    return Ok(SolveRequest(nurses, days, PayloadShifts, demand, minTotal, maxTotal, map[], map[],
                           prefs.value, skills, required, weeks.value, Some(PayloadWeights)));
  }
}

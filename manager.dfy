/** The roster manager's normalisation helpers: day lists, shift codes, synthetic coverage
    and the padding of a roster up to a minimum number of nurses. */
module Manager {
  import opened Base
  import opened Text
  import Normalizer

  // ---------------------------------------------------------------------------------------
  // Day lists

  function Min(a: int, b: int): int {
    if a < b then a else b
  }

  /** One token of a day list: its DAY_MAP abbreviation, else its first three characters
      title-cased (`k[:3].title()`), after stripping and lower-casing. */
  function DayToken(t: string): string {
    var k := Lower(Strip(t));
    if k in DayMap then DayMap[k] else Title(k[..Min(3, |k|)])
  }

  /** The tokens of a truthy day list: a list's items through `str()`, anything else
      through `str()` and the `[,/\s]+` split. */
  function DayTokens(raw: Json): (ts: seq<string>)
    ensures raw.JList? ==> |ts| == |raw.items|
  {
    if raw.JList? then seq(|raw.items|, i requires 0 <= i < |raw.items| => PyStr(raw.items[i]))
    else Split(PyStr(raw))
  }

  function MapDays(ts: seq<string>): (r: seq<string>)
    ensures |r| == |ts| && forall i :: 0 <= i < |ts| ==> r[i] == DayToken(ts[i])
  {
    seq(|ts|, i requires 0 <= i < |ts| => DayToken(ts[i]))
  }

  predicate NonEmpty(d: string) {
    d != ""
  }

  /** What `_norm_days` returns: nothing for a falsy value, otherwise the mapped tokens
      without empty strings and without repeats, first occurrence first. */
  function NormDaysOf(raw: Json): seq<string> {
    if !Truthy(raw) then [] else Dedup(Filter(MapDays(DayTokens(raw)), NonEmpty))
  }

  /** `_norm_days`: map every token, then keep each non-empty day the first time it is seen. */
  method NormDays(raw: Json) returns (result: seq<string>)
    ensures result == NormDaysOf(raw)
  {
    if !Truthy(raw) {
      return [];
    }
    var out := MapTokens(DayTokens(raw));
    result := KeepFirst(out, NonEmpty);
  }

  /** The first loop of `_norm_days`: one mapped day per token. */
  method MapTokens(items: seq<string>) returns (out: seq<string>)
    ensures out == MapDays(items)
  {
    out := [];
    for i := 0 to |items|
      invariant out == MapDays(items[..i])
    {
      out := out + [DayToken(items[i])];
    }
    assert items[..|items|] == items;
  }

  /** The normalised day list holds no empty string and no repeat, holds exactly the
      non-empty mapped tokens, and orders them by first occurrence. */
  lemma NormDaysShape(raw: Json)
    requires Truthy(raw)
    ensures NoDup(NormDaysOf(raw))
    ensures forall d :: d in NormDaysOf(raw) <==> d != "" && d in MapDays(DayTokens(raw))
    ensures var f := Filter(MapDays(DayTokens(raw)), NonEmpty);
            forall d :: d in NormDaysOf(raw) ==> IndexOf(NormDaysOf(raw), d) == |Dedup(f[..IndexOf(f, d)])|
  {
    var f := Filter(MapDays(DayTokens(raw)), NonEmpty);
    forall d | d in Dedup(f)
      ensures IndexOf(Dedup(f), d) == |Dedup(f[..IndexOf(f, d)])|
    {
      DedupRank(f, d);
    }
  }

  /** A day name, in English or Thai and in any letter case, becomes its abbreviation. */
  lemma DayNameToken(t: string)
    requires Strip(t) == t && Lower(t) in DayMap
    ensures DayToken(t) == DayMap[Lower(t)]
  {
  }

  // ---------------------------------------------------------------------------------------
  // Shift codes

  /** Shift names, English and Thai, and their one-letter codes. */
  const ShiftMap: map<string, string> := map[
    "morning" := "M", "เช้า" := "M", "m" := "M",
    "afternoon" := "A", "บ่าย" := "A", "a" := "A", "evening" := "A", "eve" := "A",
    "night" := "N", "กลางคืน" := "N", "ดึก" := "N", "n" := "N"
  ]

  predicate IsShiftCode(c: string) {
    c == "M" || c == "A" || c == "N"
  }

  /** `_norm_shift`: "M" for a falsy value; otherwise the code of its stripped, lower-cased
      text. */
  function NormShift(raw: Json): (r: Option<string>)
    ensures !Truthy(raw) ==> r == Some("M")
    ensures r.None? <==> Truthy(raw) && Strip(PyStr(raw)) == []
    ensures r.Some? ==> IsShiftCode(r.value)
  {
    if !Truthy(raw) then Some("M") else ShiftKey(Lower(Strip(PyStr(raw))))
  }

  /** A SHIFT_MAP name's code; else the upper-cased first character when it is a code, and
      "M" otherwise. An empty key has no first character (IndexError: None). */
  function ShiftKey(k: string): (r: Option<string>)
    ensures r.None? <==> k == []
    ensures r.Some? ==> IsShiftCode(r.value)
    ensures k in ShiftMap ==> r == Some(ShiftMap[k])
    ensures k != [] && k !in ShiftMap ==>
      r == Some(if UpperChar(k[0]) in "MAN" then [UpperChar(k[0])] else "M")
  {
    if k in ShiftMap then Some(ShiftMap[k])
    else if k == [] then None
    else
      var c := UpperChar(k[0]);
      Some(if c == 'M' || c == 'A' || c == 'N' then [c] else "M")
  }

  /** A value with no surrounding whitespace whose lower-case form is a SHIFT_MAP name
      normalises to that name's code. */
  lemma NamedShift(s: string, name: string)
    requires s != [] && !IsSpace(s[0]) && !IsSpace(s[|s| - 1])
    requires Lower(s) == name && name in ShiftMap
    ensures NormShift(JStr(s)) == Some(ShiftMap[name])
  {
    StripNoop(s);
  }

  lemma MorningFixed()
    ensures NormShift(JStr("M")) == Some("M")
  {
    assert Lower("M") == "m";
    assert ShiftMap["m"] == "M";
    NamedShift("M", "m");
  }

  lemma AfternoonFixed()
    ensures NormShift(JStr("A")) == Some("A")
  {
    assert Lower("A") == "a";
    assert ShiftMap["a"] == "A";
    NamedShift("A", "a");
  }

  lemma NightFixed()
    ensures NormShift(JStr("N")) == Some("N")
  {
    assert Lower("N") == "n";
    assert ShiftMap["n"] == "N";
    NamedShift("N", "n");
  }

  /** Each code normalises to itself. */
  lemma ShiftCodeFixed(c: string)
    requires IsShiftCode(c)
    ensures NormShift(JStr(c)) == Some(c)
  {
    if c == "M" {
      MorningFixed();
    } else if c == "A" {
      AfternoonFixed();
    } else {
      NightFixed();
    }
  }

  /** A normalised shift survives a second normalisation. */
  lemma NormShiftIdempotent(raw: Json)
    requires NormShift(raw).Some?
    ensures NormShift(JStr(NormShift(raw).value)) == NormShift(raw)
  {
    ShiftCodeFixed(NormShift(raw).value);
  }

  // ---------------------------------------------------------------------------------------
  // Synthetic coverage

  datatype CoverageRow = CoverageRow(date: string, shift: string, reqTotal: int)

  function DayRows(date: string, m: int, a: int, n: int): seq<CoverageRow> {
    [CoverageRow(date, "M", m), CoverageRow(date, "A", a), CoverageRow(date, "N", n)]
  }

  /** The coverage list for the first `days` dates from ordinal `start`. */
  function Coverage(start: int, days: nat, m: int, a: int, n: int, fmt: int -> string): seq<CoverageRow> {
    if days == 0 then [] else Coverage(start, days - 1, m, a, n, fmt) + DayRows(fmt(start + days - 1), m, a, n)
  }

  /** Rows 3i, 3i + 1 and 3i + 2 are the M, A and N requirements of day i. */
  lemma {:induction false} CoverageAt(start: int, days: nat, m: int, a: int, n: int, fmt: int -> string)
    ensures |Coverage(start, days, m, a, n, fmt)| == 3 * days
    ensures forall i :: 0 <= i < days ==>
              Coverage(start, days, m, a, n, fmt)[3 * i..3 * i + 3] == DayRows(fmt(start + i), m, a, n)
  {
    if days > 0 {
      CoverageAt(start, days - 1, m, a, n, fmt);
      var c := Coverage(start, days, m, a, n, fmt);
      var p := Coverage(start, days - 1, m, a, n, fmt);
      forall i | 0 <= i < days
        ensures c[3 * i..3 * i + 3] == DayRows(fmt(start + i), m, a, n)
      {
        if i < days - 1 {
          assert c[3 * i..3 * i + 3] == p[3 * i..3 * i + 3];
        } else {
          assert c[3 * i..3 * i + 3] == DayRows(fmt(start + days - 1), m, a, n);
        }
      }
    }
  }

  /** On distinct dates every (date, shift) slot appears in exactly one row. */
  lemma CoverageSlotsDistinct(start: int, days: nat, m: int, a: int, n: int, fmt: int -> string)
    requires forall x, y :: x != y ==> fmt(x) != fmt(y)
    ensures forall i, j :: 0 <= i < j < |Coverage(start, days, m, a, n, fmt)| ==>
              (Coverage(start, days, m, a, n, fmt)[i].date, Coverage(start, days, m, a, n, fmt)[i].shift) !=
              (Coverage(start, days, m, a, n, fmt)[j].date, Coverage(start, days, m, a, n, fmt)[j].shift)
  {
    var c := Coverage(start, days, m, a, n, fmt);
    CoverageAt(start, days, m, a, n, fmt);
    forall i | 0 <= i < |c|
      ensures c[i].date == fmt(start + i / 3) && c[i].shift == ["M", "A", "N"][i % 3]
    {
      var k := i / 3;
      assert c[3 * k..3 * k + 3] == DayRows(fmt(start + k), m, a, n);
      assert c[i] == c[3 * k..3 * k + 3][i % 3];
    }
  }

  /** `_synth_coverage`: three rows per date, M, A and N, with the given totals. */
  method SynthCoverage(start: int, days: int, m: int, a: int, n: int, fmt: int -> string) returns (out: seq<CoverageRow>)
    ensures out == Coverage(start, if days < 0 then 0 else days, m, a, n, fmt)
  {
    out := [];
    for i := 0 to if days < 0 then 0 else days
      invariant out == Coverage(start, i, m, a, n, fmt)
    {
      var d := fmt(start + i);
      out := out + [CoverageRow(d, "M", m), CoverageRow(d, "A", a), CoverageRow(d, "N", n)];
    }
  }

  // ---------------------------------------------------------------------------------------
  // Normalising the existing roster (`ensure_min_nurses`, first loop)

  /** `x or default` on an optional dictionary value. */
  function OrElse(v: Option<Json>, default: Json): (r: Json)
    ensures Truthy(default) ==> Truthy(r)
    ensures v.Some? && Truthy(v.value) ==> r == v.value
  {
    if v.Some? && Truthy(v.value) then v.value else default
  }

  /** The items of `value or []` when each can be read with `.get`: a falsy value gives no
      items and a list its items; anything else raises (a string or a dictionary iterates
      over strings, a number is not iterable). */
  function ListItems(v: Json): (r: Option<seq<Json>>)
    ensures r.Some? <==> !Truthy(v) || v.JList?
  {
    if !Truthy(v) then Some([]) else if v.JList? then Some(v.items) else None
  }

  /** A list comprehension whose element expression may raise: None when an element
      raises, else the elements' values in order. */
  function MapAll(items: seq<Json>, f: Json -> Option<Json>): (r: Option<seq<Json>>)
    ensures r.Some? <==> forall i :: 0 <= i < |items| ==> f(items[i]).Some?
    ensures r.Some? ==> |r.value| == |items| && forall i :: 0 <= i < |items| ==> r.value[i] == f(items[i]).value
  {
    if items == [] then Some([])
    else
      var p := MapAll(items[..|items| - 1], f);
      var x := f(items[|items| - 1]);
      if p.Some? && x.Some? then Some(p.value + [x.value]) else None
  }

  function Strs(ds: seq<string>): seq<Json> {
    seq(|ds|, i requires 0 <= i < |ds| => JStr(ds[i]))
  }

  /** One preferred-shift entry: its shift code, its day list and its lower-cased priority
      ("medium" when absent). An entry that is not a dictionary, or a blank shift, raises. */
  function NormShiftPref(p: Json): Option<Json> {
    if !p.JObj? then None
    else
      var shift := NormShift(Get(p.fields, "shift").GetOr(JNull));
      if shift.None? then None
      else
        var days := NormDaysOf(Get(p.fields, "days").GetOr(JNull));
        var priority := Lower(PyStr(Get(p.fields, "priority").GetOr(JStr("medium"))));
        Some(JObj([("shift", JStr(shift.value)), ("days", JList(Strs(days))), ("priority", JStr(priority))]))
  }

  /** A normalised date, or null. */
  function DateJson(date: Option<string>): Json {
    if date.Some? then JStr(date.value) else JNull
  }

  /** One day-off entry: its date through the date normaliser and its rank through `int()`
      (2 when absent). An entry that is not a dictionary, or a rank `int()` rejects, raises. */
  function NormDayOff(p: Json, normDate: Json -> Option<string>): Option<Json> {
    if !p.JObj? then None
    else
      var date := normDate(Get(p.fields, "date").GetOr(JNull));
      var rank := PyInt(Get(p.fields, "rank").GetOr(JInt(2)));
      if rank.None? then None
      else Some(JObj([("date", DateJson(date)), ("rank", JInt(rank.value))]))
  }

  /** The rebuilt `preferences` of a nurse, or None when rebuilding raises. */
  function NormPrefs(fields: seq<(string, Json)>, normDate: Json -> Option<string>): Option<Json> {
    var given := OrElse(Get(fields, "preferences"), JObj([]));
    if !given.JObj? then None
    else
      var shifts := ListItems(Get(given.fields, "preferred_shifts").GetOr(JNull));
      var daysOff := ListItems(Get(given.fields, "preferred_days_off").GetOr(JNull));
      if shifts.None? then None
      else
        var s := MapAll(shifts.value, NormShiftPref);
        if s.None? || daysOff.None? then None
        else
          var d := MapAll(daysOff.value, p => NormDayOff(p, normDate));
          if d.None? then None
          else Some(JObj([("preferred_shifts", JList(s.value)), ("preferred_days_off", JList(d.value))]))
  }

  /** The normalisation of one roster entry, which updates the entry's dictionary in place:
      Ok with the finished entry, or Err with the entry as it stands when a step raises
      (untouched, or with only its preferences rebuilt when its level is not an integer). */
  function NormNurse(n: Json, normDate: Json -> Option<string>): Result<Json, Json> {
    if !n.JObj? then Err(n)
    else
      var prefs := NormPrefs(n.fields, normDate);
      if prefs.None? then Err(n)
      else
        var f1 := SetField(n.fields, "preferences", prefs.value);
        var level := PyInt(Get(f1, "level").GetOr(JInt(1)));
        if level.None? then Err(JObj(f1))
        else
          var f2 := SetField(f1, "level", JInt(level.value));
          var f3 := SetField(f2, "employment_type", OrElse(Get(f2, "employment_type"), JStr("full_time")));
          Ok(JObj(SetField(f3, "unit", OrElse(Get(f3, "unit"), JStr("ER")))))
  }

  /** Keys the normalisation writes. */
  predicate Rewritten(k: string) {
    k == "preferences" || k == "level" || k == "employment_type" || k == "unit"
  }

  /** A normalised entry: an integer level (`int(level)`, 1 when absent), a truthy
      employment type and unit that keep a truthy old value and default to "full_time" and
      "ER", rebuilt preferences, and every other field (the id, the name) as it was. */
  lemma NormNurseFields(n: Json, normDate: Json -> Option<string>)
    requires NormNurse(n, normDate).Ok?
    ensures n.JObj?
    ensures var r := NormNurse(n, normDate).value;
            && r.JObj?
            && PyInt(Get(n.fields, "level").GetOr(JInt(1))).Some?
            && Get(r.fields, "level") == Some(JInt(PyInt(Get(n.fields, "level").GetOr(JInt(1))).value))
            && Get(r.fields, "employment_type") == Some(OrElse(Get(n.fields, "employment_type"), JStr("full_time")))
            && Get(r.fields, "unit") == Some(OrElse(Get(n.fields, "unit"), JStr("ER")))
            && Get(r.fields, "preferences") == NormPrefs(n.fields, normDate)
            && forall k :: !Rewritten(k) ==> Get(r.fields, k) == Get(n.fields, k)
  {
    var prefs := NormPrefs(n.fields, normDate).value;
    var f1 := SetField(n.fields, "preferences", prefs);
    var level := PyInt(Get(f1, "level").GetOr(JInt(1))).value;
    var f2 := SetField(f1, "level", JInt(level));
    var f3 := SetField(f2, "employment_type", OrElse(Get(f2, "employment_type"), JStr("full_time")));
    var f4 := SetField(f3, "unit", OrElse(Get(f3, "unit"), JStr("ER")));
    assert NormNurse(n, normDate).value == JObj(f4);
    assert Get(f1, "level") == Get(n.fields, "level");
    assert Get(f2, "employment_type") == Get(n.fields, "employment_type");
    assert Get(f3, "unit") == Get(n.fields, "unit");
  }

  /** A failed normalisation leaves the entry untouched, except that an entry whose level is
      not an integer keeps its rebuilt preferences. */
  lemma NormNurseRaised(n: Json, normDate: Json -> Option<string>)
    requires NormNurse(n, normDate).Err?
    ensures var e := NormNurse(n, normDate).error;
            e == n || (n.JObj? && e.JObj? && PyInt(Get(n.fields, "level").GetOr(JInt(1))).None? &&
                       forall k :: k != "preferences" ==> Get(e.fields, k) == Get(n.fields, k))
  {
  }

  /** Every rebuilt preferred-shift entry carries a shift code M, A or N. */
  lemma NormPrefsShifts(fields: seq<(string, Json)>, normDate: Json -> Option<string>)
    requires NormPrefs(fields, normDate).Some?
    ensures var p := NormPrefs(fields, normDate).value;
            p.JObj? && Get(p.fields, "preferred_shifts").Some? && Get(p.fields, "preferred_shifts").value.JList? &&
            forall e :: e in Get(p.fields, "preferred_shifts").value.items ==>
              e.JObj? && exists c :: Get(e.fields, "shift") == Some(JStr(c)) && IsShiftCode(c)
  {
    var given := OrElse(Get(fields, "preferences"), JObj([]));
    var shifts := ListItems(Get(given.fields, "preferred_shifts").GetOr(JNull)).value;
    var s := MapAll(shifts, NormShiftPref).value;
    forall e | e in s
      ensures e.JObj? && exists c :: Get(e.fields, "shift") == Some(JStr(c)) && IsShiftCode(c)
    {
      var i :| 0 <= i < |s| && s[i] == e;
      var c := NormShift(Get(shifts[i].fields, "shift").GetOr(JNull)).value;
      assert Get(e.fields, "shift") == Some(JStr(c));
    }
  }

  /** The roster after the normalisation loop: each entry normalised in turn until one
      raises; that entry is left as it stands and the later ones are untouched. */
  function NormalizeFrom(ns: seq<Json>, step: Json -> Result<Json, Json>): (r: seq<Json>)
    ensures |r| == |ns|
  {
    if ns == [] then []
    else
      match step(ns[0])
      case Ok(v) => [v] + NormalizeFrom(ns[1..], step)
      case Err(e) => [e] + ns[1..]
  }

  /** The per-entry step of the normalisation loop. */
  function Normaliser(normDate: Json -> Option<string>): Json -> Result<Json, Json> {
    n => NormNurse(n, normDate)
  }

  /** Every entry normalises without raising. */
  predicate AllNormal(ns: seq<Json>, step: Json -> Result<Json, Json>) {
    ns == [] || (AllNormal(ns[..|ns| - 1], step) && step(ns[|ns| - 1]).Ok?)
  }

  lemma {:induction false} AllNormalAt(ns: seq<Json>, step: Json -> Result<Json, Json>)
    ensures AllNormal(ns, step) <==> forall i :: 0 <= i < |ns| ==> step(ns[i]).Ok?
  {
    if ns != [] {
      var p := ns[..|ns| - 1];
      AllNormalAt(p, step);
      assert forall i :: 0 <= i < |p| ==> p[i] == ns[i];
    }
  }

  /** The loop's state when the first k entries normalise: they are normalised; if entry k
      then raises, it holds its partial state and every later entry is untouched. */
  lemma {:induction false} NormalizeFromAt(ns: seq<Json>, step: Json -> Result<Json, Json>, k: nat)
    requires k <= |ns| && forall i :: 0 <= i < k ==> step(ns[i]).Ok?
    ensures forall i :: 0 <= i < k ==> NormalizeFrom(ns, step)[i] == step(ns[i]).value
    ensures k < |ns| && step(ns[k]).Err? ==>
              NormalizeFrom(ns, step)[k] == step(ns[k]).error &&
              NormalizeFrom(ns, step)[k + 1..] == ns[k + 1..]
  {
    if k > 0 {
      assert forall j :: 1 <= j < k ==> ns[1..][j - 1] == ns[j];
      NormalizeFromAt(ns[1..], step, k - 1);
    }
  }

  // ---------------------------------------------------------------------------------------
  // The largest existing id number

  function IdOf(n: Json): Option<Json> {
    if n.JObj? then Get(n.fields, "id") else None
  }

  /** The number of an id "N<int>" (`int(nid[1:])`); None where the id is not a string
      starting with "N" or `int()` rejects its tail (the exception is swallowed). */
  function IdNumber(id: Json): Option<int> {
    if id.JStr? && |id.s| > 0 && id.s[0] == 'N' then ParseInt(id.s[1..]) else None
  }

  predicate Hashable(j: Json) {
    !j.JList? && !j.JObj?
  }

  /** Collecting the truthy ids into a set raises on an id that is a list or a dictionary. */
  predicate IdsHashable(ns: seq<Json>) {
    ns == [] || (IdsHashable(ns[..|ns| - 1]) && HashableId(ns[|ns| - 1]))
  }

  predicate HashableId(n: Json) {
    IdOf(n).Some? && Truthy(IdOf(n).value) ==> Hashable(IdOf(n).value)
  }

  lemma {:induction false} IdsHashableAt(ns: seq<Json>)
    ensures IdsHashable(ns) <==> forall i :: 0 <= i < |ns| ==> HashableId(ns[i])
  {
    if ns != [] {
      var p := ns[..|ns| - 1];
      IdsHashableAt(p);
      assert forall i :: 0 <= i < |p| ==> p[i] == ns[i];
    }
  }

  /** One unhashable id makes the whole collection raise. */
  lemma {:induction false} UnhashableId(ns: seq<Json>, i: nat)
    requires i < |ns| && !HashableId(ns[i])
    ensures !IdsHashable(ns)
  {
    if i < |ns| - 1 {
      assert ns[..|ns| - 1][i] == ns[i];
      UnhashableId(ns[..|ns| - 1], i);
    }
  }

  /** The id number of a roster entry, when it has one. */
  function IdNum(n: Json): Option<int> {
    var id := IdOf(n);
    if id.Some? then IdNumber(id.value) else None
  }

  /** The id numbers of the roster's entries, in order. */
  function IdNums(ns: seq<Json>): (r: seq<Option<int>>)
    ensures |r| == |ns|
  {
    seq(|ns|, i requires 0 <= i < |ns| => IdNum(ns[i]))
  }

  /** The largest of the numbers present, and 0 when there is none or all are negative:
      `max_idx` is `MaxOf(IdNums(roster))`. */
  function MaxOf(nums: seq<Option<int>>): (m: int)
    ensures m >= 0
  {
    if nums == [] then 0
    else
      var m := MaxOf(nums[..|nums| - 1]);
      var x := nums[|nums| - 1];
      if x.Some? && x.value > m then x.value else m
  }

  /** Every number present is at most the maximum. */
  lemma {:induction false} MaxOfBound(nums: seq<Option<int>>, i: nat)
    requires i < |nums| && nums[i].Some?
    ensures nums[i].value <= MaxOf(nums)
  {
    if i < |nums| - 1 {
      assert nums[..|nums| - 1][i] == nums[i];
      MaxOfBound(nums[..|nums| - 1], i);
    }
  }

  /** A positive maximum is one of the numbers. */
  lemma {:induction false} MaxOfAttained(nums: seq<Option<int>>)
    ensures MaxOf(nums) == 0 || exists i :: 0 <= i < |nums| && nums[i] == Some(MaxOf(nums))
  {
    if nums != [] {
      var p := nums[..|nums| - 1];
      MaxOfAttained(p);
      if MaxOf(nums) == MaxOf(p) && MaxOf(p) != 0 {
        var i :| 0 <= i < |p| && p[i] == Some(MaxOf(p));
        assert nums[i] == p[i];
      }
    }
  }

  // ---------------------------------------------------------------------------------------
  // Padding

  /** The random choices for one padded nurse, as indices: a shift, three successive picks
      for `random.sample` over the days still left, and a priority. */
  datatype Draw = Draw(shift: nat, days: (nat, nat, nat), priority: nat)

  const DayOptions: seq<string> := ["Mon", "Tue", "Wed", "Thu", "Fri", "Sat", "Sun"]
  const ShiftCodes: seq<string> := ["M", "A", "N"]
  const Priorities: seq<string> := ["low", "medium", "high"]

  function RemoveAt(s: seq<string>, i: nat): (r: seq<string>)
    requires i < |s|
    ensures |r| == |s| - 1
  {
    s[..i] + s[i + 1..]
  }

  lemma RemoveAtMembers(s: seq<string>, i: nat)
    requires i < |s| && NoDup(s)
    ensures NoDup(RemoveAt(s, i))
    ensures forall x :: x in RemoveAt(s, i) <==> x in s && x != s[i]
  {
    var r := RemoveAt(s, i);
    assert forall j :: 0 <= j < |r| ==> r[j] == if j < i then s[j] else s[j + 1];
  }

  /** `random.sample(day_options, 3)`: each pick is taken from the days not yet picked. */
  function SampleDays(d: (nat, nat, nat)): seq<string> {
    var a := d.0 % 7;
    var rest := RemoveAt(DayOptions, a);
    var b := d.1 % 6;
    [DayOptions[a], rest[b], RemoveAt(rest, b)[d.2 % 5]]
  }

  /** Three different days of the week. */
  lemma SampleDaysDistinct(d: (nat, nat, nat))
    ensures |SampleDays(d)| == 3 && NoDup(SampleDays(d))
    ensures forall x :: x in SampleDays(d) ==> x in DayOptions
  {
    var a := d.0 % 7;
    var rest := RemoveAt(DayOptions, a);
    var b := d.1 % 6;
    RemoveAtMembers(DayOptions, a);
    RemoveAtMembers(rest, b);
    assert rest[b] in rest;
    assert RemoveAt(rest, b)[d.2 % 5] in RemoveAt(rest, b);
  }

  /** Levels of padded nurses: 2 when the roster held 0 or 1 modulo 5 entries, else 1. */
  function PadLevel(k: nat): int {
    if k % 5 == 0 || k % 5 == 1 then 2 else 1
  }

  /** The nurse appended when the roster holds k entries and the id counter reaches idx. */
  function NewNurse(k: nat, idx: int, d: Draw, date: Option<string>): (r: Json)
  {
    var nid := Normalizer.Code(idx);
    JObj([("id", JStr(nid)), ("name", JStr("Nurse " + nid)), ("level", JInt(PadLevel(k))),
          ("employment_type", JStr("full_time")), ("unit", JStr("ER")), ("preferences", NewPrefs(d, date))])
  }

  lemma NewNurseFields(k: nat, idx: int, d: Draw, date: Option<string>)
    ensures var r := NewNurse(k, idx, d, date);
            && r.JObj? && IdOf(r) == Some(JStr(Normalizer.Code(idx)))
            && Get(r.fields, "level") == Some(JInt(PadLevel(k)))
            && Get(r.fields, "employment_type") == Some(JStr("full_time"))
            && Get(r.fields, "unit") == Some(JStr("ER"))
            && Get(r.fields, "preferences") == Some(NewPrefs(d, date))
  {
    var fs := NewNurse(k, idx, d, date).fields;
    GetAt(fs, "id", 0);
    GetAt(fs, "level", 2);
    GetAt(fs, "employment_type", 3);
    GetAt(fs, "unit", 4);
    GetAt(fs, "preferences", 5);
  }

  /** The preferences of a new nurse: one drawn shift on three drawn days at a drawn
      priority, and one day off of rank 2. */
  function NewPrefs(d: Draw, date: Option<string>): Json {
    PrefsJson(ShiftCodes[d.shift % 3], SampleDays(d.days), Priorities[d.priority % 3], date)
  }

  function PrefsJson(shift: string, days: seq<string>, priority: string, date: Option<string>): Json {
    var shiftPref := JObj([("shift", JStr(shift)), ("days", JList(Strs(days))), ("priority", JStr(priority))]);
    var dayOff := JObj([("date", DateJson(date)), ("rank", JInt(2))]);
    JObj([("preferred_shifts", JList([shiftPref])), ("preferred_days_off", JList([dayOff]))])
  }

  /** A roster of `total` entries: the entries of `norm`, then the nurse appended at each
      later position p, numbered on from `top` and taking draw `pick(p - |norm|)`. */
  function Extend(norm: seq<Json>, top: int, total: nat, pick: nat -> Draw, date: Option<string>): (r: seq<Json>)
    requires |norm| <= total
    ensures |r| == total
  {
    seq(total, p requires 0 <= p < total =>
      if p < |norm| then norm[p] else NewNurse(p, top + (p - |norm|) + 1, pick(p - |norm|), date))
  }

  /** The roster `ensure_min_nurses` leaves when nothing raises: the entries normalised by
      `step`, then new nurses up to `minNurses`, numbered on from the largest id number and
      carrying the day-off date `date`. */
  function Padded(ns: seq<Json>, minNurses: int, step: Json -> Result<Json, Json>, date: Option<string>,
                  pick: nat -> Draw): seq<Json>
  {
    var norm := NormalizeFrom(ns, step);
    Extend(norm, MaxOf(IdNums(norm)), if minNurses > |norm| then minNurses else |norm|, pick, date)
  }

  /** The padded roster has at least `minNurses` entries, exactly as many as before when
      there were enough, and starts with the old entries normalised in order. */
  lemma PaddedRoster(ns: seq<Json>, minNurses: int, step: Json -> Result<Json, Json>, date: Option<string>,
                     pick: nat -> Draw)
    requires forall i :: 0 <= i < |ns| ==> step(ns[i]).Ok?
    ensures var r := Padded(ns, minNurses, step, date, pick);
            && |r| >= minNurses && |r| >= |ns|
            && (|ns| >= minNurses ==> |r| == |ns|)
            && (|ns| < minNurses ==> |r| == minNurses)
            && forall i :: 0 <= i < |ns| ==> r[i] == step(ns[i]).value
  {
    NormalizeFromAt(ns, step, |ns|);
  }

  /** `int()` accepts digit groups, so the id "N1_000" has id number 1000. */
  lemma GroupedIdNumber()
    ensures IdNumber(JStr("N1_000")) == Some(1000)
  {
    GroupedThousand();
    assert "N1_000"[1..] == "1_000";
  }

  /** The id "N" + `Pad3(v)` of a new nurse has id number v. */
  lemma CodeNumber(v: int)
    ensures IdNumber(JStr(Normalizer.Code(v))) == Some(v)
  {
    Pad3RoundTrip(v);
    assert Normalizer.Code(v)[1..] == Pad3(v);
  }

  /** The shape every new nurse has, whatever the draws. */
  ghost predicate NewShape(e: Json, j: nat, date: Option<string>) {
    && e.JObj?
    && Get(e.fields, "level") == Some(JInt(if j % 5 < 2 then 2 else 1))
    && Get(e.fields, "employment_type") == Some(JStr("full_time"))
    && Get(e.fields, "unit") == Some(JStr("ER"))
    && exists c, days, pr ::
         && Get(e.fields, "preferences") == Some(PrefsJson(c, days, pr, date))
         && IsShiftCode(c) && pr in Priorities && |days| == 3 && NoDup(days)
         && forall x :: x in days ==> x in DayOptions
  }

  lemma NewNurseShape(j: nat, idx: int, d: Draw, date: Option<string>)
    ensures NewShape(NewNurse(j, idx, d, date), j, date)
  {
    NewNurseFields(j, idx, d, date);
    SampleDaysDistinct(d.days);
    var c := ShiftCodes[d.shift % 3];
    assert IsShiftCode(c);
    var pr := Priorities[d.priority % 3];
    assert pr in Priorities;
    assert NewPrefs(d, date) == PrefsJson(c, SampleDays(d.days), pr, date);
  }

  /** A number above every id number on a roster gives an id none of its entries has. */
  lemma IdAbove(norm: seq<Json>, i: nat, idx: int)
    requires i < |norm| && idx > MaxOf(IdNums(norm))
    ensures IdOf(norm[i]) != Some(JStr(Normalizer.Code(idx)))
  {
    CodeNumber(idx);
    assert IdNums(norm)[i] == IdNum(norm[i]);
    if IdNum(norm[i]).Some? {
      MaxOfBound(IdNums(norm), i);
    }
  }

  /** New nurses with different numbers have different ids. */
  lemma NewIdsDiffer(k1: nat, k2: nat, idx1: int, idx2: int, d1: Draw, d2: Draw, date: Option<string>)
    requires idx1 != idx2
    ensures IdOf(NewNurse(k1, idx1, d1, date)) != IdOf(NewNurse(k2, idx2, d2, date))
  {
    NewNurseFields(k1, idx1, d1, date);
    NewNurseFields(k2, idx2, d2, date);
    if Normalizer.Code(idx1) == Normalizer.Code(idx2) {
      Normalizer.CodeInjective(idx1, idx2);
    }
  }

  lemma ExtendAt(norm: seq<Json>, top: int, total: nat, pick: nat -> Draw, date: Option<string>, j: nat)
    requires |norm| <= total && j < total
    ensures j < |norm| ==> Extend(norm, top, total, pick, date)[j] == norm[j]
    ensures |norm| <= j ==> Extend(norm, top, total, pick, date)[j] == NewNurse(j, top + (j - |norm|) + 1, pick(j - |norm|), date)
  {
  }

  /** The nurse appended at position j carries the id numbered j - |norm| + 1 above `top`. */
  lemma ExtendNewId(norm: seq<Json>, top: int, total: nat, pick: nat -> Draw, date: Option<string>, j: nat)
    requires |norm| <= j < total
    ensures IdOf(Extend(norm, top, total, pick, date)[j]) == Some(JStr(Normalizer.Code(top + (j - |norm|) + 1)))
  {
    ExtendAt(norm, top, total, pick, date, j);
    NewNurseFields(j, top + (j - |norm|) + 1, pick(j - |norm|), date);
  }

  /** A new nurse's id never repeats an id on the roster it extends, when the numbering
      starts at or above the roster's largest id number. */
  lemma ExtendFreshIds(norm: seq<Json>, top: int, total: nat, pick: nat -> Draw, date: Option<string>, i: nat, j: nat)
    requires i < |norm| <= j < total && top >= MaxOf(IdNums(norm))
    ensures IdOf(Extend(norm, top, total, pick, date)[i]) != IdOf(Extend(norm, top, total, pick, date)[j])
  {
    ExtendAt(norm, top, total, pick, date, i);
    ExtendNewId(norm, top, total, pick, date, j);
    IdAbove(norm, i, top + (j - |norm|) + 1);
  }

  /** Two new nurses never share an id. */
  lemma ExtendDistinctIds(norm: seq<Json>, top: int, total: nat, pick: nat -> Draw, date: Option<string>, i: nat, j: nat)
    requires |norm| <= i < j < total
    ensures IdOf(Extend(norm, top, total, pick, date)[i]) != IdOf(Extend(norm, top, total, pick, date)[j])
  {
    NewIdsDiffer(i, j, top + (i - |norm|) + 1, top + (j - |norm|) + 1, pick(i - |norm|), pick(j - |norm|), date);
  }

  /** Every new nurse is full-time in unit ER, at level 2 in the roster positions that are 0
      or 1 modulo 5 and level 1 elsewhere, with one preferred shift M, A or N on three
      different days at priority low, medium or high, and one day off of rank 2. */
  lemma ExtendNewNurse(norm: seq<Json>, top: int, total: nat, pick: nat -> Draw, date: Option<string>, j: nat)
    requires |norm| <= j < total
    ensures NewShape(Extend(norm, top, total, pick, date)[j], j, date)
  {
    NewNurseShape(j, top + (j - |norm|) + 1, pick(j - |norm|), date);
  }

  /** In the padded roster, new ids are fresh and pairwise distinct, and every new nurse has
      the shape above. */
  lemma PaddedIds(ns: seq<Json>, minNurses: int, step: Json -> Result<Json, Json>, date: Option<string>,
                  pick: nat -> Draw, i: nat, j: nat)
    requires i < j < |Padded(ns, minNurses, step, date, pick)| && |ns| <= j
    ensures IdOf(Padded(ns, minNurses, step, date, pick)[i]) != IdOf(Padded(ns, minNurses, step, date, pick)[j])
    ensures NewShape(Padded(ns, minNurses, step, date, pick)[j], j, date)
  {
    var norm := NormalizeFrom(ns, step);
    var total := if minNurses > |norm| then minNurses else |norm|;
    if i < |ns| {
      ExtendFreshIds(norm, MaxOf(IdNums(norm)), total, pick, date, i, j);
    } else {
      ExtendDistinctIds(norm, MaxOf(IdNums(norm)), total, pick, date, i, j);
    }
    ExtendNewNurse(norm, MaxOf(IdNums(norm)), total, pick, date, j);
  }

  // ---------------------------------------------------------------------------------------
  // The configuration

  /** The roster after the first i entries normalised and entry i raised. */
  lemma NormalizeStops(given: seq<Json>, cur: seq<Json>, step: Json -> Result<Json, Json>, i: nat)
    requires i < |given| == |cur| && step(given[i]).Err?
    requires forall j :: 0 <= j < i ==> step(given[j]).Ok? && cur[j] == step(given[j]).value
    requires cur[i..] == given[i..]
    ensures cur[i := step(given[i]).error] == NormalizeFrom(given, step)
    ensures !AllNormal(given, step)
  {
    NormalizeFromAt(given, step, i);
    AllNormalAt(given, step);
    var r := NormalizeFrom(given, step);
    var c := cur[i := step(given[i]).error];
    forall j | i < j < |given|
      ensures c[j] == r[j]
    {
      assert cur[i..][j - i] == given[i..][j - i];
      assert r[i + 1..][j - i - 1] == given[i + 1..][j - i - 1];
    }
  }

  /** The roster after every entry normalised. */
  lemma NormalizeCompletes(given: seq<Json>, cur: seq<Json>, step: Json -> Result<Json, Json>)
    requires |given| == |cur|
    requires forall j :: 0 <= j < |given| ==> step(given[j]).Ok? && cur[j] == step(given[j]).value
    ensures cur == NormalizeFrom(given, step)
    ensures AllNormal(given, step)
  {
    NormalizeFromAt(given, step, |given|);
    AllNormalAt(given, step);
  }

  /** The configuration dictionary whose `nurses` entry the manager normalises and pads. */
  class Config {
    var nurses: seq<Json>

    constructor(nurses: seq<Json>)
      ensures this.nurses == nurses
    {
      this.nurses := nurses;
    }

    /** The first loop of `ensure_min_nurses`: apply the per-entry normalisation `step`
        (`Normaliser(normDate)`) to each entry in place until one raises. */
    method NormalizeEntries(step: Json -> Result<Json, Json>) returns (raised: bool)
      modifies this
      ensures raised <==> !AllNormal(old(nurses), step)
      ensures nurses == NormalizeFrom(old(nurses), step)
    {
      ghost var given := nurses;
      for i := 0 to |nurses|
        invariant |nurses| == |given|
        invariant forall j :: 0 <= j < i ==> step(given[j]).Ok? && nurses[j] == step(given[j]).value
        invariant nurses[i..] == given[i..]
      {
        assert nurses[i] == given[i];
        var res := step(nurses[i]);
        if res.Err? {
          NormalizeStops(given, nurses, step, i);
          nurses := nurses[i := res.error];
          return true;
        }
        nurses := nurses[i := res.value];
      }
      NormalizeCompletes(given, nurses, step);
      return false;
    }

    /** `ensure_min_nurses`: normalise every entry in place, find the largest id number, then
        append new nurses until there are `minNurses`. When a step raises, `raised` is true
        and the entries keep the in-place edits made so far, with nothing appended. */
    method EnsureMinNurses(minNurses: int, normDate: Json -> Option<string>, pick: nat -> Draw) returns (raised: bool)
      modifies this
      ensures raised <==> !AllNormal(old(nurses), Normaliser(normDate)) ||
                          !IdsHashable(NormalizeFrom(old(nurses), Normaliser(normDate)))
      ensures raised ==> nurses == NormalizeFrom(old(nurses), Normaliser(normDate))
      ensures !raised ==> nurses == Padded(old(nurses), minNurses, Normaliser(normDate), normDate(JInt(15)), pick)
    {
      raised := NormalizeEntries(Normaliser(normDate));
      if raised {
        return;
      }
      var ok, maxIdx := ScanIds(nurses);
      if !ok {
        return true;
      }
      var roster := PadRoster(nurses, maxIdx, minNurses, pick, normDate(JInt(15)));
      nurses := roster;
    }
  }

  /** One more entry scanned: its id is hashable and its number enters the maximum. */
  lemma IdScanStep(ns: seq<Json>, i: nat)
    requires i < |ns|
    ensures IdsHashable(ns[..i + 1]) == (IdsHashable(ns[..i]) && HashableId(ns[i]))
    ensures var m := MaxOf(IdNums(ns)[..i]);
            var x := IdNum(ns[i]);
            MaxOf(IdNums(ns)[..i + 1]) == if x.Some? && x.value > m then x.value else m
  {
    assert ns[..i + 1][..i] == ns[..i];
    assert IdNums(ns)[..i + 1][..i] == IdNums(ns)[..i];
    assert IdNums(ns)[..i + 1][i] == IdNum(ns[i]);
  }

  /** The truthy ids collected into a set, and the largest id number among them. */
  method ScanIds(roster: seq<Json>) returns (ok: bool, maxIdx: int)
    ensures ok <==> IdsHashable(roster)
    ensures ok ==> maxIdx == MaxOf(IdNums(roster))
  {
    maxIdx := 0;
    for i := 0 to |roster|
      invariant IdsHashable(roster[..i])
      invariant maxIdx == MaxOf(IdNums(roster)[..i])
    {
      var id := IdOf(roster[i]);
      if id.Some? && Truthy(id.value) && !Hashable(id.value) {
        UnhashableId(roster, i);
        return false, 0;
      }
      IdScanStep(roster, i);
      var num := if id.Some? then IdNumber(id.value) else None;
      if num.Some? && num.value > maxIdx {
        maxIdx := num.value;
      }
    }
    assert roster[..|roster|] == roster;
    assert IdNums(roster)[..|roster|] == IdNums(roster);
    return true, maxIdx;
  }

  /** The padding loop: while the roster is short, number a new nurse one above the last and
      append it. */
  method PadRoster(norm: seq<Json>, top: int, minNurses: int, pick: nat -> Draw, date: Option<string>)
    returns (roster: seq<Json>)
    ensures roster == Extend(norm, top, if minNurses > |norm| then minNurses else |norm|, pick, date)
  {
    roster := norm;
    var maxIdx := top;
    assert roster == Extend(norm, top, |roster|, pick, date);
    while |roster| < minNurses
      invariant |norm| <= |roster|
      invariant (|roster| == |norm| || |roster| <= minNurses)
      invariant roster == Extend(norm, top, |roster|, pick, date)
      invariant maxIdx == top + (|roster| - |norm|)
      decreases minNurses - |roster|
    {
      maxIdx := maxIdx + 1;
      var next := NewNurse(|roster|, maxIdx, pick(|roster| - |norm|), date);
      roster := roster + [next];
    }
  }
}

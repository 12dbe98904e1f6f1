/** The chatbot's own text helpers: the employment-type aliases and its variant of the
    day-list normaliser, which keeps empty tokens that the manager's version drops. */
module Chatbot {
  import opened Base
  import opened Text
  import Manager

  // ---------------------------------------------------------------------------------------
  // Employment type

  const FullTimeAliases: seq<string> := ["full-time", "full time", "fulltime", "ft"]
  const PartTimeAliases: seq<string> := ["part-time", "part time", "parttime", "pt"]
  const ContractAliases: seq<string> := ["contract", "temp"]

  /** The canonical names. */
  const CanonicalNames: seq<string> := ["full_time", "part_time", "contract"]

  /** A stripped, lower-cased text and its canonical name. */
  function Canonical(v: string): string {
    if v in FullTimeAliases then "full_time"
    else if v in PartTimeAliases then "part_time"
    else if v in ContractAliases then "contract"
    else v
  }

  /** Text that `strip().lower()` leaves as it is. */
  predicate Clean(v: string) {
    Strip(v) == v && Lower(v) == v
  }

  /** `normalize_employment_type`: None for a falsy value, else the stripped, lower-cased
      `str()` of the value, with the known aliases mapped to their canonical names. */
  function EmploymentType(value: Json): (r: Option<string>)
    ensures r.None? <==> !Truthy(value)
    ensures r.Some? ==> Clean(r.value)
    ensures r.Some? && r.value !in CanonicalNames ==> r.value == Lower(Strip(PyStr(value)))
    ensures r.Some? && Lower(Strip(PyStr(value))) !in FullTimeAliases + PartTimeAliases + ContractAliases ==>
      r.value == Lower(Strip(PyStr(value)))
  {
    if !Truthy(value) then None
    else
      var v := Lower(Strip(PyStr(value)));
      CleanText(PyStr(value));
      CanonicalClean(v);
      Some(Canonical(v))
  }

  /** A lower-cased letter is still a letter and a space is still a space, so lower-casing
      keeps what `strip` sees. */
  lemma LowerSpace(c: char)
    ensures IsSpace(LowerChar(c)) == IsSpace(c)
    ensures LowerChar(LowerChar(c)) == LowerChar(c)
  {
  }

  /** The stripped, lower-cased text is clean. */
  lemma CleanText(s: string)
    ensures Clean(Lower(Strip(s)))
  {
    var t := Strip(s);
    var v := Lower(t);
    if v != [] {
      LowerSpace(t[0]);
      LowerSpace(t[|t| - 1]);
    }
    StripNoop(v);
    forall i | 0 <= i < |v|
      ensures Lower(v)[i] == v[i]
    {
      LowerSpace(t[i]);
    }
  }

  /** The canonical names are clean. */
  lemma NamesClean()
    ensures forall n :: n in CanonicalNames ==> Clean(n)
  {
    FullTimeClean();
    PartTimeClean();
    ContractClean();
  }

  lemma FullTimeClean()
    ensures Clean("full_time")
  {
    assert Lower("full_time") == "full_time";
    StripNoop("full_time");
  }

  lemma PartTimeClean()
    ensures Clean("part_time")
  {
    assert Lower("part_time") == "part_time";
    StripNoop("part_time");
  }

  lemma ContractClean()
    ensures Clean("contract")
  {
    assert Lower("contract") == "contract";
    StripNoop("contract");
  }

  /** The canonical names are no aliases of another kind, and "contract" is its own alias. */
  lemma NamesFixed()
    ensures forall n :: n in CanonicalNames ==> Canonical(n) == n
  {
    assert "full_time" !in FullTimeAliases + PartTimeAliases + ContractAliases;
    assert "part_time" !in FullTimeAliases + PartTimeAliases + ContractAliases;
    assert "contract" !in FullTimeAliases + PartTimeAliases;
  }

  /** Clean text keeps its canonical name clean; text that is no alias is kept. */
  lemma CanonicalClean(v: string)
    requires Clean(v)
    ensures Clean(Canonical(v))
    ensures Canonical(v) in CanonicalNames || Canonical(v) == v
  {
    NamesClean();
    if v in FullTimeAliases {
      assert Canonical(v) == CanonicalNames[0];
    } else if v in PartTimeAliases {
      assert Canonical(v) == CanonicalNames[1];
    } else if v in ContractAliases {
      assert Canonical(v) == CanonicalNames[2];
    }
  }

  /** Mapping to canonical names twice maps once. */
  lemma CanonicalIdempotent(v: string)
    ensures Canonical(Canonical(v)) == Canonical(v)
  {
    NamesFixed();
  }

  /** A second normalisation leaves a non-empty result as it is. */
  lemma EmploymentTypeIdempotent(value: Json)
    requires EmploymentType(value).Some? && EmploymentType(value).value != ""
    ensures EmploymentType(JStr(EmploymentType(value).value)) == EmploymentType(value)
  {
    var w := Lower(Strip(PyStr(value)));
    var v := EmploymentType(value).value;
    assert v == Canonical(w);
    assert PyStr(JStr(v)) == v;
    assert Lower(Strip(v)) == v;
    CanonicalIdempotent(w);
  }

  /** A value made only of whitespace is truthy but normalises to the empty string, which
      a second normalisation turns into None: the helper is not idempotent there. */
  lemma BlankEmploymentType(s: string)
    requires s != "" && Strip(s) == ""
    ensures EmploymentType(JStr(s)) == Some("")
    ensures EmploymentType(JStr("")) == None
  {
  }

  /** Each alias maps to its canonical name. */
  lemma AliasesCanonical()
    ensures forall a :: a in FullTimeAliases ==> Canonical(a) == "full_time"
    ensures forall a :: a in PartTimeAliases ==> Canonical(a) == "part_time"
    ensures forall a :: a in ContractAliases ==> Canonical(a) == "contract"
  {
    assert "part-time" !in FullTimeAliases;
    assert "part time" !in FullTimeAliases;
    assert "parttime" !in FullTimeAliases;
    assert "pt" !in FullTimeAliases;
    assert "contract" !in FullTimeAliases + PartTimeAliases;
    assert "temp" !in FullTimeAliases + PartTimeAliases;
  }

  /** The aliases: any spelling of full-time, part-time or contract work, in any letter case
      and with surrounding whitespace, becomes its canonical name. */
  lemma EmploymentAliases(s: string)
    ensures Lower(Strip(s)) in FullTimeAliases ==> EmploymentType(JStr(s)) == Some("full_time")
    ensures Lower(Strip(s)) in PartTimeAliases ==> EmploymentType(JStr(s)) == Some("part_time")
    ensures Lower(Strip(s)) in ContractAliases ==> EmploymentType(JStr(s)) == Some("contract")
  {
    var v := Lower(Strip(s));
    if v in FullTimeAliases + PartTimeAliases + ContractAliases {
      assert |v| > 0;
      assert Truthy(JStr(s));
      assert EmploymentType(JStr(s)) == Some(Canonical(v));
      AliasesCanonical();
    }
  }

  /** `strip` uses Python's whitespace, so a leading unit separator (0x1F) is dropped
      and "\x1fft" still reads as full-time. */
  lemma SeparatorStripped()
    ensures EmploymentType(JStr("\U{001F}ft")) == Some("full_time")
  {
    var s := "\U{001F}ft";
    assert s[1..] == "ft";
    StripLeftNoop("ft");
    StripRightNoop("ft");
    assert Strip(s) == "ft";
    assert Lower("ft") == "ft";
    EmploymentAliases(s);
  }

  // ---------------------------------------------------------------------------------------
  // Day lists

  /** One token: its DAY_MAP abbreviation, else the first three characters of its title
      case (`t.title()[:3]`), after stripping and lower-casing. */
  function DayLabel(token: string): string {
    var t := Lower(Strip(token));
    var fallback := Title(t)[..Manager.Min(3, |t|)];
    if t in DayMap then DayMap[t] else fallback
  }

  /** Title-casing then cutting gives what the manager's cutting then title-casing gives. */
  lemma DayLabelAgrees(token: string)
    ensures DayLabel(token) == Manager.DayToken(token)
  {
    var t := Lower(Strip(token));
    TitleCut(t, DayMap);
  }

  lemma TitleCut(t: string, names: map<string, string>)
    ensures (if t in names then names[t] else Title(t)[..Manager.Min(3, |t|)]) ==
            (if t in names then names[t] else Title(t[..Manager.Min(3, |t|)]))
  {
    TitlePrefix(t, Manager.Min(3, |t|));
  }

  /** The tokens of a truthy value: a list's items through `str()`, a string split on
      `[,\s/]+`. Any other value makes `re.split` raise (None). */
  function Tokens(raw: Json): Option<seq<string>> {
    if raw.JList? then Some(seq(|raw.items|, i requires 0 <= i < |raw.items| => PyStr(raw.items[i])))
    else if raw.JStr? then Some(Split(raw.s))
    else None
  }

  function Labels(ts: seq<string>): (r: seq<string>)
    ensures |r| == |ts| && forall i :: 0 <= i < |ts| ==> r[i] == DayLabel(ts[i])
  {
    seq(|ts|, i requires 0 <= i < |ts| => DayLabel(ts[i]))
  }

  predicate AnyDay(d: string) {
    true
  }

  /** What `normalize_day_list` returns: nothing for a falsy value, else the labels of its
      tokens without repeats, first occurrence first. */
  function DayListOf(raw: Json): Option<seq<string>> {
    if !Truthy(raw) then Some([])
    else if Tokens(raw).None? then None
    else Some(Dedup(Labels(Tokens(raw).value)))
  }

  /** `normalize_day_list`: label every token, then keep each label the first time it is
      seen. None where splitting a value that is neither a list nor a string raises. */
  method NormalizeDayList(raw: Json) returns (result: Option<seq<string>>)
    ensures result == DayListOf(raw)
  {
    if !Truthy(raw) {
      return Some([]);
    }
    var items := Tokens(raw);
    if items.None? {
      return None;
    }
    var out := LabelTokens(items.value);
    var kept := KeepFirst(out, AnyDay);
    FilterAll(out, AnyDay);
    return Some(kept);
  }

  /** The first loop of `normalize_day_list`: one label per token. */
  method LabelTokens(items: seq<string>) returns (out: seq<string>)
    ensures out == Labels(items)
  {
    out := [];
    for i := 0 to |items|
      invariant out == Labels(items[..i])
    {
      out := out + [DayLabel(items[i])];
    }
    assert items[..|items|] == items;
  }

  /** The list has no repeats, is no longer than the token list, holds exactly the labels of
      the tokens (the empty label included) and orders them by first occurrence. */
  lemma DayListShape(raw: Json)
    requires Truthy(raw) && Tokens(raw).Some?
    ensures var r := DayListOf(raw).value;
            var ls := Labels(Tokens(raw).value);
            && NoDup(r) && |r| <= |ls|
            && (forall d :: d in r <==> d in ls)
            && forall d :: d in r ==> IndexOf(r, d) == |Dedup(ls[..IndexOf(ls, d)])|
  {
    var ls := Labels(Tokens(raw).value);
    forall d | d in Dedup(ls)
      ensures IndexOf(Dedup(ls), d) == |Dedup(ls[..IndexOf(ls, d)])|
    {
      DedupRank(ls, d);
    }
  }

  /** On a list or a string the two normalisers agree up to the empty label: the manager's
      day list is the chatbot's with "" removed. */
  lemma ManagerDropsEmpty(raw: Json)
    requires Truthy(raw) && (raw.JList? || raw.JStr?)
    ensures Manager.NormDaysOf(raw) == Filter(DayListOf(raw).value, Manager.NonEmpty)
  {
    var ts := Tokens(raw).value;
    assert ts == Manager.DayTokens(raw);
    forall i | 0 <= i < |ts|
      ensures Labels(ts)[i] == Manager.MapDays(ts)[i]
    {
      DayLabelAgrees(ts[i]);
    }
    assert Labels(ts) == Manager.MapDays(ts);
    DedupFilter(Labels(ts), Manager.NonEmpty);
  }
}

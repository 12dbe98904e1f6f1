/** The horizon and week indexer: which week bucket each day belongs to, and the grouping
    of days into buckets used by the weekly night cap and the weekly rest rule. */
module Weeks {
  import opened Base
  import opened Request

  /** `iso(d)` is Some(ISO week number of d) when `d` parses as an ISO date
      (`datetime.fromisoformat(d).isocalendar()[1]`), and None when parsing fails. */
  type IsoCalendar = Day -> Option<int>

  predicate AllIso(days: seq<Day>, iso: IsoCalendar) {
    forall d :: d in days ==> iso(d).Some?
  }

  /** The ISO week number of every day, in order. */
  function IsoWeeks(days: seq<Day>, iso: IsoCalendar): (ws: seq<int>)
    requires AllIso(days, iso)
    ensures |ws| == |days|
    ensures forall i :: 0 <= i < |days| ==> ws[i] == iso(days[i]).value
  {
    seq(|days|, i requires 0 <= i < |days| => iso(days[i]).value)
  }

  /** ISO bucketing: each day goes to the first-seen rank of its ISO week number. */
  function IsoBuckets(days: seq<Day>, iso: IsoCalendar): (m: map<Day, int>)
    requires AllIso(days, iso)
    ensures m.Keys == set d | d in days
  {
    var ws := IsoWeeks(days, iso);
    var ranks := Dedup(ws);
    map d | d in days :: assert iso(d).value in ws by { IsoWeekIn(days, iso, d); } IndexOf(ranks, iso(d).value)
  }

  lemma IsoWeekIn(days: seq<Day>, iso: IsoCalendar, d: Day)
    requires AllIso(days, iso) && d in days
    ensures iso(d).value in IsoWeeks(days, iso)
  {
    var i :| 0 <= i < |days| && days[i] == d;
    assert IsoWeeks(days, iso)[i] == iso(d).value;
  }

  /** Positional bucketing: the day at position i goes to bucket i / 7 (a later repeat of
      the same label overwrites an earlier one, as in the dict comprehension). */
  function Positional(days: seq<Day>): (m: map<Day, int>)
    ensures m.Keys == set d | d in days
  {
    if days == [] then map[]
    else Positional(days[..|days| - 1])[days[|days| - 1] := (|days| - 1) / 7]
  }

  /** The bucket map used by the solver: a non-empty explicit map verbatim; else ISO
      bucketing when every day is an ISO date; else positional bucketing. */
  function WeekIndexMap(days: seq<Day>, explicit: map<Day, int>, iso: IsoCalendar): (m: map<Day, int>)
    ensures explicit != map[] ==> m == explicit
    ensures explicit == map[] ==> m.Keys == set d | d in days
  {
    if explicit != map[] then explicit
    else if AllIso(days, iso) then IsoBuckets(days, iso)
    else Positional(days)
  }

  /** ISO buckets are numbered 0, 1, ... up to the number of distinct ISO weeks. */
  lemma IsoBucketsRange(days: seq<Day>, iso: IsoCalendar, d: Day)
    requires AllIso(days, iso) && d in days
    ensures 0 <= IsoBuckets(days, iso)[d] < |Dedup(IsoWeeks(days, iso))|
  {
    IsoWeekIn(days, iso, d);
  }

  /** Two days share an ISO bucket exactly when they have the same ISO week number. */
  lemma IsoBucketsSameWeek(days: seq<Day>, iso: IsoCalendar, d1: Day, d2: Day)
    requires AllIso(days, iso) && d1 in days && d2 in days
    ensures IsoBuckets(days, iso)[d1] == IsoBuckets(days, iso)[d2] <==> iso(d1) == iso(d2)
  {
    IsoWeekIn(days, iso, d1);
    IsoWeekIn(days, iso, d2);
    var ranks := Dedup(IsoWeeks(days, iso));
    var k1 := IndexOf(ranks, iso(d1).value);
    var k2 := IndexOf(ranks, iso(d2).value);
    if k1 == k2 {
      assert ranks[k1] == iso(d1).value && ranks[k2] == iso(d2).value;
    }
  }

  /** Buckets are handed out in first-seen order: the bucket of day i is the number of
      distinct ISO weeks met before the first day of its week, so the first day gets 0. */
  lemma IsoBucketsFirstSeen(days: seq<Day>, iso: IsoCalendar, i: nat)
    requires AllIso(days, iso) && i < |days|
    ensures var ws := IsoWeeks(days, iso);
            IsoBuckets(days, iso)[days[i]] == |Dedup(ws[..IndexOf(ws, ws[i])])|
    ensures IsoBuckets(days, iso)[days[0]] == 0
  {
    var ws := IsoWeeks(days, iso);
    assert ws[i] in ws;
    DedupRank(ws, ws[i]);
    assert ws[0] in ws;
    DedupRank(ws, ws[0]);
  }

  /** Every bucket number below the count of distinct ISO weeks is used by some day, so the
      buckets are exactly 0, 1, ..., k - 1 for k distinct weeks. */
  lemma IsoBucketsOnto(days: seq<Day>, iso: IsoCalendar, k: nat)
    requires AllIso(days, iso) && k < |Dedup(IsoWeeks(days, iso))|
    ensures exists d :: d in days && IsoBuckets(days, iso)[d] == k
  {
    var ws := IsoWeeks(days, iso);
    var ranks := Dedup(ws);
    assert ranks[k] in ws;
    var i :| 0 <= i < |ws| && ws[i] == ranks[k];
    assert iso(days[i]).value == ranks[k];
    assert IndexOf(ranks, ranks[k]) == k;
  }

  /** Positional buckets: a day that does not occur again later sits in bucket i / 7. */
  lemma {:induction false} PositionalIndex(days: seq<Day>, i: nat)
    requires i < |days|
    requires forall j :: i < j < |days| ==> days[j] != days[i]
    ensures Positional(days)[days[i]] == i / 7
  {
    if i < |days| - 1 {
      PositionalIndex(days[..|days| - 1], i);
    }
  }

  /** Days in bucket w, in their order in the horizon. */
  function Bucket(days: seq<Day>, widx: map<Day, int>, w: int): seq<Day> {
    Filter(days, d => d in widx && widx[d] == w)
  }

  predicate Indexed(days: seq<Day>, widx: map<Day, int>) {
    forall d :: d in days ==> d in widx
  }

  /** A bucket no day maps to is empty. */
  lemma {:induction false} BucketEmpty(days: seq<Day>, widx: map<Day, int>, w: int)
    requires forall d :: d in days && d in widx ==> widx[d] != w
    ensures Bucket(days, widx, w) == []
  {
    if days != [] {
      BucketEmpty(days[..|days| - 1], widx, w);
    }
  }

  /** `weeks.setdefault(week_idx[d], []).append(d)` over the days, as a value. */
  function Group(days: seq<Day>, widx: map<Day, int>): map<int, seq<Day>>
    requires Indexed(days, widx)
  {
    if days == [] then map[]
    else
      var g := Group(days[..|days| - 1], widx);
      var d := days[|days| - 1];
      g[widx[d] := (if widx[d] in g then g[widx[d]] else []) + [d]]
  }

  /** The groups are exactly the non-empty buckets: a bucket number is a key iff some day
      maps to it, and its list holds those days in horizon order. */
  lemma {:induction false} GroupBuckets(days: seq<Day>, widx: map<Day, int>)
    requires Indexed(days, widx)
    ensures forall w :: w in Group(days, widx) <==> exists d :: d in days && widx[d] == w
    ensures forall w :: w in Group(days, widx) ==> Group(days, widx)[w] == Bucket(days, widx, w)
  {
    if days != [] {
      var p := days[..|days| - 1];
      var d := days[|days| - 1];
      assert forall e :: e in days <==> e in p || e == d;
      GroupBuckets(p, widx);
      forall w | w !in Group(p, widx)
        ensures Bucket(p, widx, w) == []
      {
        BucketEmpty(p, widx, w);
      }
      forall w | w in Group(days, widx)
        ensures Group(days, widx)[w] == Bucket(days, widx, w)
      {
        var before := if w in Group(p, widx) then Group(p, widx)[w] else [];
        assert before == Bucket(p, widx, w);
        assert Bucket(days, widx, w) == Bucket(p, widx, w) + (if widx[d] == w then [d] else []);
      }
    }
  }

  /** Groups the horizon's days by bucket, one day at a time. The first day without a
      bucket is the KeyError an incomplete explicit map raises. */
  method GroupByWeek(days: seq<Day>, widx: map<Day, int>) returns (weeks: Result<map<int, seq<Day>>, Day>)
    ensures weeks.Err? <==> !Indexed(days, widx)
    ensures weeks.Ok? ==> Indexed(days, widx) && weeks.value == Group(days, widx)
    ensures weeks.Err? ==> exists i :: 0 <= i < |days| && days[i] == weeks.error && days[i] !in widx &&
                             Indexed(days[..i], widx)
  {
    var acc: map<int, seq<Day>> := map[];
    for i := 0 to |days|
      invariant Indexed(days[..i], widx)
      invariant acc == Group(days[..i], widx)
    {
      var d := days[i];
      if d !in widx {
        return Err(d);
      }
      assert days[..i + 1][..i] == days[..i];
      var w := widx[d];
      var cur := if w in acc then acc[w] else [];
      acc := acc[w := cur + [d]];
    }
    assert days[..|days|] == days;
    return Ok(acc);
  }
}

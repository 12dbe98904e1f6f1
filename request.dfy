/** The `/solve` request of the scheduling service: its schema, the demand validator that
    runs before any model is built, the sparse lookups with their defaults, the per-nurse
    bound resolution and the case-insensitive shift-name match. */
module Request {
  import opened Base
  import opened Text

  type Nurse = string
  type Day = string
  type Shift = string
  type Skill = string

  datatype Weights = Weights(understaff: int, overtime: int, preferenceMultiplier: int)

  /** Penalty 50 per missing nurse, 10 per shift of overtime, multiplier 1 on preferences. */
  const DefaultWeights := Weights(50, 10, 1)

  /** A scheduling request. Every optional dictionary of the schema is a map here: the
      service reads each of them through `x or {}` or `if not x`, so an absent (None)
      dictionary and an empty one behave alike. */
  datatype SolveRequest = SolveRequest(
    nurses: seq<Nurse>,
    days: seq<Day>,
    shifts: seq<Shift>,
    demand: map<Day, map<Shift, int>>,
    minTotal: map<Nurse, int>,
    maxTotal: map<Nurse, int>,
    maxShifts: map<Nurse, int>,
    availability: map<Nurse, map<Day, map<Shift, int>>>,
    preferences: map<Nurse, map<Day, map<Shift, int>>>,
    nurseSkills: map<Nurse, seq<Skill>>,
    requiredSkills: map<Day, map<Shift, map<Skill, int>>>,
    weekIndexByDay: map<Day, int>,
    weights: Option<Weights>)

  /** Every (day, shift) pair of the request has a demand entry. */
  predicate DemandComplete(req: SolveRequest) {
    forall d :: d in req.days ==> d in req.demand && forall s :: s in req.shifts ==> s in req.demand[d]
  }

  predicate DayComplete(req: SolveRequest, d: Day)
    requires d in req.demand
  {
    forall s :: s in req.shifts ==> s in req.demand[d]
  }

  /** The validation error names the first gap met, scanning days and then shifts. */
  datatype DemandError = MissingDay(day: Day) | MissingShift(day: Day, shift: Shift)

  /** `e` is the gap the scan reaches first: every earlier day is complete and, for a
      missing shift, every earlier shift of that day is present. */
  predicate FirstGap(req: SolveRequest, e: DemandError) {
    exists i :: 0 <= i < |req.days| && req.days[i] == e.day &&
      (forall j :: 0 <= j < i ==> req.days[j] in req.demand && DayComplete(req, req.days[j])) &&
      match e
      case MissingDay(d) => d !in req.demand
      case MissingShift(d, s) =>
        d in req.demand &&
        exists k :: 0 <= k < |req.shifts| && req.shifts[k] == s && s !in req.demand[d] &&
          forall j :: 0 <= j < k ==> req.shifts[j] in req.demand[d]
  }

  /** The request validator: rejects the request exactly when some (day, shift) pair has no
      demand entry, naming the first such gap, and otherwise returns it unchanged. */
  method CheckDemand(req: SolveRequest) returns (r: Result<SolveRequest, DemandError>)
    ensures r.Ok? <==> DemandComplete(req)
    ensures r.Ok? ==> r.value == req
    ensures r.Err? ==> FirstGap(req, r.error)
  {
    for i := 0 to |req.days|
      invariant forall j :: 0 <= j < i ==> req.days[j] in req.demand && DayComplete(req, req.days[j])
    {
      var d := req.days[i];
      if d !in req.demand {
        return Err(MissingDay(d));
      }
      for k := 0 to |req.shifts|
        invariant forall j :: 0 <= j < k ==> req.shifts[j] in req.demand[d]
      {
        var s := req.shifts[k];
        if s !in req.demand[d] {
          return Err(MissingShift(d, s));
        }
      }
    }
    return Ok(req);
  }

  /** The entry at [n][d][s] of a nested dictionary, if every level is present. */
  predicate Has3(m: map<string, map<string, map<string, int>>>, n: string, d: string, s: string) {
    n in m && d in m[n] && s in m[n][d]
  }

  /** Preference penalty of nurse n on (d, s): 0 when any level of the key is absent. */
  function PrefPenalty(prefs: map<Nurse, map<Day, map<Shift, int>>>, n: Nurse, d: Day, s: Shift): (r: int)
    ensures !Has3(prefs, n, d, s) ==> r == 0
    ensures Has3(prefs, n, d, s) ==> r == prefs[n][d][s]
  {
    if prefs == map[] then 0
    else if n in prefs && d in prefs[n] && s in prefs[n][d] then prefs[n][d][s]
    else 0
  }

  /** Availability of nurse n on (d, s): a missing entry means available, and only an
      explicit 0 makes the slot unavailable. */
  function IsAvailable(avail: map<Nurse, map<Day, map<Shift, int>>>, n: Nurse, d: Day, s: Shift): (r: bool)
    ensures !r <==> Has3(avail, n, d, s) && avail[n][d][s] == 0
  {
    if avail == map[] then true
    else
      var v := if n in avail && d in avail[n] && s in avail[n][d] then avail[n][d][s] else 1;
      v != 0
  }

  /** Upper bound on a nurse's total shifts before overtime counts: the per-nurse
      maximum, else the legacy maximum, else the number of days. */
  function MaxBound(req: SolveRequest, n: Nurse): (r: int)
    ensures n in req.maxTotal ==> r == req.maxTotal[n]
    ensures n !in req.maxTotal && n in req.maxShifts ==> r == req.maxShifts[n]
    ensures n !in req.maxTotal && n !in req.maxShifts ==> r == |req.days|
  {
    if n in req.maxTotal then req.maxTotal[n]
    else if n in req.maxShifts then req.maxShifts[n]
    else |req.days|
  }

  /** Lower bound on a nurse's total shifts: the per-nurse minimum, else 0. */
  function MinBound(req: SolveRequest, n: Nurse): (r: int)
    ensures n !in req.minTotal ==> r == 0
    ensures n in req.minTotal ==> r == req.minTotal[n]
  {
    if n in req.minTotal then req.minTotal[n] else 0
  }

  /** Shift labels match after stripping and lower-casing both sides. */
  predicate ShiftEq(a: string, b: string) {
    Lower(Strip(a)) == Lower(Strip(b))
  }

  /** The first shift label satisfying `p`. */
  function FirstWith(shifts: seq<Shift>, p: Shift -> bool): (r: Option<Shift>)
    ensures r.None? <==> forall s :: s in shifts ==> !p(s)
    ensures r.Some? ==> r.value in shifts && p(r.value)
    ensures r.Some? ==> forall j :: 0 <= j < IndexOf(shifts, r.value) ==> !p(shifts[j])
  {
    if shifts == [] then None
    else if p(shifts[0]) then Some(shifts[0])
    else
      assert forall s :: s in shifts <==> s == shifts[0] || s in shifts[1..];
      FirstWith(shifts[1..], p)
  }

  /** The first shift label matching `name`, as `next(s for s in shifts if shift_eq(s, name))`. */
  function FirstMatch(shifts: seq<Shift>, name: string): (r: Option<Shift>)
    ensures r.None? <==> forall s :: s in shifts ==> !ShiftEq(s, name)
    ensures r.Some? ==> r.value in shifts && ShiftEq(r.value, name)
    ensures r.Some? ==> forall j :: 0 <= j < IndexOf(shifts, r.value) ==> !ShiftEq(shifts[j], name)
  {
    FirstWith(shifts, s => ShiftEq(s, name))
  }

  /** The shift treated as the night shift, if any. */
  function NightShift(shifts: seq<Shift>): Option<Shift> {
    FirstMatch(shifts, "night")
  }

  /** The shift treated as the morning shift, if any. */
  function MorningShift(shifts: seq<Shift>): Option<Shift> {
    FirstMatch(shifts, "morning")
  }
}

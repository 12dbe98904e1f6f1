/** The constraint model `/solve` hands to CP-SAT. The search itself is an oracle: a solver
    answer is a `Values` triple, `Accepted` is the constraint set every returned schedule
    satisfies (rules 1 to 8 of the service), and `Objective` is the weighted sum it minimises. */
module Model {
  import opened Base
  import opened Request
  import opened Weeks

  /** The values the solver assigns: x[n, d, s] is 1 when nurse n works shift s on day d,
      under[d, s] is the shortfall of (d, s) and over[n] is nurse n's overtime. */
  datatype Values = Values(x: (Nurse, Day, Shift) -> int, under: (Day, Shift) -> int, over: Nurse -> int)

  /** Nurses on (d, s), counted over the nurse list. */
  function Staffed(nurses: seq<Nurse>, v: Values, d: Day, s: Shift): int {
    Sum(nurses, n => v.x(n, d, s))
  }

  /** Shifts nurse n works on day d. */
  function DayLoad(shifts: seq<Shift>, v: Values, n: Nurse, d: Day): int {
    Sum(shifts, s => v.x(n, d, s))
  }

  /** Shifts nurse n works over the given days. */
  function Load(days: seq<Day>, shifts: seq<Shift>, v: Values, n: Nurse): int {
    Sum(days, d => DayLoad(shifts, v, n, d))
  }

  /** Night shifts nurse n works over the given days. */
  function Nights(days: seq<Day>, v: Values, n: Nurse, night: Shift): int {
    Sum(days, d => v.x(n, d, night))
  }

  /** The nurses listing `skill`, in nurse-list order. */
  function Eligible(nurses: seq<Nurse>, nurseSkills: map<Nurse, seq<Skill>>, skill: Skill): seq<Nurse> {
    Filter(nurses, n => n in nurseSkills && skill in nurseSkills[n])
  }

  /** Skill needs of (d, s): empty when either level of the key is absent. */
  function Needs(req: SolveRequest, d: Day, s: Shift): map<Skill, int> {
    if d in req.requiredSkills && s in req.requiredSkills[d] then req.requiredSkills[d][s] else map[]
  }

  function Max0(k: int): int {
    if k < 0 then 0 else k
  }

  /** The bucket map the solver uses for this request. */
  function WeekIdx(req: SolveRequest, iso: IsoCalendar): map<Day, int> {
    WeekIndexMap(req.days, req.weekIndexByDay, iso)
  }

  /** Variable domains: x is boolean, 0 <= under <= |nurses|, 0 <= over <= |days| * |shifts|. */
  predicate Domains(req: SolveRequest, v: Values) {
    (forall n, d, s :: n in req.nurses && d in req.days && s in req.shifts ==> 0 <= v.x(n, d, s) <= 1) &&
    (forall d, s :: d in req.days && s in req.shifts ==> 0 <= v.under(d, s) <= |req.nurses|) &&
    (forall n :: n in req.nurses ==> 0 <= v.over(n) <= |req.days| * |req.shifts|)
  }

  /** Rule 1: staffing plus shortfall meets the demand exactly. */
  predicate Coverage(req: SolveRequest, v: Values)
    requires DemandComplete(req)
  {
    forall d, s :: d in req.days && s in req.shifts ==>
      Staffed(req.nurses, v, d, s) + v.under(d, s) == req.demand[d][s]
  }

  /** Rule 2: at most one shift per nurse per day. */
  predicate OneShiftPerDay(req: SolveRequest, v: Values) {
    forall n, d :: n in req.nurses && d in req.days ==> DayLoad(req.shifts, v, n, d) <= 1
  }

  /** Rule 3: an unavailable slot is not worked. */
  predicate Availability(req: SolveRequest, v: Values) {
    forall n, d, s ::
      n in req.nurses && d in req.days && s in req.shifts && !IsAvailable(req.availability, n, d, s) ==>
      v.x(n, d, s) == 0
  }

  /** Rule 4: total minus overtime stays within the maximum, and the total reaches the minimum. */
  predicate TotalBounds(req: SolveRequest, v: Values) {
    forall n :: n in req.nurses ==>
      Load(req.days, req.shifts, v, n) - v.over(n) <= MaxBound(req, n) &&
      Load(req.days, req.shifts, v, n) >= MinBound(req, n)
  }

  /** Rule 5: no morning shift right after a night shift, when both labels exist. */
  predicate NoNightThenMorning(req: SolveRequest, v: Values) {
    match (NightShift(req.shifts), MorningShift(req.shifts))
    case (Some(night), Some(morning)) =>
      forall n, i :: n in req.nurses && 0 <= i < |req.days| - 1 ==>
        v.x(n, req.days[i], night) + v.x(n, req.days[i + 1], morning) <= 1
    case _ => true
  }

  /** Rule 6: at most two nights per nurse per bucket, when a night label exists. */
  predicate NightCap(req: SolveRequest, weeks: map<int, seq<Day>>, v: Values) {
    match NightShift(req.shifts)
    case Some(night) =>
      forall n, w :: n in req.nurses && w in weeks ==> Nights(weeks[w], v, n, night) <= 2
    case None => true
  }

  /** Rule 7: at least two days off per bucket: a bucket of k days allows max(0, k - 2) shifts. */
  predicate DaysOff(req: SolveRequest, weeks: map<int, seq<Day>>, v: Values) {
    forall n, w :: n in req.nurses && w in weeks ==> Load(weeks[w], req.shifts, v, n) <= Max0(|weeks[w]| - 2)
  }

  /** Rule 8: every positive skill need of (d, s) is met by nurses holding the skill. */
  predicate SkillMinimums(req: SolveRequest, v: Values) {
    forall d, s, skill :: d in req.days && s in req.shifts && skill in Needs(req, d, s) && Needs(req, d, s)[skill] > 0 ==>
      Staffed(Eligible(req.nurses, req.nurseSkills, skill), v, d, s) >= Needs(req, d, s)[skill]
  }

  /** The whole constraint set, over the buckets of the request's week index map. A day with
      no bucket makes the model impossible to build, so nothing is accepted then. */
  predicate Accepted(req: SolveRequest, iso: IsoCalendar, v: Values) {
    var widx := WeekIdx(req, iso);
    DemandComplete(req) && Indexed(req.days, widx) &&
    Domains(req, v) && Coverage(req, v) && OneShiftPerDay(req, v) && Availability(req, v) &&
    TotalBounds(req, v) && NoNightThenMorning(req, v) &&
    NightCap(req, Group(req.days, widx), v) && DaysOff(req, Group(req.days, widx), v) &&
    SkillMinimums(req, v)
  }

  /** The request's weights, or 50 / 10 / 1 when none are given. */
  function Weighting(req: SolveRequest): Weights {
    req.weights.GetOr(DefaultWeights)
  }

  function DayUnder(shifts: seq<Shift>, v: Values, d: Day): int {
    Sum(shifts, s => v.under(d, s))
  }

  /** Total shortfall over every (day, shift). */
  function UnderTotal(days: seq<Day>, shifts: seq<Shift>, v: Values): int {
    Sum(days, d => DayUnder(shifts, v, d))
  }

  /** Total overtime over the nurse list. */
  function OverTotal(nurses: seq<Nurse>, v: Values): int {
    Sum(nurses, n => v.over(n))
  }

  function SlotPrefCost(prefs: map<Nurse, map<Day, map<Shift, int>>>, n: Nurse, d: Day, shifts: seq<Shift>, v: Values): int {
    Sum(shifts, s => PrefPenalty(prefs, n, d, s) * v.x(n, d, s))
  }

  function NursePrefCost(prefs: map<Nurse, map<Day, map<Shift, int>>>, n: Nurse, days: seq<Day>, shifts: seq<Shift>, v: Values): int {
    Sum(days, d => SlotPrefCost(prefs, n, d, shifts, v))
  }

  /** Preference penalty of the worked slots, over every (nurse, day, shift). */
  function PrefTotal(prefs: map<Nurse, map<Day, map<Shift, int>>>, nurses: seq<Nurse>, days: seq<Day>, shifts: seq<Shift>, v: Values): int {
    Sum(nurses, n => NursePrefCost(prefs, n, days, shifts, v))
  }

  /** The objective: understaff weight times total shortfall, plus overtime weight times
      total overtime, plus the multiplier times the preference penalty of worked slots. */
  function Objective(req: SolveRequest, v: Values): int {
    var w := Weighting(req);
    w.understaff * UnderTotal(req.days, req.shifts, v) +
    w.overtime * OverTotal(req.nurses, v) +
    w.preferenceMultiplier * PrefTotal(req.preferences, req.nurses, req.days, req.shifts, v)
  }

  /** An accepted schedule no other accepted schedule beats. */
  ghost predicate IsOptimal(req: SolveRequest, iso: IsoCalendar, v: Values) {
    Accepted(req, iso, v) && forall v' :: Accepted(req, iso, v') ==> Objective(req, v) <= Objective(req, v')
  }

  // ---------------------------------------------------------------------------------------
  // What every accepted schedule satisfies

  /** Staffing of (d, s) lies between 0 and the roster size, never exceeds the demand, and
      the shortfall is exactly the demand left uncovered. Since the shortfall is capped by the
      roster size, a demand above staffing plus roster size admits no schedule. */
  lemma AcceptedStaffing(req: SolveRequest, iso: IsoCalendar, v: Values, d: Day, s: Shift)
    requires Accepted(req, iso, v) && d in req.days && s in req.shifts
    ensures 0 <= Staffed(req.nurses, v, d, s) <= |req.nurses|
    ensures Staffed(req.nurses, v, d, s) <= req.demand[d][s]
    ensures v.under(d, s) == req.demand[d][s] - Staffed(req.nurses, v, d, s)
    ensures 0 <= req.demand[d][s] <= Staffed(req.nurses, v, d, s) + |req.nurses|
  {
    SumNonNegative(req.nurses, n => v.x(n, d, s));
    SumAtMostLength(req.nurses, n => v.x(n, d, s));
  }

  /** A nurse works between 0 and |days| shifts in an accepted schedule. */
  lemma LoadAtMostDays(req: SolveRequest, iso: IsoCalendar, v: Values, n: Nurse)
    requires Accepted(req, iso, v) && n in req.nurses
    ensures 0 <= Load(req.days, req.shifts, v, n) <= |req.days|
  {
    forall d | d in req.days
      ensures DayLoad(req.shifts, v, n, d) >= 0
    {
      SumNonNegative(req.shifts, s => v.x(n, d, s));
    }
    SumNonNegative(req.days, d => DayLoad(req.shifts, v, n, d));
    SumAtMostLength(req.days, d => DayLoad(req.shifts, v, n, d));
  }

  /** The weekly rules hold for every bucket of the week index map, stated over the days of
      the horizon that map to it: at most max(0, k - 2) shifts in a bucket of k days, and at
      most two nights when a night label exists. */
  lemma AcceptedBuckets(req: SolveRequest, iso: IsoCalendar, v: Values, n: Nurse, d: Day)
    requires Accepted(req, iso, v) && n in req.nurses && d in req.days
    ensures var b := Bucket(req.days, WeekIdx(req, iso), WeekIdx(req, iso)[d]);
            Load(b, req.shifts, v, n) <= Max0(|b| - 2) &&
            (NightShift(req.shifts).Some? ==> Nights(b, v, n, NightShift(req.shifts).value) <= 2)
  {
    var widx := WeekIdx(req, iso);
    var weeks := Group(req.days, widx);
    var w := widx[d];
    GroupBuckets(req.days, widx);
    assert w in weeks;
    assert weeks[w] == Bucket(req.days, widx, w);
    assert DaysOff(req, weeks, v);
    assert Load(weeks[w], req.shifts, v, n) <= Max0(|weeks[w]| - 2);
    if NightShift(req.shifts).Some? {
      assert NightCap(req, weeks, v);
      assert Nights(weeks[w], v, n, NightShift(req.shifts).value) <= 2;
    }
  }

  /** A bucket of at most two days leaves no room for work: nobody works any shift on it. */
  lemma ShortBucketIdle(req: SolveRequest, iso: IsoCalendar, v: Values, n: Nurse, d: Day, s: Shift)
    requires Accepted(req, iso, v) && n in req.nurses && d in req.days && s in req.shifts
    requires |Bucket(req.days, WeekIdx(req, iso), WeekIdx(req, iso)[d])| <= 2
    ensures v.x(n, d, s) == 0
  {
    var widx := WeekIdx(req, iso);
    var b := Bucket(req.days, widx, widx[d]);
    AcceptedBuckets(req, iso, v, n, d);
    assert d in b;
    forall e | e in b
      ensures DayLoad(req.shifts, v, n, e) >= 0
    {
      SumNonNegative(req.shifts, t => v.x(n, e, t));
    }
    SumAtLeastTerm(b, e => DayLoad(req.shifts, v, n, e), d);
    SumAtLeastTerm(req.shifts, t => v.x(n, d, t), s);
  }

  /** On a one-day horizon nobody can work at all. */
  lemma OneDayIdle(req: SolveRequest, iso: IsoCalendar, v: Values, n: Nurse, s: Shift)
    requires Accepted(req, iso, v) && |req.days| == 1 && n in req.nurses && s in req.shifts
    ensures v.x(n, req.days[0], s) == 0
  {
    ShortBucketIdle(req, iso, v, n, req.days[0], s);
  }

  // ---------------------------------------------------------------------------------------
  // The objective as the linear term list the service builds

  datatype Var = X(n: Nurse, d: Day, s: Shift) | Under(d: Day, s: Shift) | Over(n: Nurse)

  /** `coef * var`, one entry of the `terms` list. */
  datatype Term = Term(coef: int, on: Var)

  function VarValue(v: Values, x: Var): int {
    match x
    case X(n, d, s) => v.x(n, d, s)
    case Under(d, s) => v.under(d, s)
    case Over(n) => v.over(n)
  }

  /** Value of `sum(terms)` under the solver's values. */
  function EvalTerms(terms: seq<Term>, v: Values): int {
    Sum(terms, (t: Term) => t.coef * VarValue(v, t.on))
  }

  function DayUnderTerms(d: Day, shifts: seq<Shift>, k: int): seq<Term> {
    if shifts == [] then [] else DayUnderTerms(d, shifts[..|shifts| - 1], k) + [Term(k, Under(d, shifts[|shifts| - 1]))]
  }

  /** One understaffing term per (day, shift), day-major. */
  function UnderTerms(days: seq<Day>, shifts: seq<Shift>, k: int): seq<Term> {
    if days == [] then [] else UnderTerms(days[..|days| - 1], shifts, k) + DayUnderTerms(days[|days| - 1], shifts, k)
  }

  /** One overtime term per nurse. */
  function OverTerms(nurses: seq<Nurse>, k: int): seq<Term> {
    if nurses == [] then [] else OverTerms(nurses[..|nurses| - 1], k) + [Term(k, Over(nurses[|nurses| - 1]))]
  }

  /** Preference terms of (n, d): one per shift with a non-zero penalty. */
  function SlotPrefTerms(prefs: map<Nurse, map<Day, map<Shift, int>>>, n: Nurse, d: Day, shifts: seq<Shift>, k: int): seq<Term> {
    if shifts == [] then []
    else
      var s := shifts[|shifts| - 1];
      var pen := PrefPenalty(prefs, n, d, s);
      SlotPrefTerms(prefs, n, d, shifts[..|shifts| - 1], k) + (if pen != 0 then [Term(k * pen, X(n, d, s))] else [])
  }

  function NursePrefTerms(prefs: map<Nurse, map<Day, map<Shift, int>>>, n: Nurse, days: seq<Day>, shifts: seq<Shift>, k: int): seq<Term> {
    if days == [] then [] else NursePrefTerms(prefs, n, days[..|days| - 1], shifts, k) + SlotPrefTerms(prefs, n, days[|days| - 1], shifts, k)
  }

  function PrefTerms(prefs: map<Nurse, map<Day, map<Shift, int>>>, nurses: seq<Nurse>, days: seq<Day>, shifts: seq<Shift>, k: int): seq<Term> {
    if nurses == [] then [] else PrefTerms(prefs, nurses[..|nurses| - 1], days, shifts, k) + NursePrefTerms(prefs, nurses[|nurses| - 1], days, shifts, k)
  }

  /** The term list in the order the service appends it. */
  function ObjectiveTerms(req: SolveRequest): seq<Term> {
    var w := Weighting(req);
    UnderTerms(req.days, req.shifts, w.understaff) + OverTerms(req.nurses, w.overtime) +
    PrefTerms(req.preferences, req.nurses, req.days, req.shifts, w.preferenceMultiplier)
  }

  lemma Distribute(k: int, a: int, b: int)
    ensures k * (a + b) == k * a + k * b
  {
  }

  lemma EvalTermsConcat(a: seq<Term>, b: seq<Term>, v: Values)
    ensures EvalTerms(a + b, v) == EvalTerms(a, v) + EvalTerms(b, v)
  {
    SumConcat(a, b, (t: Term) => t.coef * VarValue(v, t.on));
  }

  lemma {:induction false} DayUnderTermsValue(d: Day, shifts: seq<Shift>, k: int, v: Values)
    ensures EvalTerms(DayUnderTerms(d, shifts, k), v) == k * DayUnder(shifts, v, d)
  {
    if shifts != [] {
      var p := shifts[..|shifts| - 1];
      DayUnderTermsValue(d, p, k, v);
      EvalTermsConcat(DayUnderTerms(d, p, k), [Term(k, Under(d, shifts[|shifts| - 1]))], v);
      assert [Term(k, Under(d, shifts[|shifts| - 1]))][..0] == [];
    }
  }

  lemma {:induction false} UnderTermsValue(days: seq<Day>, shifts: seq<Shift>, k: int, v: Values)
    ensures EvalTerms(UnderTerms(days, shifts, k), v) == k * UnderTotal(days, shifts, v)
  {
    if days != [] {
      var p := days[..|days| - 1];
      UnderTermsValue(p, shifts, k, v);
      DayUnderTermsValue(days[|days| - 1], shifts, k, v);
      EvalTermsConcat(UnderTerms(p, shifts, k), DayUnderTerms(days[|days| - 1], shifts, k), v);
    }
  }

  lemma {:induction false} OverTermsValue(nurses: seq<Nurse>, k: int, v: Values)
    ensures EvalTerms(OverTerms(nurses, k), v) == k * OverTotal(nurses, v)
  {
    if nurses != [] {
      var p := nurses[..|nurses| - 1];
      OverTermsValue(p, k, v);
      EvalTermsConcat(OverTerms(p, k), [Term(k, Over(nurses[|nurses| - 1]))], v);
      assert [Term(k, Over(nurses[|nurses| - 1]))][..0] == [];
    }
  }

  /** Skipping zero penalties drops only terms worth 0. */
  lemma {:induction false} SlotPrefTermsValue(prefs: map<Nurse, map<Day, map<Shift, int>>>, n: Nurse, d: Day, shifts: seq<Shift>, k: int, v: Values)
    ensures EvalTerms(SlotPrefTerms(prefs, n, d, shifts, k), v) == k * SlotPrefCost(prefs, n, d, shifts, v)
  {
    if shifts != [] {
      var p := shifts[..|shifts| - 1];
      var s := shifts[|shifts| - 1];
      var pen := PrefPenalty(prefs, n, d, s);
      var tail := if pen != 0 then [Term(k * pen, X(n, d, s))] else [];
      SlotPrefTermsValue(prefs, n, d, p, k, v);
      EvalTermsConcat(SlotPrefTerms(prefs, n, d, p, k), tail, v);
      if pen != 0 {
        assert tail[..0] == [];
        assert EvalTerms(tail, v) == k * pen * v.x(n, d, s);
      }
      assert k * SlotPrefCost(prefs, n, d, shifts, v) == k * SlotPrefCost(prefs, n, d, p, v) + k * (pen * v.x(n, d, s));
    }
  }

  lemma {:induction false} NursePrefTermsValue(prefs: map<Nurse, map<Day, map<Shift, int>>>, n: Nurse, days: seq<Day>, shifts: seq<Shift>, k: int, v: Values)
    ensures EvalTerms(NursePrefTerms(prefs, n, days, shifts, k), v) == k * NursePrefCost(prefs, n, days, shifts, v)
  {
    if days != [] {
      var p := days[..|days| - 1];
      var d := days[|days| - 1];
      NursePrefTermsValue(prefs, n, p, shifts, k, v);
      SlotPrefTermsValue(prefs, n, d, shifts, k, v);
      EvalTermsConcat(NursePrefTerms(prefs, n, p, shifts, k), SlotPrefTerms(prefs, n, d, shifts, k), v);
      var a, b := NursePrefCost(prefs, n, p, shifts, v), SlotPrefCost(prefs, n, d, shifts, v);
      assert NursePrefCost(prefs, n, days, shifts, v) == a + b;
      Distribute(k, a, b);
    }
  }

  lemma {:induction false} PrefTermsValue(prefs: map<Nurse, map<Day, map<Shift, int>>>, nurses: seq<Nurse>, days: seq<Day>, shifts: seq<Shift>, k: int, v: Values)
    ensures EvalTerms(PrefTerms(prefs, nurses, days, shifts, k), v) == k * PrefTotal(prefs, nurses, days, shifts, v)
  {
    if nurses != [] {
      var p := nurses[..|nurses| - 1];
      PrefTermsValue(prefs, p, days, shifts, k, v);
      NursePrefTermsValue(prefs, nurses[|nurses| - 1], days, shifts, k, v);
      EvalTermsConcat(PrefTerms(prefs, p, days, shifts, k), NursePrefTerms(prefs, nurses[|nurses| - 1], days, shifts, k), v);
      var a, b := PrefTotal(prefs, p, days, shifts, v), NursePrefCost(prefs, nurses[|nurses| - 1], days, shifts, v);
      assert PrefTotal(prefs, nurses, days, shifts, v) == a + b;
      Distribute(k, a, b);
    }
  }

  /** Summing the term list gives the objective, whatever values the solver picks. */
  lemma ObjectiveTermsValue(req: SolveRequest, v: Values)
    ensures EvalTerms(ObjectiveTerms(req), v) == Objective(req, v)
  {
    var w := Weighting(req);
    var u := UnderTerms(req.days, req.shifts, w.understaff);
    var o := OverTerms(req.nurses, w.overtime);
    var p := PrefTerms(req.preferences, req.nurses, req.days, req.shifts, w.preferenceMultiplier);
    UnderTermsValue(req.days, req.shifts, w.understaff, v);
    OverTermsValue(req.nurses, w.overtime, v);
    PrefTermsValue(req.preferences, req.nurses, req.days, req.shifts, w.preferenceMultiplier, v);
    EvalTermsConcat(u, o, v);
    EvalTermsConcat(u + o, p, v);
  }

  /** The understaffing terms, appended day by day and shift by shift. */
  method AppendUnderTerms(days: seq<Day>, shifts: seq<Shift>, k: int) returns (terms: seq<Term>)
    ensures terms == UnderTerms(days, shifts, k)
  {
    terms := [];
    for i := 0 to |days|
      invariant terms == UnderTerms(days[..i], shifts, k)
    {
      assert days[..i + 1][..i] == days[..i];
      for j := 0 to |shifts|
        invariant terms == UnderTerms(days[..i], shifts, k) + DayUnderTerms(days[i], shifts[..j], k)
      {
        assert shifts[..j + 1][..j] == shifts[..j];
        terms := terms + [Term(k, Under(days[i], shifts[j]))];
      }
      assert shifts[..|shifts|] == shifts;
    }
    assert days[..|days|] == days;
  }

  /** The overtime terms, one per nurse. */
  method AppendOverTerms(nurses: seq<Nurse>, k: int) returns (terms: seq<Term>)
    ensures terms == OverTerms(nurses, k)
  {
    terms := [];
    for i := 0 to |nurses|
      invariant terms == OverTerms(nurses[..i], k)
    {
      assert nurses[..i + 1][..i] == nurses[..i];
      terms := terms + [Term(k, Over(nurses[i]))];
    }
    assert nurses[..|nurses|] == nurses;
  }

  /** The preference terms of one nurse, skipping zero penalties. */
  method AppendNursePrefTerms(prefs: map<Nurse, map<Day, map<Shift, int>>>, n: Nurse, days: seq<Day>, shifts: seq<Shift>, k: int)
    returns (terms: seq<Term>)
    ensures terms == NursePrefTerms(prefs, n, days, shifts, k)
  {
    terms := [];
    for j := 0 to |days|
      invariant terms == NursePrefTerms(prefs, n, days[..j], shifts, k)
    {
      assert days[..j + 1][..j] == days[..j];
      var d := days[j];
      for l := 0 to |shifts|
        invariant terms == NursePrefTerms(prefs, n, days[..j], shifts, k) + SlotPrefTerms(prefs, n, d, shifts[..l], k)
      {
        assert shifts[..l + 1][..l] == shifts[..l];
        var pen := PrefPenalty(prefs, n, d, shifts[l]);
        if pen != 0 {
          terms := terms + [Term(k * pen, X(n, d, shifts[l]))];
        }
      }
      assert shifts[..|shifts|] == shifts;
    }
    assert days[..|days|] == days;
  }

  /** Builds the objective's term list in the service's order: one understaffing term per
      (day, shift), one overtime term per nurse, then one preference term per slot with a
      non-zero penalty. Its sum is the objective for every choice of values. */
  method BuildObjective(req: SolveRequest) returns (terms: seq<Term>)
    ensures terms == ObjectiveTerms(req)
    ensures forall v :: EvalTerms(terms, v) == Objective(req, v)
  {
    var w := Weighting(req);
    var under := AppendUnderTerms(req.days, req.shifts, w.understaff);
    var over := AppendOverTerms(req.nurses, w.overtime);
    var pref := [];
    var nurses := req.nurses;
    for i := 0 to |nurses|
      invariant pref == PrefTerms(req.preferences, nurses[..i], req.days, req.shifts, w.preferenceMultiplier)
    {
      assert nurses[..i + 1][..i] == nurses[..i];
      var mine := AppendNursePrefTerms(req.preferences, nurses[i], req.days, req.shifts, w.preferenceMultiplier);
      pref := pref + mine;
    }
    assert nurses[..|nurses|] == nurses;
    terms := under + over + pref;
    forall v: Values
      ensures EvalTerms(terms, v) == Objective(req, v)
    {
      ObjectiveTermsValue(req, v);
    }
  }
}

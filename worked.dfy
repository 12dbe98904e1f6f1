/** Two small requests worked through the model: two nurses against a demand of one, and one
    nurse against a demand of two, each on a one-day, one-shift horizon with every optional
    dictionary empty. The rest-day rule gives a one-day bucket room for max(0, 1 - 2) = 0
    shifts, so in both nobody can work. */
module Worked {
  import opened Base
  import opened Request
  import opened Weeks
  import opened Model
  import opened Decode

  /** A one-day, one-shift request ("D1", "M") with the given roster and demand. */
  function OneSlot(nurses: seq<Nurse>, demand: int): SolveRequest {
    SolveRequest(nurses, ["D1"], ["M"], map["D1" := map["M" := demand]],
                 map[], map[], map[], map[], map[], map[], map[], map[], None)
  }

  /** Nobody works, the whole demand is short, no overtime. */
  function Idle(missing: int): Values {
    Values((n: Nurse, d: Day, s: Shift) => 0, (d: Day, s: Shift) => missing, (n: Nurse) => 0)
  }

  /** On a one-slot request, an accepted schedule has nobody working and the whole demand
      as shortfall. */
  lemma OneSlotIdle(nurses: seq<Nurse>, demand: int, iso: IsoCalendar, v: Values)
    requires Accepted(OneSlot(nurses, demand), iso, v)
    ensures forall n :: n in nurses ==> v.x(n, "D1", "M") == 0
    ensures v.under("D1", "M") == demand
  {
    var req := OneSlot(nurses, demand);
    forall n | n in nurses
      ensures v.x(n, "D1", "M") == 0
    {
      OneDayIdle(req, iso, v, n, "M");
    }
    SumZero(nurses, n => v.x(n, "D1", "M"));
    assert Coverage(req, v);
  }

  /** With nobody working on (d, s), its assignment list is empty. */
  lemma {:induction false} IdleSlot(nurses: seq<Nurse>, d: Day, s: Shift, v: Values)
    requires forall n :: n in nurses ==> v.x(n, d, s) == 0
    ensures SlotAssignments(nurses, d, s, v) == []
  {
    if nurses != [] {
      IdleSlot(nurses[..|nurses| - 1], d, s, v);
    }
  }

  /** With nobody working, the one-slot assignment list is empty. */
  lemma IdleAssignments(nurses: seq<Nurse>, v: Values)
    requires forall n :: n in nurses ==> v.x(n, "D1", "M") == 0
    ensures Assignments(nurses, ["D1"], ["M"], v) == []
  {
    IdleSlot(nurses, "D1", "M", v);
    var D, S := ["D1"], ["M"];
    assert D[..|D| - 1] == [] && D[|D| - 1] == "D1";
    assert S[..|S| - 1] == [] && S[|S| - 1] == "M";
    assert DayAssignments(nurses, "D1", S, v) == [] + SlotAssignments(nurses, "D1", "M", v);
    assert Assignments(nurses, D, S, v) == [] + DayAssignments(nurses, "D1", S, v);
  }

  /** A one-slot request has no preferences, so its objective is 50 per missing nurse plus
      10 per shift of overtime. */
  lemma OneSlotObjective(nurses: seq<Nurse>, demand: int, v: Values)
    ensures Objective(OneSlot(nurses, demand), v) == 50 * v.under("D1", "M") + 10 * OverTotal(nurses, v)
  {
    assert ["D1"][..0] == [] && ["M"][..0] == [];
    forall n | n in nurses
      ensures NursePrefCost(map[], n, ["D1"], ["M"], v) == 0
    {
      assert PrefPenalty(map[], n, "D1", "M") == 0;
      SumZero(["M"], s => PrefPenalty(map[], n, "D1", s) * v.x(n, "D1", s));
      SumZero(["D1"], d => SlotPrefCost(map[], n, d, ["M"], v));
    }
    SumZero(nurses, n => NursePrefCost(map[], n, ["D1"], ["M"], v));
  }

  /** The one-slot understaffed list holds the shortfall when there is one. */
  lemma OneSlotShortfalls(v: Values)
    ensures Shortfalls(["D1"], ["M"], v) == if v.under("D1", "M") != 0 then [UnderstaffItem("D1", "M", v.under("D1", "M"))] else []
  {
    var D, S := ["D1"], ["M"];
    assert D[..|D| - 1] == [] && D[|D| - 1] == "D1";
    assert S[..|S| - 1] == [] && S[|S| - 1] == "M";
    var tail := if v.under("D1", "M") != 0 then [UnderstaffItem("D1", "M", v.under("D1", "M"))] else [];
    assert DayShortfalls("D1", S, v) == [] + tail;
    assert Shortfalls(D, S, v) == [] + DayShortfalls("D1", S, v);
  }

  /** Two nurses, demand one: every accepted schedule has no assignment, leaves the slot one
      nurse short and costs at least 50. */
  lemma TwoNursesDemandOne(iso: IsoCalendar, v: Values)
    requires Accepted(OneSlot(["A", "B"], 1), iso, v)
    ensures Assignments(["A", "B"], ["D1"], ["M"], v) == []
    ensures Shortfalls(["D1"], ["M"], v) == [UnderstaffItem("D1", "M", 1)]
    ensures Objective(OneSlot(["A", "B"], 1), v) >= 50
  {
    OneSlotIdle(["A", "B"], 1, iso, v);
    IdleAssignments(["A", "B"], v);
    OneSlotObjective(["A", "B"], 1, v);
    OneSlotShortfalls(v);
    assert Domains(OneSlot(["A", "B"], 1), v);
    SumNonNegative(["A", "B"], (n: Nurse) => v.over(n));
  }

  /** With nobody working, the per-nurse and per-bucket rules hold for any request. */
  lemma IdleRules(req: SolveRequest, weeks: map<int, seq<Day>>, missing: int)
    ensures OneShiftPerDay(req, Idle(missing)) && Availability(req, Idle(missing))
    ensures NoNightThenMorning(req, Idle(missing))
    ensures NightCap(req, weeks, Idle(missing)) && DaysOff(req, weeks, Idle(missing))
    ensures forall n :: Load(req.days, req.shifts, Idle(missing), n) == 0
  {
    var v := Idle(missing);
    forall n, d
      ensures DayLoad(req.shifts, v, n, d) == 0
    {
      SumZero(req.shifts, s => v.x(n, d, s));
    }
    forall n, days: seq<Day>
      ensures Load(days, req.shifts, v, n) == 0
    {
      SumZero(days, d => DayLoad(req.shifts, v, n, d));
    }
    forall n, days: seq<Day>, night
      ensures Nights(days, v, n, night) == 0
    {
      SumZero(days, d => v.x(n, d, night));
    }
  }

  lemma IdleCoverage()
    ensures Domains(OneSlot(["A", "B"], 1), Idle(1)) && Coverage(OneSlot(["A", "B"], 1), Idle(1))
  {
    var v := Idle(1);
    SumZero(["A", "B"], n => v.x(n, "D1", "M"));
  }

  lemma IdleBounds()
    ensures TotalBounds(OneSlot(["A", "B"], 1), Idle(1)) && SkillMinimums(OneSlot(["A", "B"], 1), Idle(1))
  {
    IdleRules(OneSlot(["A", "B"], 1), map[], 1);
  }

  /** The idle schedule with one nurse missing is accepted for two nurses against a demand
      of one, at objective 50. */
  lemma IdleAccepted(iso: IsoCalendar)
    ensures Accepted(OneSlot(["A", "B"], 1), iso, Idle(1))
    ensures Objective(OneSlot(["A", "B"], 1), Idle(1)) == 50
  {
    var req := OneSlot(["A", "B"], 1);
    var v := Idle(1);
    var widx := WeekIdx(req, iso);
    assert Indexed(req.days, widx);
    IdleRules(req, Group(req.days, widx), 1);
    IdleCoverage();
    IdleBounds();
    OneSlotObjective(["A", "B"], 1, v);
    SumZero(req.nurses, (n: Nurse) => v.over(n));
  }

  /** The idle schedule with one nurse missing is optimal for two nurses against a demand of
      one, at objective 50. */
  lemma TwoNursesDemandOneOptimum(iso: IsoCalendar)
    ensures IsOptimal(OneSlot(["A", "B"], 1), iso, Idle(1))
    ensures Objective(OneSlot(["A", "B"], 1), Idle(1)) == 50
  {
    IdleAccepted(iso);
    forall v' | Accepted(OneSlot(["A", "B"], 1), iso, v')
      ensures Objective(OneSlot(["A", "B"], 1), Idle(1)) <= Objective(OneSlot(["A", "B"], 1), v')
    {
      TwoNursesDemandOne(iso, v');
    }
  }

  /** One nurse, demand two: the nurse cannot work and the shortfall variable is capped at
      the roster size 1, so no schedule is accepted and the endpoint answers INFEASIBLE. */
  lemma OneNurseDemandTwo(iso: IsoCalendar, v: Values)
    ensures !Accepted(OneSlot(["A"], 2), iso, v)
  {
    if Accepted(OneSlot(["A"], 2), iso, v) {
      OneSlotIdle(["A"], 2, iso, v);
    }
  }
}

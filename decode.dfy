/** The response side of `/solve`: the decoder that turns the solver's values into the
    assignment list, the understaffed list and the per-nurse statistics, and the endpoint
    itself with its INFEASIBLE fallback. */
module Decode {
  import opened Base
  import opened Request
  import opened Weeks
  import opened Model

  datatype Assignment = Assignment(day: Day, shift: Shift, nurse: Nurse)

  datatype UnderstaffItem = UnderstaffItem(day: Day, shift: Shift, missing: int)

  datatype NurseStats = NurseStats(nurse: Nurse, assignedShifts: int, overtime: int, nights: int)

  /** What the solver reports besides the values. */
  datatype Status = Optimal | Feasible | Infeasible | ModelInvalid | Unknown {
    predicate Solved() { this == Optimal || this == Feasible }
  }

  /** The response body; the solver diagnostics (`details`) are not modelled. */
  datatype SolveResponse = SolveResponse(
    status: string,
    objectiveValue: Option<int>,
    assignments: seq<Assignment>,
    understaffed: seq<UnderstaffItem>,
    nurseStats: seq<NurseStats>)

  // ---------------------------------------------------------------------------------------
  // Specification of the decoder, loop level by loop level

  /** Assignments of (d, s), in nurse-list order: the nurses whose x value is exactly 1. */
  function SlotAssignments(nurses: seq<Nurse>, d: Day, s: Shift, v: Values): seq<Assignment> {
    if nurses == [] then []
    else
      var n := nurses[|nurses| - 1];
      SlotAssignments(nurses[..|nurses| - 1], d, s, v) + (if v.x(n, d, s) == 1 then [Assignment(d, s, n)] else [])
  }

  function DayAssignments(nurses: seq<Nurse>, d: Day, shifts: seq<Shift>, v: Values): seq<Assignment> {
    if shifts == [] then []
    else DayAssignments(nurses, d, shifts[..|shifts| - 1], v) + SlotAssignments(nurses, d, shifts[|shifts| - 1], v)
  }

  /** All assignments, day-major, then by shift, then by nurse. */
  function Assignments(nurses: seq<Nurse>, days: seq<Day>, shifts: seq<Shift>, v: Values): seq<Assignment> {
    if days == [] then []
    else Assignments(nurses, days[..|days| - 1], shifts, v) + DayAssignments(nurses, days[|days| - 1], shifts, v)
  }

  function DayShortfalls(d: Day, shifts: seq<Shift>, v: Values): seq<UnderstaffItem> {
    if shifts == [] then []
    else
      var s := shifts[|shifts| - 1];
      DayShortfalls(d, shifts[..|shifts| - 1], v) + (if v.under(d, s) != 0 then [UnderstaffItem(d, s, v.under(d, s))] else [])
  }

  /** The (day, shift) pairs with a non-zero shortfall, day-major. */
  function Shortfalls(days: seq<Day>, shifts: seq<Shift>, v: Values): seq<UnderstaffItem> {
    if days == [] then []
    else Shortfalls(days[..|days| - 1], shifts, v) + DayShortfalls(days[|days| - 1], shifts, v)
  }

  /** Statistics of one nurse: total shifts, overtime, and nights when a night label exists. */
  function StatsFor(n: Nurse, days: seq<Day>, shifts: seq<Shift>, v: Values, night: Option<Shift>): NurseStats {
    NurseStats(n, Load(days, shifts, v, n), v.over(n), if night.Some? then Nights(days, v, n, night.value) else 0)
  }

  function Stats(nurses: seq<Nurse>, days: seq<Day>, shifts: seq<Shift>, v: Values, night: Option<Shift>): seq<NurseStats> {
    seq(|nurses|, i requires 0 <= i < |nurses| => StatsFor(nurses[i], days, shifts, v, night))
  }

  /** The response for a solved model. */
  function Decoded(req: SolveRequest, status: Status, v: Values): SolveResponse
    requires status.Solved()
  {
    SolveResponse(
      if status == Optimal then "OPTIMAL" else "FEASIBLE",
      Some(Objective(req, v)),
      Assignments(req.nurses, req.days, req.shifts, v),
      Shortfalls(req.days, req.shifts, v),
      Stats(req.nurses, req.days, req.shifts, v, NightShift(req.shifts)))
  }

  /** The response when no schedule was found. */
  const NoSchedule := SolveResponse("INFEASIBLE", None, [], [], [])

  // ---------------------------------------------------------------------------------------
  // What the decoded lists contain

  lemma {:induction false} SlotAssignmentsMember(nurses: seq<Nurse>, d: Day, s: Shift, v: Values, a: Assignment)
    ensures a in SlotAssignments(nurses, d, s, v) <==> a.day == d && a.shift == s && a.nurse in nurses && v.x(a.nurse, d, s) == 1
  {
    if nurses != [] {
      var p := nurses[..|nurses| - 1];
      assert forall m :: m in nurses <==> m in p || m == nurses[|nurses| - 1];
      SlotAssignmentsMember(p, d, s, v, a);
    }
  }

  lemma {:induction false} DayAssignmentsMember(nurses: seq<Nurse>, d: Day, shifts: seq<Shift>, v: Values, a: Assignment)
    ensures a in DayAssignments(nurses, d, shifts, v) <==> a.day == d && a.shift in shifts && a.nurse in nurses && v.x(a.nurse, d, a.shift) == 1
  {
    if shifts != [] {
      var p := shifts[..|shifts| - 1];
      assert forall m :: m in shifts <==> m in p || m == shifts[|shifts| - 1];
      DayAssignmentsMember(nurses, d, p, v, a);
      SlotAssignmentsMember(nurses, d, shifts[|shifts| - 1], v, a);
    }
  }

  /** The assignment list holds exactly the (day, shift, nurse) triples whose x value is 1. */
  lemma {:induction false} AssignmentsMember(nurses: seq<Nurse>, days: seq<Day>, shifts: seq<Shift>, v: Values, a: Assignment)
    ensures a in Assignments(nurses, days, shifts, v) <==>
            a.day in days && a.shift in shifts && a.nurse in nurses && v.x(a.nurse, a.day, a.shift) == 1
  {
    if days != [] {
      var p := days[..|days| - 1];
      assert forall m :: m in days <==> m in p || m == days[|days| - 1];
      AssignmentsMember(nurses, p, shifts, v, a);
      DayAssignmentsMember(nurses, days[|days| - 1], shifts, v, a);
    }
  }

  lemma {:induction false} DayShortfallsMember(d: Day, shifts: seq<Shift>, v: Values, u: UnderstaffItem)
    ensures u in DayShortfalls(d, shifts, v) <==> u.day == d && u.shift in shifts && u.missing == v.under(d, u.shift) != 0
  {
    if shifts != [] {
      var p := shifts[..|shifts| - 1];
      assert forall m :: m in shifts <==> m in p || m == shifts[|shifts| - 1];
      DayShortfallsMember(d, p, v, u);
    }
  }

  /** The understaffed list holds exactly the (day, shift) pairs with a non-zero shortfall,
      each with that shortfall as its missing count. */
  lemma {:induction false} ShortfallsMember(days: seq<Day>, shifts: seq<Shift>, v: Values, u: UnderstaffItem)
    ensures u in Shortfalls(days, shifts, v) <==>
            u.day in days && u.shift in shifts && u.missing == v.under(u.day, u.shift) != 0
  {
    if days != [] {
      var p := days[..|days| - 1];
      assert forall m :: m in days <==> m in p || m == days[|days| - 1];
      ShortfallsMember(p, shifts, v, u);
      DayShortfallsMember(days[|days| - 1], shifts, v, u);
    }
  }

  // ---------------------------------------------------------------------------------------
  // Order of the assignment list

  /** `a` comes strictly before `b` in (day, shift, nurse) list order. */
  predicate Precedes(days: seq<Day>, shifts: seq<Shift>, nurses: seq<Nurse>, a: Assignment, b: Assignment)
    requires a.day in days && a.shift in shifts && a.nurse in nurses
    requires b.day in days && b.shift in shifts && b.nurse in nurses
  {
    var da, db := IndexOf(days, a.day), IndexOf(days, b.day);
    var sa, sb := IndexOf(shifts, a.shift), IndexOf(shifts, b.shift);
    da < db || (da == db && (sa < sb || (sa == sb && IndexOf(nurses, a.nurse) < IndexOf(nurses, b.nurse))))
  }

  predicate Listed(days: seq<Day>, shifts: seq<Shift>, nurses: seq<Nurse>, l: seq<Assignment>) {
    forall a :: a in l ==> a.day in days && a.shift in shifts && a.nurse in nurses
  }

  predicate Ordered(days: seq<Day>, shifts: seq<Shift>, nurses: seq<Nurse>, l: seq<Assignment>)
    requires Listed(days, shifts, nurses, l)
  {
    forall i, j :: 0 <= i < j < |l| ==> Precedes(days, shifts, nurses, l[i], l[j])
  }

  lemma {:induction false} SlotAssignmentsOrdered(nurses: seq<Nurse>, d: Day, s: Shift, v: Values)
    requires NoDup(nurses)
    ensures Listed([d], [s], nurses, SlotAssignments(nurses, d, s, v))
    ensures Ordered([d], [s], nurses, SlotAssignments(nurses, d, s, v))
  {
    var l := SlotAssignments(nurses, d, s, v);
    forall a | a in l
      ensures a.day == d && a.shift == s && a.nurse in nurses
    {
      SlotAssignmentsMember(nurses, d, s, v, a);
    }
    if nurses != [] {
      var m := |nurses| - 1;
      var p := nurses[..m];
      var n := nurses[m];
      SlotAssignmentsOrdered(p, d, s, v);
      var lp := SlotAssignments(p, d, s, v);
      forall a | a in lp
        ensures a.nurse in p && IndexOf(nurses, a.nurse) < m
      {
        SlotAssignmentsMember(p, d, s, v, a);
        IndexOfPrefix(nurses, m, a.nurse);
      }
      IndexOfLast(nurses);
      forall i, j | 0 <= i < j < |l|
        ensures Precedes([d], [s], nurses, l[i], l[j])
      {
        if j < |lp| {
          assert l[i] == lp[i] && l[j] == lp[j];
          IndexOfPrefix(nurses, m, l[i].nurse);
          IndexOfPrefix(nurses, m, l[j].nurse);
        } else {
          assert l[i] == lp[i] && l[i] in lp;
          assert l[j] == Assignment(d, s, n);
        }
      }
    }
  }

  lemma {:induction false} DayAssignmentsOrdered(nurses: seq<Nurse>, d: Day, shifts: seq<Shift>, v: Values)
    requires NoDup(nurses) && NoDup(shifts)
    ensures Listed([d], shifts, nurses, DayAssignments(nurses, d, shifts, v))
    ensures Ordered([d], shifts, nurses, DayAssignments(nurses, d, shifts, v))
  {
    var l := DayAssignments(nurses, d, shifts, v);
    forall a | a in l
      ensures a.day == d && a.shift in shifts && a.nurse in nurses
    {
      DayAssignmentsMember(nurses, d, shifts, v, a);
    }
    if shifts != [] {
      var p := shifts[..|shifts| - 1];
      DayAssignmentsOrdered(nurses, d, p, v);
      DayAssignmentsOrderedStep(nurses, d, shifts, v);
    }
  }

  /** The last shift's assignments follow, in order, the ordered assignments of the shifts
      before it. */
  lemma DayAssignmentsOrderedStep(nurses: seq<Nurse>, d: Day, shifts: seq<Shift>, v: Values)
    requires NoDup(nurses) && NoDup(shifts) && shifts != []
    requires Listed([d], shifts, nurses, DayAssignments(nurses, d, shifts, v))
    requires var p := shifts[..|shifts| - 1];
             Listed([d], p, nurses, DayAssignments(nurses, d, p, v)) &&
             Ordered([d], p, nurses, DayAssignments(nurses, d, p, v))
    ensures Ordered([d], shifts, nurses, DayAssignments(nurses, d, shifts, v))
  {
    var l := DayAssignments(nurses, d, shifts, v);
    var m := |shifts| - 1;
    var p := shifts[..m];
    var s := shifts[m];
    SlotAssignmentsOrdered(nurses, d, s, v);
    var lp := DayAssignments(nurses, d, p, v);
    var ls := SlotAssignments(nurses, d, s, v);
    assert l == lp + ls;
    forall a | a in lp
      ensures a.shift in p && IndexOf(shifts, a.shift) == IndexOf(p, a.shift) < m
    {
      DayAssignmentsMember(nurses, d, p, v, a);
      IndexOfPrefix(shifts, m, a.shift);
    }
    IndexOfLast(shifts);
    forall i, j | 0 <= i < j < |l|
      ensures Precedes([d], shifts, nurses, l[i], l[j])
    {
      if j < |lp| {
        assert l[i] == lp[i] && l[j] == lp[j];
        assert Precedes([d], p, nurses, lp[i], lp[j]);
      } else if i >= |lp| {
        assert l[i] == ls[i - |lp|] && l[j] == ls[j - |lp|];
        assert Precedes([d], [s], nurses, ls[i - |lp|], ls[j - |lp|]);
      } else {
        assert l[i] == lp[i] && l[i] in lp;
        assert l[j] == ls[j - |lp|] && l[j] in ls;
      }
    }
  }

  /** With no repeated labels, the assignment list is strictly ordered by day position,
      then shift position, then nurse position. */
  lemma {:induction false} AssignmentsOrdered(nurses: seq<Nurse>, days: seq<Day>, shifts: seq<Shift>, v: Values)
    requires NoDup(nurses) && NoDup(days) && NoDup(shifts)
    ensures Listed(days, shifts, nurses, Assignments(nurses, days, shifts, v))
    ensures Ordered(days, shifts, nurses, Assignments(nurses, days, shifts, v))
  {
    var l := Assignments(nurses, days, shifts, v);
    forall a | a in l
      ensures a.day in days && a.shift in shifts && a.nurse in nurses
    {
      AssignmentsMember(nurses, days, shifts, v, a);
    }
    if days != [] {
      var p := days[..|days| - 1];
      AssignmentsOrdered(nurses, p, shifts, v);
      AssignmentsOrderedStep(nurses, days, shifts, v);
    }
  }

  /** The last day's assignments follow, in order, the ordered assignments of the days
      before it. */
  lemma AssignmentsOrderedStep(nurses: seq<Nurse>, days: seq<Day>, shifts: seq<Shift>, v: Values)
    requires NoDup(nurses) && NoDup(days) && NoDup(shifts) && days != []
    requires Listed(days, shifts, nurses, Assignments(nurses, days, shifts, v))
    requires var p := days[..|days| - 1];
             Listed(p, shifts, nurses, Assignments(nurses, p, shifts, v)) &&
             Ordered(p, shifts, nurses, Assignments(nurses, p, shifts, v))
    ensures Ordered(days, shifts, nurses, Assignments(nurses, days, shifts, v))
  {
    var l := Assignments(nurses, days, shifts, v);
    var m := |days| - 1;
    var p := days[..m];
    var d := days[m];
    DayAssignmentsOrdered(nurses, d, shifts, v);
    var lp := Assignments(nurses, p, shifts, v);
    var ld := DayAssignments(nurses, d, shifts, v);
    assert l == lp + ld;
    forall a | a in lp
      ensures a.day in p && IndexOf(days, a.day) == IndexOf(p, a.day) < m
    {
      AssignmentsMember(nurses, p, shifts, v, a);
      IndexOfPrefix(days, m, a.day);
    }
    IndexOfLast(days);
    forall i, j | 0 <= i < j < |l|
      ensures Precedes(days, shifts, nurses, l[i], l[j])
    {
      if j < |lp| {
        assert l[i] == lp[i] && l[j] == lp[j];
        assert Precedes(p, shifts, nurses, lp[i], lp[j]);
      } else if i >= |lp| {
        assert l[i] == ld[i - |lp|] && l[j] == ld[j - |lp|];
        assert Precedes([d], shifts, nurses, ld[i - |lp|], ld[j - |lp|]);
      } else {
        assert l[i] == lp[i] && l[i] in lp;
        assert l[j] == ld[j - |lp|] && l[j] in ld;
      }
    }
  }

  // ---------------------------------------------------------------------------------------
  // Per-nurse statistics against the assignment list

  /** Number of entries of the list that belong to nurse n. */
  function Count(l: seq<Assignment>, n: Nurse): nat {
    |Filter(l, (a: Assignment) => a.nurse == n)|
  }

  lemma CountConcat(a: seq<Assignment>, b: seq<Assignment>, n: Nurse)
    ensures Count(a + b, n) == Count(a, n) + Count(b, n)
  {
    FilterConcat(a, b, (x: Assignment) => x.nurse == n);
  }

  lemma {:induction false} SlotCount(nurses: seq<Nurse>, d: Day, s: Shift, v: Values, n: Nurse)
    requires NoDup(nurses)
    requires n in nurses ==> 0 <= v.x(n, d, s) <= 1
    ensures Count(SlotAssignments(nurses, d, s, v), n) == if n in nurses then v.x(n, d, s) else 0
  {
    if nurses != [] {
      var p := nurses[..|nurses| - 1];
      var m := nurses[|nurses| - 1];
      assert forall k :: k in nurses <==> k in p || k == m;
      SlotCount(p, d, s, v, n);
      var tail := if v.x(m, d, s) == 1 then [Assignment(d, s, m)] else [];
      CountConcat(SlotAssignments(p, d, s, v), tail, n);
      if tail != [] {
        assert tail[..0] == [];
      }
    }
  }

  lemma {:induction false} DayCount(nurses: seq<Nurse>, d: Day, shifts: seq<Shift>, v: Values, n: Nurse)
    requires NoDup(nurses) && n in nurses
    requires forall s :: s in shifts ==> 0 <= v.x(n, d, s) <= 1
    ensures Count(DayAssignments(nurses, d, shifts, v), n) == DayLoad(shifts, v, n, d)
  {
    if shifts != [] {
      var p := shifts[..|shifts| - 1];
      DayCount(nurses, d, p, v, n);
      SlotCount(nurses, d, shifts[|shifts| - 1], v, n);
      CountConcat(DayAssignments(nurses, d, p, v), SlotAssignments(nurses, d, shifts[|shifts| - 1], v), n);
    }
  }

  /** With no repeated nurse and binary x, a nurse's `assigned_shifts` statistic is the number
      of assignments listed for that nurse. */
  lemma {:induction false} AssignedShiftsCount(nurses: seq<Nurse>, days: seq<Day>, shifts: seq<Shift>, v: Values, n: Nurse)
    requires NoDup(nurses) && n in nurses
    requires forall d, s :: d in days && s in shifts ==> 0 <= v.x(n, d, s) <= 1
    ensures Count(Assignments(nurses, days, shifts, v), n) == Load(days, shifts, v, n)
  {
    if days != [] {
      var p := days[..|days| - 1];
      var d := days[|days| - 1];
      AssignedShiftsCount(nurses, p, shifts, v, n);
      DayCount(nurses, d, shifts, v, n);
      CountConcat(Assignments(nurses, p, shifts, v), DayAssignments(nurses, d, shifts, v), n);
    }
  }

  /** For a solved, accepted schedule over a roster without repeated names, every nurse's
      statistics entry counts exactly that nurse's listed assignments, never exceeds one
      shift per day, and its overtime covers any excess over the nurse's maximum. */
  lemma DecodedStats(req: SolveRequest, iso: IsoCalendar, status: Status, v: Values, i: nat)
    requires status.Solved() && Accepted(req, iso, v)
    requires NoDup(req.nurses) && i < |req.nurses|
    ensures var r := Decoded(req, status, v);
            var st := r.nurseStats[i];
            st.nurse == req.nurses[i] &&
            st.assignedShifts == Count(r.assignments, req.nurses[i]) &&
            0 <= st.assignedShifts <= |req.days| &&
            st.assignedShifts - st.overtime <= MaxBound(req, req.nurses[i]) &&
            st.assignedShifts >= MinBound(req, req.nurses[i])
  {
    var n := req.nurses[i];
    AssignedShiftsCount(req.nurses, req.days, req.shifts, v, n);
    LoadAtMostDays(req, iso, v, n);
  }

  // ---------------------------------------------------------------------------------------
  // The decoder loops and the endpoint

  /** The three nested loops that collect the assignments. */
  method DecodeAssignments(nurses: seq<Nurse>, days: seq<Day>, shifts: seq<Shift>, v: Values) returns (out: seq<Assignment>)
    ensures out == Assignments(nurses, days, shifts, v)
  {
    out := [];
    for i := 0 to |days|
      invariant out == Assignments(nurses, days[..i], shifts, v)
    {
      var d := days[i];
      var dayOut := [];
      for j := 0 to |shifts|
        invariant dayOut == DayAssignments(nurses, d, shifts[..j], v)
      {
        var s := shifts[j];
        var slotOut := [];
        for k := 0 to |nurses|
          invariant slotOut == SlotAssignments(nurses[..k], d, s, v)
        {
          assert nurses[..k + 1][..k] == nurses[..k];
          if v.x(nurses[k], d, s) == 1 {
            slotOut := slotOut + [Assignment(d, s, nurses[k])];
          }
        }
        assert nurses[..|nurses|] == nurses;
        assert shifts[..j + 1][..j] == shifts[..j];
        dayOut := dayOut + slotOut;
      }
      assert shifts[..|shifts|] == shifts;
      assert days[..i + 1][..i] == days[..i];
      out := out + dayOut;
    }
    assert days[..|days|] == days;
  }

  /** The two nested loops that collect the understaffed pairs. */
  method DecodeShortfalls(days: seq<Day>, shifts: seq<Shift>, v: Values) returns (out: seq<UnderstaffItem>)
    ensures out == Shortfalls(days, shifts, v)
  {
    out := [];
    for i := 0 to |days|
      invariant out == Shortfalls(days[..i], shifts, v)
    {
      var d := days[i];
      var dayOut := [];
      for j := 0 to |shifts|
        invariant dayOut == DayShortfalls(d, shifts[..j], v)
      {
        assert shifts[..j + 1][..j] == shifts[..j];
        var miss := v.under(d, shifts[j]);
        if miss != 0 {
          dayOut := dayOut + [UnderstaffItem(d, shifts[j], miss)];
        }
      }
      assert shifts[..|shifts|] == shifts;
      assert days[..i + 1][..i] == days[..i];
      out := out + dayOut;
    }
    assert days[..|days|] == days;
  }

  /** The loop that appends one statistics entry per nurse. */
  method DecodeStats(nurses: seq<Nurse>, days: seq<Day>, shifts: seq<Shift>, v: Values, night: Option<Shift>)
    returns (out: seq<NurseStats>)
    ensures out == Stats(nurses, days, shifts, v, night)
  {
    out := [];
    for i := 0 to |nurses|
      invariant out == Stats(nurses[..i], days, shifts, v, night)
    {
      out := out + [StatsFor(nurses[i], days, shifts, v, night)];
    }
    assert nurses[..|nurses|] == nurses;
  }

  /** The `/solve` endpoint over a validated request, with the solver as an oracle that
      answered `status` and `v`. A day the week index map does not cover raises the KeyError
      of the first such day; a solved model yields the decoded schedule and the objective's
      value; any other status yields INFEASIBLE with empty lists. */
  method Solve(req: SolveRequest, iso: IsoCalendar, status: Status, v: Values) returns (r: Result<SolveResponse, Day>)
    requires DemandComplete(req)
    ensures r.Err? <==> !Indexed(req.days, WeekIdx(req, iso))
    ensures r.Err? ==> r.error in req.days && r.error !in WeekIdx(req, iso)
    ensures r.Ok? && status.Solved() ==> r.value == Decoded(req, status, v)
    ensures r.Ok? && !status.Solved() ==> r.value == NoSchedule
  {
    var widx := WeekIndexMap(req.days, req.weekIndexByDay, iso);
    var weeks := GroupByWeek(req.days, widx);
    if weeks.Err? {
      return Err(weeks.error);
    }
    var terms := BuildObjective(req);
    if !status.Solved() {
      return Ok(NoSchedule);
    }
    var assignments := DecodeAssignments(req.nurses, req.days, req.shifts, v);
    var understaffed := DecodeShortfalls(req.days, req.shifts, v);
    var stats := DecodeStats(req.nurses, req.days, req.shifts, v, NightShift(req.shifts));
    var name := if status == Optimal then "OPTIMAL" else "FEASIBLE";
    return Ok(SolveResponse(name, Some(EvalTerms(terms, v)), assignments, understaffed, stats));
  }
}

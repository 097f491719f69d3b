/**
 * The weekly study planner: a plan of subjects and scheduled sessions, the
 * "complete session" update, and the derived views the dashboard shows
 * (strength and priority colours, the priority list, the performance ranking,
 * the completed-session count and the badge percentage).
 *
 * Dates (`lastStudied`, a session's `date`) only feed calendar formatting and
 * the "today" filter, which are not part of this model, so they are dropped.
 */
module StudyFlow {

  datatype SessionKind = Review | New | Practice

  /** A subject; `strength` is a 0-100 proficiency score, `priority` a label. */
  datatype Subject = Subject(
    name: string,
    strength: int,
    timeSpent: int,
    targetTime: int,
    priority: string)

  datatype Session = Session(
    id: string,
    subject: string,
    duration: int,
    completed: bool,
    kind: SessionKind)

  datatype WeeklyPlan = WeeklyPlan(
    week: string,
    subjects: seq<Subject>,
    sessions: seq<Session>,
    totalTargetTime: int,
    completedTime: int)

  // ---------------------------------------------------------------------
  // Seed data
  // ---------------------------------------------------------------------

  /**
   * The plan the widget mounts with; `today` is the locale date string. Its
   * badge shows 47%; session "2" is the pending 45-minute one, and completing
   * it (see `CompletePendingSession`) adds one completed session and takes
   * the badge to 52%.
   */
  function SeedPlan(today: string): (plan: WeeklyPlan)
    ensures plan.week == "Week of " + today
    ensures |plan.subjects| == 4 && |plan.sessions| == 3
    ensures ProgressPercent(plan.completedTime, plan.totalTargetTime) == Whole(47)
    ensures CompletedCount(plan.sessions) == 1
    ensures UniqueIds(plan.sessions)
    ensures plan.sessions[1].id == "2" && !plan.sessions[1].completed && plan.sessions[1].duration == 45
    ensures ProgressPercent(plan.completedTime + plan.sessions[1].duration, plan.totalTargetTime) == Whole(52)
  {
    var plan := WeeklyPlan(
      "Week of " + today,
      [ Subject("Mathematics", 45, 120, 300, "high"),
        Subject("Computer Science", 75, 180, 240, "medium"),
        Subject("Biology", 85, 90, 180, "low"),
        Subject("Physics", 60, 60, 240, "high") ],
      [ Session("1", "Mathematics", 60, true, Review),
        Session("2", "Computer Science", 45, false, New),
        Session("3", "Physics", 90, false, Practice) ],
      960,
      450);
    assert plan.sessions[1..][1..] == [plan.sessions[2]];
    plan
  }

  // ---------------------------------------------------------------------
  // Looking sessions up by id
  // ---------------------------------------------------------------------

  predicate HasSession(sessions: seq<Session>, id: string)
  {
    exists k :: 0 <= k < |sessions| && sessions[k].id == id
  }

  /** `k` is the position `Array.find` stops at when looking for `id`. */
  predicate IsFirstWithId(sessions: seq<Session>, id: string, k: int)
  {
    && 0 <= k < |sessions|
    && sessions[k].id == id
    && forall j :: 0 <= j < k ==> sessions[j].id != id
  }

  predicate UniqueIds(sessions: seq<Session>)
  {
    forall i, j :: 0 <= i < j < |sessions| ==> sessions[i].id != sessions[j].id
  }

  /**
   * The duration of the first session with the given id, or 0 when there is
   * none (`find(...)?.duration || 0`).
   */
  function FindDuration(sessions: seq<Session>, id: string): (d: int)
    ensures !HasSession(sessions, id) ==> d == 0
    ensures forall k :: IsFirstWithId(sessions, id, k) ==> d == sessions[k].duration
  {
    if sessions == [] then 0
    else if sessions[0].id == id then sessions[0].duration
    else
      var d := FindDuration(sessions[1..], id);
      assert forall k :: IsFirstWithId(sessions, id, k) ==> IsFirstWithId(sessions[1..], id, k - 1);
      assert HasSession(sessions[1..], id) ==> HasSession(sessions, id);
      d
  }

  /** Every session with the given id is marked completed; nothing else changes. */
  function MarkCompleted(sessions: seq<Session>, id: string): (r: seq<Session>)
    ensures |r| == |sessions|
    ensures forall i :: 0 <= i < |sessions| ==>
      r[i] == sessions[i].(completed := sessions[i].completed || sessions[i].id == id)
  {
    if sessions == [] then []
    else
      var s := sessions[0];
      [s.(completed := s.completed || s.id == id)] + MarkCompleted(sessions[1..], id)
  }

  // ---------------------------------------------------------------------
  // Completing a session
  // ---------------------------------------------------------------------

  /**
   * `completeSession`: every session carrying `id` becomes completed and the
   * duration of the first such session is added to `completedTime`. There is
   * no check that the session was still pending.
   */
  function CompleteSession(plan: WeeklyPlan, id: string): (next: WeeklyPlan)
    ensures next.week == plan.week && next.subjects == plan.subjects
    ensures next.totalTargetTime == plan.totalTargetTime
    ensures |next.sessions| == |plan.sessions|
    ensures forall i :: 0 <= i < |plan.sessions| ==>
      next.sessions[i].id == plan.sessions[i].id
      && next.sessions[i].subject == plan.sessions[i].subject
      && next.sessions[i].duration == plan.sessions[i].duration
      && next.sessions[i].kind == plan.sessions[i].kind
      && (next.sessions[i].completed <==> plan.sessions[i].completed || plan.sessions[i].id == id)
    ensures !HasSession(plan.sessions, id) ==> next == plan
    ensures forall k :: IsFirstWithId(plan.sessions, id, k) ==>
      next.completedTime == plan.completedTime + plan.sessions[k].duration
  {
    var next := plan.(sessions := MarkCompleted(plan.sessions, id),
                      completedTime := plan.completedTime + FindDuration(plan.sessions, id));
    assert !HasSession(plan.sessions, id) ==> next.sessions == plan.sessions;
    next
  }

  /** The lookup only looks at ids and durations, so marking sessions does not change it. */
  lemma {:induction false} FindDurationIgnoresCompletion(a: seq<Session>, b: seq<Session>, id: string)
    requires |a| == |b|
    requires forall i :: 0 <= i < |a| ==> a[i].id == b[i].id && a[i].duration == b[i].duration
    ensures FindDuration(a, id) == FindDuration(b, id)
  {
    if a != [] && a[0].id != id {
      FindDurationIgnoresCompletion(a[1..], b[1..], id);
    }
  }

  /**
   * Completing the same session twice adds its duration twice: the unguarded
   * behaviour of `completeSession`. The sessions themselves end as after one call.
   */
  lemma CompleteTwiceCountsTwice(plan: WeeklyPlan, id: string)
    ensures CompleteSession(CompleteSession(plan, id), id).completedTime
      == plan.completedTime + 2 * FindDuration(plan.sessions, id)
    ensures CompleteSession(CompleteSession(plan, id), id).sessions
      == CompleteSession(plan, id).sessions
  {
    var once := CompleteSession(plan, id);
    FindDurationIgnoresCompletion(once.sessions, plan.sessions, id);
  }

  /**
   * With unique ids, completing a pending session (the only kind the dashboard
   * offers a button for) adds exactly one to the completed count and its
   * duration to the total.
   */
  lemma CompletePendingSession(plan: WeeklyPlan, k: int)
    requires UniqueIds(plan.sessions)
    requires 0 <= k < |plan.sessions| && !plan.sessions[k].completed
    ensures CompletedCount(CompleteSession(plan, plan.sessions[k].id).sessions)
      == CompletedCount(plan.sessions) + 1
    ensures CompleteSession(plan, plan.sessions[k].id).completedTime
      == plan.completedTime + plan.sessions[k].duration
  {
    var id := plan.sessions[k].id;
    assert IsFirstWithId(plan.sessions, id, k);
    MarkCompletedCount(plan.sessions, k);
  }

  lemma {:induction false} MarkCompletedCount(sessions: seq<Session>, k: int)
    requires UniqueIds(sessions)
    requires 0 <= k < |sessions| && !sessions[k].completed
    ensures CompletedCount(MarkCompleted(sessions, sessions[k].id)) == CompletedCount(sessions) + 1
  {
    var id := sessions[k].id;
    var marked := MarkCompleted(sessions, id);
    assert marked[1..] == MarkCompleted(sessions[1..], id);
    if k == 0 {
      assert MarkCompleted(sessions[1..], id) == sessions[1..];
    } else {
      MarkCompletedCount(sessions[1..], k - 1);
    }
  }

  // ---------------------------------------------------------------------
  // Derived views
  // ---------------------------------------------------------------------

  /** The positions of the completed sessions. */
  ghost function CompletedPositions(sessions: seq<Session>): set<int>
  {
    set i | 0 <= i < |sessions| && sessions[i].completed
  }

  /** Number of completed sessions (the "Sessions Completed" figure). */
  function CompletedCount(sessions: seq<Session>): (n: nat)
    ensures n <= |sessions|
    ensures n == 0 <==> forall i :: 0 <= i < |sessions| ==> !sessions[i].completed
    ensures n == |sessions| <==> forall i :: 0 <= i < |sessions| ==> sessions[i].completed
  {
    if sessions == [] then 0
    else
      var rest := CompletedCount(sessions[1..]);
      assert forall i :: 1 <= i < |sessions| ==> sessions[i] == sessions[1..][i - 1];
      (if sessions[0].completed then 1 else 0) + rest
  }

  /** Counting distributes over concatenation. */
  lemma {:induction false} CompletedCountAppend(a: seq<Session>, b: seq<Session>)
    ensures CompletedCount(a + b) == CompletedCount(a) + CompletedCount(b)
  {
    if a == [] {
      assert a + b == b;
    } else {
      assert (a + b)[1..] == a[1..] + b;
      CompletedCountAppend(a[1..], b);
    }
  }

  /** The count is the number of positions holding a completed session. */
  lemma {:induction false} CompletedCountIsSize(sessions: seq<Session>)
    ensures CompletedCount(sessions) == |CompletedPositions(sessions)|
  {
    if sessions != [] {
      var n := |sessions| - 1;
      var init := sessions[..n];
      CompletedCountIsSize(init);
      assert sessions == init + [sessions[n]];
      CompletedCountAppend(init, [sessions[n]]);
      assert [sessions[n]][1..] == [];
      var extra: set<int> := if sessions[n].completed then {n} else {};
      forall i | 0 <= i < n
        ensures sessions[i] == init[i]
      {
      }
      assert CompletedPositions(sessions) == CompletedPositions(init) + extra;
      assert n !in CompletedPositions(init);
      assert |CompletedPositions(sessions)| == |CompletedPositions(init)| + |extra|;
      assert CompletedCount([sessions[n]]) == |extra|;
    }
  }

  /** Text colour for a strength score: green from 80, yellow from 60, red below. */
  function StrengthColor(strength: int): (c: string)
    ensures c == "text-green-600" <==> strength >= 80
    ensures c == "text-yellow-600" <==> 60 <= strength < 80
    ensures c == "text-red-600" <==> strength < 60
  {
    if strength >= 80 then "text-green-600"
    else if strength >= 60 then "text-yellow-600"
    else "text-red-600"
  }

  /** Bar colour for a strength score, on the same three bands. */
  function StrengthBg(strength: int): (c: string)
    ensures c == "bg-green-500" <==> strength >= 80
    ensures c == "bg-yellow-500" <==> 60 <= strength < 80
    ensures c == "bg-red-500" <==> strength < 60
  {
    if strength >= 80 then "bg-green-500"
    else if strength >= 60 then "bg-yellow-500"
    else "bg-red-500"
  }

  /** Dot colour for a priority label; an unknown label is gray. */
  function PriorityColor(priority: string): (c: string)
    ensures priority == "high" <==> c == "bg-red-500"
    ensures priority == "medium" <==> c == "bg-yellow-500"
    ensures priority == "low" <==> c == "bg-green-500"
    ensures priority !in {"high", "medium", "low"} <==> c == "bg-gray-500"
  {
    match priority
    case "high" => "bg-red-500"
    case "medium" => "bg-yellow-500"
    case "low" => "bg-green-500"
    case _ => "bg-gray-500"
  }

  /**
   * A subject the priority list shows: exactly one whose priority dot or
   * strength text is red.
   */
  predicate NeedsAttention(s: Subject): (b: bool)
    ensures b <==> PriorityColor(s.priority) == "bg-red-500" || StrengthColor(s.strength) == "text-red-600"
  {
    s.priority == "high" || s.strength < 60
  }

  /** The "Priority Subjects" list: high priority or weak subjects, in plan order. */
  function PrioritySubjects(subjects: seq<Subject>): (r: seq<Subject>)
    ensures |r| <= |subjects|
    ensures forall s :: s in r <==> s in subjects && NeedsAttention(s)
  {
    if subjects == [] then []
    else
      var rest := PrioritySubjects(subjects[1..]);
      assert forall s :: s in subjects <==> s == subjects[0] || s in subjects[1..];
      (if NeedsAttention(subjects[0]) then [subjects[0]] else []) + rest
  }

  /** The filter keeps order: it distributes over concatenation. */
  lemma {:induction false} PrioritySubjectsAppend(a: seq<Subject>, b: seq<Subject>)
    ensures PrioritySubjects(a + b) == PrioritySubjects(a) + PrioritySubjects(b)
  {
    if a == [] {
      assert a + b == b;
    } else {
      assert (a + b)[0] == a[0];
      assert (a + b)[1..] == a[1..] + b;
      PrioritySubjectsAppend(a[1..], b);
    }
  }

  /** A list whose every subject needs attention is shown whole and unchanged. */
  lemma {:induction false} PrioritySubjectsKeepsAll(subjects: seq<Subject>)
    requires forall i :: 0 <= i < |subjects| ==> NeedsAttention(subjects[i])
    ensures PrioritySubjects(subjects) == subjects
  {
    if subjects != [] {
      PrioritySubjectsKeepsAll(subjects[1..]);
    }
  }

  // ---------------------------------------------------------------------
  // The badge percentage
  // ---------------------------------------------------------------------

  /** What `Math.round(completed / total * 100)` evaluates to. */
  datatype Percent = Whole(value: int) | PositiveInfinity | NegativeInfinity | NotANumber

  /**
   * The badge percentage: `100 * completed / total` rounded to the nearest
   * integer, halves upwards; dividing by zero yields an infinity or NaN.
   * Nothing clamps the value to 0..100.
   */
  function ProgressPercent(completed: int, total: int): (p: Percent)
    ensures total > 0 ==>
              p.Whole? && 2 * total * p.value - total <= 200 * completed < 2 * total * p.value + total
    ensures total < 0 ==>
              p.Whole? && 2 * total * p.value + total < 200 * completed <= 2 * total * p.value - total
    ensures total == 0 ==> p == (if completed > 0 then PositiveInfinity
                                 else if completed < 0 then NegativeInfinity
                                 else NotANumber)
  {
    if total > 0 then
      var v := (200 * completed + total) / (2 * total);
      DivBounds(200 * completed + total, 2 * total);
      Whole(v)
    else if total < 0 then
      var v := (-200 * completed - total) / (-2 * total);
      DivBounds(-200 * completed - total, -2 * total);
      Whole(v)
    else if completed > 0 then PositiveInfinity
    else if completed < 0 then NegativeInfinity
    else NotANumber
  }

  lemma DivBounds(n: int, d: int)
    requires d > 0
    ensures d * (n / d) <= n < d * (n / d) + d
  {
  }

  /** Progress grows with completed time, and reaches 100 once the target is met. */
  lemma ProgressPercentMonotone(c1: int, c2: int, total: int)
    requires total > 0 && c1 <= c2
    ensures ProgressPercent(c1, total).value <= ProgressPercent(c2, total).value
    ensures c2 >= total ==> ProgressPercent(c2, total).value >= 100
  {
    var v1, v2 := ProgressPercent(c1, total).value, ProgressPercent(c2, total).value;
    if v1 > v2 {
      assert 2 * total * v2 + 2 * total <= 2 * total * v1 by {
        MulMono(2 * total, v2 + 1, v1);
      }
      assert false;
    }
    if c2 >= total && v2 < 100 {
      MulMono(2 * total, v2, 99);
      assert false;
    }
  }

  lemma MulMono(k: int, a: int, b: int)
    requires k > 0 && a <= b
    ensures k * a <= k * b
  {
  }

  // ---------------------------------------------------------------------
  // The performance ranking (sorts the plan's subject array in place)
  // ---------------------------------------------------------------------

  predicate SortedByStrength(s: seq<Subject>)
  {
    forall i, j :: 0 <= i < j < |s| ==> s[i].strength <= s[j].strength
  }

  /**
   * `subjects.sort((a, b) => a.strength - b.strength)`: afterwards the array
   * holds the same subjects, weakest first.
   */
  method SortByStrength(a: array<Subject>)
    modifies a
    ensures SortedByStrength(a[..])
    ensures multiset(a[..]) == multiset(old(a[..]))
  {
    var i := 0;
    while i < a.Length
      invariant 0 <= i <= a.Length
      invariant SortedByStrength(a[..i])
      invariant multiset(a[..]) == multiset(old(a[..]))
    {
      InsertAt(a, i);
      i := i + 1;
    }
  }

  /**
   * One insertion step: moves `a[i]` left into the sorted prefix `a[..i]`,
   * rearranging only `a[..i + 1]`.
   */
  method InsertAt(a: array<Subject>, i: int)
    requires 0 <= i < a.Length && SortedByStrength(a[..i])
    modifies a
    ensures SortedByStrength(a[..i + 1])
    ensures a[i + 1..] == old(a[i + 1..])
    ensures multiset(a[..]) == multiset(old(a[..]))
  {
    var j := i;
    while 0 < j && a[j].strength < a[j - 1].strength
      invariant 0 <= j <= i
      invariant forall p, q :: 0 <= p < q <= i && q != j ==> a[p].strength <= a[q].strength
      invariant forall q :: j < q <= i ==> a[j].strength <= a[q].strength
      invariant forall k :: i < k < a.Length ==> a[k] == old(a[k])
      invariant multiset(a[..]) == multiset(old(a[..]))
    {
      SwapDown(a, j);
      j := j - 1;
    }
  }

  /** Exchanges `a[j - 1]` and `a[j]`. */
  method SwapDown(a: array<Subject>, j: int)
    requires 0 < j < a.Length
    modifies a
    ensures a[..] == old(a[..])[j - 1 := old(a[j])][j := old(a[j - 1])]
    ensures multiset(a[..]) == multiset(old(a[..]))
  {
    a[j - 1], a[j] := a[j], a[j - 1];
  }
}

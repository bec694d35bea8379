/** Course progress and when an enrollment counts as completed. */
module Enrollment {
  import opened Decimal
  import opened Domain

  datatype CourseModule = CourseModule(lessonIds: seq<string>, quizId: Option<string>)
  type Course = seq<CourseModule>

  datatype Unit = Lesson(id: string) | Quiz(id: string)

  datatype Progress = Progress(totalUnits: nat, doneUnits: nat, percent: int, completed: bool)

  /** `(done / total) * 100` as floating point gives it. */
  type Ratio = (nat, nat) -> real

  /** `x` is 100 d / t to a thousandth. */
  ghost predicate Close(x: real, d: nat, t: nat) {
    (x - 0.001) * t as real <= 100.0 * d as real <= (x + 0.001) * t as real
  }

  /** What division and product with rounding keep: the order, the whole, and the value to a thousandth. */
  ghost predicate GoodRatio(ratio: Ratio) {
    && (forall d: nat, e: nat, t: nat :: d <= e <= t && t > 0 ==> ratio(d, t) <= ratio(e, t))
    && (forall t: nat :: t > 0 ==> ratio(t, t) == 100.0)
    && (forall d: nat, t: nat :: d <= t && t > 0 ==> Close(ratio(d, t), d, t))
  }

  function Exact(d: nat, t: nat): real {
    if t == 0 then 0.0 else 100.0 * d as real / t as real
  }

  lemma ExactOrder(d: nat, e: nat, t: nat)
    requires d <= e && t > 0
    ensures Exact(d, t) <= Exact(e, t)
  {
    assert Exact(e, t) - Exact(d, t) == 100.0 * (e - d) as real / t as real;
  }

  lemma Spread(a: real, b: real, t: real)
    ensures (a + b) * t == a * t + b * t
    ensures a >= 0.0 && t >= 0.0 ==> a * t >= 0.0
  {}

  lemma ExactClose(d: nat, t: nat)
    requires t > 0
    ensures Close(Exact(d, t), d, t)
  {
    var x := Exact(d, t);
    assert x * t as real == 100.0 * d as real;
    Spread(x, -0.001, t as real);
    Spread(x, 0.001, t as real);
  }

  /** Exact division is one such ratio. */
  lemma ExactIsGood()
    ensures GoodRatio(Exact)
  {
    hide Close;
    forall d: nat, e: nat, t: nat | d <= e <= t && t > 0
      ensures Exact(d, t) <= Exact(e, t)
    {
      ExactOrder(d, e, t);
    }
    forall d: nat, t: nat | d <= t && t > 0
      ensures Close(Exact(d, t), d, t)
    {
      ExactClose(d, t);
    }
  }

  /** `Math.round`. */
  function Round(x: real): int {
    (x + 0.5).Floor
  }

  // ----- Units -----

  function Lessons(ids: seq<string>): seq<Unit> {
    if ids == [] then [] else Lessons(ids[..|ids| - 1]) + [Lesson(ids[|ids| - 1])]
  }

  function UnitsOf(m: CourseModule): seq<Unit> {
    Lessons(m.lessonIds) + if m.quizId.Some? && m.quizId.value != "" then [Quiz(m.quizId.value)] else []
  }

  function Units(course: Course): seq<Unit> {
    if course == [] then [] else Units(course[..|course| - 1]) + UnitsOf(course[|course| - 1])
  }

  predicate IsDone(u: Unit, lessons: set<string>, quizzes: set<string>) {
    match u
    case Lesson(id) => id in lessons
    case Quiz(id) => id in quizzes
  }

  function Done(units: seq<Unit>, lessons: set<string>, quizzes: set<string>): (n: nat)
    ensures n <= |units|
  {
    if units == [] then 0
    else
      Done(units[..|units| - 1], lessons, quizzes) + if IsDone(units[|units| - 1], lessons, quizzes) then 1 else 0
  }

  function ProgressOf(ratio: Ratio, course: Course, lessons: set<string>, quizzes: set<string>): Progress {
    var units := Units(course);
    var done := Done(units, lessons, quizzes);
    Progress(|units|, done, if units == [] then 0 else Round(ratio(done, |units|)), units != [] && done == |units|)
  }

  lemma DoneSnoc(units: seq<Unit>, u: Unit, lessons: set<string>, quizzes: set<string>)
    ensures Done(units + [u], lessons, quizzes)
            == Done(units, lessons, quizzes) + if IsDone(u, lessons, quizzes) then 1 else 0
  {
    assert (units + [u])[..|units|] == units;
  }

  lemma NothingDone(lessons: set<string>, quizzes: set<string>)
    ensures Done([], lessons, quizzes) == 0
  {}

  method CourseProgress(ratio: Ratio, course: Course, completedLessonIds: seq<string>, passedQuizIds: seq<string>)
    returns (p: Progress)
    ensures p == ProgressOf(ratio, course, set id | id in completedLessonIds, set id | id in passedQuizIds)
  {
    var lessons := set id | id in completedLessonIds;
    var quizzes := set id | id in passedQuizIds;
    var total, done := 0, 0;
    var i := 0;
    ghost var seen: seq<Unit> := [];
    hide Done;
    NothingDone(lessons, quizzes);
    while i < |course|
      invariant i <= |course| && seen == Units(course[..i])
      invariant total == |seen| && done == Done(seen, lessons, quizzes)
    {
      var m := course[i];
      ghost var before := seen;
      var j := 0;
      while j < |m.lessonIds|
        invariant j <= |m.lessonIds|
        invariant seen == before + Lessons(m.lessonIds[..j])
        invariant total == |seen| && done == Done(seen, lessons, quizzes)
      {
        DoneSnoc(seen, Lesson(m.lessonIds[j]), lessons, quizzes);
        assert m.lessonIds[..j + 1][..j] == m.lessonIds[..j];
        total := total + 1;
        if m.lessonIds[j] in lessons { done := done + 1; }
        seen := seen + [Lesson(m.lessonIds[j])];
        j := j + 1;
      }
      assert m.lessonIds[..j] == m.lessonIds;
      if m.quizId.Some? && m.quizId.value != "" {
        DoneSnoc(seen, Quiz(m.quizId.value), lessons, quizzes);
        total := total + 1;
        if m.quizId.value in quizzes { done := done + 1; }
        seen := seen + [Quiz(m.quizId.value)];
      }
      assert seen == before + UnitsOf(m);
      assert course[..i + 1][..i] == course[..i];
      i := i + 1;
    }
    assert course[..i] == course;
    p := Progress(total, done, if total == 0 then 0 else Round(ratio(done, total)), total > 0 && done == total);
  }

  // ----- What progress counts -----

  lemma {:induction false} DoneAdds(a: seq<Unit>, b: seq<Unit>, lessons: set<string>, quizzes: set<string>)
    ensures Done(a + b, lessons, quizzes) == Done(a, lessons, quizzes) + Done(b, lessons, quizzes)
    decreases |b|
  {
    if b == [] {
      assert a + b == a;
    } else {
      var init, last := b[..|b| - 1], b[|b| - 1];
      DoneAdds(a, init, lessons, quizzes);
      assert a + b == (a + init) + [last];
      DoneSnoc(a + init, last, lessons, quizzes);
    }
  }

  lemma {:induction false} UnitsAdd(a: Course, b: Course)
    ensures Units(a + b) == Units(a) + Units(b)
    decreases |b|
  {
    if b == [] {
      assert a + b == a;
    } else {
      hide UnitsOf;
      var init, last := b[..|b| - 1], b[|b| - 1];
      assert (a + b)[..|a + b| - 1] == a + init;
      UnitsAdd(a, init);
      assert (Units(a) + Units(init)) + UnitsOf(last) == Units(a) + (Units(init) + UnitsOf(last));
    }
  }

  /** The units of modules one after the other add up. */
  lemma ModulesAdd(a: Course, b: Course, lessons: set<string>, quizzes: set<string>)
    ensures |Units(a + b)| == |Units(a)| + |Units(b)|
    ensures Done(Units(a + b), lessons, quizzes)
            == Done(Units(a), lessons, quizzes) + Done(Units(b), lessons, quizzes)
  {
    UnitsAdd(a, b);
    DoneAdds(Units(a), Units(b), lessons, quizzes);
  }

  predicate HasQuiz(m: CourseModule) {
    m.quizId.Some? && m.quizId.value != ""
  }

  /** The places of the lessons that are done. */
  function DonePlaces(ids: seq<string>, lessons: set<string>): set<nat> {
    set i: nat | i < |ids| && ids[i] in lessons
  }

  lemma {:induction false} LessonsCounted(ids: seq<string>, lessons: set<string>, quizzes: set<string>)
    ensures |Lessons(ids)| == |ids| && Done(Lessons(ids), lessons, quizzes) == |DonePlaces(ids, lessons)|
  {
    if ids == [] {
      assert DonePlaces(ids, lessons) == {};
    } else {
      var n := |ids| - 1;
      LessonsCounted(ids[..n], lessons, quizzes);
      DoneSnoc(Lessons(ids[..n]), Lesson(ids[n]), lessons, quizzes);
      DonePlacesSnoc(ids, lessons);
    }
  }

  lemma DonePlacesSnoc(ids: seq<string>, lessons: set<string>)
    requires ids != []
    ensures var n := |ids| - 1;
            |DonePlaces(ids, lessons)| == |DonePlaces(ids[..n], lessons)| + if ids[n] in lessons then 1 else 0
  {
    var n := |ids| - 1;
    var more: set<nat> := if ids[n] in lessons then {n} else {};
    assert DonePlaces(ids, lessons) == DonePlaces(ids[..n], lessons) + more;
  }

  /** A module counts its lessons and its quiz; done are the lessons completed and the quiz if it is passed. */
  lemma ModuleCounts(m: CourseModule, lessons: set<string>, quizzes: set<string>)
    ensures |Units([m])| == |m.lessonIds| + if HasQuiz(m) then 1 else 0
    ensures Done(Units([m]), lessons, quizzes)
            == |DonePlaces(m.lessonIds, lessons)| + if HasQuiz(m) && m.quizId.value in quizzes then 1 else 0
    ensures Units([]) == []
  {
    LessonsCounted(m.lessonIds, lessons, quizzes);
    assert [m][..0] == [];
    assert Units([m]) == UnitsOf(m);
    if HasQuiz(m) {
      DoneSnoc(Lessons(m.lessonIds), Quiz(m.quizId.value), lessons, quizzes);
    } else {
      assert Units([m]) == Lessons(m.lessonIds);
    }
  }

  // ----- What progress says -----

  lemma {:induction false} DoneAll(units: seq<Unit>, lessons: set<string>, quizzes: set<string>)
    ensures Done(units, lessons, quizzes) == |units| <==> forall u :: u in units ==> IsDone(u, lessons, quizzes)
  {
    if units != [] {
      var init, last := units[..|units| - 1], units[|units| - 1];
      DoneAll(init, lessons, quizzes);
      assert forall u :: u in units <==> u in init || u == last;
    }
  }

  lemma {:induction false} DoneGrows(units: seq<Unit>, lessons: set<string>, quizzes: set<string>,
                                     moreLessons: set<string>, moreQuizzes: set<string>)
    requires lessons <= moreLessons && quizzes <= moreQuizzes
    ensures Done(units, lessons, quizzes) <= Done(units, moreLessons, moreQuizzes)
  {
    if units != [] { DoneGrows(units[..|units| - 1], lessons, quizzes, moreLessons, moreQuizzes); }
  }

  /** Completed: the course has units, and every lesson is done and every quiz passed. */
  lemma CompletedMeans(ratio: Ratio, course: Course, lessons: set<string>, quizzes: set<string>)
    ensures ProgressOf(ratio, course, lessons, quizzes).completed
            <==> Units(course) != [] && forall u :: u in Units(course) ==> IsDone(u, lessons, quizzes)
  {
    DoneAll(Units(course), lessons, quizzes);
  }

  /** A completed course shows 100 percent; one that shows 100 and is not completed has at least 200 units. */
  lemma PercentMeans(ratio: Ratio, course: Course, lessons: set<string>, quizzes: set<string>)
    requires GoodRatio(ratio)
    ensures var p := ProgressOf(ratio, course, lessons, quizzes);
            && (p.completed ==> p.percent == 100)
            && (p.percent == 100 && !p.completed ==> p.totalUnits >= 200)
            && 0 <= p.percent <= 100
  {
    hide Close, Units, Done;
    var p := ProgressOf(ratio, course, lessons, quizzes);
    var d, t := p.doneUnits, p.totalUnits;
    if t > 0 {
      var x := ratio(d, t);
      assert x <= ratio(t, t);
      NotNegative(x, d, t);
      if d < t && x >= 99.5 { Nearly(x, d, t); }
    }
  }

  lemma NotNegative(x: real, d: nat, t: nat)
    requires Close(x, d, t) && t > 0
    ensures x >= -0.001
  {
    assert x + 0.001 < 0.0 ==> (x + 0.001) * t as real < 0.0;
  }

  lemma Nearly(x: real, d: nat, t: nat)
    requires Close(x, d, t) && d < t && x >= 99.5
    ensures t >= 200
  {
    Spread(x - 99.5, 99.499, t as real);
    assert (x - 99.5) + 99.499 == x - 0.001;
    assert d as real <= t as real - 1.0;
  }

  // ----- When 100 percent is shown -----

  lemma HundredOf(d: nat, t: nat)
    requires d <= t && t > 0
    ensures Round(Exact(d, t)) == 100 <==> 200 * (t - d) <= t
  {
    var q := Exact(d, t);
    ExactBounds(q, d, t);
    hide Exact;
    assert (200 * (t - d)) as real == 200.0 * t as real - 200.0 * d as real;
  }

  lemma ExactBounds(q: real, d: nat, t: nat)
    requires d <= t && t > 0 && q == Exact(d, t)
    ensures q <= 100.0 && (q < 99.5 <==> 100.0 * d as real < 99.5 * t as real)
  {
    assert q * t as real == 100.0 * d as real;
    Scales(q, 99.5, t as real);
    Scales(100.0, q, t as real);
    assert d as real <= t as real;
  }

  lemma Scales(a: real, b: real, t: real)
    requires t > 0.0
    ensures a < b <==> a * t < b * t
  {
    Spread(b - a, a, t);
    assert (b - a) + a == b;
    assert b - a > 0.0 ==> (b - a) * t > 0.0;
    assert a - b >= 0.0 ==> (a - b) * t >= 0.0;
    Spread(a - b, b, t);
    assert (a - b) + b == a;
  }

  lemma Whole(n: int, u: real, c: int, t: nat)
    requires t > 0 && u * t as real == c as real
    ensures n as real <= u <==> n * t <= c
  {
    Scales(u, n as real, t as real);
    assert (n * t) as real == n as real * t as real;
  }

  lemma RoundNearest(d: nat, t: nat)
    requires t > 0
    ensures var p := Round(Exact(d, t)); (2 * p - 1) * t <= 200 * d < (2 * p + 1) * t
  {
    var q, p := Exact(d, t), Round(Exact(d, t));
    var u := 2.0 * q;
    assert q * t as real == 100.0 * d as real;
    Spread(q, q, t as real);
    assert q + q == u;
    assert u * t as real == (200 * d) as real;
    var m, n := 2 * p - 1, 2 * p + 1;
    assert m as real <= u < n as real;
    Whole(m, u, 200 * d, t);
    Whole(n, u, 200 * d, t);
  }

  /** With exact division the percentage is the whole number nearest to 100 done / total, halves rounded up. */
  lemma PercentNearest(course: Course, lessons: set<string>, quizzes: set<string>)
    ensures var p := ProgressOf(Exact, course, lessons, quizzes);
            var (d, t) := (200 * p.doneUnits, p.totalUnits);
            if t == 0 then p.percent == 0 else (2 * p.percent - 1) * t <= d < (2 * p.percent + 1) * t
  {
    hide Exact, Round;
    var p := ProgressOf(Exact, course, lessons, quizzes);
    if p.totalUnits > 0 { RoundNearest(p.doneUnits, p.totalUnits); }
  }

  /** With exact division a course with units shows 100 percent exactly when at most one unit in 200 is open. */
  lemma HundredExactly(course: Course, lessons: set<string>, quizzes: set<string>)
    ensures var p := ProgressOf(Exact, course, lessons, quizzes);
            p.totalUnits > 0 ==> (p.percent == 100 <==> 200 * (p.totalUnits - p.doneUnits) <= p.totalUnits)
  {
    hide Exact, Round;
    var p := ProgressOf(Exact, course, lessons, quizzes);
    if p.totalUnits > 0 { HundredOf(p.doneUnits, p.totalUnits); }
  }

  lemma CloseBounds(x: real, d: nat, t: nat)
    requires Close(x, d, t) && t > 0
    ensures x < 99.5 ==> 100.0 * d as real < 99.501 * t as real
    ensures x >= 99.5 ==> 99.499 * t as real <= 100.0 * d as real
  {
    Scales(x + 0.001, 99.501, t as real);
    Scales(x - 0.001, 99.499, t as real);
  }

  lemma HundredNear(x: real, d: nat, t: nat)
    requires d <= t && t > 0 && Close(x, d, t) && x <= 100.0
    ensures 100000 * (t - d) <= 499 * t ==> Round(x) == 100
    ensures Round(x) == 100 ==> 100000 * (t - d) <= 501 * t
  {
    CloseBounds(x, d, t);
    hide Close;
    var e := t - d;
    assert d as real == t as real - e as real;
    assert (100000 * e) as real == 100000.0 * e as real && (499 * t) as real == 499.0 * t as real;
    assert (501 * t) as real == 501.0 * t as real;
  }

  /** With any rounding that keeps a thousandth, the same up to that thousandth. */
  lemma HundredNearly(ratio: Ratio, course: Course, lessons: set<string>, quizzes: set<string>)
    requires GoodRatio(ratio)
    ensures var p := ProgressOf(ratio, course, lessons, quizzes);
            var open := p.totalUnits - p.doneUnits;
            p.totalUnits > 0 ==>
              && (100000 * open <= 499 * p.totalUnits ==> p.percent == 100)
              && (p.percent == 100 ==> 100000 * open <= 501 * p.totalUnits)
  {
    hide Close, Round;
    var p := ProgressOf(ratio, course, lessons, quizzes);
    if p.totalUnits > 0 {
      assert ratio(p.doneUnits, p.totalUnits) <= ratio(p.totalUnits, p.totalUnits);
      HundredNear(ratio(p.doneUnits, p.totalUnits), p.doneUnits, p.totalUnits);
    }
  }

  /** Lessons "0" to "t-1" in one module. */
  function LongCourse(t: nat): Course {
    [CourseModule(seq(t, i requires 0 <= i < t => ToString(i)), None)]
  }

  lemma {:induction false} LessonsMembers(ids: seq<string>)
    ensures |Lessons(ids)| == |ids| && forall u :: u in Lessons(ids) ==> u.Lesson? && u.id in ids
  {
    if ids != [] {
      LessonsMembers(ids[..|ids| - 1]);
      assert forall id :: id in ids[..|ids| - 1] ==> id in ids;
    }
  }

  function Numerals(n: nat): (ids: set<string>) {
    set i | 0 <= i < n :: ToString(i)
  }

  lemma NoNumeral(n: nat)
    ensures ToString(n) !in Numerals(n)
  {
    if i :| 0 <= i < n && ToString(i) == ToString(n) { ToStringInjective(i, n); }
  }

  /** All its lessons but the last are done. */
  lemma OneOpen(t: nat)
    requires t > 0
    ensures |Units(LongCourse(t))| == t && Done(Units(LongCourse(t)), Numerals(t - 1), {}) == t - 1
  {
    var lessons := Numerals(t - 1);
    var ids := LongCourse(t)[0].lessonIds;
    var init := ids[..t - 1];
    OneModule(t);
    LessonsMembers(init);
    NoNumeral(t - 1);
    forall u | u in Lessons(init)
      ensures IsDone(u, lessons, {})
    {
      var k :| 0 <= k < t - 1 && init[k] == u.id;
      assert ToString(k) in lessons;
    }
    hide Numerals, ToString;
    DoneAll(Lessons(init), lessons, {});
    DoneSnoc(Lessons(init), Lesson(ids[t - 1]), lessons, {});
  }

  lemma OneModule(t: nat)
    requires t > 0
    ensures var ids := LongCourse(t)[0].lessonIds;
            |ids| == t && Units(LongCourse(t)) == Lessons(ids[..t - 1]) + [Lesson(ids[t - 1])]
  {
    hide ToString;
    var ids := LongCourse(t)[0].lessonIds;
    assert LongCourse(t)[..0] == [];
    assert Units(LongCourse(t)) == Lessons(ids);
  }

  /** Some course of `t` units shows 100 percent and is not completed. */
  ghost predicate Misleads(ratio: Ratio, t: nat) {
    exists course, lessons, quizzes ::
      var p := ProgressOf(ratio, course, lessons, quizzes);
      p.totalUnits == t && p.percent == 100 && !p.completed
  }

  /** That happens from 200 units on, and not before; 199 lessons of 200 are the first case. */
  lemma MisleadsExactly(t: nat)
    ensures Misleads(Exact, t) <==> t >= 200
  {
    hide Exact, Round, Done, Units, Numerals, LongCourse;
    if t >= 200 {
      OneOpen(t);
      HundredExactly(LongCourse(t), Numerals(t - 1), {});
      var p := ProgressOf(Exact, LongCourse(t), Numerals(t - 1), {});
      assert p.totalUnits == t && p.percent == 100 && !p.completed;
    } else if Misleads(Exact, t) {
      var course, lessons, quizzes :|
        var p := ProgressOf(Exact, course, lessons, quizzes);
        p.totalUnits == t && p.percent == 100 && !p.completed;
      HundredExactly(course, lessons, quizzes);
      assert false;
    }
  }

  /** With any such rounding: never below 200 units, always from 201 on. */
  lemma MisleadsNearly(ratio: Ratio, t: nat)
    requires GoodRatio(ratio)
    ensures (Misleads(ratio, t) ==> t >= 200) && (t >= 201 ==> Misleads(ratio, t))
  {
    hide Round, Done, Units, GoodRatio, Numerals, LongCourse;
    if t >= 201 {
      OneOpen(t);
      HundredNearly(ratio, LongCourse(t), Numerals(t - 1), {});
      var p := ProgressOf(ratio, LongCourse(t), Numerals(t - 1), {});
      assert p.totalUnits == t && p.percent == 100 && !p.completed;
    } else if Misleads(ratio, t) {
      var course, lessons, quizzes :|
        var p := ProgressOf(ratio, course, lessons, quizzes);
        p.totalUnits == t && p.percent == 100 && !p.completed;
      PercentMeans(ratio, course, lessons, quizzes);
    }
  }

  // ----- Rows -----

  datatype Attempt = Attempt(quizId: string, passed: bool)

  datatype Rows = Rows(lessons: seq<string>, attempts: seq<Attempt>, completedAt: Option<int>)

  function LessonSet(r: Rows): set<string> {
    set id | id in r.lessons
  }

  function PassedSet(r: Rows): set<string> {
    set a | a in r.attempts && a.passed :: a.quizId
  }

  function ProgressIn(ratio: Ratio, course: Course, r: Rows): Progress {
    ProgressOf(ratio, course, LessonSet(r), PassedSet(r))
  }

  datatype Op = CompleteLesson(lessonId: string) | SubmitQuiz(quizId: string, passed: bool)

  function Recompute(ratio: Ratio, course: Course, r: Rows, now: int): Rows {
    var p := ProgressIn(ratio, course, r);
    if p.completed && r.completedAt.None? then r.(completedAt := Some(now))
    else if !p.completed && r.completedAt.Some? then r.(completedAt := None)
    else r
  }

  function Record(r: Rows, op: Op): Rows {
    match op
    case CompleteLesson(id) => if id in r.lessons then r else r.(lessons := r.lessons + [id])
    case SubmitQuiz(id, passed) => r.(attempts := r.attempts + [Attempt(id, passed)])
  }

  function Apply(ratio: Ratio, course: Course, r: Rows, op: Op, now: int): Rows {
    Recompute(ratio, course, Record(r, op), now)
  }

  predicate Consistent(ratio: Ratio, course: Course, r: Rows) {
    r.completedAt.Some? <==> ProgressIn(ratio, course, r).completed
  }

  /** Whatever was there before, an operation leaves `completedAt` set exactly when the course is completed. */
  lemma ApplyConsistent(ratio: Ratio, course: Course, r: Rows, op: Op, now: int)
    ensures var r' := Apply(ratio, course, r, op, now);
            && Consistent(ratio, course, r')
            && (r'.completedAt.Some? && r.completedAt.None? ==> r'.completedAt == Some(now))
            && (r'.completedAt.Some? && r.completedAt.Some? ==> r'.completedAt == r.completedAt)
  {
    var s := Record(r, op);
    assert ProgressIn(ratio, course, s) == ProgressIn(ratio, course, Recompute(ratio, course, s, now));
  }

  /** An operation adds just what it is about: the lesson, or the quiz if the attempt has passed. */
  lemma ApplyRecords(ratio: Ratio, course: Course, r: Rows, op: Op, now: int)
    ensures var r' := Apply(ratio, course, r, op, now);
            match op
            case CompleteLesson(id) => LessonSet(r') == LessonSet(r) + {id} && r'.attempts == r.attempts
            case SubmitQuiz(id, passed) =>
              && LessonSet(r') == LessonSet(r) && PassedSet(r') == PassedSet(r) + (if passed then {id} else {})
              && r'.attempts == r.attempts + [Attempt(id, passed)]
  {
    match op
    case CompleteLesson(id) =>
    case SubmitQuiz(id, passed) =>
      var a := Attempt(id, passed);
      assert forall b :: b in r.attempts + [a] <==> b in r.attempts || b == a;
      assert PassedSet(Record(r, op)) == PassedSet(r) + (if passed then {id} else {});
  }

  datatype Timed = Timed(op: Op, now: int)

  function ApplyAll(ratio: Ratio, course: Course, r: Rows, ops: seq<Timed>): Rows {
    if ops == [] then r
    else
      var last := ops[|ops| - 1];
      Apply(ratio, course, ApplyAll(ratio, course, r, ops[..|ops| - 1]), last.op, last.now)
  }

  lemma RatioOrder(ratio: Ratio)
    requires GoodRatio(ratio)
    ensures forall d: nat, e: nat, t: nat :: d <= e <= t && t > 0 ==> ratio(d, t) <= ratio(e, t)
  {}

  lemma ApplyGrows(ratio: Ratio, course: Course, r: Rows, op: Op, now: int)
    requires GoodRatio(ratio) && Consistent(ratio, course, r)
    ensures var p, q := ProgressIn(ratio, course, r), ProgressIn(ratio, course, Apply(ratio, course, r, op, now));
            p.doneUnits <= q.doneUnits && p.percent <= q.percent && (p.completed ==> q.completed)
    ensures r.completedAt.Some? ==> Apply(ratio, course, r, op, now).completedAt == r.completedAt
  {
    hide Done, Units, GoodRatio, Close;
    RatioOrder(ratio);
    var s := Record(r, op);
    assert LessonSet(r) <= LessonSet(s);
    assert PassedSet(r) <= PassedSet(s);
    DoneGrows(Units(course), LessonSet(r), PassedSet(r), LessonSet(s), PassedSet(s));
  }

  /**
   * Over any operations on a fixed course: done units and percent never drop, and a completion
   * date, once set, is never cleared or moved.
   */
  lemma {:induction false} CompletionKept(ratio: Ratio, course: Course, r: Rows, ops: seq<Timed>)
    requires GoodRatio(ratio) && Consistent(ratio, course, r)
    ensures var end := ApplyAll(ratio, course, r, ops);
            var p, q := ProgressIn(ratio, course, r), ProgressIn(ratio, course, end);
            && Consistent(ratio, course, end)
            && p.doneUnits <= q.doneUnits && p.percent <= q.percent
            && (r.completedAt.Some? ==> end.completedAt == r.completedAt)
  {
    if ops != [] {
      var init, last := ops[..|ops| - 1], ops[|ops| - 1];
      CompletionKept(ratio, course, r, init);
      var mid := ApplyAll(ratio, course, r, init);
      ApplyConsistent(ratio, course, mid, last.op, last.now);
      ApplyGrows(ratio, course, mid, last.op, last.now);
    }
  }

  // ----- In place -----

  const QUIZ_NOT_FOUND := "quiz not found"

  class EnrollmentRow {
    var lessons: seq<string>
    var attempts: seq<Attempt>
    var completedAt: Option<int>

    ghost function Now(): Rows
      reads this
    {
      Rows(lessons, attempts, completedAt)
    }

    constructor ()
      ensures Now() == Rows([], [], None)
    {
      lessons, attempts, completedAt := [], [], None;
    }

    method RecomputeCompletion(ratio: Ratio, course: Course, now: int)
      modifies this`completedAt
      ensures Now() == Recompute(ratio, course, old(Now()), now)
    {
      var passed := [];
      var i := 0;
      while i < |attempts|
        invariant i <= |attempts|
        invariant forall id :: id in passed <==>
                    exists k :: 0 <= k < i && attempts[k].passed && attempts[k].quizId == id
      {
        if attempts[i].passed { passed := passed + [attempts[i].quizId]; }
        i := i + 1;
      }
      assert (set id | id in passed) == PassedSet(Now());
      var progress := CourseProgress(ratio, course, lessons, passed);
      if progress.completed && completedAt.None? {
        completedAt := Some(now);
      } else if !progress.completed && completedAt.Some? {
        completedAt := None;
      }
    }

    method CompleteLesson(ratio: Ratio, course: Course, lessonId: string, now: int)
      modifies this
      ensures Now() == Apply(ratio, course, old(Now()), Op.CompleteLesson(lessonId), now)
    {
      if lessonId !in lessons { lessons := lessons + [lessonId]; }
      RecomputeCompletion(ratio, course, now);
    }

    /** `grade` is None when the quiz does not exist. */
    method SubmitQuiz(ratio: Ratio, course: Course, quizId: string, grade: Option<bool>, now: int)
        returns (r: Result<bool>)
      modifies this
      ensures grade.None? ==> r == Err(QUIZ_NOT_FOUND) && Now() == old(Now())
      ensures grade.Some? ==> r == Ok(grade.value)
      ensures grade.Some? ==> Now() == Apply(ratio, course, old(Now()), Op.SubmitQuiz(quizId, grade.value), now)
    {
      if grade.None? { return Err(QUIZ_NOT_FOUND); }
      attempts := attempts + [Attempt(quizId, grade.value)];
      RecomputeCompletion(ratio, course, now);
      r := Ok(grade.value);
    }
  }
}

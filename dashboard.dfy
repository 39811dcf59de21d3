/**
 * The admin dashboard: the five courses with the most enrollments, the
 * earnings of the last six calendar months, and the number of distinct
 * students enrolled in a course that still exists. Amounts stay in integer
 * cents; month boundaries are inputs.
 */
module Dashboard {
  import opened Common
  import opened Db
  import Plans
  import Cursor
  import PlansOverview

  // ---------------------------------------------------------------------
  // Top courses
  // ---------------------------------------------------------------------

  /** How many enrollment records name course `c`. */
  function Occurrences(es: seq<Enrollment>, c: CourseId): nat
  {
    if es == [] then 0
    else Occurrences(es[..|es| - 1], c) + (if es[|es| - 1].course == c then 1 else 0)
  }

  /** A course has enrollments exactly when some enrollment record names it. */
  lemma {:induction false} OccurrencesPositive(es: seq<Enrollment>, c: CourseId)
    ensures Occurrences(es, c) > 0 <==> exists k :: 0 <= k < |es| && es[k].course == c
  {
    if es != [] {
      var init := es[..|es| - 1];
      OccurrencesPositive(init, c);
      if exists k :: 0 <= k < |init| && init[k].course == c {
        var k :| 0 <= k < |init| && init[k].course == c;
        assert es[k] == init[k];
      }
      if exists k :: 0 <= k < |es| && es[k].course == c {
        var k :| 0 <= k < |es| && es[k].course == c;
        if k < |init| {
          assert init[k] == es[k];
        }
      }
    }
  }

  /**
   * The course ids of the enrollments, each once, in order of first
   * occurrence: the key order of the `courseCounts` object, whose keys are
   * ObjectId strings and so keep insertion order.
   */
  function FirstOccurrences(es: seq<Enrollment>): seq<CourseId>
  {
    if es == [] then []
    else
      var before := FirstOccurrences(es[..|es| - 1]);
      if es[|es| - 1].course in before then before else before + [es[|es| - 1].course]
  }

  predicate NoDuplicates(xs: seq<CourseId>)
  {
    forall i, j :: 0 <= i < j < |xs| ==> xs[i] != xs[j]
  }

  /** A course is listed exactly when some enrollment names it, and it is listed once. */
  lemma {:induction false} FirstOccurrencesListed(es: seq<Enrollment>)
    ensures NoDuplicates(FirstOccurrences(es))
    ensures forall c :: c in FirstOccurrences(es) <==> Occurrences(es, c) > 0
  {
    if es != [] {
      FirstOccurrencesListed(es[..|es| - 1]);
    }
  }

  /**
   * The counting loop of `getTopCourses`: the keys in insertion order and,
   * for each, the number of enrollments naming it.
   */
  method CountStudents(es: seq<Enrollment>) returns (order: seq<CourseId>, counts: map<CourseId, nat>)
    ensures order == FirstOccurrences(es)
    ensures forall c :: c in counts <==> c in order
    ensures forall c :: c in counts ==> counts[c] == Occurrences(es, c)
  {
    order, counts := [], map[];
    for i := 0 to |es|
      invariant order == FirstOccurrences(es[..i])
      invariant forall c :: c in counts <==> c in order
      invariant forall c :: c in counts ==> counts[c] == Occurrences(es[..i], c)
      invariant forall c :: c !in counts ==> Occurrences(es[..i], c) == 0
    {
      assert es[..i + 1][..i] == es[..i];
      assert forall c :: Occurrences(es[..i + 1], c) == Occurrences(es[..i], c) + (if es[i].course == c then 1 else 0);
      var courseId := es[i].course;
      if courseId in counts {
        counts := counts[courseId := counts[courseId] + 1];
      } else {
        counts := counts[courseId := 1];
        order := order + [courseId];
      }
    }
    assert es[..|es|] == es;
  }

  /** One `{ courseId, studentsCount }` entry. */
  datatype CourseCount = CourseCount(courseId: CourseId, studentsCount: nat)

  /** `Object.entries(courseCounts).map(...)`. */
  function Entries(order: seq<CourseId>, counts: map<CourseId, nat>): (r: seq<CourseCount>)
    requires forall c :: c in order ==> c in counts
    ensures |r| == |order|
    ensures forall k :: 0 <= k < |r| ==> r[k] == CourseCount(order[k], counts[order[k]])
  {
    if order == [] then [] else [CourseCount(order[0], counts[order[0]])] + Entries(order[1..], counts)
  }

  predicate SortedDesc(xs: seq<CourseCount>)
  {
    forall i, j :: 0 <= i < j < |xs| ==> xs[i].studentsCount >= xs[j].studentsCount
  }

  /** Insert `x` before the first entry whose count is not larger, so that it precedes later equal entries. */
  function Insert(x: CourseCount, xs: seq<CourseCount>): seq<CourseCount>
  {
    if xs == [] then [x]
    else if xs[0].studentsCount <= x.studentsCount then [x] + xs
    else [xs[0]] + Insert(x, xs[1..])
  }

  /** `.sort((a, b) => b.studentsCount - a.studentsCount)`: a stable insertion sort by non-increasing count. */
  function SortByCount(xs: seq<CourseCount>): seq<CourseCount>
  {
    if xs == [] then [] else Insert(xs[0], SortByCount(xs[1..]))
  }

  lemma {:induction false} InsertPermutes(x: CourseCount, xs: seq<CourseCount>)
    ensures multiset(Insert(x, xs)) == multiset(xs) + multiset{x}
  {
    if xs != [] && xs[0].studentsCount > x.studentsCount {
      InsertPermutes(x, xs[1..]);
      assert xs == [xs[0]] + xs[1..];
    }
  }

  lemma {:induction false} InsertSorted(x: CourseCount, xs: seq<CourseCount>)
    requires SortedDesc(xs)
    ensures SortedDesc(Insert(x, xs))
  {
    if xs != [] && xs[0].studentsCount > x.studentsCount {
      var rest := Insert(x, xs[1..]);
      InsertSorted(x, xs[1..]);
      InsertHead(x, xs[1..]);
      ConsSorted(xs[0], rest);
    } else {
      ConsSorted(x, xs);
    }
  }

  /** The head of an insertion is the inserted entry or the old head. */
  lemma InsertHead(x: CourseCount, xs: seq<CourseCount>)
    ensures Insert(x, xs) != []
    ensures Insert(x, xs)[0] == x || (xs != [] && Insert(x, xs)[0] == xs[0])
  {
  }

  lemma ConsSorted(a: CourseCount, xs: seq<CourseCount>)
    requires SortedDesc(xs)
    requires xs != [] ==> a.studentsCount >= xs[0].studentsCount
    ensures SortedDesc([a] + xs)
  {
    var r := [a] + xs;
    forall i, j | 0 <= i < j < |r| ensures r[i].studentsCount >= r[j].studentsCount {
      if i == 0 {
        assert r[j] == xs[j - 1];
        if j > 1 {
          assert xs[0].studentsCount >= xs[j - 1].studentsCount;
        }
      } else {
        assert r[i] == xs[i - 1] && r[j] == xs[j - 1];
      }
    }
  }

  /** The sorted list holds the same entries, by non-increasing count. */
  lemma {:induction false} SortByCountSorts(xs: seq<CourseCount>)
    ensures multiset(SortByCount(xs)) == multiset(xs)
    ensures SortedDesc(SortByCount(xs))
  {
    if xs != [] {
      SortByCountSorts(xs[1..]);
      InsertPermutes(xs[0], SortByCount(xs[1..]));
      InsertSorted(xs[0], SortByCount(xs[1..]));
      assert xs == [xs[0]] + xs[1..];
    }
  }

  /** No course appears in two entries. */
  predicate OnePerCourse(xs: seq<CourseCount>)
  {
    forall i, j :: 0 <= i < j < |xs| ==> xs[i].courseId != xs[j].courseId
  }

  /** Removing one entry keeps the rest one per course, none of them for the removed entry's course. */
  lemma DropOnePerCourse(a: seq<CourseCount>, k: nat)
    requires k < |a| && OnePerCourse(a)
    ensures var r := a[..k] + a[k + 1..];
            && multiset(r) == multiset(a) - multiset{a[k]}
            && OnePerCourse(r)
            && forall e :: e in r ==> e.courseId != a[k].courseId
  {
    var r := a[..k] + a[k + 1..];
    assert a == a[..k] + [a[k]] + a[k + 1..];
    forall i | 0 <= i < |r| ensures r[i] == a[if i < k then i else i + 1] {
    }
  }

  /** Reordering entries keeps them one per course. */
  lemma {:induction false} PermutationOnePerCourse(a: seq<CourseCount>, b: seq<CourseCount>)
    requires multiset(a) == multiset(b) && OnePerCourse(a)
    ensures OnePerCourse(b)
    decreases |b|
  {
    if b != [] {
      var x := b[|b| - 1];
      var b' := b[..|b| - 1];
      assert b == b' + [x];
      assert x in multiset(a);
      var k :| 0 <= k < |a| && a[k] == x;
      var a' := a[..k] + a[k + 1..];
      DropOnePerCourse(a, k);
      PermutationOnePerCourse(a', b');
      forall i | 0 <= i < |b'| ensures b'[i].courseId != x.courseId {
        assert b'[i] in multiset(a');
      }
    }
  }

  /** One entry of the answer; `title` and `description` are null for a course that no longer exists. */
  datatype TopCourse = TopCourse(courseId: CourseId, title: Option<string>, description: Option<string>, studentsCount: nat)

  /** The `courseDetails.find` step for one entry. */
  function Detail(item: CourseCount, courses: map<CourseId, Course>): (t: TopCourse)
    ensures t.courseId == item.courseId && t.studentsCount == item.studentsCount
    ensures t.title.Some? <==> item.courseId in courses
    ensures t.description.Some? <==> item.courseId in courses
    ensures item.courseId in courses ==>
              t.title == Some(courses[item.courseId].name) && t.description == Some(courses[item.courseId].description)
  {
    if item.courseId in courses then
      var course := courses[item.courseId];
      TopCourse(item.courseId, Some(course.name), Some(course.description), item.studentsCount)
    else TopCourse(item.courseId, None, None, item.studentsCount)
  }

  function Details(items: seq<CourseCount>, courses: map<CourseId, Course>): (r: seq<TopCourse>)
    ensures |r| == |items|
    ensures forall k :: 0 <= k < |r| ==> r[k] == Detail(items[k], courses)
  {
    if items == [] then [] else [Detail(items[0], courses)] + Details(items[1..], courses)
  }

  /** The first `n` entries, or all of them when there are fewer. */
  function Take(xs: seq<CourseCount>, n: nat): (r: seq<CourseCount>)
    ensures |r| == if |xs| < n then |xs| else n
    ensures r == xs[..|r|]
  {
    if |xs| < n then xs else xs[..n]
  }

  /**
   * Every entry left out of the first five of a sorted list has a count no
   * larger than any entry kept.
   */
  lemma {:induction false} TakeKeepsLargest(entries: seq<CourseCount>, sorted: seq<CourseCount>, e: CourseCount)
    requires multiset(sorted) == multiset(entries) && SortedDesc(sorted)
    requires e in entries && e !in Take(sorted, 5)
    ensures |Take(sorted, 5)| == 5
    ensures forall k :: 0 <= k < 5 ==> Take(sorted, 5)[k].studentsCount >= e.studentsCount
  {
    assert e in multiset(entries);
    assert e in multiset(sorted);
    var i :| 0 <= i < |sorted| && sorted[i] == e;
  }

  /**
   * A ranking of enrolled courses: one entry per course, by non-increasing
   * count, each count the number of enrollments naming that course, and every
   * enrolled course left out has no more enrollments than any listed one (and
   * then five are listed).
   */
  ghost predicate RankedTop(es: seq<Enrollment>, kept: seq<CourseCount>)
  {
    && SortedDesc(kept)
    && OnePerCourse(kept)
    && (forall k :: 0 <= k < |kept| ==>
          kept[k].studentsCount == Occurrences(es, kept[k].courseId) && kept[k].studentsCount > 0)
    && (forall c :: Occurrences(es, c) > 0 && (forall k :: 0 <= k < |kept| ==> kept[k].courseId != c) ==>
          |kept| == 5 && forall k :: 0 <= k < |kept| ==> kept[k].studentsCount >= Occurrences(es, c))
  }

  /** The sorted entries of the counting loop: one per enrolled course, each with its enrollment count. */
  lemma {:induction false} SortedEntriesCounted(es: seq<Enrollment>, order: seq<CourseId>, counts: map<CourseId, nat>, sorted: seq<CourseCount>)
    requires order == FirstOccurrences(es)
    requires forall c :: c in counts <==> c in order
    requires forall c :: c in counts ==> counts[c] == Occurrences(es, c)
    requires multiset(sorted) == multiset(Entries(order, counts))
    ensures |sorted| == |order|
    ensures OnePerCourse(sorted)
    ensures forall k :: 0 <= k < |sorted| ==>
              sorted[k].studentsCount == Occurrences(es, sorted[k].courseId) && sorted[k].studentsCount > 0
  {
    var entries := Entries(order, counts);
    FirstOccurrencesListed(es);
    assert OnePerCourse(entries) by {
      forall i, j | 0 <= i < j < |entries| ensures entries[i].courseId != entries[j].courseId {
        assert entries[i].courseId == order[i] && entries[j].courseId == order[j];
      }
    }
    PermutationOnePerCourse(entries, sorted);
    assert |multiset(sorted)| == |multiset(entries)|;
    forall k | 0 <= k < |sorted|
      ensures sorted[k].studentsCount == Occurrences(es, sorted[k].courseId) && sorted[k].studentsCount > 0
    {
      assert sorted[k] in multiset(entries);
      var i :| 0 <= i < |entries| && entries[i] == sorted[k];
    }
  }

  /** Every enrolled course missing from the first five has no more enrollments than any of them. */
  lemma {:induction false} LeftOutNoLarger(es: seq<Enrollment>, order: seq<CourseId>, counts: map<CourseId, nat>, sorted: seq<CourseCount>)
    requires order == FirstOccurrences(es)
    requires forall c :: c in counts <==> c in order
    requires forall c :: c in counts ==> counts[c] == Occurrences(es, c)
    requires multiset(sorted) == multiset(Entries(order, counts)) && SortedDesc(sorted)
    ensures forall c :: Occurrences(es, c) > 0 && (forall k :: 0 <= k < |Take(sorted, 5)| ==> Take(sorted, 5)[k].courseId != c) ==>
              |Take(sorted, 5)| == 5 && forall k :: 0 <= k < 5 ==> Take(sorted, 5)[k].studentsCount >= Occurrences(es, c)
  {
    var entries := Entries(order, counts);
    FirstOccurrencesListed(es);
    forall c | Occurrences(es, c) > 0 && (forall k :: 0 <= k < |Take(sorted, 5)| ==> Take(sorted, 5)[k].courseId != c)
      ensures |Take(sorted, 5)| == 5 && forall k :: 0 <= k < 5 ==> Take(sorted, 5)[k].studentsCount >= Occurrences(es, c)
    {
      var i :| 0 <= i < |order| && order[i] == c;
      var e := entries[i];
      assert e.courseId == c;
      TakeKeepsLargest(entries, sorted, e);
    }
  }

  /** The first five of the sorted, counted entries are a ranking of the enrolled courses. */
  lemma RankedPrefix(es: seq<Enrollment>, sorted: seq<CourseCount>)
    requires SortedDesc(sorted) && OnePerCourse(sorted)
    requires forall k :: 0 <= k < |sorted| ==>
               sorted[k].studentsCount == Occurrences(es, sorted[k].courseId) && sorted[k].studentsCount > 0
    requires forall c :: Occurrences(es, c) > 0 && (forall k :: 0 <= k < |Take(sorted, 5)| ==> Take(sorted, 5)[k].courseId != c) ==>
               |Take(sorted, 5)| == 5 && forall k :: 0 <= k < 5 ==> Take(sorted, 5)[k].studentsCount >= Occurrences(es, c)
    ensures RankedTop(es, Take(sorted, 5))
  {
    var kept := Take(sorted, 5);
    assert forall k :: 0 <= k < |kept| ==> kept[k] == sorted[k];
  }

  /** The counts of the entries of an answer. */
  function Counts(top: seq<TopCourse>): (r: seq<CourseCount>)
    ensures |r| == |top|
    ensures forall k :: 0 <= k < |r| ==> r[k] == CourseCount(top[k].courseId, top[k].studentsCount)
  {
    if top == [] then [] else [CourseCount(top[0].courseId, top[0].studentsCount)] + Counts(top[1..])
  }

  /**
   * What the answer of `getTopCourses` is: a ranking of the enrolled
   * courses, with title and description from the course when it exists and
   * null otherwise.
   */
  ghost predicate TopCoursesOf(es: seq<Enrollment>, courses: map<CourseId, Course>, top: seq<TopCourse>)
  {
    && RankedTop(es, Counts(top))
    && (forall k :: 0 <= k < |top| ==>
          if top[k].courseId in courses then
            top[k].title == Some(courses[top[k].courseId].name)
            && top[k].description == Some(courses[top[k].courseId].description)
          else top[k].title.None? && top[k].description.None?)
  }

  lemma DetailsOfRanked(es: seq<Enrollment>, courses: map<CourseId, Course>, kept: seq<CourseCount>)
    requires RankedTop(es, kept)
    ensures TopCoursesOf(es, courses, Details(kept, courses))
  {
    assert Counts(Details(kept, courses)) == kept;
  }

  /**
   * `getTopCourses`: at most five entries, one per course, by non-increasing
   * student count;
   * each count is the number of enrollments naming that course; each course
   * that has enrollments but is not listed has no more of them than any
   * listed course (and then five are listed); title and description come
   * from the course when it exists and are null otherwise.
   */
  method GetTopCourses(es: seq<Enrollment>, courses: map<CourseId, Course>) returns (top: seq<TopCourse>)
    ensures |top| == if |FirstOccurrences(es)| < 5 then |FirstOccurrences(es)| else 5
    ensures TopCoursesOf(es, courses, top)
  {
    var order, counts := CountStudents(es);
    var entries := Entries(order, counts);
    var sorted := SortByCount(entries);
    SortByCountSorts(entries);
    SortedEntriesCounted(es, order, counts, sorted);
    LeftOutNoLarger(es, order, counts, sorted);
    RankedPrefix(es, sorted);
    DetailsOfRanked(es, courses, Take(sorted, 5));
    top := Details(Take(sorted, 5), courses);
  }

  // ---------------------------------------------------------------------
  // Earnings
  // ---------------------------------------------------------------------

  /** A charge of the billing provider: its amount in cents and its creation time in seconds. */
  datatype Charge = Charge(amount: int, created: int)

  /** The first and last second of a calendar month. */
  datatype Month = Month(start: int, end: int)

  function Sum(cs: seq<Charge>): int
  {
    if cs == [] then 0 else Sum(cs[..|cs| - 1]) + cs[|cs| - 1].amount
  }

  lemma SumAppend(cs: seq<Charge>, c: Charge)
    ensures Sum(cs + [c]) == Sum(cs) + c.amount
  {
    assert (cs + [c])[..|cs|] == cs;
  }

  /** The charges created within the month, bounds included, in order. */
  function InMonth(cs: seq<Charge>, m: Month): (r: seq<Charge>)
    ensures |r| <= |cs|
  {
    if cs == [] then []
    else
      var last := cs[|cs| - 1];
      InMonth(cs[..|cs| - 1], m) + (if m.start <= last.created <= m.end then [last] else [])
  }

  /** The charges created at or after `t`, in order. */
  function Since(cs: seq<Charge>, t: int): (r: seq<Charge>)
    ensures |r| <= |cs|
  {
    if cs == [] then []
    else
      var last := cs[|cs| - 1];
      Since(cs[..|cs| - 1], t) + (if t <= last.created then [last] else [])
  }

  /** A month's bucket holds exactly the charges created within it. */
  lemma {:induction false} InMonthMembers(cs: seq<Charge>, m: Month)
    ensures forall c :: c in InMonth(cs, m) <==> c in cs && m.start <= c.created <= m.end
  {
    if cs != [] {
      InMonthMembers(cs[..|cs| - 1], m);
      assert cs == cs[..|cs| - 1] + [cs[|cs| - 1]];
    }
  }

  /** The current-month figure covers exactly the charges created since its start. */
  lemma {:induction false} SinceMembers(cs: seq<Charge>, t: int)
    ensures forall c :: c in Since(cs, t) <==> c in cs && t <= c.created
  {
    if cs != [] {
      SinceMembers(cs[..|cs| - 1], t);
      assert cs == cs[..|cs| - 1] + [cs[|cs| - 1]];
    }
  }

  /**
   * `getEarnings`: `months[i]` is the month `i` months back. The total is the
   * sum of all charges; `earnings` has six buckets, oldest first, each the
   * sum of the charges created within its month; `thisMonth` is the sum of
   * the charges created since the start of the current month.
   */
  method GetEarnings(charges: seq<Charge>, months: seq<Month>, startOfMonth: int)
    returns (total: int, earnings: seq<int>, thisMonth: int)
    requires |months| == 6
    ensures total == Sum(charges)
    ensures |earnings| == 6
    ensures forall k :: 0 <= k < 6 ==> earnings[k] == Sum(InMonth(charges, months[5 - k]))
    ensures thisMonth == Sum(Since(charges, startOfMonth))
  {
    total := Sum(charges);
    earnings := [];
    var i := 5;
    while i >= 0
      invariant -1 <= i <= 5
      invariant |earnings| == 5 - i
      invariant forall k :: 0 <= k < |earnings| ==> earnings[k] == Sum(InMonth(charges, months[5 - k]))
    {
      var totalMonth := Sum(InMonth(charges, months[i]));
      earnings := earnings + [totalMonth];
      i := i - 1;
    }
    thisMonth := Sum(Since(charges, startOfMonth));
  }

  predicate NonNegative(cs: seq<Charge>)
  {
    forall k :: 0 <= k < |cs| ==> cs[k].amount >= 0
  }

  /** With no negative amounts, a month's earnings never exceed the total. */
  lemma {:induction false} MonthAtMostTotal(cs: seq<Charge>, m: Month)
    requires NonNegative(cs)
    ensures 0 <= Sum(InMonth(cs, m)) <= Sum(cs)
  {
    if cs != [] {
      var init, last := cs[..|cs| - 1], cs[|cs| - 1];
      MonthAtMostTotal(init, m);
      var before := InMonth(init, m);
      assert Sum(cs) == Sum(init) + last.amount;
      if m.start <= last.created <= m.end {
        assert InMonth(cs, m) == before + [last];
        SumAppend(before, last);
      } else {
        assert InMonth(cs, m) == before + [];
        assert before + [] == before;
      }
    }
  }

  /**
   * When no charge lies in the future, the newest bucket and `thisMonth`
   * select the same charges, so the two figures agree.
   */
  lemma {:induction false} CurrentMonthIsThisMonth(cs: seq<Charge>, current: Month)
    requires forall k :: 0 <= k < |cs| ==> cs[k].created <= current.end
    ensures InMonth(cs, current) == Since(cs, current.start)
  {
    if cs != [] {
      CurrentMonthIsThisMonth(cs[..|cs| - 1], current);
    }
  }

  // ---------------------------------------------------------------------
  // Active students
  // ---------------------------------------------------------------------

  /** The distinct students of the enrollments whose course still exists. */
  function ActiveStudents(es: seq<Enrollment>, courses: set<CourseId>): set<UserId>
  {
    if es == [] then {}
    else
      var last := es[|es| - 1];
      ActiveStudents(es[..|es| - 1], courses) + (if last.course in courses then {last.student} else {})
  }

  /** A student is active exactly when one of their enrollments names an existing course. */
  lemma {:induction false} ActiveStudentsMembership(es: seq<Enrollment>, courses: set<CourseId>, s: UserId)
    ensures s in ActiveStudents(es, courses) <==>
              exists k :: 0 <= k < |es| && es[k].student == s && es[k].course in courses
  {
    if es != [] {
      var init := es[..|es| - 1];
      ActiveStudentsMembership(init, courses, s);
      if s in ActiveStudents(init, courses) {
        var k :| 0 <= k < |init| && init[k].student == s && init[k].course in courses;
        assert es[k] == init[k];
      }
      if exists k :: 0 <= k < |es| && es[k].student == s && es[k].course in courses {
        var k :| 0 <= k < |es| && es[k].student == s && es[k].course in courses;
        if k < |init| {
          assert init[k] == es[k];
        }
      }
    }
  }

  /** There are never more active students than enrollment records. */
  lemma {:induction false} ActiveStudentsBound(es: seq<Enrollment>, courses: set<CourseId>)
    ensures |ActiveStudents(es, courses)| <= |es|
  {
    if es != [] {
      ActiveStudentsBound(es[..|es| - 1], courses);
    }
  }

  /**
   * `totalActiveStudents` of `getCards`: the number of distinct students
   * enrolled in an existing course.
   */
  function TotalActiveStudents(es: seq<Enrollment>, courses: map<CourseId, Course>): (n: nat)
    ensures n <= |es|
    ensures n == 0 <==> forall k :: 0 <= k < |es| ==> es[k].course !in courses
  {
    ActiveStudentsBound(es, courses.Keys);
    var count := |ActiveStudents(es, courses.Keys)|;
    if count == 0 then
      assert forall k :: 0 <= k < |es| ==> es[k].course !in courses by {
        forall k | 0 <= k < |es| ensures es[k].course !in courses {
          ActiveStudentsMembership(es, courses.Keys, es[k].student);
        }
      }
      0
    else
      var s :| s in ActiveStudents(es, courses.Keys);
      ActiveStudentsMembership(es, courses.Keys, s);
      count
  }

  // ---------------------------------------------------------------------
  // Plans overview
  // ---------------------------------------------------------------------

  /**
   * The admin handler `getPlans`: the overview answered 200, or 500 with a
   * fixed message whatever the fetch threw.
   */
  method GetPlans(env: Plans.PriceIds, answers: seq<Remote<Cursor.Page<PlansOverview.RemoteSub>>>) returns (reply: Reply, overview: Option<seq<PlansOverview.PlanCount>>)
    requires Cursor.Terminates(answers)
    ensures overview.Some? <==> reply.status == 200
    ensures reply.status == 200 ==> reply.message == "Got plans overview!"
    ensures reply.status != 200 ==> reply == Reply(500, "Internal server error")
    ensures overview.Some? <==> Cursor.NoEmptyBefore(answers) && answers[Cursor.FinalIndex(answers)].Returned?
    ensures overview.Some? ==>
              var subs := Cursor.Flatten(answers[..Cursor.FinalIndex(answers) + 1]);
              overview.value == [PlansOverview.PlanCount("Daily", PlansOverview.CountPlan(env, subs, Plans.Daily)),
                                 PlansOverview.PlanCount("Bronze", PlansOverview.CountPlan(env, subs, Plans.Bronze)),
                                 PlansOverview.PlanCount("Silver", PlansOverview.CountPlan(env, subs, Plans.Silver)),
                                 PlansOverview.PlanCount("Gold", PlansOverview.CountPlan(env, subs, Plans.Gold))]
  {
    var computed := PlansOverview.GetPlansOverview(env, answers);
    if computed.Threw? {
      return Reply(500, "Internal server error"), None;
    }
    return Reply(200, "Got plans overview!"), Some(computed.value);
  }
}

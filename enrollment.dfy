/**
 * The student course controller: enrolling in a course spends one enrollment
 * credit and pays the course's instructor ten wallet points; the list of the
 * student's enrolled courses is paged ten at a time.
 */
module Enrollment {
  import opened Common
  import opened Db
  import opened Paging

  /** The wallet points an instructor earns per enrollment. */
  const PointsPerEnrollment := 10

  /** The wallet map after crediting `teacher`: a new wallet starts at 10, an existing one grows by 10. */
  function Credited(wallets: map<UserId, int>, teacher: UserId): (w: map<UserId, int>)
    ensures teacher in w && w.Keys == wallets.Keys + {teacher}
    ensures w[teacher] == (if teacher in wallets then wallets[teacher] else 0) + PointsPerEnrollment
    ensures forall t :: t in wallets && t != teacher ==> w[t] == wallets[t]
  {
    wallets[teacher := if teacher in wallets then wallets[teacher] + PointsPerEnrollment else PointsPerEnrollment]
  }

  /**
   * `enrollCourse`: the course must exist and the student must not be at
   * exactly zero credits. Then one enrollment record is created, the
   * instructor's wallet is credited and the student's credits drop by one;
   * the reply carries the new count. Under the store's invariant credits are
   * never negative, so the count after a successful enrollment is at least 0.
   */
  method EnrollCourse(db: Database, courseId: CourseId, uid: UserId) returns (reply: Reply, remaining: Option<int>)
    requires db.Valid()
    modifies db`enrollments, db`wallets, db`students
    ensures db.Valid()
    ensures courseId !in old(db.courses) ==> reply == Reply(404, "Course not found!")
    ensures courseId in old(db.courses) && uid !in old(db.students) ==> reply == Reply(500, "Internal server error")
    ensures courseId in old(db.courses) && uid in old(db.students) && old(db.students[uid]).remainingEnrollmentCount == 0 ==>
              reply == Reply(404, "You have exceed the limnit of enrolling courses!")
    ensures reply.status == 200 <==>
              courseId in old(db.courses) && uid in old(db.students) && old(db.students[uid]).remainingEnrollmentCount != 0
    ensures remaining.Some? <==> reply.status == 200
    ensures reply.status != 200 ==>
              db.enrollments == old(db.enrollments) && db.wallets == old(db.wallets) && db.students == old(db.students)
    ensures reply.status == 200 ==>
              var n := old(db.students[uid]).remainingEnrollmentCount;
              && n > 0 && remaining == Some(n - 1) && n - 1 >= 0
              && db.enrollments == old(db.enrollments) + [Enrollment(courseId, uid)]
              && db.wallets == Credited(old(db.wallets), old(db.courses[courseId]).instructor)
              && db.students == old(db.students)[uid := old(db.students[uid]).(remainingEnrollmentCount := n - 1)]
  {
    if courseId !in db.courses {
      return Reply(404, "Course not found!"), None;
    }
    var course := db.courses[courseId];
    if uid !in db.students {
      // `student.remainingEnrollmentCount` on a null student throws.
      return Reply(500, "Internal server error"), None;
    }
    var student := db.students[uid];
    if student.remainingEnrollmentCount == 0 {
      return Reply(404, "You have exceed the limnit of enrolling courses!"), None;
    }
    db.enrollments := db.enrollments + [Enrollment(courseId, uid)];
    if course.instructor !in db.wallets {
      db.wallets := db.wallets[course.instructor := PointsPerEnrollment];
    } else {
      var prevPoints := db.wallets[course.instructor];
      db.wallets := db.wallets[course.instructor := prevPoints + PointsPerEnrollment];
    }
    student := student.(remainingEnrollmentCount := student.remainingEnrollmentCount - 1);
    db.students := db.students[uid := student];
    return Reply(200, "You've enrolled to the course!"), Some(student.remainingEnrollmentCount);
  }

  /** The enrolled-courses listing shows ten courses per page. */
  const EnrolledPerPage := 10

  /**
   * The paging of `getEnrolledCourses` over the student's matching courses:
   * no logged-in user answers 400; the page is `parseInt(page) || 1`, so a
   * missing or non-numeric page shows the first ten courses.
   */
  function GetEnrolledCourses<T>(loggedIn: bool, page: Option<int>, matching: seq<T>): (r: Result<Listing<T>>)
    ensures !loggedIn ==> r == Failure(Reply(400, "Unauthorized - Login first!"))
    ensures loggedIn && PageNumber(page) >= 1 ==>
              && r.Success?
              && r.value.totalPages == TotalPages(|matching|, EnrolledPerPage)
              && |r.value.items| <= EnrolledPerPage
              && (r.value.items != [] <==> PageNumber(page) <= r.value.totalPages)
              && forall k :: 0 <= k < |r.value.items| ==>
                   var i := Skip(PageNumber(page), EnrolledPerPage) + k;
                   0 <= i < |matching| && r.value.items[k] == matching[i]
    ensures loggedIn && (page.None? || page.value == 0) ==>
              r.Success? && r.value.items == matching[..if |matching| < EnrolledPerPage then |matching| else EnrolledPerPage]
    ensures loggedIn && PageNumber(page) < 1 ==> r == Failure(Reply(500, "Internal server error"))
  {
    if !loggedIn then Failure(Reply(400, "Unauthorized - Login first!"))
    else
      var listed := ListPage(matching, PageNumber(page), EnrolledPerPage);
      if listed.None? then Failure(Reply(500, "Internal server error"))
      else
        WindowNonEmpty(matching, PageNumber(page), EnrolledPerPage);
        Success(listed.value)
  }
}

/**
 * The persisted documents the core reads and writes, and the document store
 * holding them. Each collection of the store is a field of `Database`; the
 * handlers of the controllers are methods that name, in their `modifies`
 * clauses, exactly the collections they write.
 *
 * Strings the source tests for truthiness use "" for a missing value; an
 * ObjectId reference that may be null is an `Option`.
 */
module Db {
  import opened Common

  type UserId = nat
  type ReceiptId = nat
  type CourseId = nat
  type MaterialId = nat

  /**
   * A student. `subscriptionId` points at the local receipt of the current
   * subscription; `remainingEnrollmentCount` is the number of course
   * enrollments still allowed.
   */
  datatype Student = Student(
    email: string,
    firstName: string,
    lastName: string,
    customerId: string,
    subscriptionId: Option<ReceiptId>,
    remainingEnrollmentCount: int)

  /**
   * A local receipt (a row of the Subscription collection): one attempt to
   * subscribe, resubscribe or change plan, with the fields mirrored from the
   * billing provider's subscription object.
   */
  datatype Receipt = Receipt(
    user: UserId,
    customerId: string,
    priceId: string,
    status: string,
    subscriptionId: string,
    trailsEndAt: Option<int>,
    endsAt: Option<int>,
    billingCycleAnchor: Option<int>,
    currentPeriodStart: Option<int>,
    currentPeriodEnd: Option<int>)

  /** One entry of a course's `material` list. */
  datatype Material = Material(id: MaterialId, title: string, description: string, kind: string, media: string)

  datatype Course = Course(
    name: string,
    category: string,
    description: string,
    coverImage: Option<string>,
    instructor: UserId,
    material: seq<Material>)

  /** One EnrolledCourses record. */
  datatype Enrollment = Enrollment(course: CourseId, student: UserId)

  /** The part of a teacher record the core touches: the ids of the teacher's courses. */
  datatype Teacher = Teacher(courses: seq<CourseId>)

  /** No two materials of one list share an id (the store assigns each subdocument a fresh id). */
  predicate DistinctIds(ms: seq<Material>)
  {
    forall i, j :: 0 <= i < j < |ms| ==> ms[i].id != ms[j].id
  }

  predicate IdsBelow(ms: seq<Material>, bound: MaterialId)
  {
    forall i :: 0 <= i < |ms| ==> ms[i].id < bound
  }

  class Database {
    var students: map<UserId, Student>
    var receipts: map<ReceiptId, Receipt>
    var nextReceipt: ReceiptId
    var courses: map<CourseId, Course>
    var nextCourse: CourseId
    var nextMaterial: MaterialId
    var teachers: map<UserId, Teacher>
    var wallets: map<UserId, int>
    var enrollments: seq<Enrollment>
    /** The names of the uploaded files on disk (cover images and material media). */
    var files: set<string>

    /**
     * What every handler keeps: enrollment credits never go below zero, and
     * the id counters are above every id in use, so that a created document
     * gets an id no other document has.
     */
    ghost predicate Valid()
      reads this
    {
      && (forall u | u in students :: students[u].remainingEnrollmentCount >= 0)
      && (forall r | r in receipts :: r < nextReceipt)
      && (forall c | c in courses :: c < nextCourse)
      && (forall c | c in courses :: DistinctIds(courses[c].material) && IdsBelow(courses[c].material, nextMaterial))
    }

    constructor ()
      ensures Valid()
      ensures students == map[] && receipts == map[] && courses == map[]
      ensures teachers == map[] && wallets == map[] && enrollments == [] && files == {}
    {
      students, receipts, nextReceipt := map[], map[], 0;
      courses, nextCourse, nextMaterial := map[], 0, 0;
      teachers, wallets, enrollments := map[], map[], [];
      files := {};
    }
  }
}

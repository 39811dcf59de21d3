/**
 * The admin course controller: the paged course list, one course with its
 * enrollment status, and the course edit (base fields, cover image and the
 * material list).
 */
module AdminCourse {
  import opened Common
  import opened Db
  import opened Paging
  import opened CourseMaterial
  import Dashboard

  /** The admin course list shows five courses per page. */
  const CoursesPerPage := 5

  /**
   * The paging of `get` over the matching courses: `page = 1` when the query
   * has none; a page below 1 makes the store refuse the negative skip.
   */
  function GetCourses<T>(page: Option<int>, matching: seq<T>): (r: Result<Listing<T>>)
    ensures PageOrOne(page) >= 1 ==>
              && r.Success?
              && r.value.totalPages == TotalPages(|matching|, CoursesPerPage)
              && |r.value.items| <= CoursesPerPage
              && (r.value.items != [] <==> PageOrOne(page) <= r.value.totalPages)
              && forall k :: 0 <= k < |r.value.items| ==>
                   var i := Skip(PageOrOne(page), CoursesPerPage) + k;
                   0 <= i < |matching| && r.value.items[k] == matching[i]
    ensures page.None? ==>
              r.Success? && r.value.items == matching[..if |matching| < CoursesPerPage then |matching| else CoursesPerPage]
    ensures PageOrOne(page) < 1 ==> r == Failure(Reply(500, "Internal server error"))
  {
    var listed := ListPage(matching, PageOrOne(page), CoursesPerPage);
    if listed.None? then Failure(Reply(500, "Internal server error"))
    else
      WindowNonEmpty(matching, PageOrOne(page), CoursesPerPage);
      Success(listed.value)
  }

  /** The course answer of `getCourse`: the course, its enrollment count and its status. */
  datatype CourseView = CourseView(course: Course, enrolledCount: nat, status: string)

  /**
   * `getCourse`: a missing id is a 400, an unknown course a 404; otherwise
   * the status is "Active" exactly when some enrollment names the course.
   */
  function GetCourse(id: Option<CourseId>, courses: map<CourseId, Course>, enrollments: seq<Enrollment>): (r: Result<CourseView>)
    ensures id.None? ==> r == Failure(Reply(400, "Id is required!"))
    ensures id.Some? && id.value !in courses ==> r == Failure(Reply(404, "Course not found!"))
    ensures r.Success? <==> id.Some? && id.value in courses
    ensures r.Success? ==>
              && r.value.course == courses[id.value]
              && r.value.enrolledCount == Dashboard.Occurrences(enrollments, id.value)
              && r.value.status in {"Active", "Inactive"}
              && (r.value.status == "Active" <==> exists k :: 0 <= k < |enrollments| && enrollments[k].course == id.value)
  {
    if id.None? then Failure(Reply(400, "Id is required!"))
    else if id.value !in courses then Failure(Reply(404, "Course not found!"))
    else
      var enrolledCount := Dashboard.Occurrences(enrollments, id.value);
      Dashboard.OccurrencesPositive(enrollments, id.value);
      Success(CourseView(courses[id.value], enrolledCount, if enrolledCount > 0 then "Active" else "Inactive"))
  }

  /** The body of an edit request; "" stands for a missing text field. */
  datatype CourseEdit = CourseEdit(
    name: string,
    category: string,
    description: string,
    cover: Option<Upload>,
    materials: seq<MaterialInput>,
    removed: seq<RemovedInput>)

  const MissingMedia := "Some media file is required!"

  /** `if (name) course.name = name` and the same for category and description. */
  function TruthyOverwrite(c: Course, e: CourseEdit): Course
  {
    c.(name := if e.name != "" then e.name else c.name,
       category := if e.category != "" then e.category else c.category,
       description := if e.description != "" then e.description else c.description)
  }

  /** The files left after deleting the media named by the removal entries that name one. */
  function RemovedMedia(files: set<string>, removed: seq<RemovedInput>): set<string>
  {
    if removed == [] then files
    else
      var before := RemovedMedia(files, removed[..|removed| - 1]);
      var media := removed[|removed| - 1].media;
      if media.Some? && media.value != "" then Deleted(before, media.value) else before
  }

  /** The outcome of an edit of an existing course: the reply, the course to save, how many new materials, the files. */
  datatype EditOutcome = EditOutcome(reply: Reply, course: Course, added: nat, files: set<string>)

  /**
   * The edit of an existing course as written: base fields, then the cover,
   * then the material loop, then appending and removal. A rejection leaves
   * the course as it was but keeps every change already made to the files.
   */
  function Edited(c: Course, e: CourseEdit, nextId: MaterialId, files: set<string>): EditOutcome
  {
    var cover := CoverStep(files, TruthyOverwrite(c, e), e.cover);
    if cover.rejection.Some? then EditOutcome(cover.rejection.value, c, 0, cover.files)
    else
      var run := Run(Progress(cover.course.material, [], cover.files), e.materials, nextId, MissingMedia);
      if run.rejection.Some? then EditOutcome(run.rejection.value, c, 0, run.progress.files)
      else
        var material := run.progress.materials + run.progress.added;
        var material := if |e.removed| > 0 then RemoveIds(material, RemovedIds(e.removed)) else material;
        EditOutcome(Reply(200, "Course updated!"), cover.course.(material := material), |run.progress.added|,
                    RemovedMedia(run.progress.files, e.removed))
  }

  /** The first error an edit of `c` meets, checked before anything is written. */
  function EditRejection(c: Course, e: CourseEdit): Option<Reply>
  {
    if e.cover.Some? && e.cover.value.mimetype !in AllowedImageTypes then Some(Reply(400, "Invalid image type!"))
    else if e.cover.Some? && e.cover.value.savedAs == "" then Some(Reply(400, "Uploading cover image failed!"))
    else FirstRejection(Ids(c.material), e.materials, MissingMedia)
  }

  /**
   * The edit succeeds exactly when the checks find nothing, and otherwise
   * answers the error they find, always a 400.
   */
  lemma EditRejectionAgrees(c: Course, e: CourseEdit, nextId: MaterialId, files: set<string>)
    ensures var o := Edited(c, e, nextId, files);
            && (o.reply.status == 200 <==> EditRejection(c, e).None?)
            && (EditRejection(c, e).Some? ==> o.reply == EditRejection(c, e).value && o.reply.status == 400 && o.course == c)
  {
    var cover := CoverStep(files, TruthyOverwrite(c, e), e.cover);
    if cover.rejection.None? {
      RunFirstRejection(cover.course.material, cover.files, e.materials, nextId, MissingMedia);
      RunRejection(cover.course.material, cover.files, e.materials, nextId, MissingMedia);
    }
  }

  /**
   * A successful edit overwrites name, category and description only with
   * non-empty values; the materials not named keep their place and content;
   * new materials follow them in request order; none of the removed ids is
   * left, and every other material is.
   */
  lemma {:induction false} EditedMaterials(c: Course, e: CourseEdit, nextId: MaterialId, files: set<string>)
    requires DistinctIds(c.material)
    requires Edited(c, e, nextId, files).reply.status == 200
    ensures var o := Edited(c, e, nextId, files);
            && o.course.name == (if e.name != "" then e.name else c.name)
            && o.course.category == (if e.category != "" then e.category else c.category)
            && o.course.description == (if e.description != "" then e.description else c.description)
            && var run := Run(Progress(c.material, [], CoverStep(files, TruthyOverwrite(c, e), e.cover).files), e.materials, nextId, MissingMedia);
               && |run.progress.materials| == |c.material|
               && (forall j :: 0 <= j < |c.material| && LastMention(e.materials, c.material[j].id).None? ==>
                     run.progress.materials[j] == c.material[j])
               && |run.progress.added| == |Fresh(e.materials)|
               && (forall k :: 0 <= k < |run.progress.added| ==>
                     run.progress.added[k] == NewMaterial(Fresh(e.materials)[k], nextId + k))
               && (forall m :: m in o.course.material <==>
                     m in run.progress.materials + run.progress.added && (|e.removed| == 0 || Some(m.id) !in RemovedIds(e.removed)))
  {
    var cover := CoverStep(files, TruthyOverwrite(c, e), e.cover);
    CoverStepMeaning(files, TruthyOverwrite(c, e), e.cover);
    RunRejection(c.material, cover.files, e.materials, nextId, MissingMedia);
    var run := Run(Progress(c.material, [], cover.files), e.materials, nextId, MissingMedia);
    RunUpdates(c.material, cover.files, e.materials, nextId, MissingMedia);
    RunAppendsFresh(c.material, cover.files, e.materials, nextId, MissingMedia);
    RemoveIdsMembers(run.progress.materials + run.progress.added, RemovedIds(e.removed));
  }

  /** A successful edit keeps the material ids distinct and below the advanced counter. */
  lemma EditedKeepsIds(c: Course, e: CourseEdit, nextId: MaterialId, files: set<string>)
    requires DistinctIds(c.material) && IdsBelow(c.material, nextId)
    requires Edited(c, e, nextId, files).reply.status == 200
    ensures var o := Edited(c, e, nextId, files);
            DistinctIds(o.course.material) && IdsBelow(o.course.material, nextId + o.added)
  {
    var cover := CoverStep(files, TruthyOverwrite(c, e), e.cover);
    CoverStepMeaning(files, TruthyOverwrite(c, e), e.cover);
    RunRejection(c.material, cover.files, e.materials, nextId, MissingMedia);
    AppendedIds(c.material, cover.files, e.materials, nextId, MissingMedia);
    var run := Run(Progress(c.material, [], cover.files), e.materials, nextId, MissingMedia);
    RemoveIdsKeepsIds(run.progress.materials + run.progress.added, RemovedIds(e.removed), nextId + |run.progress.added|);
  }

  /**
   * The edit handler as written. The course is saved only when every check
   * passes, but the cover image and material media it replaces are deleted
   * from the file store as soon as the replacement is uploaded, before the
   * later checks.
   */
  method Edit(db: Database, courseId: CourseId, e: CourseEdit) returns (reply: Reply)
    requires db.Valid()
    modifies db`courses, db`nextMaterial, db`files
    ensures db.Valid()
    ensures courseId !in old(db.courses) ==>
              reply == Reply(404, "Course not found!") && db.courses == old(db.courses)
              && db.files == old(db.files) && db.nextMaterial == old(db.nextMaterial)
    ensures courseId in old(db.courses) ==>
              var o := Edited(old(db.courses[courseId]), e, old(db.nextMaterial), old(db.files));
              && reply == o.reply
              && db.files == o.files
              && db.nextMaterial == old(db.nextMaterial) + o.added
              && db.courses == (if reply.status == 200 then old(db.courses)[courseId := o.course] else old(db.courses))
  {
    if courseId !in db.courses {
      return Reply(404, "Course not found!");
    }
    var course := db.courses[courseId];
    reply := ApplyEdit(db, courseId, course, e);
  }

  /**
   * The steps after the course is found: the base fields, the cover, the
   * material loop, appending, removal and the save.
   */
  method ApplyEdit(db: Database, courseId: CourseId, course: Course, e: CourseEdit) returns (reply: Reply)
    requires db.Valid() && courseId in db.courses && db.courses[courseId] == course
    modifies db`courses, db`nextMaterial, db`files
    ensures db.Valid()
    ensures var o := Edited(course, e, old(db.nextMaterial), old(db.files));
            && reply == o.reply
            && db.files == o.files
            && db.nextMaterial == old(db.nextMaterial) + o.added
            && db.courses == (if reply.status == 200 then old(db.courses)[courseId := o.course] else old(db.courses))
  {
    var updated := TruthyOverwrite(course, e);
    var rejection;
    rejection, updated := ReplaceCover(db, updated, e.cover);
    if rejection.Some? {
      return rejection.value;
    }
    CoverStepMeaning(old(db.files), TruthyOverwrite(course, e), e.cover);
    var materials, added;
    rejection, materials, added := EditMaterials(db, updated.material, e.materials, db.nextMaterial, MissingMedia);
    if rejection.Some? {
      return rejection.value;
    }
    var kept := RemoveMaterials(db, materials + added, e.removed);
    ghost var o := Edited(course, e, old(db.nextMaterial), old(db.files));
    assert o.course == updated.(material := kept) && o.added == |added| && o.files == db.files;
    EditedKeepsIds(course, e, old(db.nextMaterial), old(db.files));
    SaveCourse(db, courseId, updated.(material := kept), |added|);
    reply := Reply(200, "Course updated!");
  }

  /**
   * The removal step: when removal entries are given, the media they name
   * are deleted and the materials with their ids are filtered out.
   */
  method RemoveMaterials(db: Database, materials: seq<Material>, removed: seq<RemovedInput>) returns (kept: seq<Material>)
    modifies db`files
    ensures kept == if |removed| > 0 then RemoveIds(materials, RemovedIds(removed)) else materials
    ensures db.files == RemovedMedia(old(db.files), removed)
  {
    kept := materials;
    if |removed| > 0 {
      var removeIds := [];
      for i := 0 to |removed|
        invariant removeIds == RemovedIds(removed[..i])
        invariant db.files == RemovedMedia(old(db.files), removed[..i])
      {
        assert removed[..i + 1][..i] == removed[..i];
        assert RemovedIds(removed[..i + 1]) == RemovedIds(removed[..i]) + [removed[i].id];
        var media := removed[i].media;
        if media.Some? && media.value != "" {
          db.files := db.files - {media.value};
        }
        removeIds := removeIds + [removed[i].id];
      }
      assert removed[..|removed|] == removed;
      kept := RemoveIds(materials, removeIds);
    }
  }

  /**
   * The edit handler with every check made before the file store is
   * touched: it answers what the written handler answers, but a rejected
   * edit leaves both the course and the file store as they were.
   */
  method EditChecked(db: Database, courseId: CourseId, e: CourseEdit) returns (reply: Reply)
    requires db.Valid()
    modifies db`courses, db`nextMaterial, db`files
    ensures db.Valid()
    ensures courseId !in old(db.courses) ==> reply == Reply(404, "Course not found!")
    ensures courseId in old(db.courses) ==>
              reply == Edited(old(db.courses[courseId]), e, old(db.nextMaterial), old(db.files)).reply
    ensures reply.status != 200 ==>
              db.courses == old(db.courses) && db.files == old(db.files) && db.nextMaterial == old(db.nextMaterial)
    ensures reply.status == 200 ==>
              var o := Edited(old(db.courses[courseId]), e, old(db.nextMaterial), old(db.files));
              && db.files == o.files
              && db.nextMaterial == old(db.nextMaterial) + o.added
              && db.courses == old(db.courses)[courseId := o.course]
  {
    if courseId !in db.courses {
      return Reply(404, "Course not found!");
    }
    var course := db.courses[courseId];
    EditRejectionAgrees(course, e, db.nextMaterial, db.files);
    var rejection := EditRejection(course, e);
    if rejection.Some? {
      return rejection.value;
    }
    reply := ApplyEdit(db, courseId, course, e);
  }

  /**
   * An edit that uploads a new cover and then names a material the course
   * does not have is rejected and saves nothing, yet the old cover file is
   * gone while the course still points at it.
   */
  lemma RejectedEditDeletesCover()
    ensures var c := Course("Algebra", "math", "Basics", Some("old.png"), 1, []);
            var e := CourseEdit("", "", "", Some(Upload("image/png", "new.png")), [MaterialInput(Some(7), "Intro", "", None)], []);
            var o := Edited(c, e, 0, {"old.png"});
            && o.reply == Reply(400, "Material not found!")
            && o.course.coverImage == Some("old.png")
            && "old.png" !in o.files
  {
    var c := Course("Algebra", "math", "Basics", Some("old.png"), 1, []);
    var e := CourseEdit("", "", "", Some(Upload("image/png", "new.png")), [MaterialInput(Some(7), "Intro", "", None)], []);
    assert e.materials[..0] == [];
    assert "image/png" in AllowedImageTypes;
  }
}

/**
 * The teacher course controller: creating a course with its materials,
 * editing and deleting one's own course, and the paged list of courses.
 */
module TeacherCourse {
  import opened Common
  import opened Db
  import opened Paging
  import opened CourseMaterial

  /** A new material of a create request. */
  datatype NewMaterialInput = NewMaterialInput(title: string, description: string, media: Option<Upload>)

  /**
   * The body of a create request; "" stands for a missing text field.
   * `materialLength` is the raw `material_length` field and `parsedLength`
   * what `parseInt(material_length, 10)` gives (None for NaN); `materials[i]`
   * are the `material[i]` fields sent.
   */
  datatype CourseCreate = CourseCreate(
    name: string,
    description: string,
    category: string,
    materialLength: string,
    parsedLength: Option<int>,
    cover: Option<Upload>,
    materials: seq<NewMaterialInput>)

  /** `parseInt(material_length, 10) || 0`. */
  function MaterialCount(parsed: Option<int>): int
  {
    if parsed.Some? then parsed.value else 0
  }

  /** How many iterations the material loop of `create` makes. */
  function Iterations(parsed: Option<int>): (n: nat)
    ensures n == 0 <==> MaterialCount(parsed) <= 0
    ensures n > 0 ==> n == MaterialCount(parsed)
  {
    if MaterialCount(parsed) > 0 then MaterialCount(parsed) else 0
  }

  /** The material built from entry `i` of a create request, numbered from `nextId`. */
  function CreatedMaterial(m: NewMaterialInput, id: MaterialId): Material
    requires m.media.Some?
  {
    Material(id, m.title, m.description, MimePrefix(m.media.value.mimetype), m.media.value.savedAs)
  }

  /** Why entry `i` of a create request is rejected, if it is. */
  function EntryRejection(ms: seq<NewMaterialInput>, i: nat): (r: Option<Reply>)
    ensures r.None? <==> i < |ms| && ms[i].media.Some? && ms[i].media.value.savedAs != ""
    ensures r.Some? ==> r.value.status == 400
  {
    if i >= |ms| || ms[i].media.None? then Some(Reply(400, "Media file missing for material " + NatToString(i + 1)))
    else if ms[i].media.value.savedAs == "" then Some(Reply(400, "Media file upload failed!"))
    else None
  }

  /** The reply of the first of the first `n` material entries that is rejected, if any. */
  function CreateMaterialRejection(ms: seq<NewMaterialInput>, n: nat): Option<Reply>
  {
    if n == 0 then None
    else
      var before := CreateMaterialRejection(ms, n - 1);
      if before.Some? then before else EntryRejection(ms, n - 1)
  }

  /**
   * No rejection means every entry up to the count has a stored file; a
   * rejection is that of the first entry rejected.
   */
  lemma {:induction false} CreateMaterialRejectionFirst(ms: seq<NewMaterialInput>, n: nat)
    ensures CreateMaterialRejection(ms, n).None? <==> forall i :: 0 <= i < n ==> EntryRejection(ms, i).None?
    ensures CreateMaterialRejection(ms, n).None? ==> n <= |ms|
    ensures CreateMaterialRejection(ms, n).Some? ==>
              exists i :: && 0 <= i < n && CreateMaterialRejection(ms, n) == EntryRejection(ms, i)
                          && forall j :: 0 <= j < i ==> EntryRejection(ms, j).None?
  {
    if n > 0 {
      CreateMaterialRejectionFirst(ms, n - 1);
      if CreateMaterialRejection(ms, n - 1).None? && n - 1 > 0 {
        assert EntryRejection(ms, n - 2).None?;
      }
    }
  }

  /**
   * The index of the first of the first `n` entries that is refused, or `n`
   * when none is: the loop stores the files of the entries before it.
   */
  function FirstRefused(ms: seq<NewMaterialInput>, n: nat): (k: nat)
    ensures k <= n
    ensures forall i :: 0 <= i < k ==> EntryRejection(ms, i).None?
    ensures k < n ==> EntryRejection(ms, k).Some?
  {
    if n == 0 then 0
    else
      var k := FirstRefused(ms, n - 1);
      if k < n - 1 || EntryRejection(ms, n - 1).Some? then k else n
  }

  /** The stored files after the first `n` uploads of a create request. */
  function CreateFiles(files: set<string>, ms: seq<NewMaterialInput>, n: nat): set<string>
  {
    if n == 0 then files
    else if n - 1 < |ms| && ms[n - 1].media.Some? && ms[n - 1].media.value.savedAs != "" then
      Saved(CreateFiles(files, ms, n - 1), ms[n - 1].media.value)
    else CreateFiles(files, ms, n - 1)
  }

  /** The request names a course, a description, a category and a material count. */
  predicate FieldsGiven(req: CourseCreate)
  {
    req.name != "" && req.description != "" && req.category != "" && req.materialLength != ""
  }

  /**
   * `create`: an anonymous request is a 401; a missing name, description,
   * category or material count a 400; an unknown teacher a 404; then the
   * cover (type checked against the allowed images) and one material per
   * entry up to the count, each needing its file. On success the course is
   * stored under a fresh id with the materials in request order and the id is
   * appended once to the teacher's course list. Rejections store no course,
   * but uploads made before them stay in the file store.
   */
  method Create(db: Database, user: Option<UserId>, req: CourseCreate) returns (reply: Reply)
    requires db.Valid()
    modifies db`courses, db`nextCourse, db`nextMaterial, db`teachers, db`files
    ensures db.Valid()
    ensures user.None? ==> reply == Reply(401, "Unauthorized - Please login first!") && db.files == old(db.files)
    ensures user.Some? && !FieldsGiven(req) ==> reply == Reply(400, "All fields are required!") && db.files == old(db.files)
    ensures user.Some? && FieldsGiven(req) && user.value !in old(db.teachers) ==>
              reply == Reply(404, "Instructor not found!") && db.files == old(db.files)
    ensures user.Some? && FieldsGiven(req) && user.value in old(db.teachers) && req.cover.Some? ==>
              && (req.cover.value.mimetype !in AllowedImageTypes ==>
                    reply == Reply(400, "Invalid cover image type!") && db.files == old(db.files))
              && (req.cover.value.mimetype in AllowedImageTypes && req.cover.value.savedAs == "" ==>
                    reply == Reply(400, "Cover image upload failed!") && db.files == old(db.files))
    ensures reply.status != 201 ==>
              && db.courses == old(db.courses) && db.nextCourse == old(db.nextCourse)
              && db.nextMaterial == old(db.nextMaterial) && db.teachers == old(db.teachers)
              && old(db.files) <= db.files
    ensures reply.status == 201 <==>
              && user.Some? && FieldsGiven(req) && user.value in old(db.teachers)
              && (req.cover.Some? ==> req.cover.value.mimetype in AllowedImageTypes && req.cover.value.savedAs != "")
              && CreateMaterialRejection(req.materials, Iterations(req.parsedLength)).None?
    ensures && user.Some? && FieldsGiven(req) && user.value in old(db.teachers)
            && (req.cover.Some? ==> req.cover.value.mimetype in AllowedImageTypes && req.cover.value.savedAs != "")
            && reply.status != 201 ==>
              && Some(reply) == CreateMaterialRejection(req.materials, Iterations(req.parsedLength))
              && db.files == CreateFiles(if req.cover.Some? then Saved(old(db.files), req.cover.value) else old(db.files),
                                         req.materials, FirstRefused(req.materials, Iterations(req.parsedLength)))
    ensures reply.status == 201 ==>
              var id := old(db.nextCourse);
              var n := Iterations(req.parsedLength);
              && reply == Reply(201, "Course created successfully!")
              && id !in old(db.courses)
              && db.nextCourse == id + 1
              && db.nextMaterial == old(db.nextMaterial) + n
              && db.courses == old(db.courses)[id := Course(req.name, req.category, req.description, CoverName(req.cover),
                                                            user.value, CreatedMaterials(req.materials, n, old(db.nextMaterial)))]
              && db.teachers == old(db.teachers)[user.value := Teacher(old(db.teachers[user.value]).courses + [id])]
              && db.files == CreateFiles(if req.cover.Some? then Saved(old(db.files), req.cover.value) else old(db.files),
                                         req.materials, n)
  {
    if user.None? {
      return Reply(401, "Unauthorized - Please login first!");
    }
    if !FieldsGiven(req) {
      return Reply(400, "All fields are required!");
    }
    var uid := user.value;
    if uid !in db.teachers {
      return Reply(404, "Instructor not found!");
    }
    var coverRejection, coverImage := SaveCover(db, req.cover);
    if coverRejection.Some? {
      return coverRejection.value;
    }
    var materialLength := Iterations(req.parsedLength);
    var rejection, material := CreateMaterials(db, req.materials, materialLength, db.nextMaterial);
    if rejection.Some? {
      CreateMaterialRejectionFirst(req.materials, materialLength);
      return rejection.value;
    }
    var course := Course(req.name, req.category, req.description, coverImage, uid, material);
    var id := StoreCourse(db, uid, course, materialLength);
    reply := Reply(201, "Course created successfully!");
  }

  /**
   * The cover step of `create`: a cover of a type other than the allowed
   * images, or whose upload failed, is refused with a 400 and nothing stored;
   * otherwise its file is stored.
   */
  method SaveCover(db: Database, cover: Option<Upload>) returns (rejection: Option<Reply>, coverImage: Option<string>)
    modifies db`files
    ensures rejection.None? <==> (cover.Some? ==> cover.value.mimetype in AllowedImageTypes && cover.value.savedAs != "")
    ensures rejection.Some? ==> rejection.value.status == 400 && db.files == old(db.files)
    ensures cover.Some? && cover.value.mimetype !in AllowedImageTypes ==> rejection == Some(Reply(400, "Invalid cover image type!"))
    ensures cover.Some? && cover.value.mimetype in AllowedImageTypes && cover.value.savedAs == "" ==>
              rejection == Some(Reply(400, "Cover image upload failed!"))
    ensures rejection.None? ==> coverImage == CoverName(cover) && db.files == if cover.Some? then Saved(old(db.files), cover.value) else old(db.files)
  {
    coverImage := None;
    if cover.Some? {
      var coverImageFile := cover.value;
      if coverImageFile.mimetype !in AllowedImageTypes {
        return Some(Reply(400, "Invalid cover image type!")), None;
      }
      var uploadedImage := coverImageFile.savedAs;
      if uploadedImage == "" {
        return Some(Reply(400, "Cover image upload failed!")), None;
      }
      db.files := db.files + {uploadedImage};
      coverImage := Some(uploadedImage);
    }
    rejection := None;
  }

  /**
   * Saving a new course: it gets the next course id, the material counter
   * moves past its `added` new materials, and the id is appended to its
   * teacher's course list.
   */
  method StoreCourse(db: Database, uid: UserId, course: Course, added: nat) returns (id: CourseId)
    requires db.Valid() && uid in db.teachers
    requires DistinctIds(course.material) && IdsBelow(course.material, db.nextMaterial + added)
    modifies db`courses, db`nextCourse, db`nextMaterial, db`teachers
    ensures db.Valid()
    ensures id == old(db.nextCourse) && id !in old(db.courses)
    ensures db.courses == old(db.courses)[id := course]
    ensures db.nextCourse == id + 1 && db.nextMaterial == old(db.nextMaterial) + added
    ensures db.teachers == old(db.teachers)[uid := Teacher(old(db.teachers[uid]).courses + [id])]
  {
    id := db.nextCourse;
    db.courses := db.courses[id := course];
    db.nextCourse := db.nextCourse + 1;
    db.nextMaterial := db.nextMaterial + added;
    db.teachers := db.teachers[uid := Teacher(db.teachers[uid].courses + [id])];
  }

  /**
   * The material loop of `create`: the first `n` entries each need a stored
   * media file; the materials are numbered from `firstId` in request order.
   * Files stored before a rejection stay stored.
   */
  method CreateMaterials(db: Database, ms: seq<NewMaterialInput>, n: nat, firstId: MaterialId)
    returns (rejection: Option<Reply>, material: seq<Material>)
    modifies db`files
    ensures rejection == CreateMaterialRejection(ms, n)
    ensures old(db.files) <= db.files
    ensures rejection.None? ==> db.files == CreateFiles(old(db.files), ms, n) && material == CreatedMaterials(ms, n, firstId)
    ensures rejection.Some? ==> db.files == CreateFiles(old(db.files), ms, FirstRefused(ms, n))
  {
    material := [];
    for i := 0 to n
      invariant CreateMaterialRejection(ms, i).None?
      invariant material == CreatedMaterials(ms, i, firstId)
      invariant db.files == CreateFiles(old(db.files), ms, i)
      invariant old(db.files) <= db.files
    {
      if i >= |ms| || ms[i].media.None? {
        RejectionPersists(ms, i + 1, n);
        RefusedAt(ms, i, n);
        return Some(Reply(400, "Media file missing for material " + NatToString(i + 1))), material;
      }
      var file := ms[i].media.value;
      var uploadedMedia := file.savedAs;
      if uploadedMedia == "" {
        RejectionPersists(ms, i + 1, n);
        RefusedAt(ms, i, n);
        return Some(Reply(400, "Media file upload failed!")), material;
      }
      db.files := db.files + {uploadedMedia};
      material := material + [CreatedMaterial(ms[i], firstId + i)];
    }
    rejection := None;
  }

  /** The cover image name a create request stores: the saved file's, or none. */
  function CoverName(cover: Option<Upload>): Option<string>
  {
    if cover.Some? then Some(cover.value.savedAs) else None
  }

  /**
   * The materials of an accepted create request: entry `k` of the first `n`
   * becomes a material numbered `firstId + k`, with its title, description,
   * media kind and stored file; the ids are distinct and below `firstId + n`.
   */
  function CreatedMaterials(ms: seq<NewMaterialInput>, n: nat, firstId: MaterialId): (r: seq<Material>)
    requires CreateMaterialRejection(ms, n).None?
    ensures |r| == n
    ensures forall k :: 0 <= k < n ==> k < |ms| && ms[k].media.Some? && r[k] == CreatedMaterial(ms[k], firstId + k)
    ensures DistinctIds(r) && IdsBelow(r, firstId + n)
  {
    if n == 0 then []
    else CreatedMaterials(ms, n - 1, firstId) + [CreatedMaterial(ms[n - 1], firstId + n - 1)]
  }

  /** When every entry before `i` passes and entry `i` is refused, `i` is the first refused. */
  lemma RefusedAt(ms: seq<NewMaterialInput>, i: nat, n: nat)
    requires i < n && CreateMaterialRejection(ms, i).None? && EntryRejection(ms, i).Some?
    ensures FirstRefused(ms, n) == i
  {
    CreateMaterialRejectionFirst(ms, i);
  }

  /** The rejection of a create request is that of its first refused entry, and there is one exactly when it is refused. */
  lemma FirstRefusedRejects(ms: seq<NewMaterialInput>, n: nat)
    ensures CreateMaterialRejection(ms, n).Some? <==> FirstRefused(ms, n) < n
    ensures FirstRefused(ms, n) < n ==> CreateMaterialRejection(ms, n) == EntryRejection(ms, FirstRefused(ms, n))
  {
    CreateMaterialRejectionFirst(ms, n);
    if CreateMaterialRejection(ms, n).Some? {
      var i :| && 0 <= i < n && CreateMaterialRejection(ms, n) == EntryRejection(ms, i)
               && forall j :: 0 <= j < i ==> EntryRejection(ms, j).None?;
      assert FirstRefused(ms, n) == i;
    }
  }

  /** A rejection at some entry is the answer for every longer count. */
  lemma {:induction false} RejectionPersists(ms: seq<NewMaterialInput>, m: nat, n: nat)
    requires m <= n
    ensures CreateMaterialRejection(ms, m).Some? ==> CreateMaterialRejection(ms, n) == CreateMaterialRejection(ms, m)
  {
    if m < n {
      RejectionPersists(ms, m, n - 1);
    }
  }

  /** The body of an edit request; "" stands for a missing text field. */
  datatype CourseEdit = CourseEdit(
    name: string,
    category: string,
    description: string,
    cover: Option<Upload>,
    materials: seq<MaterialInput>,
    removed: seq<RemovedInput>)

  const MissingMedia := "Some media file is must!"

  /**
   * The removal loop of `edit`: each entry deletes its media file and
   * filters out its id. `deleteFile` of a missing name throws, and the
   * handler answers 500 without saving.
   */
  function RemoveEach(ms: seq<Material>, files: set<string>, removed: seq<RemovedInput>): Option<(seq<Material>, set<string>)>
  {
    if removed == [] then Some((ms, files))
    else
      var before := RemoveEach(ms, files, removed[..|removed| - 1]);
      var last := removed[|removed| - 1];
      if before.None? || last.media.None? then None
      else Some((RemoveIds(before.value.0, [last.id]), Deleted(before.value.1, last.media.value)))
  }

  /**
   * Filtering one id at a time removes all the listed ids at once, and the
   * loop fails exactly when some entry has no media name.
   */
  lemma {:induction false} RemoveEachAll(ms: seq<Material>, files: set<string>, removed: seq<RemovedInput>)
    ensures RemoveEach(ms, files, removed).None? <==> exists k :: 0 <= k < |removed| && removed[k].media.None?
    ensures RemoveEach(ms, files, removed).Some? ==> RemoveEach(ms, files, removed).value.0 == RemoveIds(ms, RemovedIds(removed))
  {
    if removed != [] {
      var init := removed[..|removed| - 1];
      RemoveEachAll(ms, files, init);
      if RemoveEach(ms, files, init).Some? {
        RemoveIdsOneMore(ms, RemovedIds(init), removed[|removed| - 1].id);
      }
      if exists k :: 0 <= k < |init| && init[k].media.None? {
        var k :| 0 <= k < |init| && init[k].media.None?;
        assert removed[k] == init[k];
      }
      if exists k :: 0 <= k < |removed| && removed[k].media.None? {
        var k :| 0 <= k < |removed| && removed[k].media.None?;
        if k < |init| {
          assert init[k] == removed[k];
        }
      }
    } else {
      assert RemoveIds(ms, []) == ms by {
        RemoveIdsNone(ms);
      }
    }
  }

  lemma {:induction false} RemoveIdsNone(ms: seq<Material>)
    ensures RemoveIds(ms, []) == ms
  {
    if ms != [] {
      RemoveIdsNone(ms[1..]);
    }
  }

  /** The outcome of an edit of an existing, owned course: the reply, the course to save, how many new materials, the files. */
  datatype EditOutcome = EditOutcome(reply: Reply, course: Course, added: nat, files: set<string>)

  /**
   * The edit of an owned course as written: name, category and description
   * are overwritten with whatever was sent, then the cover, the material loop,
   * appending and removal. A rejection keeps the course but not the files.
   */
  function Edited(c: Course, e: CourseEdit, nextId: MaterialId, files: set<string>): EditOutcome
  {
    var base := c.(name := e.name, category := e.category, description := e.description);
    var cover := CoverStep(files, base, e.cover);
    if cover.rejection.Some? then EditOutcome(cover.rejection.value, c, 0, cover.files)
    else
      var run := Run(Progress(cover.course.material, [], cover.files), e.materials, nextId, MissingMedia);
      if run.rejection.Some? then EditOutcome(run.rejection.value, c, 0, run.progress.files)
      else
        var removal := RemoveEach(run.progress.materials + run.progress.added, run.progress.files, e.removed);
        if removal.None? then EditOutcome(Reply(500, "Internal server error"), c, 0, Deletions(run.progress.files, e.removed))
        else EditOutcome(Reply(200, "Course updated!"), cover.course.(material := removal.value.0), |run.progress.added|, removal.value.1)
  }

  /** The files after the removal loop has deleted media up to the first entry without one. */
  function Deletions(files: set<string>, removed: seq<RemovedInput>): set<string>
  {
    if removed == [] || removed[0].media.None? then files
    else Deletions(Deleted(files, removed[0].media.value), removed[1..])
  }

  /**
   * A successful edit sets name, category and description to the values
   * sent, even empty ones; none of the removed ids is left and every other
   * material is; the ids stay distinct and below the advanced counter.
   */
  lemma EditedMeaning(c: Course, e: CourseEdit, nextId: MaterialId, files: set<string>)
    requires DistinctIds(c.material) && IdsBelow(c.material, nextId)
    requires Edited(c, e, nextId, files).reply.status == 200
    ensures var o := Edited(c, e, nextId, files);
            && o.course.name == e.name && o.course.category == e.category && o.course.description == e.description
            && o.course.instructor == c.instructor
            && DistinctIds(o.course.material) && IdsBelow(o.course.material, nextId + o.added)
            && forall m :: m in o.course.material ==> Some(m.id) !in RemovedIds(e.removed)
  {
    var base := c.(name := e.name, category := e.category, description := e.description);
    var cover := CoverStep(files, base, e.cover);
    CoverStepMeaning(files, base, e.cover);
    RunRejection(c.material, cover.files, e.materials, nextId, MissingMedia);
    AppendedIds(c.material, cover.files, e.materials, nextId, MissingMedia);
    var run := Run(Progress(c.material, [], cover.files), e.materials, nextId, MissingMedia);
    var all := run.progress.materials + run.progress.added;
    RemoveEachAll(all, run.progress.files, e.removed);
    RemoveIdsKeepsIds(all, RemovedIds(e.removed), nextId + |run.progress.added|);
    RemoveIdsMembers(all, RemovedIds(e.removed));
  }

  /**
   * `edit`: without a user a 400; an unknown teacher or course a 404; a
   * course of another instructor a 400, with nothing changed. Otherwise the
   * edit runs as `Edited` says and the course is saved only on success.
   */
  method Edit(db: Database, user: Option<UserId>, courseId: CourseId, e: CourseEdit) returns (reply: Reply)
    requires db.Valid()
    modifies db`courses, db`nextMaterial, db`files
    ensures db.Valid()
    ensures user.None? ==> reply == Reply(400, "Unauthorized - Login first!")
    ensures user.Some? && user.value !in old(db.teachers) ==> reply == Reply(404, "Instructor not found!")
    ensures user.Some? && user.value in old(db.teachers) && courseId !in old(db.courses) ==> reply == Reply(404, "Course not found!")
    ensures user.Some? && user.value in old(db.teachers) && courseId in old(db.courses) && old(db.courses[courseId]).instructor != user.value ==>
              reply == Reply(400, "Only course owner can edit the course!")
    ensures !(user.Some? && user.value in old(db.teachers) && courseId in old(db.courses) && old(db.courses[courseId]).instructor == user.value) ==>
              db.courses == old(db.courses) && db.files == old(db.files) && db.nextMaterial == old(db.nextMaterial)
    ensures user.Some? && user.value in old(db.teachers) && courseId in old(db.courses) && old(db.courses[courseId]).instructor == user.value ==>
              var o := Edited(old(db.courses[courseId]), e, old(db.nextMaterial), old(db.files));
              && reply == o.reply
              && db.files == o.files
              && db.nextMaterial == old(db.nextMaterial) + o.added
              && db.courses == (if reply.status == 200 then old(db.courses)[courseId := o.course] else old(db.courses))
  {
    if user.None? {
      return Reply(400, "Unauthorized - Login first!");
    }
    if user.value !in db.teachers {
      return Reply(404, "Instructor not found!");
    }
    if courseId !in db.courses {
      return Reply(404, "Course not found!");
    }
    var course := db.courses[courseId];
    if course.instructor != user.value {
      return Reply(400, "Only course owner can edit the course!");
    }
    var updated := course.(name := e.name, category := e.category, description := e.description);
    var rejection;
    rejection, updated := ReplaceCover(db, updated, e.cover);
    if rejection.Some? {
      return rejection.value;
    }
    CoverStepMeaning(old(db.files), course.(name := e.name, category := e.category, description := e.description), e.cover);
    var materials, added;
    rejection, materials, added := EditMaterials(db, updated.material, e.materials, db.nextMaterial, MissingMedia);
    if rejection.Some? {
      return rejection.value;
    }
    var kept, ok := RemoveOneByOne(db, materials + added, e.removed);
    if !ok {
      return Reply(500, "Internal server error");
    }
    ghost var o := Edited(course, e, old(db.nextMaterial), old(db.files));
    assert o.course == updated.(material := kept) && o.added == |added| && o.files == db.files;
    EditedMeaning(course, e, old(db.nextMaterial), old(db.files));
    SaveCourse(db, courseId, updated.(material := kept), |added|);
    reply := Reply(200, "Course updated!");
  }

  /** The removal loop of `edit`, on the file store; `ok` is false when it throws. */
  method RemoveOneByOne(db: Database, materials: seq<Material>, removed: seq<RemovedInput>) returns (kept: seq<Material>, ok: bool)
    modifies db`files
    ensures ok <==> RemoveEach(materials, old(db.files), removed).Some?
    ensures ok ==> (kept, db.files) == RemoveEach(materials, old(db.files), removed).value
    ensures !ok ==> db.files == Deletions(old(db.files), removed)
  {
    kept := materials;
    for i := 0 to |removed|
      invariant RemoveEach(materials, old(db.files), removed[..i]) == Some((kept, db.files))
      invariant Deletions(old(db.files), removed) == Deletions(db.files, removed[i..])
    {
      assert removed[..i + 1][..i] == removed[..i];
      if removed[i].media.None? {
        NoneStops(materials, old(db.files), removed, i + 1);
        return kept, false;
      }
      assert removed[i..][1..] == removed[i + 1..];
      db.files := db.files - {removed[i].media.value};
      kept := RemoveIds(kept, [removed[i].id]);
    }
    assert removed[..|removed|] == removed;
    ok := true;
  }

  /** Once the removal loop has thrown, the remaining entries do not matter. */
  lemma {:induction false} NoneStops(ms: seq<Material>, files: set<string>, removed: seq<RemovedInput>, n: nat)
    requires n <= |removed|
    ensures RemoveEach(ms, files, removed[..n]).None? ==> RemoveEach(ms, files, removed).None?
  {
    if n < |removed| {
      NoneStops(ms, files, removed[..|removed| - 1], n);
      assert removed[..|removed| - 1][..n] == removed[..n];
    } else {
      assert removed[..n] == removed;
    }
  }

  /**
   * `delete`: without a user a 400, an unknown course a 404, a course of
   * another instructor a 400, an unknown teacher a 404, all with nothing
   * changed; otherwise the cover and every material's media are deleted from
   * the file store and the course is removed. The teacher's course list and
   * the enrollments of the course are left as they are.
   */
  method Delete(db: Database, user: Option<UserId>, courseId: CourseId) returns (reply: Reply)
    requires db.Valid()
    modifies db`courses, db`files
    ensures db.Valid()
    ensures user.None? ==> reply == Reply(400, "Unauthorized - Login first!")
    ensures user.Some? && courseId !in old(db.courses) ==> reply == Reply(404, "Course not found!")
    ensures user.Some? && courseId in old(db.courses) && old(db.courses[courseId]).instructor != user.value ==>
              reply == Reply(400, "Only course owner can delete the course!")
    ensures user.Some? && courseId in old(db.courses) && old(db.courses[courseId]).instructor == user.value && user.value !in db.teachers ==>
              reply == Reply(404, "Instructor not found!")
    ensures reply.status == 200 <==>
              user.Some? && courseId in old(db.courses) && old(db.courses[courseId]).instructor == user.value && user.value in db.teachers
    ensures reply.status != 200 ==> db.courses == old(db.courses) && db.files == old(db.files)
    ensures reply.status == 200 ==>
              && reply == Reply(200, "Course deleted!")
              && db.courses == old(db.courses) - {courseId}
              && db.files == MediaDeleted(CoverDeleted(old(db.files), old(db.courses[courseId]).coverImage), old(db.courses[courseId]).material)
              && (forall k :: 0 <= k < |old(db.courses[courseId]).material| ==> old(db.courses[courseId]).material[k].media !in db.files)
  {
    if user.None? {
      return Reply(400, "Unauthorized - Login first!");
    }
    if courseId !in db.courses {
      return Reply(404, "Course not found!");
    }
    var course := db.courses[courseId];
    if course.instructor != user.value {
      return Reply(400, "Only course owner can delete the course!");
    }
    if user.value !in db.teachers {
      return Reply(404, "Instructor not found!");
    }
    DeleteCourseFiles(db, course);
    db.courses := db.courses - {courseId};
    reply := Reply(200, "Course deleted!");
  }

  /** The file deletions of `delete`: the cover when it has one, then every material's media. */
  method DeleteCourseFiles(db: Database, course: Course)
    modifies db`files
    ensures db.files == MediaDeleted(CoverDeleted(old(db.files), course.coverImage), course.material)
    ensures forall k :: 0 <= k < |course.material| ==> course.material[k].media !in db.files
  {
    if course.coverImage.Some? && course.coverImage.value != "" {
      db.files := db.files - {course.coverImage.value};
    }
    ghost var afterCover := db.files;
    for i := 0 to |course.material|
      invariant db.files == MediaDeleted(afterCover, course.material[..i])
    {
      assert course.material[..i + 1][..i] == course.material[..i];
      db.files := db.files - {course.material[i].media};
    }
    assert course.material[..|course.material|] == course.material;
    MediaDeletedRemovesAll(afterCover, course.material);
  }

  function CoverDeleted(files: set<string>, cover: Option<string>): set<string>
  {
    if cover.Some? && cover.value != "" then Deleted(files, cover.value) else files
  }

  function MediaDeleted(files: set<string>, ms: seq<Material>): set<string>
  {
    if ms == [] then files else Deleted(MediaDeleted(files, ms[..|ms| - 1]), ms[|ms| - 1].media)
  }

  /** After the deletions none of the materials' media is left, and no other file is touched. */
  lemma {:induction false} MediaDeletedRemovesAll(files: set<string>, ms: seq<Material>)
    ensures forall k :: 0 <= k < |ms| ==> ms[k].media !in MediaDeleted(files, ms)
    ensures forall f :: f in files && (forall k :: 0 <= k < |ms| ==> ms[k].media != f) ==> f in MediaDeleted(files, ms)
  {
    if ms != [] {
      var init := ms[..|ms| - 1];
      MediaDeletedRemovesAll(files, init);
      assert forall k :: 0 <= k < |init| ==> init[k] == ms[k];
    }
  }

  /** The teacher course list shows ten courses per page. */
  const CoursesPerPage := 10

  /**
   * The paging of `get` over the matching courses: without a user a 400;
   * `page = 1` when the query has none; skip is (page - 1) * 10 and
   * totalPages is ceil(total / 10).
   */
  function GetCourses<T>(loggedIn: bool, page: Option<int>, matching: seq<T>): (r: Result<Listing<T>>)
    ensures !loggedIn ==> r == Failure(Reply(400, "Unauthorized - Login first!"))
    ensures loggedIn && PageOrOne(page) >= 1 ==>
              && r.Success?
              && r.value.totalPages == TotalPages(|matching|, CoursesPerPage)
              && |r.value.items| <= CoursesPerPage
              && (r.value.items != [] <==> PageOrOne(page) <= r.value.totalPages)
              && forall k :: 0 <= k < |r.value.items| ==>
                   var i := Skip(PageOrOne(page), CoursesPerPage) + k;
                   0 <= i < |matching| && r.value.items[k] == matching[i]
    ensures loggedIn && PageOrOne(page) < 1 ==> r == Failure(Reply(500, "Internal server error"))
  {
    if !loggedIn then Failure(Reply(400, "Unauthorized - Login first!"))
    else
      var listed := ListPage(matching, PageOrOne(page), CoursesPerPage);
      if listed.None? then Failure(Reply(500, "Internal server error"))
      else
        WindowNonEmpty(matching, PageOrOne(page), CoursesPerPage);
        Success(listed.value)
  }
}

/**
 * The material-list editing shared by the admin and teacher course
 * controllers: each requested entry either updates the material with its id
 * (title and description, and type and media when a file comes with it) or,
 * without an id, becomes a new material appended after the existing ones;
 * listed ids are then filtered out. Uploads are written to the file store as
 * they are processed and replaced media are deleted at once.
 */
module CourseMaterial {
  import opened Common
  import opened Db

  /**
   * An uploaded file: its mimetype and the name `saveFile` returns for it
   * ("" would be a failed upload).
   */
  datatype Upload = Upload(mimetype: string, savedAs: string)

  /** One `material[i]` entry of the request; `id` is None when `material[i][_id]` is missing. */
  datatype MaterialInput = MaterialInput(id: Option<MaterialId>, title: string, description: string, media: Option<Upload>)

  /** One `removed_material[i]` entry: the id to remove and the media name to delete. */
  datatype RemovedInput = RemovedInput(id: Option<MaterialId>, media: Option<string>)

  /** The cover image types both controllers accept. */
  const AllowedImageTypes: set<string> := {"image/jpeg", "image/png", "image/gif"}

  /** `mimetype.split("/")[0]`: the part before the first slash. */
  function MimePrefix(mimetype: string): (r: string)
    ensures '/' !in r
    ensures r <= mimetype
    ensures |r| < |mimetype| ==> mimetype[|r|] == '/'
  {
    if mimetype == [] || mimetype[0] == '/' then []
    else [mimetype[0]] + MimePrefix(mimetype[1..])
  }

  /** `saveFile` writes the upload under the name it returns. */
  function Saved(files: set<string>, u: Upload): set<string>
  {
    files + {u.savedAs}
  }

  /** `deleteFile`: removes the file when it exists and does nothing otherwise. */
  function Deleted(files: set<string>, name: string): set<string>
  {
    files - {name}
  }

  function Ids(ms: seq<Material>): (r: seq<MaterialId>)
    ensures |r| == |ms|
    ensures forall k :: 0 <= k < |ms| ==> r[k] == ms[k].id
  {
    if ms == [] then [] else [ms[0].id] + Ids(ms[1..])
  }

  /** `findIndex` by id: the first position holding `id`, or -1. */
  function IndexOfId(ms: seq<Material>, id: MaterialId): (r: int)
    ensures -1 <= r < |ms|
    ensures r >= 0 ==> ms[r].id == id && forall k :: 0 <= k < r ==> ms[k].id != id
    ensures r == -1 <==> forall k :: 0 <= k < |ms| ==> ms[k].id != id
  {
    if ms == [] then -1
    else if ms[0].id == id then 0
    else
      var r := IndexOfId(ms[1..], id);
      if r == -1 then -1 else r + 1
  }

  /** `findIndex` depends only on the ids of the list. */
  lemma {:induction false} IndexOfSameIds(ms: seq<Material>, ns: seq<Material>, id: MaterialId)
    requires Ids(ms) == Ids(ns)
    ensures IndexOfId(ms, id) == IndexOfId(ns, id)
  {
    if ms != [] {
      assert ms[0].id == Ids(ms)[0] == Ids(ns)[0] == ns[0].id;
      assert Ids(ms[1..]) == Ids(ms)[1..] && Ids(ns[1..]) == Ids(ns)[1..];
      IndexOfSameIds(ms[1..], ns[1..], id);
    }
  }

  /** Where the cover-image step leaves the edit: an error reply, the course, the file store. */
  datatype CoverOutcome = CoverOutcome(rejection: Option<Reply>, course: Course, files: set<string>)

  /**
   * The cover-image step of both `edit` handlers: a disallowed type or a
   * failed upload is a 400; otherwise the upload is stored, the old cover (if
   * any) is deleted and the course points at the new one.
   */
  function CoverStep(files: set<string>, c: Course, cover: Option<Upload>): CoverOutcome
  {
    if cover.None? then CoverOutcome(None, c, files)
    else if cover.value.mimetype !in AllowedImageTypes then CoverOutcome(Some(Reply(400, "Invalid image type!")), c, files)
    else if cover.value.savedAs == "" then CoverOutcome(Some(Reply(400, "Uploading cover image failed!")), c, files)
    else
      var stored := Saved(files, cover.value);
      var cleaned := if c.coverImage.Some? && c.coverImage.value != "" then Deleted(stored, c.coverImage.value) else stored;
      CoverOutcome(None, c.(coverImage := Some(cover.value.savedAs)), cleaned)
  }

  /**
   * The cover step changes nothing but the cover: it fails only for a
   * disallowed type or a failed upload, and a replaced cover's file is gone
   * from the store while the new one is there.
   */
  lemma CoverStepMeaning(files: set<string>, c: Course, cover: Option<Upload>)
    ensures var o := CoverStep(files, c, cover);
            && o.course.material == c.material && o.course.name == c.name && o.course.instructor == c.instructor
            && (o.rejection.Some? <==> cover.Some? && (cover.value.mimetype !in AllowedImageTypes || cover.value.savedAs == ""))
            && (o.rejection.Some? ==> o.rejection.value.status == 400 && o.files == files && o.course == c)
            && (o.rejection.None? && cover.Some? ==>
                  o.course.coverImage == Some(cover.value.savedAs)
                  && (c.coverImage != Some(cover.value.savedAs) ==> cover.value.savedAs in o.files)
                  && (c.coverImage.Some? && c.coverImage.value !in {"", cover.value.savedAs} ==> c.coverImage.value !in o.files))
  {
  }

  /** The cover-image step, on the file store. */
  method ReplaceCover(db: Database, c: Course, cover: Option<Upload>) returns (rejection: Option<Reply>, updated: Course)
    modifies db`files
    ensures CoverOutcome(rejection, updated, db.files) == CoverStep(old(db.files), c, cover)
  {
    rejection, updated := None, c;
    if cover.Some? {
      var coverImageFile := cover.value;
      if coverImageFile.mimetype !in AllowedImageTypes {
        return Some(Reply(400, "Invalid image type!")), c;
      }
      var uploadedImage := coverImageFile.savedAs;
      if uploadedImage == "" {
        return Some(Reply(400, "Uploading cover image failed!")), c;
      }
      db.files := db.files + {uploadedImage};
      if c.coverImage.Some? && c.coverImage.value != "" {
        db.files := db.files - {c.coverImage.value};
      }
      updated := c.(coverImage := Some(uploadedImage));
    }
  }

  /** What the material loop has built so far: the updated list, the new entries, the file store. */
  datatype Progress = Progress(materials: seq<Material>, added: seq<Material>, files: set<string>)

  /** Where the loop stands: stopped with an error reply, or still going. */
  datatype Outcome = Outcome(rejection: Option<Reply>, progress: Progress)

  /** The material built from a new entry, with the next free id. */
  function NewMaterial(m: MaterialInput, id: MaterialId): Material
  {
    if m.media.Some? then Material(id, m.title, m.description, MimePrefix(m.media.value.mimetype), m.media.value.savedAs)
    else Material(id, m.title, m.description, "", "")
  }

  /**
   * One iteration of the material loop. New entries get the ids `nextId`,
   * `nextId + 1`, ... in request order (the store's fresh subdocument ids).
   */
  function Step(p: Progress, m: MaterialInput, nextId: MaterialId, missingMedia: string): Outcome
  {
    if m.id.Some? then
      var idx := IndexOfId(p.materials, m.id.value);
      if idx == -1 then Outcome(Some(Reply(400, "Material not found!")), p)
      else
        var retitled := p.materials[idx].(title := m.title, description := m.description);
        if m.media.None? then Outcome(None, p.(materials := p.materials[idx := retitled]))
        else if m.media.value.savedAs == "" then Outcome(Some(Reply(400, "Media file uploading failed!")), p)
        else
          var stored := Saved(p.files, m.media.value);
          var files := if p.materials[idx].media != "" then Deleted(stored, p.materials[idx].media) else stored;
          var replaced := retitled.(kind := MimePrefix(m.media.value.mimetype), media := m.media.value.savedAs);
          Outcome(None, Progress(p.materials[idx := replaced], p.added, files))
    else if m.media.None? then Outcome(Some(Reply(400, missingMedia)), p)
    else if m.media.value.savedAs == "" then Outcome(Some(Reply(400, "Media file uploading failed!")), p)
    else Outcome(None, Progress(p.materials, p.added + [NewMaterial(m, nextId + |p.added|)], Saved(p.files, m.media.value)))
  }

  /** The loop over all entries, stopping at the first rejection. */
  function Run(start: Progress, inputs: seq<MaterialInput>, nextId: MaterialId, missingMedia: string): Outcome
  {
    if inputs == [] then Outcome(None, start)
    else
      var before := Run(start, inputs[..|inputs| - 1], nextId, missingMedia);
      if before.rejection.Some? then before
      else Step(before.progress, inputs[|inputs| - 1], nextId, missingMedia)
  }

  /**
   * The material loop of both `edit` handlers. It writes uploads and deletes
   * replaced media as it goes, so the file store changes even when a later
   * entry is rejected; the course itself is only changed by the caller.
   */
  method EditMaterials(db: Database, ms: seq<Material>, inputs: seq<MaterialInput>, nextId: MaterialId, missingMedia: string)
    returns (rejection: Option<Reply>, materials: seq<Material>, added: seq<Material>)
    modifies db`files
    ensures Outcome(rejection, Progress(materials, added, db.files)) == Run(Progress(ms, [], old(db.files)), inputs, nextId, missingMedia)
  {
    rejection, materials, added := None, ms, [];
    for i := 0 to |inputs|
      invariant Run(Progress(ms, [], old(db.files)), inputs[..i], nextId, missingMedia) == Outcome(None, Progress(materials, added, db.files))
    {
      assert inputs[..i + 1][..i] == inputs[..i];
      RunAfterRejection(Progress(ms, [], old(db.files)), inputs, i + 1, nextId, missingMedia);
      var stepRejection;
      stepRejection, materials, added := EditEntry(db, materials, added, inputs[i], nextId, missingMedia);
      if stepRejection.Some? {
        return stepRejection, materials, added;
      }
    }
    assert inputs[..|inputs|] == inputs;
  }

  /** One pass of the material loop, on the file store: what `Step` says. */
  method EditEntry(db: Database, materials: seq<Material>, added: seq<Material>, m: MaterialInput, nextId: MaterialId, missingMedia: string)
    returns (rejection: Option<Reply>, materials': seq<Material>, added': seq<Material>)
    modifies db`files
    ensures Outcome(rejection, Progress(materials', added', db.files)) == Step(Progress(materials, added, old(db.files)), m, nextId, missingMedia)
  {
    materials', added' := materials, added;
    if m.id.Some? {
      var materialIndex := IndexOfId(materials, m.id.value);
      if materialIndex == -1 {
        return Some(Reply(400, "Material not found!")), materials, added;
      }
      var updated := materials[materialIndex].(title := m.title, description := m.description);
      if m.media.Some? {
        var uploadMedia := m.media.value.savedAs;
        if uploadMedia == "" {
          return Some(Reply(400, "Media file uploading failed!")), materials, added;
        }
        db.files := db.files + {uploadMedia};
        if materials[materialIndex].media != "" {
          db.files := db.files - {materials[materialIndex].media};
        }
        updated := updated.(kind := MimePrefix(m.media.value.mimetype), media := uploadMedia);
      }
      materials' := materials[materialIndex := updated];
    } else {
      if m.media.None? {
        return Some(Reply(400, missingMedia)), materials, added;
      }
      var uploadMedia := m.media.value.savedAs;
      if uploadMedia == "" {
        return Some(Reply(400, "Media file uploading failed!")), materials, added;
      }
      db.files := db.files + {uploadMedia};
      added' := added + [NewMaterial(m, nextId + |added|)];
    }
    rejection := None;
  }

  /** Once the loop has stopped, the remaining entries change nothing. */
  lemma {:induction false} RunAfterRejection(start: Progress, inputs: seq<MaterialInput>, n: nat, nextId: MaterialId, missingMedia: string)
    requires n <= |inputs|
    ensures Run(start, inputs[..n], nextId, missingMedia).rejection.Some? ==>
              Run(start, inputs, nextId, missingMedia) == Run(start, inputs[..n], nextId, missingMedia)
  {
    if n < |inputs| {
      RunAfterRejection(start, inputs[..|inputs| - 1], n, nextId, missingMedia);
      assert inputs[..|inputs| - 1][..n] == inputs[..n];
    } else {
      assert inputs[..n] == inputs;
    }
  }

  /** Whether an entry is rejected when the course's materials have ids `ids`. */
  predicate Rejects(ids: seq<MaterialId>, m: MaterialInput)
  {
    if m.id.Some? then m.id.value !in ids || (m.media.Some? && m.media.value.savedAs == "")
    else m.media.None? || m.media.value.savedAs == ""
  }

  /** One iteration keeps the ids of the existing materials. */
  lemma StepKeepsIds(p: Progress, m: MaterialInput, nextId: MaterialId, missingMedia: string)
    ensures Ids(Step(p, m, nextId, missingMedia).progress.materials) == Ids(p.materials)
  {
    var q := Step(p, m, nextId, missingMedia).progress.materials;
    assert |q| == |p.materials|;
    assert forall k :: 0 <= k < |q| ==> q[k].id == p.materials[k].id;
  }

  /** The loop never changes the ids of the existing materials. */
  lemma {:induction false} RunKeepsIds(ms: seq<Material>, files: set<string>, inputs: seq<MaterialInput>, nextId: MaterialId, missingMedia: string)
    ensures Ids(Run(Progress(ms, [], files), inputs, nextId, missingMedia).progress.materials) == Ids(ms)
  {
    if inputs != [] {
      var init := inputs[..|inputs| - 1];
      RunKeepsIds(ms, files, init, nextId, missingMedia);
      var before := Run(Progress(ms, [], files), init, nextId, missingMedia);
      StepKeepsIds(before.progress, inputs[|inputs| - 1], nextId, missingMedia);
    }
  }

  /** The answer to a rejected entry. */
  function RejectReply(ids: seq<MaterialId>, m: MaterialInput, missingMedia: string): Reply
  {
    if m.id.Some? && m.id.value !in ids then Reply(400, "Material not found!")
    else if m.id.None? && m.media.None? then Reply(400, missingMedia)
    else Reply(400, "Media file uploading failed!")
  }

  /** The answer to the first rejected entry, found without running the loop. */
  function FirstRejection(ids: seq<MaterialId>, inputs: seq<MaterialInput>, missingMedia: string): Option<Reply>
  {
    if inputs == [] then None
    else
      var before := FirstRejection(ids, inputs[..|inputs| - 1], missingMedia);
      if before.Some? then before
      else if Rejects(ids, inputs[|inputs| - 1]) then Some(RejectReply(ids, inputs[|inputs| - 1], missingMedia))
      else None
  }

  /** One iteration stops with a 400 exactly when its entry is rejected. */
  lemma StepRejects(p: Progress, ids: seq<MaterialId>, m: MaterialInput, nextId: MaterialId, missingMedia: string)
    requires Ids(p.materials) == ids
    ensures Step(p, m, nextId, missingMedia).rejection.Some? <==> Rejects(ids, m)
    ensures Step(p, m, nextId, missingMedia).rejection.Some? ==> Step(p, m, nextId, missingMedia).rejection.value.status == 400
    ensures Step(p, m, nextId, missingMedia).rejection == (if Rejects(ids, m) then Some(RejectReply(ids, m, missingMedia)) else None)
  {
    if m.id.Some? {
      assert IndexOfId(p.materials, m.id.value) == -1 <==> m.id.value !in ids;
    }
  }

  /**
   * The loop stops with a 400 exactly when some entry names an unknown id,
   * misses the file a new material needs, or has a failed upload.
   */
  lemma {:induction false} RunRejection(ms: seq<Material>, files: set<string>, inputs: seq<MaterialInput>, nextId: MaterialId, missingMedia: string)
    ensures var o := Run(Progress(ms, [], files), inputs, nextId, missingMedia);
            && (o.rejection.Some? <==> exists i :: 0 <= i < |inputs| && Rejects(Ids(ms), inputs[i]))
            && (o.rejection.Some? ==> o.rejection.value.status == 400)
  {
    if inputs != [] {
      var init := inputs[..|inputs| - 1];
      var last := inputs[|inputs| - 1];
      RunRejection(ms, files, init, nextId, missingMedia);
      RunKeepsIds(ms, files, init, nextId, missingMedia);
      var before := Run(Progress(ms, [], files), init, nextId, missingMedia);
      StepRejects(before.progress, Ids(ms), last, nextId, missingMedia);
      if exists i :: 0 <= i < |inputs| && Rejects(Ids(ms), inputs[i]) {
        var i :| 0 <= i < |inputs| && Rejects(Ids(ms), inputs[i]);
        if i < |init| {
          assert init[i] == inputs[i];
        }
      }
      if exists i :: 0 <= i < |init| && Rejects(Ids(ms), init[i]) {
        var i :| 0 <= i < |init| && Rejects(Ids(ms), init[i]);
        assert inputs[i] == init[i];
      }
    }
  }

  /**
   * The loop answers exactly what checking the entries in order, before
   * touching anything, would answer.
   */
  lemma {:induction false} RunFirstRejection(ms: seq<Material>, files: set<string>, inputs: seq<MaterialInput>, nextId: MaterialId, missingMedia: string)
    ensures Run(Progress(ms, [], files), inputs, nextId, missingMedia).rejection == FirstRejection(Ids(ms), inputs, missingMedia)
  {
    if inputs != [] {
      var init := inputs[..|inputs| - 1];
      RunFirstRejection(ms, files, init, nextId, missingMedia);
      RunKeepsIds(ms, files, init, nextId, missingMedia);
      var before := Run(Progress(ms, [], files), init, nextId, missingMedia);
      StepRejects(before.progress, Ids(ms), inputs[|inputs| - 1], nextId, missingMedia);
    }
  }

  /** The entries without an id, in request order: the ones that become new materials. */
  function Fresh(inputs: seq<MaterialInput>): (r: seq<MaterialInput>)
    ensures |r| <= |inputs|
  {
    if inputs == [] then []
    else Fresh(inputs[..|inputs| - 1]) + (if inputs[|inputs| - 1].id.None? then [inputs[|inputs| - 1]] else [])
  }

  lemma StepAdded(p: Progress, m: MaterialInput, nextId: MaterialId, missingMedia: string)
    ensures Step(p, m, nextId, missingMedia).rejection.None? ==>
              Step(p, m, nextId, missingMedia).progress.added
              == p.added + (if m.id.None? then [NewMaterial(m, nextId + |p.added|)] else [])
  {
  }

  /**
   * After a loop that was not rejected, the new materials are the entries
   * without an id, in request order, numbered from `nextId`.
   */
  lemma {:induction false} RunAppendsFresh(ms: seq<Material>, files: set<string>, inputs: seq<MaterialInput>, nextId: MaterialId, missingMedia: string)
    requires Run(Progress(ms, [], files), inputs, nextId, missingMedia).rejection.None?
    ensures var added := Run(Progress(ms, [], files), inputs, nextId, missingMedia).progress.added;
            && |added| == |Fresh(inputs)|
            && forall k :: 0 <= k < |added| ==> added[k] == NewMaterial(Fresh(inputs)[k], nextId + k)
  {
    if inputs != [] {
      var init := inputs[..|inputs| - 1];
      RunAppendsFresh(ms, files, init, nextId, missingMedia);
      var before := Run(Progress(ms, [], files), init, nextId, missingMedia);
      StepAdded(before.progress, inputs[|inputs| - 1], nextId, missingMedia);
    }
  }

  /** The last entry naming material `id`, if any. */
  function LastMention(inputs: seq<MaterialInput>, id: MaterialId): Option<MaterialInput>
  {
    if inputs == [] then None
    else if inputs[|inputs| - 1].id == Some(id) then Some(inputs[|inputs| - 1])
    else LastMention(inputs[..|inputs| - 1], id)
  }

  /** The file of the last entry that names material `id` and brings one, if any. */
  function LastUpload(inputs: seq<MaterialInput>, id: MaterialId): Option<Upload>
  {
    if inputs == [] then None
    else if inputs[|inputs| - 1].id == Some(id) && inputs[|inputs| - 1].media.Some? then inputs[|inputs| - 1].media
    else LastUpload(inputs[..|inputs| - 1], id)
  }

  /**
   * After a loop that was not rejected, a material no entry names is as it
   * was, and a named one carries the title and description of the last
   * entry naming it, and the type and media of the last file sent for it
   * (its own when none was).
   */
  lemma {:induction false} RunUpdates(ms: seq<Material>, files: set<string>, inputs: seq<MaterialInput>, nextId: MaterialId, missingMedia: string)
    requires DistinctIds(ms)
    requires Run(Progress(ms, [], files), inputs, nextId, missingMedia).rejection.None?
    ensures var result := Run(Progress(ms, [], files), inputs, nextId, missingMedia).progress.materials;
            && |result| == |ms|
            && forall j :: 0 <= j < |ms| ==>
                 && result[j].id == ms[j].id
                 && (LastMention(inputs, ms[j].id).None? ==> result[j] == ms[j])
                 && (LastMention(inputs, ms[j].id).Some? ==>
                       result[j].title == LastMention(inputs, ms[j].id).value.title
                       && result[j].description == LastMention(inputs, ms[j].id).value.description)
                 && (LastUpload(inputs, ms[j].id).Some? ==>
                       result[j].kind == MimePrefix(LastUpload(inputs, ms[j].id).value.mimetype)
                       && result[j].media == LastUpload(inputs, ms[j].id).value.savedAs)
                 && (LastUpload(inputs, ms[j].id).None? ==> result[j].kind == ms[j].kind && result[j].media == ms[j].media)
  {
    if inputs != [] {
      var init := inputs[..|inputs| - 1];
      var last := inputs[|inputs| - 1];
      RunUpdates(ms, files, init, nextId, missingMedia);
      var p := Run(Progress(ms, [], files), init, nextId, missingMedia).progress;
      assert DistinctIds(p.materials);
      StepUpdates(p, last, nextId, missingMedia);
      forall j | 0 <= j < |ms|
        ensures LastMention(inputs, ms[j].id) == if last.id == Some(ms[j].id) then Some(last) else LastMention(init, ms[j].id)
        ensures LastUpload(inputs, ms[j].id) ==
                  if last.id == Some(ms[j].id) && last.media.Some? then last.media else LastUpload(init, ms[j].id)
      {
      }
    }
  }

  /**
   * One accepted entry retitles the material it names, gives it the type and
   * name of its file when it brings one, and leaves the others as they were.
   */
  lemma StepUpdates(p: Progress, m: MaterialInput, nextId: MaterialId, missingMedia: string)
    requires DistinctIds(p.materials)
    requires Step(p, m, nextId, missingMedia).rejection.None?
    ensures var q := Step(p, m, nextId, missingMedia).progress.materials;
            && |q| == |p.materials|
            && forall j :: 0 <= j < |q| ==>
                 && q[j].id == p.materials[j].id
                 && (m.id != Some(p.materials[j].id) ==> q[j] == p.materials[j])
                 && (m.id == Some(p.materials[j].id) ==> q[j].title == m.title && q[j].description == m.description)
                 && (m.id == Some(p.materials[j].id) && m.media.Some? ==>
                       q[j].kind == MimePrefix(m.media.value.mimetype) && q[j].media == m.media.value.savedAs)
                 && (m.id == Some(p.materials[j].id) && m.media.None? ==>
                       q[j].kind == p.materials[j].kind && q[j].media == p.materials[j].media)
  {
  }

  /** The ids the removal entries name, in request order (None for an entry without one). */
  function RemovedIds(removed: seq<RemovedInput>): (r: seq<Option<MaterialId>>)
    ensures |r| == |removed|
    ensures forall k :: 0 <= k < |r| ==> r[k] == removed[k].id
  {
    if removed == [] then [] else RemovedIds(removed[..|removed| - 1]) + [removed[|removed| - 1].id]
  }

  /** `filter(m => !removeIds.includes(m._id.toString()))`. */
  function RemoveIds(ms: seq<Material>, ids: seq<Option<MaterialId>>): seq<Material>
  {
    if ms == [] then []
    else (if Some(ms[0].id) in ids then [] else [ms[0]]) + RemoveIds(ms[1..], ids)
  }

  /** After removal none of the listed ids remains, and every other material does. */
  lemma {:induction false} RemoveIdsMembers(ms: seq<Material>, ids: seq<Option<MaterialId>>)
    ensures forall m :: m in RemoveIds(ms, ids) <==> m in ms && Some(m.id) !in ids
    ensures |RemoveIds(ms, ids)| <= |ms|
  {
    if ms != [] {
      RemoveIdsMembers(ms[1..], ids);
      assert ms == [ms[0]] + ms[1..];
    }
  }

  /** Removal keeps the order of the remaining materials: it works piece by piece. */
  lemma {:induction false} RemoveIdsAppend(a: seq<Material>, b: seq<Material>, ids: seq<Option<MaterialId>>)
    ensures RemoveIds(a + b, ids) == RemoveIds(a, ids) + RemoveIds(b, ids)
  {
    if a == [] {
      assert a + b == b;
    } else {
      assert (a + b)[0] == a[0];
      assert (a + b)[1..] == a[1..] + b;
      RemoveIdsAppend(a[1..], b, ids);
    }
  }

  /** Removing the ids one at a time, as the teacher handler does, removes them all at once. */
  lemma {:induction false} RemoveIdsOneMore(ms: seq<Material>, ids: seq<Option<MaterialId>>, id: Option<MaterialId>)
    ensures RemoveIds(RemoveIds(ms, ids), [id]) == RemoveIds(ms, ids + [id])
  {
    if ms != [] {
      RemoveIdsOneMore(ms[1..], ids, id);
      var inAll := Some(ms[0].id) in ids + [id];
      assert inAll <==> Some(ms[0].id) in ids || Some(ms[0].id) == id;
      if Some(ms[0].id) in ids {
        assert RemoveIds(ms, ids) == RemoveIds(ms[1..], ids);
        assert RemoveIds(ms, ids + [id]) == RemoveIds(ms[1..], ids + [id]);
      } else {
        assert RemoveIds(ms, ids) == [ms[0]] + RemoveIds(ms[1..], ids);
        RemoveIdsAppend([ms[0]], RemoveIds(ms[1..], ids), [id]);
        assert RemoveIds([ms[0]], [id]) == (if Some(ms[0].id) == id then [] else [ms[0]]) by {
          assert [ms[0]][1..] == [];
        }
      }
    }
  }

  /** Removal keeps the ids distinct and below the counter. */
  lemma {:induction false} RemoveIdsKeepsIds(ms: seq<Material>, ids: seq<Option<MaterialId>>, bound: MaterialId)
    requires DistinctIds(ms) && IdsBelow(ms, bound)
    ensures DistinctIds(RemoveIds(ms, ids)) && IdsBelow(RemoveIds(ms, ids), bound)
  {
    if ms != [] {
      RemoveIdsKeepsIds(ms[1..], ids, bound);
      RemoveIdsMembers(ms[1..], ids);
      var rest := RemoveIds(ms[1..], ids);
      forall k | 0 <= k < |rest| ensures rest[k].id != ms[0].id && rest[k].id < bound {
        assert rest[k] in ms[1..];
      }
    }
  }

  /**
   * The list after a loop that was not rejected, with the new materials
   * appended, still has distinct ids, all below the advanced counter.
   */
  lemma {:induction false} AppendedIds(ms: seq<Material>, files: set<string>, inputs: seq<MaterialInput>, nextId: MaterialId, missingMedia: string)
    requires DistinctIds(ms) && IdsBelow(ms, nextId)
    requires Run(Progress(ms, [], files), inputs, nextId, missingMedia).rejection.None?
    ensures var p := Run(Progress(ms, [], files), inputs, nextId, missingMedia).progress;
            DistinctIds(p.materials + p.added) && IdsBelow(p.materials + p.added, nextId + |p.added|)
  {
    var p := Run(Progress(ms, [], files), inputs, nextId, missingMedia).progress;
    RunKeepsIds(ms, files, inputs, nextId, missingMedia);
    RunAppendsFresh(ms, files, inputs, nextId, missingMedia);
    assert forall k :: 0 <= k < |p.materials| ==> p.materials[k].id == Ids(p.materials)[k] == Ids(ms)[k] == ms[k].id;
    assert forall k :: 0 <= k < |p.added| ==> p.added[k].id == nextId + k;
  }

  /**
   * Saving an edited course: the course is replaced and the material counter
   * moves past the `added` new materials, whose ids it handed out.
   */
  method SaveCourse(db: Database, courseId: CourseId, c: Course, added: nat)
    requires db.Valid() && courseId in db.courses
    requires DistinctIds(c.material) && IdsBelow(c.material, db.nextMaterial + added)
    modifies db`courses, db`nextMaterial
    ensures db.Valid()
    ensures db.courses == old(db.courses)[courseId := c]
    ensures db.nextMaterial == old(db.nextMaterial) + added
  {
    db.nextMaterial := db.nextMaterial + added;
    db.courses := db.courses[courseId := c];
  }
}

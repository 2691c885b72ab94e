/** apis/v1/controllers/cv_controller.py: the CV endpoints of a position and
    the background upload they schedule. The background work runs here on
    the objects the Python code mutates (the progress cache, the CV and
    position collections, the position object and the blob storage) and is
    proved to do what the `Ingestion` functions describe. */
module CvController {
  import opened Wrappers
  import opened Values
  import opened Store
  import opened Position
  import opened Permissions
  import opened Ingestion
  import Cv
  import FileUtils

  // ---------------------------------------------------------------------
  // The state of the background task

  /** What the background task reads and writes, as one value. */
  function WorldOf(cache: ProgressCache, cvDb: Collection, positionDb: Collection, position: PositionSchema, blobs: BlobStore): World
    reads cache, cvDb, positionDb, position, blobs
  {
    World(cache.entries, Db(cvDb.docs, cvDb.created, positionDb.docs, position.Data(), blobs.objects))
  }

  // ---------------------------------------------------------------------
  // `_upload_cvs_data`, step by step

  /** Lines 156-179 and `_upload_cv_data` (lines 257-263) for one file: the
      percent writes in the order the source makes them, a new CV record, the
      upload, the extracted text, and the CV attached to the position. */
  method UploadOne(cache: ProgressCache, cvDb: Collection, positionDb: Collection, position: PositionSchema, blobs: BlobStore,
                   watch: string, data: Bytes, f: string, s: Services, loadTime: Value)
    returns (id: string, result: Result<()>)
    requires cvDb != positionDb && cvDb.Valid() && positionDb.Valid()
    requires watch in cache.entries
    modifies cache, cvDb, positionDb, position, blobs
    ensures cvDb.Valid() && positionDb.Valid()
    ensures var w := old(WorldOf(cache, cvDb, positionDb, position, blobs));
      var o := FileStep(w, watch, data, f, AnswersFor(w.db, data, f, s), loadTime);
      WorldOf(cache, cvDb, positionDb, position, blobs) == o.w && id == o.id && result == o.result
  {
    ghost var w := WorldOf(cache, cvDb, positionDb, position, blobs);
    ghost var a := AnswersFor(w.db, data, f, s);
    PassInParts(w.db, data, f, a, loadTime);
    var cv := BeginFile(cache, cvDb, w.db, watch, f, loadTime);
    id := cv.id.s;
    var reply := s.upload(data, f, FileUtils.GetContentType(f));
    result := FinishUpload(cache, cvDb, positionDb, position, blobs, cv, w.progress, Begin(w.db, f, loadTime).db, a, watch, data, f, reply, s, id);
  }

  /** Lines 156-161: the percent of `f` set to 0, a new CV record named
      `f`, +10. */
  method BeginFile(cache: ProgressCache, cvDb: Collection, ghost db: Db, watch: string, f: string, loadTime: Value)
    returns (cv: Cv.CVSchema)
    requires cvDb.Valid() && watch in cache.entries
    requires db.cvDocs == cvDb.docs && db.cvCreated == cvDb.created
    modifies cache, cvDb
    ensures cvDb.Valid() && fresh(cv)
    ensures At(cache, old(cache.entries), watch, f, 10)
    ensures cv.id == Str(IdFor(db.cvCreated))
    ensures Begin(db, f, loadTime).db == db.(cvDocs := cvDb.docs, cvCreated := cvDb.created)
  {
    FreshRecordIsToDict(f, loadTime);
    ghost var c0 := cache.entries;
    cache.SetPercent(watch, f, 0);
    cv := new Cv.CVSchema(Cv.Fresh(Str(f), loadTime));
    cv.CreateCv(cvDb);
    Bump(cache, c0, watch, f, 0, 10);
  }

  /** Lines 163-180 for the record `cv` just created with id `id`, the
      cache at 10 for `f`: the stages from the upload on. */
  method FinishUpload(cache: ProgressCache, cvDb: Collection, positionDb: Collection, position: PositionSchema, blobs: BlobStore,
                      cv: Cv.CVSchema, ghost c0: map<string, Progress>, ghost db: Db, ghost a: Answers,
                      watch: string, data: Bytes, f: string, reply: UploadReply, s: Services, id: string)
    returns (result: Result<()>)
    requires cvDb != positionDb && cvDb.Valid() && positionDb.Valid() && cv.id == Str(id)
    requires At(cache, c0, watch, f, 10)
    requires db == WorldOf(cache, cvDb, positionDb, position, blobs).db
    requires a.reply == reply && a.content == s.extract(data, f)
    requires a.attach == UpdateCvSpec(db.position, db.positionDocs, id, true)
    modifies cache, cvDb`docs, positionDb`docs, position`cvs, blobs, cv
    ensures cvDb.Valid() && positionDb.Valid()
    ensures var r := FromUpload(db, data, id, a, 10);
      WorldOf(cache, cvDb, positionDb, position, blobs) == World(SetPct(c0, watch, f, Reached(10, r)), r.db)
      && result == r.result
  {
    result := UploadToStore(cvDb, blobs, cv, db, data, id, reply, 10);
    if result.Err? {
      return;
    }
    ghost var u := UploadStage(db, data, id, a.reply, 10);
    Bump(cache, c0, watch, f, 10, 15);
    result := FinishExtract(cache, cvDb, positionDb, position, cv, c0, u.db, a, watch, f, s.extract(data, f), id);
    ghost var r := FromExtract(u.db, id, a, 40);
    assert FromUpload(db, data, id, a, 10) == Staged(r.db, u.trace + r.trace, r.result);
    LastOfAppend(u.trace, r.trace);
    assert Reached(10, FromUpload(db, data, id, a, 10)) == Reached(40, r);
  }

  /** Lines 166-180 for the record `cv` with id `id`, the cache at 25 for
      `f`: +5 and +10, the extracted text, `content`, written to the record,
      then the CV attached to the position. */
  method FinishExtract(cache: ProgressCache, cvDb: Collection, positionDb: Collection, position: PositionSchema,
                       cv: Cv.CVSchema, ghost c0: map<string, Progress>, ghost db: Db, ghost a: Answers,
                       watch: string, f: string, content: Result<Value>, id: string)
    returns (result: Result<()>)
    requires cvDb != positionDb && cvDb.Valid() && positionDb.Valid() && cv.id == Str(id)
    requires At(cache, c0, watch, f, 25)
    requires db.cvDocs == cvDb.docs && db.positionDocs == positionDb.docs && db.position == position.Data()
    requires a.content == content && a.attach == UpdateCvSpec(db.position, db.positionDocs, id, true)
    modifies cache, cvDb`docs, positionDb`docs, position`cvs, cv
    ensures cvDb.Valid() && positionDb.Valid()
    ensures var r := FromExtract(db, id, a, 40);
      && At(cache, c0, watch, f, Reached(40, r))
      && r.db == db.(cvDocs := cvDb.docs, positionDocs := positionDb.docs, position := position.Data())
      && result == r.result
  {
    BumpTwice(cache, c0, watch, f, 25, 5, 10);
    result := ExtractInto(cvDb, cv, db, id, content, 40);
    if result.Err? {
      return;
    }
    ghost var e := ExtractStage(db, id, a.content, 40);
    BumpTwice(cache, c0, watch, f, 40, 10, 10);
    result := FinishAttach(cache, positionDb, position, c0, e.db, a, watch, f, id);
  }

  /** Lines 178-180, the cache at 60 for `f`: `position.update_cv(id,
      is_add=True)` on the position and collection as `db` holds them, then
      +10. */
  method FinishAttach(cache: ProgressCache, positionDb: Collection, position: PositionSchema,
                      ghost c0: map<string, Progress>, ghost db: Db, ghost a: Answers, watch: string, f: string, id: string)
    returns (result: Result<()>)
    requires positionDb.Valid() && At(cache, c0, watch, f, 60)
    requires db.positionDocs == positionDb.docs && db.position == position.Data()
    requires a.attach == UpdateCvSpec(db.position, db.positionDocs, id, true)
    modifies cache, positionDb`docs, position`cvs
    ensures positionDb.Valid()
    ensures var t := AttachStage(db, a.attach, 60);
      && At(cache, c0, watch, f, Reached(60, t))
      && t.db == db.(positionDocs := positionDb.docs, position := position.Data())
      && result == t.result
  {
    result := position.UpdateCv(positionDb, id, true);
    if result.Err? {
      return;
    }
    Bump(cache, c0, watch, f, 60, 10);
  }

  /** `_upload_cv_data` (lines 257-263) for the CV `cv` with id `id`: the
      storage upload, then the path and URL written to the record, on the
      collection and the storage as `db` holds them. */
  method UploadToStore(cvDb: Collection, blobs: BlobStore, cv: Cv.CVSchema, ghost db: Db,
                       data: Bytes, id: string, reply: UploadReply, ghost x: int) returns (result: Result<()>)
    requires cvDb.Valid() && cv.id == Str(id)
    requires db.cvDocs == cvDb.docs && db.blobs == blobs.objects
    modifies cvDb`docs, blobs, cv
    ensures cvDb.Valid() && cv.id == Str(id)
    ensures var u := UploadStage(db, data, id, reply, x);
      u.db == db.(cvDocs := cvDb.docs, blobs := blobs.objects) && u.result == result
  {
    var uploaded := blobs.Upload(data, reply);
    if uploaded.Err? {
      return Err(uploaded.error);
    }
    WriteIsUpdate(cvDb.docs, id, map["path" := uploaded.value.0, "url" := uploaded.value.1]);
    var written := cv.UpdatePathUrl(cvDb, uploaded.value.0, uploaded.value.1);
    result := Ok(());
  }

  /** Lines 168-175 for the CV `cv` with id `id`: the extracted text, or
      the failure, as `content`, then the text written to the record. */
  method ExtractInto(cvDb: Collection, cv: Cv.CVSchema, ghost db: Db, id: string, content: Result<Value>, ghost x: int)
    returns (result: Result<()>)
    requires cvDb.Valid() && cv.id == Str(id) && db.cvDocs == cvDb.docs
    modifies cvDb`docs, cv
    ensures cvDb.Valid()
    ensures var e := ExtractStage(db, id, content, x);
      e.db == db.(cvDocs := cvDb.docs) && e.result == result
  {
    if content.Err? {
      return Err(content.error);
    }
    WriteIsUpdate(cvDb.docs, id, map["content" := content.value]);
    var written := cv.UpdateContent(cvDb, content.value);
    result := Ok(());
  }

  /** The cache differs from `c0` only in the percent of `f`, which is `v`. */
  predicate At(cache: ProgressCache, c0: map<string, Progress>, watch: string, f: string, v: int)
    reads cache
  {
    watch in c0 && cache.entries == SetPct(c0, watch, f, v)
  }

  /** `+= delta` on the percent of `f`, on a cache that differs from `c0`
      only in that percent, which is `v`. */
  method Bump(cache: ProgressCache, ghost c0: map<string, Progress>, watch: string, f: string, ghost v: int, delta: int)
    requires At(cache, c0, watch, f, v)
    modifies cache
    ensures At(cache, c0, watch, f, v + delta)
  {
    cache.AddPercent(watch, f, delta);
    SetPctAgain(c0, watch, f, v, v + delta);
  }

  /** Two `+=` in a row on the percent of `f`. */
  method BumpTwice(cache: ProgressCache, ghost c0: map<string, Progress>, watch: string, f: string, ghost v: int, d1: int, d2: int)
    requires At(cache, c0, watch, f, v)
    modifies cache
    ensures At(cache, c0, watch, f, v + d1 + d2)
  {
    Bump(cache, c0, watch, f, v, d1);
    Bump(cache, c0, watch, f, v + d1, d2);
  }

  /** The file loop of `_upload_cvs_data` (lines 155-179): one pass per
      file, `cv_ids` collecting the new ids, stopping at the first pass that
      raises. */
  method UploadFiles(cache: ProgressCache, cvDb: Collection, positionDb: Collection, position: PositionSchema, blobs: BlobStore,
                     watch: string, files: seq<(Bytes, string)>, s: Services, loadTime: Value)
    returns (cvIds: seq<string>, current: Option<string>, result: Result<()>)
    requires cvDb != positionDb && cvDb.Valid() && positionDb.Valid()
    requires watch in cache.entries
    modifies cache, cvDb, positionDb, position, blobs
    ensures cvDb.Valid() && positionDb.Valid() && watch in cache.entries
    ensures LoopOutcome(WorldOf(cache, cvDb, positionDb, position, blobs), cvIds, current, result)
         == RunFiles(old(WorldOf(cache, cvDb, positionDb, position, blobs)), files, PassFor(watch, s, loadTime))
  {
    ghost var w0 := WorldOf(cache, cvDb, positionDb, position, blobs);
    ghost var step := PassFor(watch, s, loadTime);
    cvIds, current, result := [], None, Ok(());
    var i := 0;
    while i < |files|
      invariant 0 <= i <= |files|
      invariant cvDb.Valid() && positionDb.Valid() && watch in cache.entries
      invariant result.Ok?
      invariant LoopOutcome(WorldOf(cache, cvDb, positionDb, position, blobs), cvIds, current, result) == RunFiles(w0, files[..i], step)
    {
      var (data, f) := files[i];
      assert files[..i + 1][..i] == files[..i];
      var id, r := UploadOne(cache, cvDb, positionDb, position, blobs, watch, data, f, s, loadTime);
      cvIds, current, result := cvIds + [id], Some(f), r;
      i := i + 1;
      if result.Err? {
        LoopStopsAtFailure(w0, files, step, i);
        return;
      }
    }
    assert files[..i] == files;
  }

  /** Lines 190-197 for one processing result, on the cache and the CV
      collection; `w` is the rest of the world, which they leave alone. */
  method ProcessOneResult(cache: ProgressCache, cvDb: Collection, ghost w: World,
                          watch: string, current: Option<string>, r: Processed, weight: Value)
    returns (result: Result<()>)
    requires cvDb.Valid() && watch in cache.entries
    requires w.progress == cache.entries && w.db.cvDocs == cvDb.docs
    modifies cache, cvDb`docs
    ensures cvDb.Valid()
    ensures ProcessOne(w, watch, current, r, weight) == Done(w.(progress := cache.entries, db := w.db.(cvDocs := cvDb.docs)), result)
  {
    match Cv.FindById(cvDb.docs, r.docId)
    case Err(e) =>
      result := Err(e);
    case Ok(None) =>
      result := Err(NoCvToProcess);
    case Ok(Some(c)) =>
      WriteProcessed(cvDb, c, r, weight);
      match current
      case None =>
        result := Err(UnboundFilename);
      case Some(f) =>
        cache.SetPercent(watch, f, 100);
        result := Ok(());
  }

  /** The three writes of lines 194-196 to the CV `c` found. */
  method WriteProcessed(cvDb: Collection, c: Cv.CVData, r: Processed, weight: Value)
    requires cvDb.Valid()
    modifies cvDb`docs
    ensures cvDb.Valid()
    ensures var docs1 := AfterUpdate(old(cvDb.docs), c.id, map["weight" := weight]);
      var docs2 := AfterUpdate(docs1, c.id, map["summary" := r.summary]);
      cvDb.docs == AfterUpdate(docs2, c.id, map["labels" := r.labels])
  {
    var cv := new Cv.CVSchema(c);
    var written := cv.UpdateWeight(cvDb, weight);
    written := cv.UpdateSummary(cvDb, r.summary);
    written := cv.UpdateLabels(cvDb, r.labels);
  }

  /** A result that raises ends the processing loop. */
  lemma {:induction false} ProcessedStopsAtFailure(w: World, watch: string, current: Option<string>, results: seq<Processed>, weight: Value, k: nat)
    requires watch in w.progress && k <= |results|
    requires RunProcessed(w, watch, current, results[..k], weight).result.Err?
    ensures RunProcessed(w, watch, current, results, weight) == RunProcessed(w, watch, current, results[..k], weight)
    decreases |results|
  {
    if k < |results| {
      var init := results[..|results| - 1];
      assert init[..k] == results[..k];
      ProcessedStopsAtFailure(w, watch, current, init, weight, k);
    } else {
      assert results[..k] == results;
    }
  }

  /** The processing loop (lines 189-197). */
  method ProcessResults(cache: ProgressCache, cvDb: Collection, ghost w: World,
                        watch: string, current: Option<string>, results: seq<Processed>, weight: Value)
    returns (result: Result<()>)
    requires cvDb.Valid() && watch in cache.entries
    requires w.progress == cache.entries && w.db.cvDocs == cvDb.docs
    modifies cache, cvDb`docs
    ensures cvDb.Valid()
    ensures RunProcessed(w, watch, current, results, weight) == Done(w.(progress := cache.entries, db := w.db.(cvDocs := cvDb.docs)), result)
  {
    result := Ok(());
    var i := 0;
    while i < |results|
      invariant 0 <= i <= |results|
      invariant cvDb.Valid() && watch in cache.entries && result.Ok?
      invariant RunProcessed(w, watch, current, results[..i], weight) == Done(w.(progress := cache.entries, db := w.db.(cvDocs := cvDb.docs)), result)
    {
      assert results[..i + 1][..i] == results[..i];
      ghost var now := w.(progress := cache.entries, db := w.db.(cvDocs := cvDb.docs));
      assert RunProcessed(w, watch, current, results[..i + 1], weight) == ProcessOne(now, watch, current, results[i], weight);
      result := ProcessOneResult(cache, cvDb, now, watch, current, results[i], weight);
      i := i + 1;
      if result.Err? {
        ProcessedStopsAtFailure(w, watch, current, results, weight, i);
        return;
      }
    }
    assert results[..i] == results;
  }

  /** Lines 242-245 for one matching result. */
  method MatchOneResult(cvDb: Collection, ghost db: Db, m: Matched) returns (result: Result<()>)
    requires cvDb.Valid() && db.cvDocs == cvDb.docs
    modifies cvDb`docs
    ensures cvDb.Valid()
    ensures match MatchOne(db, m)
            case Err(e) => result == Err(e) && cvDb.docs == db.cvDocs
            case Ok(db1) => result == Ok(()) && db1 == db.(cvDocs := cvDb.docs)
  {
    var found := Cv.FindById(cvDb.docs, m.cvId);
    if found.Err? {
      return Err(found.error);
    }
    if found.value.None? {
      return Err(NoCvToMatch);
    }
    var cv := new Cv.CVSchema(found.value.value);
    var written := cv.UpdateMatching(cvDb, m.result);
    result := Ok(());
  }

  /** A result that raises ends the matching loop. */
  lemma {:induction false} MatchesStopAtFailure(db: Db, results: seq<Matched>, k: nat)
    requires k <= |results|
    requires RunMatches(db, results[..k]).1.Err?
    ensures RunMatches(db, results) == RunMatches(db, results[..k])
    decreases |results|
  {
    if k < |results| {
      var init := results[..|results| - 1];
      assert init[..k] == results[..k];
      MatchesStopAtFailure(db, init, k);
    } else {
      assert results[..k] == results;
    }
  }

  /** The matching loop (lines 241-245): each result written to the CV it
      names. */
  method MatchResults(cvDb: Collection, ghost db: Db, results: seq<Matched>) returns (result: Result<()>)
    requires cvDb.Valid() && db.cvDocs == cvDb.docs
    modifies cvDb`docs
    ensures cvDb.Valid()
    ensures RunMatches(db, results) == (db.(cvDocs := cvDb.docs), result)
  {
    result := Ok(());
    var i := 0;
    while i < |results|
      invariant 0 <= i <= |results|
      invariant cvDb.Valid() && result.Ok?
      invariant RunMatches(db, results[..i]) == (db.(cvDocs := cvDb.docs), result)
    {
      assert results[..i + 1][..i] == results[..i];
      result := MatchOneResult(cvDb, db.(cvDocs := cvDb.docs), results[i]);
      i := i + 1;
      if result.Err? {
        MatchesStopAtFailure(db, results, i);
        return;
      }
    }
    assert results[..i] == results;
  }

  /** `_upload_cvs_data` (lines 151-254): the file loop, the processing
      call, the `except` block on failure, otherwise the matching call, its
      results written, and the watch id removed. */
  method UploadCvsTask(cache: ProgressCache, cvDb: Collection, positionDb: Collection, position: PositionSchema, blobs: BlobStore,
                       watch: string, cvs: seq<Bytes>, filenames: seq<string>, weight: Value,
                       s: Services, matcher: Matcher, loadTime: Value)
    returns (result: Result<()>)
    requires cvDb != positionDb && cvDb.Valid() && positionDb.Valid()
    requires watch in cache.entries
    modifies cache, cvDb, positionDb, position, blobs
    ensures cvDb.Valid() && positionDb.Valid()
    ensures Done(WorldOf(cache, cvDb, positionDb, position, blobs), result)
         == Ingest(old(WorldOf(cache, cvDb, positionDb, position, blobs)), watch, cvs, filenames, weight, s, matcher, loadTime)
  {
    ghost var w0 := WorldOf(cache, cvDb, positionDb, position, blobs);
    PassForTraces(watch, s, loadTime);
    ghost var loop := Loop(w0, watch, Zip(cvs, filenames), PassFor(watch, s, loadTime));
    assert Ingest(w0, watch, cvs, filenames, weight, s, matcher, loadTime) == AfterLoop(loop, watch, weight, s, matcher);
    var cvIds, current, r := UploadAndProcess(cache, cvDb, positionDb, position, blobs, watch, Zip(cvs, filenames), weight, s, loadTime);
    if r.Err? {
      result := Except(cache, cvDb, positionDb, position, blobs, watch, current, r.error);
      return;
    }
    result := Matching(cache, cvDb, positionDb, position, blobs, watch, cvIds, weight, matcher);
  }

  /** The `try` block of `_upload_cvs_data` up to the matching (lines
      155-197): the file loop, then, when it finished, the processing
      request and its results written. */
  method UploadAndProcess(cache: ProgressCache, cvDb: Collection, positionDb: Collection, position: PositionSchema, blobs: BlobStore,
                          watch: string, files: seq<(Bytes, string)>, weight: Value, s: Services, loadTime: Value)
    returns (cvIds: seq<string>, current: Option<string>, r: Result<()>)
    requires cvDb != positionDb && cvDb.Valid() && positionDb.Valid()
    requires watch in cache.entries
    modifies cache, cvDb, positionDb, position, blobs
    ensures cvDb.Valid() && positionDb.Valid()
    ensures (PassForTraces(watch, s, loadTime);
      var loop := Loop(old(WorldOf(cache, cvDb, positionDb, position, blobs)), watch, files, PassFor(watch, s, loadTime));
      && cvIds == loop.cvIds && current == loop.current
      && Done(WorldOf(cache, cvDb, positionDb, position, blobs), r) == Ingestion.Processing(loop, watch, weight, s))
  {
    ghost var w0 := WorldOf(cache, cvDb, positionDb, position, blobs);
    PassForTraces(watch, s, loadTime);
    cvIds, current, r := UploadFiles(cache, cvDb, positionDb, position, blobs, watch, files, s, loadTime);
    ghost var loop := LoopOutcome(WorldOf(cache, cvDb, positionDb, position, blobs), cvIds, current, r);
    assert loop == Loop(w0, watch, files, PassFor(watch, s, loadTime));
    if r.Ok? {
      var answer := s.process(cvIds);
      if answer.Err? {
        r := Err(answer.error);
      } else {
        r := ProcessResults(cache, cvDb, WorldOf(cache, cvDb, positionDb, position, blobs), watch, current, answer.value, weight);
      }
    }
  }

  /** The `except` block (lines 199-202). */
  method Except(cache: ProgressCache, cvDb: Collection, positionDb: Collection, position: PositionSchema, blobs: BlobStore,
                watch: string, current: Option<string>, e: Error) returns (result: Result<()>)
    requires watch in cache.entries
    modifies cache
    ensures Done(WorldOf(cache, cvDb, positionDb, position, blobs), result)
         == Fail(old(WorldOf(cache, cvDb, positionDb, position, blobs)), watch, current, e)
  {
    if current.None? {
      return Err(UnboundFilename);
    }
    cache.SetError(watch, current.value, e.Message());
    cache.SetPercent(watch, current.value, -1);
    result := Err(Stopped(e));
  }

  /** Lines 205-254: the matching request for the first CV's JD, the
      results written, then the watch id removed from the cache. */
  method Matching(cache: ProgressCache, cvDb: Collection, positionDb: Collection, position: PositionSchema, blobs: BlobStore,
                  watch: string, cvIds: seq<string>, weight: Value, matcher: Matcher)
    returns (result: Result<()>)
    requires cvDb != positionDb && cvDb.Valid()
    modifies cache, cvDb
    ensures cvDb.Valid()
    ensures Done(WorldOf(cache, cvDb, positionDb, position, blobs), result)
         == RunMatching(old(WorldOf(cache, cvDb, positionDb, position, blobs)), watch, cvIds, weight, matcher)
  {
    if cvIds == [] {
      return Err(NoFirstCv);
    }
    var jd := JdByCvs(position.Data(), cvIds[0]);
    if jd.Err? {
      return Err(jd.error);
    }
    var answer := matcher(jd.value, cvIds, weight);
    if answer.Err? {
      return Err(answer.error);
    }
    result := MatchResults(cvDb, WorldOf(cache, cvDb, positionDb, position, blobs).db, answer.value);
    if result.Err? {
      return;
    }
    cache.Remove(watch);
  }

  // ---------------------------------------------------------------------
  // The request handlers

  /** The reading loop of `upload_cvs_data` (lines 131-136): the contents
      and the names of the uploads, in upload order. */
  method ReadUploads(uploads: seq<(Bytes, string)>) returns (cvs: seq<Bytes>, names: seq<string>)
    ensures |cvs| == |names| == |uploads|
    ensures Zip(cvs, names) == uploads
  {
    cvs, names := [], [];
    var i := 0;
    while i < |uploads|
      invariant 0 <= i <= |uploads|
      invariant |cvs| == |names| == i
      invariant forall k :: 0 <= k < i ==> (cvs[k], names[k]) == uploads[k]
    {
      cvs := cvs + [uploads[i].0];
      names := names + [uploads[i].1];
      i := i + 1;
    }
  }

  /** What `upload_cvs_data` schedules: the arguments of `_upload_cvs_data`. */
  datatype Job = Job(cvs: seq<Bytes>, names: seq<string>, watch: string, position: PositionData, weight: Value)

  /** `upload_cvs_data` (lines 124-148) with the fresh watch id `watchId`:
      the permission checks, the uploads read, an empty progress entry for
      the watch id, and the background task scheduled for exactly these
      files. Neither the extensions nor the position's status are checked. */
  method UploadCvsData(cache: ProgressCache, user: Caller, projects: Projects, positions: Docs,
                       projectId: string, positionId: string, uploads: seq<(Bytes, string)>, weight: Value, watchId: string)
    returns (r: Result<Job>)
    modifies cache
    ensures var v := ValidatePermissions(user, projects, positions, projectId, positionId);
      && (v.Err? ==> r == Err(v.error) && cache.entries == old(cache.entries))
      && (v.Ok? ==>
            && cache.entries == old(cache.entries)[watchId := EmptyProgress]
            && r.Ok? && r.value.watch == watchId && r.value.position == v.value && r.value.weight == weight
            && |r.value.cvs| == |r.value.names| && Zip(r.value.cvs, r.value.names) == uploads)
    ensures r.Ok? ==> r.value.watch in cache.entries && cache.entries[r.value.watch] == EmptyProgress
  {
    var v := ValidatePermissions(user, projects, positions, projectId, positionId);
    if v.Err? {
      return Err(v.error);
    }
    var cvs, names := ReadUploads(uploads);
    cache.Set(watchId, EmptyProgress);
    r := Ok(Job(cvs, names, watchId, v.value, weight));
  }

  const NoCvsFound := Http(NotFound, "No CVs found for this position.")

  /** The ids of CVs read from the store, which are all strings. */
  function IdsOf(cvs: seq<Cv.CVData>): (ids: seq<string>)
    requires forall k :: 0 <= k < |cvs| ==> cvs[k].id.Str?
    ensures |ids| == |cvs| && forall k :: 0 <= k < |cvs| ==> Str(ids[k]) == cvs[k].id
  {
    seq(|cvs|, k requires 0 <= k < |cvs| => cvs[k].id.s)
  }

  /** What `rematch_cvs_data` schedules: the arguments of `_rematch_cvs_task`. */
  datatype Rematch = Rematch(cvIds: seq<string>, position: PositionData, weight: Value)

  /** `rematch_cvs_data` (lines 302-321): the permission checks, the CVs of
      the position, 404 when none is found, otherwise a rematch of their
      ids, each of them a stored CV the position lists. */
  function RematchCvsData(user: Caller, projects: Projects, positions: Docs, cvDocs: Docs,
                          projectId: string, positionId: string, weight: Value): (r: Result<Rematch>)
    ensures var v := ValidatePermissions(user, projects, positions, projectId, positionId);
      && (v.Err? ==> r == Err(v.error))
      && (v.Ok? && Cv.FindByIdList(cvDocs, v.value.cvs).Err? ==> r == Err(Cv.FindByIdList(cvDocs, v.value.cvs).error))
      && (v.Ok? && Cv.FindByIdList(cvDocs, v.value.cvs) == Ok([]) ==> r == Err(NoCvsFound))
      && (r.Ok? ==> v.Ok? && r.value.position == v.value && r.value.weight == weight
                    && |r.value.cvIds| == |Cv.FindByIdList(cvDocs, v.value.cvs).value| > 0)
    ensures r.Ok? ==> (r.value.position.cvs.List? &&
      forall k :: 0 <= k < |r.value.cvIds| ==> r.value.cvIds[k] in cvDocs && Str(r.value.cvIds[k]) in r.value.position.cvs.items)
  {
    var p :- ValidatePermissions(user, projects, positions, projectId, positionId);
    var cvs :- Cv.FindByIdList(cvDocs, p.cvs);
    if cvs == [] then Err(NoCvsFound)
    else
      FoundAreListed(cvDocs, p.cvs.items);
      Ok(Rematch(IdsOf(cvs), p, weight))
  }

  /** The CVs `find_by_ids` returns are stored records with listed ids. */
  lemma FoundAreListed(cvDocs: Docs, ids: seq<Value>)
    requires Cv.FindByIds(cvDocs, ids).Ok?
    ensures var cvs := Cv.FindByIds(cvDocs, ids).value;
      forall k :: 0 <= k < |cvs| ==> cvs[k].id.Str? && cvs[k].id.s in cvDocs && cvs[k].id in ids
  {
    var cvs := Cv.FindByIds(cvDocs, ids).value;
    forall k | 0 <= k < |cvs| ensures cvs[k].id.Str? && cvs[k].id.s in cvDocs && cvs[k].id in ids {
      var j :| 0 <= j < |ids| && ids[j] == cvs[k].id && Lookup(cvDocs, ids[j]).Some?;
    }
  }

  /** `_rematch_cvs_task` (lines 324-351) on the CV collection `db`
      holds: the matching request for the first CV's JD and the results
      written; any exception is swallowed, and the writes made before it
      stay. */
  function Rematched(db: Db, cvIds: seq<string>, weight: Value, matcher: Matcher): Db {
    match MatchingJd(db, cvIds)
    case Err(_) => db
    case Ok(jd) =>
      match matcher(jd, cvIds, weight)
      case Err(_) => db
      case Ok(results) => RunMatches(db, results).0
  }

  /** The rematch writes what the matching step of an upload writes; the
      upload then also removes its watch id, and only when no write failed. */
  lemma RematchIsMatching(w: World, watch: string, cvIds: seq<string>, weight: Value, matcher: Matcher)
    ensures RunMatching(w, watch, cvIds, weight, matcher).w.db == Rematched(w.db, cvIds, weight, matcher)
    ensures RunMatching(w, watch, cvIds, weight, matcher).w.progress == w.progress
         || RunMatching(w, watch, cvIds, weight, matcher).w.progress == w.progress - {watch}
  {
  }

  /** `d` differs from `db` at most in the `matching` field of CVs already
      in the collection. */
  predicate OnlyMatchingChanged(db: Db, d: Db) {
    && d == db.(cvDocs := d.cvDocs) && d.cvDocs.Keys == db.cvDocs.Keys
    && forall id :: id in db.cvDocs ==> d.cvDocs[id] - {"matching"} == db.cvDocs[id] - {"matching"}
  }

  lemma OnlyMatchingChangedTrans(db: Db, d1: Db, d2: Db)
    requires OnlyMatchingChanged(db, d1) && OnlyMatchingChanged(d1, d2)
    ensures OnlyMatchingChanged(db, d2)
  {
  }

  /** One matching result writes only the `matching` field of its CV. */
  lemma MatchOneWritesOnlyMatching(db: Db, m: Matched)
    requires MatchOne(db, m).Ok?
    ensures OnlyMatchingChanged(db, MatchOne(db, m).value)
  {
    var c := Cv.FindById(db.cvDocs, m.cvId).value.value;
    var patch := map["matching" := m.result];
    if Patched(db.cvDocs, c.id, patch).Some? {
      PatchedFields(db.cvDocs, c.id, patch);
      var d := Patched(db.cvDocs, c.id, patch).value;
      assert d[c.id.s] - {"matching"} == db.cvDocs[c.id.s] - {"matching"};
    }
  }

  /** The matching loop changes only the `matching` field of CVs already in
      the collection. */
  lemma {:induction false} MatchesWriteOnlyMatching(db: Db, results: seq<Matched>)
    ensures OnlyMatchingChanged(db, RunMatches(db, results).0)
    decreases |results|
  {
    if results != [] {
      var prev := RunMatches(db, results[..|results| - 1]);
      MatchesWriteOnlyMatching(db, results[..|results| - 1]);
      var m := results[|results| - 1];
      if prev.1.Ok? && MatchOne(prev.0, m).Ok? {
        MatchOneWritesOnlyMatching(prev.0, m);
        OnlyMatchingChangedTrans(db, prev.0, MatchOne(prev.0, m).value);
      }
    }
  }

  /** `_rematch_cvs_task` on the CV collection and the position as `db`
      holds them. */
  method RematchTask(cvDb: Collection, ghost db: Db, position: PositionData, cvIds: seq<string>, weight: Value, matcher: Matcher)
    requires cvDb.Valid() && db.cvDocs == cvDb.docs && db.position == position
    modifies cvDb`docs
    ensures cvDb.Valid()
    ensures Rematched(db, cvIds, weight, matcher) == db.(cvDocs := cvDb.docs)
  {
    if cvIds == [] {
      return;
    }
    var jd := JdByCvs(position, cvIds[0]);
    if jd.Err? {
      return;
    }
    var answer := matcher(jd.value, cvIds, weight);
    if answer.Err? {
      return;
    }
    var _ := MatchResults(cvDb, db, answer.value);
  }

  const CvNotFound := Http(NotFound, "CV not found 4.")

  /** `delete_current_cv` (lines 406-422): the permission checks, the CV
      looked up (404 when there is none), the id removed from the position,
      then the record and its stored file deleted. When the removal raises
      (the id is not in the position's list, say) nothing is deleted. */
  method DeleteCurrentCv(positionDb: Collection, cvDb: Collection, blobs: BlobStore, user: Caller, projects: Projects,
                         projectId: string, positionId: string, cvId: string) returns (r: Result<()>)
    requires positionDb != cvDb && positionDb.Valid() && cvDb.Valid()
    modifies positionDb`docs, cvDb`docs, blobs
    ensures positionDb.Valid() && cvDb.Valid()
    ensures var v := ValidatePermissions(user, projects, old(positionDb.docs), projectId, positionId);
      var found := Cv.FindById(old(cvDb.docs), Str(cvId));
      && (v.Err? || found.Err? || found == Ok(None) ==>
            && r == (if v.Err? then Err(v.error) else if found.Err? then Err(found.error) else Err(CvNotFound))
            && positionDb.docs == old(positionDb.docs) && cvDb.docs == old(cvDb.docs) && blobs.objects == old(blobs.objects))
      && (v.Ok? && found.Ok? && found.value.Some? ==>
            var o := UpdateCvSpec(v.value, old(positionDb.docs), cvId, false);
            var path := found.value.value.path;
            && positionDb.docs == o.docs
            && (o.result.Err? ==> r == o.result && cvDb.docs == old(cvDb.docs) && blobs.objects == old(blobs.objects))
            && (o.result.Ok? ==>
                  && r == Ok(())
                  && cvDb.docs == old(cvDb.docs) - {cvId}
                  && blobs.objects == if path.Str? then old(blobs.objects) - {path.s} else old(blobs.objects)))
    ensures r.Ok? ==> (cvId !in cvDb.docs && cvId in old(cvDb.docs)
      && var p := ValidatePermissions(user, projects, old(positionDb.docs), projectId, positionId).value;
         p.cvs.List? && Str(cvId) in p.cvs.items)
  {
    var v := ValidatePermissions(user, projects, positionDb.docs, projectId, positionId);
    if v.Err? {
      return Err(v.error);
    }
    var found := Cv.FindById(cvDb.docs, Str(cvId));
    if found.Err? {
      return Err(found.error);
    }
    if found.value.None? {
      return Err(CvNotFound);
    }
    var position := new PositionSchema(v.value);
    r := position.UpdateCv(positionDb, cvId, false);
    if r.Err? {
      return;
    }
    var cv := new Cv.CVSchema(found.value.value);
    cv.DeleteCv(cvDb, blobs);
  }

  /** `delete_cvs_by_ids` (lines 399-403): each listed CV that has a
      record is deleted with its stored file, the others are skipped; a
      record that cannot be read stops the loop. */
  function DeletedByIds(docs: Docs, blobs: map<string, Bytes>, ids: seq<string>): (d: (Docs, map<string, Bytes>, Result<()>))
    decreases |ids|
  {
    if ids == [] then (docs, blobs, Ok(()))
    else
      var prev := DeletedByIds(docs, blobs, ids[..|ids| - 1]);
      var id := ids[|ids| - 1];
      if prev.2.Err? then prev
      else match Cv.FindById(prev.0, Str(id))
        case Err(e) => (prev.0, prev.1, Err(e))
        case Ok(None) => prev
        case Ok(Some(c)) => (prev.0 - {id}, if c.path.Str? then prev.1 - {c.path.s} else prev.1, Ok(()))
  }

  /** Deleting keeps every record whose id is not listed, and when no
      lookup raises it leaves none of the listed ones. */
  lemma {:induction false} DeletedByIdsRemoves(docs: Docs, blobs: map<string, Bytes>, ids: seq<string>)
    ensures var d := DeletedByIds(docs, blobs, ids);
      && d.0.Keys <= docs.Keys
      && (forall id :: id in docs && id !in ids ==> id in d.0 && d.0[id] == docs[id])
      && (d.2.Ok? ==> d.0 == docs - set k | 0 <= k < |ids| :: ids[k])
    decreases |ids|
  {
    if ids != [] {
      var init := ids[..|ids| - 1];
      DeletedByIdsRemoves(docs, blobs, init);
      var prev := DeletedByIds(docs, blobs, init);
      var id := ids[|ids| - 1];
      assert ids == init + [id];
      assert (set k | 0 <= k < |ids| :: ids[k]) == (set k | 0 <= k < |init| :: init[k]) + {id};
    }
  }

  /** A lookup that raises ends the deletion loop. */
  lemma {:induction false} DeletionStopsAtFailure(docs: Docs, blobs: map<string, Bytes>, ids: seq<string>, k: nat)
    requires k <= |ids|
    requires DeletedByIds(docs, blobs, ids[..k]).2.Err?
    ensures DeletedByIds(docs, blobs, ids) == DeletedByIds(docs, blobs, ids[..k])
    decreases |ids|
  {
    if k < |ids| {
      var init := ids[..|ids| - 1];
      assert init[..k] == ids[..k];
      DeletionStopsAtFailure(docs, blobs, init, k);
    } else {
      assert ids[..k] == ids;
    }
  }

  /** The loop of `delete_cvs_by_ids`. */
  method DeleteCvsByIds(cvDb: Collection, blobs: BlobStore, ids: seq<string>) returns (r: Result<()>)
    requires cvDb.Valid()
    modifies cvDb`docs, blobs
    ensures cvDb.Valid()
    ensures (cvDb.docs, blobs.objects, r) == DeletedByIds(old(cvDb.docs), old(blobs.objects), ids)
  {
    ghost var docs0, blobs0 := cvDb.docs, blobs.objects;
    r := Ok(());
    var i := 0;
    while i < |ids|
      invariant 0 <= i <= |ids|
      invariant cvDb.Valid() && r.Ok?
      invariant (cvDb.docs, blobs.objects, r) == DeletedByIds(docs0, blobs0, ids[..i])
    {
      assert ids[..i + 1][..i] == ids[..i];
      var found := Cv.FindById(cvDb.docs, Str(ids[i]));
      i := i + 1;
      if found.Err? {
        r := Err(found.error);
        DeletionStopsAtFailure(docs0, blobs0, ids, i);
        return;
      }
      if found.value.Some? {
        var cv := new Cv.CVSchema(found.value.value);
        cv.DeleteCv(cvDb, blobs);
      }
    }
    assert ids[..i] == ids;
  }

  /** The projection of `get_all_cvs_summary` (lines 70-79): of each CV's
      `to_dict()`, the id, the upload time and the summary, one row per CV
      in order. */
  function SummaryRows(cvs: seq<Cv.CVData>): (rows: seq<Record>)
    ensures |rows| == |cvs|
    ensures forall k :: 0 <= k < |cvs| ==>
              rows[k] == map["id" := cvs[k].id, "upload_at" := cvs[k].uploadAt, "summary" := cvs[k].summary]
  {
    seq(|cvs|, k requires 0 <= k < |cvs| =>
      Cv.ToDictFields(cvs[k], true);
      var d := Cv.ToDict(cvs[k], true);
      map["id" := d["id"], "upload_at" := d["upload_at"], "summary" := d["summary"]])
  }
}

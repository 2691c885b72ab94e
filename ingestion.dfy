/** The background work of a CV upload, `_upload_cvs_data` and
    `_upload_cv_data` in apis/v1/controllers/cv_controller.py, as functions
    on a snapshot of everything that work reads and writes: the progress
    cache, the CV and position collections, the position object and the blob
    storage. The services the pipeline calls are parameters. */
module Ingestion {
  import opened Wrappers
  import opened Values
  import opened Store
  import opened Position
  import Cv
  import FileUtils

  /** What the task changes besides the progress cache: the CV collection
      and the number of ids it has handed out, the position collection, the
      position object the task was given, and the blob storage. */
  datatype Db = Db(
    cvDocs: Docs,
    cvCreated: nat,
    positionDocs: Docs,
    position: PositionData,
    blobs: map<string, Bytes>)

  /** Everything the background task can change. */
  datatype World = World(progress: map<string, Progress>, db: Db)

  /** One entry of the processing service's `results`. */
  datatype Processed = Processed(docId: Value, summary: Value, labels: Value)

  /** One entry of the matching service's `results`. */
  datatype Matched = Matched(cvId: Value, result: Value)

  /** What the outside world answers: the storage service to an upload
      (data, filename, content type); the cache folder and `get_cv_content`
      to a file; the processing service to a list of CV ids; the matching
      service to a (jd id, CV ids, weight) request, which is a separate
      parameter. A failed call, including an answer that cannot be read, is
      an `Err`. */
  datatype Services = Services(
    upload: (Bytes, string, string) -> UploadReply,
    extract: (Bytes, string) -> Result<Value>,
    process: seq<string> -> Result<seq<Processed>>)

  type Matcher = (Value, seq<string>, Value) -> Result<seq<Matched>>

  /** `update(id, patch)` on a CV record; `AfterUpdate` with fewer facts
      attached. */
  function Write(docs: Docs, id: string, patch: Record): Docs {
    if id in docs then docs[id := docs[id] + patch] else docs
  }

  lemma WriteIsUpdate(docs: Docs, id: string, patch: Record)
    ensures Write(docs, id, patch) == AfterUpdate(docs, Str(id), patch)
  {
  }

  /** The record `create_cv` stores for a new `CVSchema(name=f)`. */
  function FreshRecord(f: string, loadTime: Value): Record {
    map["name" := Str(f), "path" := Str(""), "url" := Str(""), "weight" := Dict(map[]),
        "matching" := Str(""), "summary" := Str(""), "content" := Str(""),
        "labels" := List([]), "status" := Str("APPLYING"), "upload_at" := loadTime]
  }

  lemma FreshRecordIsToDict(f: string, loadTime: Value)
    ensures FreshRecord(f, loadTime) == Cv.ToDict(Cv.Fresh(Str(f), loadTime), false)
  {
  }

  /** The percents one file goes through on a successful per-file pass. */
  const Stages: seq<int> := [0, 10, 25, 30, 40, 50, 60, 70]

  /** What Python raises when the `except` block or the processing loop reads
      `filename` before the file loop bound it. */
  const UnboundFilename := Raised("UnboundLocalError", "cannot access local variable 'filename' where it is not associated with a value")

  predicate Increasing(xs: seq<int>) {
    forall i, j :: 0 <= i < j < |xs| ==> xs[i] < xs[j]
  }

  /** Every collection id was handed out before, so new ones are fresh. */
  predicate IdsIssued(db: Db) {
    forall k :: k in db.cvDocs ==> IssuedBefore(k, db.cvCreated)
  }

  function Last(xs: seq<int>): int
    requires xs != []
  {
    xs[|xs| - 1]
  }

  /** The percent a stage leaves the file at when it starts from `x`. */
  function Reached(x: int, s: Staged): int {
    if s.trace == [] then x else Last(s.trace)
  }

  lemma LastOfAppend(xs: seq<int>, ys: seq<int>)
    requires xs != []
    ensures Last(xs + ys) == if ys == [] then Last(xs) else Last(ys)
  {
    if ys == [] {
      assert xs + ys == xs;
    }
  }

  /** `memory_cacher.get(watch_id)["percent"][f] = v`. */
  function SetPct(c: map<string, Progress>, watch: string, f: string, v: int): (r: map<string, Progress>)
    requires watch in c
    ensures r.Keys == c.Keys && f in r[watch].percent
  {
    c[watch := c[watch].(percent := c[watch].percent[f := v])]
  }

  /** A stage of the per-file pass: the new state, the percents it writes
      for the file in order (each `+= d` is the value before plus `d`), and
      whether it raised. */
  datatype Staged = Staged(db: Db, trace: seq<int>, result: Result<()>)

  /** Lines 156-161: percent 0, a new CV record named after the file, +10. */
  function Begin(db: Db, f: string, loadTime: Value): Staged {
    var id := IdFor(db.cvCreated);
    Staged(db.(cvDocs := db.cvDocs[id := FreshRecord(f, loadTime)], cvCreated := db.cvCreated + 1),
           [0, 0 + 10], Ok(()))
  }

  /** `_upload_cv_data` (lines 257-263) and the +10 after it (line 165),
      from percent `x`: the storage upload, +15, the path and URL written to
      the record, +5, +10. */
  function UploadStage(db: Db, data: Bytes, id: string, reply: UploadReply, x: int): Staged {
    match reply
    case UploadFailed(message) => Staged(db, [], Err(Raised("StorageError", message)))
    case Uploaded(path, url) =>
      var docs := Write(db.cvDocs, id, map["path" := Str(path), "url" := Str(url)]);
      Staged(db.(blobs := db.blobs[path := data], cvDocs := docs), [x + 15, x + 15 + 5, x + 15 + 5 + 10], Ok(()))
  }

  /** Lines 168-175, from percent `x`: the extracted text, +10, the text
      written to the record, +10. */
  function ExtractStage(db: Db, id: string, content: Result<Value>, x: int): Staged {
    match content
    case Err(e) => Staged(db, [], Err(e))
    case Ok(text) => Staged(db.(cvDocs := Write(db.cvDocs, id, map["content" := text])), [x + 10, x + 10 + 10], Ok(()))
  }

  /** Lines 178-179, from percent `x`: `position.update_cv(id, is_add=True)`,
      whose outcome is `o`, then +10. */
  function AttachStage(db: Db, o: Outcome, x: int): Staged {
    var db1 := db.(position := o.data, positionDocs := o.docs);
    if o.result.Err? then Staged(db1, [], o.result) else Staged(db1, [x + 10], Ok(()))
  }

  /** What one pass is told by the outside: the storage service's reply to
      the upload, the extracted text, and the outcome of `update_cv`. */
  datatype Answers = Answers(reply: UploadReply, content: Result<Value>, attach: Outcome)

  /** The answers for the file `f` on a pass that starts from `db`. The
      stages before `update_cv` leave the position alone, so its outcome is
      computed on the position as the pass finds it. */
  function AnswersFor(db: Db, data: Bytes, f: string, s: Services): Answers {
    Answers(s.upload(data, f, FileUtils.GetContentType(f)), s.extract(data, f),
            UpdateCvSpec(db.position, db.positionDocs, IdFor(db.cvCreated), true))
  }

  /** Lines 156-180, one file: the stages in order, stopping at the first
      that raises. */
  function Pass(db: Db, data: Bytes, f: string, a: Answers, loadTime: Value): (s: Staged)
    ensures s.trace != []
  {
    var id := IdFor(db.cvCreated);
    var b := Begin(db, f, loadTime);
    var u := UploadStage(b.db, data, id, a.reply, Last(b.trace));
    if u.result.Err? then Staged(u.db, b.trace, u.result)
    else
      var e := ExtractStage(u.db, id, a.content, Last(u.trace));
      if e.result.Err? then Staged(e.db, b.trace + u.trace, e.result)
      else
        var t := AttachStage(e.db, a.attach, Last(e.trace));
        Staged(t.db, b.trace + u.trace + e.trace + t.trace, t.result)
  }

  /** The stages of a pass from the extraction on, from percent `x`. */
  function FromExtract(db: Db, id: string, a: Answers, x: int): Staged {
    var e := ExtractStage(db, id, a.content, x);
    if e.result.Err? then Staged(e.db, [], e.result)
    else
      var t := AttachStage(e.db, a.attach, Last(e.trace));
      Staged(t.db, e.trace + t.trace, t.result)
  }

  /** The stages of a pass from the upload on, from percent `x`. */
  function FromUpload(db: Db, data: Bytes, id: string, a: Answers, x: int): Staged {
    var u := UploadStage(db, data, id, a.reply, x);
    if u.result.Err? then Staged(u.db, [], u.result)
    else
      var r := FromExtract(u.db, id, a, Last(u.trace));
      Staged(r.db, u.trace + r.trace, r.result)
  }

  /** A pass is its first stage followed by the rest. */
  lemma PassInParts(db: Db, data: Bytes, f: string, a: Answers, loadTime: Value)
    ensures var b := Begin(db, f, loadTime);
      var r := FromUpload(b.db, data, IdFor(db.cvCreated), a, 10);
      Pass(db, data, f, a, loadTime) == Staged(r.db, b.trace + r.trace, r.result)
  {
    var b := Begin(db, f, loadTime);
    var id := IdFor(db.cvCreated);
    var u := UploadStage(b.db, data, id, a.reply, 10);
    if u.result.Ok? {
      var e := ExtractStage(u.db, id, a.content, 40);
      if e.result.Ok? {
        var t := AttachStage(e.db, a.attach, 60);
        assert b.trace + u.trace + e.trace + t.trace == b.trace + (u.trace + (e.trace + t.trace));
      }
    }
  }

  /** One pass of the file loop: the new world, the id of the CV created,
      the percents written for the file, and whether it raised. The cache
      holds each percent of the trace in turn and ends with the last. */
  datatype FileOutcome = FileOutcome(w: World, id: string, trace: seq<int>, result: Result<()>)

  function FileStep(w: World, watch: string, data: Bytes, f: string, a: Answers, loadTime: Value): (o: FileOutcome)
    requires watch in w.progress
    ensures o.w.progress.Keys == w.progress.Keys && f in o.w.progress[watch].percent
  {
    var s := Pass(w.db, data, f, a, loadTime);
    FileOutcome(World(SetPct(w.progress, watch, f, Last(s.trace)), s.db), IdFor(w.db.cvCreated), s.trace, s.result)
  }

  /** `zip(cvs, filenames)`: stops at the shorter list. */
  function Zip(cvs: seq<Bytes>, names: seq<string>): (r: seq<(Bytes, string)>)
    ensures |r| == if |cvs| < |names| then |cvs| else |names|
    ensures forall k :: 0 <= k < |r| ==> r[k] == (cvs[k], names[k])
  {
    if cvs == [] || names == [] then [] else [(cvs[0], names[0])] + Zip(cvs[1..], names[1..])
  }

  /** The file loop so far: the world, `cv_ids`, the filename bound last
      (None before the first pass), and whether a pass raised. */
  datatype LoopOutcome = LoopOutcome(w: World, cvIds: seq<string>, current: Option<string>, result: Result<()>)

  /** One pass as the loop sees it: from the world it starts in and the
      file, the outcome. */
  type Step = (World, Bytes, string) -> FileOutcome

  /** What `memory_cacher.get(watch_id)["percent"]` raises once the watch id
      has left the cache. */
  const NoWatch := Raised("TypeError", "'NoneType' object is not subscriptable")

  /** What `CVSchema.find_by_id(cv_id).update_weight(...)` and
      `.update_matching(...)` raise when the id has no record. */
  const NoCvToProcess := AttributeError("'NoneType' object has no attribute 'update_weight'")
  const NoCvToMatch := AttributeError("'NoneType' object has no attribute 'update_matching'")

  /** What `cv_ids[0]` raises on an empty list. */
  const NoFirstCv := Raised("IndexError", "list index out of range")

  /** The RuntimeError the `except` block raises for `e`. */
  function Stopped(e: Error): Error {
    Raised("RuntimeError", "Process stopped due to error: " + e.Message())
  }

  /** The pass the loop runs for `watch`, on the services' answers; without
      the watch in the cache it raises at its first write. */
  function PassFor(watch: string, s: Services, loadTime: Value): Step {
    (w: World, data: Bytes, f: string) =>
      if watch in w.progress then FileStep(w, watch, data, f, AnswersFor(w.db, data, f, s), loadTime)
      else FileOutcome(w, IdFor(w.db.cvCreated), [], Err(NoWatch))
  }

  /** The file loop over `files`; a pass that raises ends it. */
  function RunFiles(w: World, files: seq<(Bytes, string)>, step: Step): (o: LoopOutcome)
    decreases |files|
  {
    if files == [] then LoopOutcome(w, [], None, Ok(()))
    else
      var prev := RunFiles(w, files[..|files| - 1], step);
      if prev.result.Err? then prev
      else
        var (data, f) := files[|files| - 1];
        var one := step(prev.w, data, f);
        LoopOutcome(one.w, prev.cvIds + [one.id], Some(f), one.result)
  }

  /** The outcome of the batch stages: the new world, and an exception or
      not. */
  datatype Done = Done(w: World, result: Result<()>)

  /** Lines 190-197 for one processing result: weight, summary and labels
      written to the CV found, then the last-bound filename set to 100. */
  function ProcessOne(w: World, watch: string, current: Option<string>, r: Processed, weight: Value): (d: Done)
    requires watch in w.progress
    ensures d.w.progress.Keys == w.progress.Keys
  {
    match Cv.FindById(w.db.cvDocs, r.docId)
    case Err(e) => Done(w, Err(e))
    case Ok(None) => Done(w, Err(NoCvToProcess))
    case Ok(Some(c)) =>
      var docs1 := AfterUpdate(w.db.cvDocs, c.id, map["weight" := weight]);
      var docs2 := AfterUpdate(docs1, c.id, map["summary" := r.summary]);
      var w1 := w.(db := w.db.(cvDocs := AfterUpdate(docs2, c.id, map["labels" := r.labels])));
      match current
      case None => Done(w1, Err(UnboundFilename))
      case Some(f) => Done(w1.(progress := SetPct(w1.progress, watch, f, 100)), Ok(()))
  }

  /** The processing loop over `results`. */
  function RunProcessed(w: World, watch: string, current: Option<string>, results: seq<Processed>, weight: Value): (d: Done)
    requires watch in w.progress
    ensures d.w.progress.Keys == w.progress.Keys
    decreases |results|
  {
    if results == [] then Done(w, Ok(()))
    else
      var prev := RunProcessed(w, watch, current, results[..|results| - 1], weight);
      if prev.result.Err? then prev
      else ProcessOne(prev.w, watch, current, results[|results| - 1], weight)
  }

  /** The `except` block's writes: the error text, then -1, for `f`. */
  function MarkFailed(c: map<string, Progress>, watch: string, f: string, message: string): (r: map<string, Progress>)
    requires watch in c
    ensures r.Keys == c.Keys
  {
    var p := c[watch];
    SetPct(c[watch := p.(error := p.error[f := message])], watch, f, -1)
  }

  /** Lines 199-202: mark the last-bound filename failed and raise
      RuntimeError; with no filename bound the handler itself raises. */
  function Fail(w: World, watch: string, current: Option<string>, e: Error): (d: Done)
    requires watch in w.progress
  {
    match current
    case None => Done(w, Err(UnboundFilename))
    case Some(f) =>
      Done(w.(progress := MarkFailed(w.progress, watch, f, e.Message())), Err(Stopped(e)))
  }

  /** The `jd_id` of the matching request: `get_jd_by_cvs(cv_ids[0])`. */
  function MatchingJd(db: Db, cvIds: seq<string>): Result<Value> {
    if cvIds == [] then Err(NoFirstCv)
    else JdByCvs(db.position, cvIds[0])
  }

  /** Lines 242-245 for one matching result. */
  function MatchOne(db: Db, m: Matched): (r: Result<Db>) {
    match Cv.FindById(db.cvDocs, m.cvId)
    case Err(e) => Err(e)
    case Ok(None) => Err(NoCvToMatch)
    case Ok(Some(c)) => Ok(db.(cvDocs := AfterUpdate(db.cvDocs, c.id, map["matching" := m.result])))
  }

  /** The matching loop over `results`; the state reached before a failure
      is kept. */
  function RunMatches(db: Db, results: seq<Matched>): (d: (Db, Result<()>))
    decreases |results|
  {
    if results == [] then (db, Ok(()))
    else
      var prev := RunMatches(db, results[..|results| - 1]);
      if prev.1.Err? then prev
      else match MatchOne(prev.0, results[|results| - 1])
        case Err(e) => (prev.0, Err(e))
        case Ok(db1) => (db1, Ok(()))
  }

  /** Lines 205-254, outside the `try`: the matching request, the results
      written, then the watch id removed from the cache. */
  function RunMatching(w: World, watch: string, cvIds: seq<string>, weight: Value, matcher: Matcher): (d: Done) {
    match MatchingJd(w.db, cvIds)
    case Err(e) => Done(w, Err(e))
    case Ok(jd) =>
      match matcher(jd, cvIds, weight)
      case Err(e) => Done(w, Err(e))
      case Ok(results) =>
        var (db, r) := RunMatches(w.db, results);
        if r.Err? then Done(w.(db := db), r) else Done(World(w.progress - {watch}, db), Ok(()))
  }

  /** The `try` block's batch call: processing of every created CV. */
  function Processing(loop: LoopOutcome, watch: string, weight: Value, s: Services): (d: Done)
    requires watch in loop.w.progress
    ensures d.w.progress.Keys == loop.w.progress.Keys
  {
    if loop.result.Err? then Done(loop.w, loop.result)
    else
      match s.process(loop.cvIds)
      case Err(e) => Done(loop.w, Err(e))
      case Ok(results) => RunProcessed(loop.w, watch, loop.current, results, weight)
  }

  /** The file loop for `watch`, with the fact that it keeps the set of
      watch ids. */
  function Loop(w: World, watch: string, files: seq<(Bytes, string)>, step: Step): (o: LoopOutcome)
    requires watch in w.progress && TracesAs(step, watch)
    ensures o.w.progress.Keys == w.progress.Keys
  {
    FilesKeys(w, watch, files, step);
    RunFiles(w, files, step)
  }

  /** The whole of `_upload_cvs_data`. */
  function Ingest(w: World, watch: string, cvs: seq<Bytes>, names: seq<string>, weight: Value,
                  s: Services, matcher: Matcher, loadTime: Value): (d: Done)
    requires watch in w.progress
  {
    PassForTraces(watch, s, loadTime);
    IngestWith(w, watch, Zip(cvs, names), PassFor(watch, s, loadTime), weight, s, matcher)
  }

  /** `_upload_cvs_data` over the zipped files, with the pass the loop runs
      as a parameter: the properties below hold for any pass that behaves
      as `TracesAs` (and `RecordsAs`, `AppendsAs`) say, which `PassFor`
      does. */
  function IngestWith(w: World, watch: string, files: seq<(Bytes, string)>, step: Step, weight: Value,
                      s: Services, matcher: Matcher): (d: Done)
    requires watch in w.progress && TracesAs(step, watch)
  {
    AfterLoop(Loop(w, watch, files, step), watch, weight, s, matcher)
  }

  /** What follows the loop: the processing call, then the `except` block
      or the matching. */
  function AfterLoop(loop: LoopOutcome, watch: string, weight: Value, s: Services, matcher: Matcher): (d: Done)
    requires watch in loop.w.progress
  {
    var tried := Processing(loop, watch, weight, s);
    if tried.result.Err? then Fail(tried.w, watch, loop.current, tried.result.error)
    else RunMatching(tried.w, watch, loop.cvIds, weight, matcher)
  }

  // ---------------------------------------------------------------------
  // One file

  /** What a pass does to the cache: the percents it writes for the file
      are a prefix of `Stages`, in increasing order, all of them exactly
      when it got through; the file ends at the last of them, and nothing
      else in the cache changes. */
  predicate TraceFacts(w: World, watch: string, f: string, o: FileOutcome)
    requires watch in w.progress
  {
    && o.w.progress.Keys == w.progress.Keys
    && 2 <= |o.trace| <= |Stages| && o.trace == Stages[..|o.trace|]
    && Increasing(o.trace)
    && (o.result.Ok? <==> o.trace == Stages)
    && o.w.progress[watch].percent == w.progress[watch].percent[f := Last(o.trace)]
    && o.w.progress[watch].error == w.progress[watch].error
    && (forall other :: other in w.progress && other != watch ==> o.w.progress[other] == w.progress[other])
  }

  /** What a pass does to the CV collection: one record, under the next id,
      which was not in use, named after the file; no other record changes. */
  predicate RecordFacts(db: Db, f: string, o: FileOutcome) {
    var id := IdFor(db.cvCreated);
    && o.id == id && id !in db.cvDocs
    && o.w.db.cvCreated == db.cvCreated + 1 && IdsIssued(o.w.db)
    && o.w.db.cvDocs.Keys == db.cvDocs.Keys + {id}
    && (forall k :: k in db.cvDocs ==> o.w.db.cvDocs[k] == db.cvDocs[k])
    && "name" in o.w.db.cvDocs[id] && o.w.db.cvDocs[id]["name"] == Str(f)
  }

  /** What a pass that gets through does to the position object: its id is
      appended to `cvs`, and nothing else changes. */
  predicate AppendFacts(db: Db, o: FileOutcome) {
    var p := db.position;
    o.result.Ok? ==> p.cvs.List? && o.w.db.position == p.(cvs := List(p.cvs.items + [Str(o.id)]))
  }

  lemma FileStepTrace(w: World, watch: string, data: Bytes, f: string, a: Answers, loadTime: Value)
    requires watch in w.progress
    ensures TraceFacts(w, watch, f, FileStep(w, watch, data, f, a, loadTime))
  {
    var s := Pass(w.db, data, f, a, loadTime);
    PassTrace(w.db, data, f, a, loadTime);
    StagesIncrease(|s.trace|);
  }

  lemma PassTrace(db: Db, data: Bytes, f: string, a: Answers, loadTime: Value)
    ensures var s := Pass(db, data, f, a, loadTime);
      && 2 <= |s.trace| <= |Stages| && s.trace == Stages[..|s.trace|]
      && (s.result.Ok? <==> s.trace == Stages)
  {
    var s := Pass(db, data, f, a, loadTime);
    if a.reply.UploadFailed? {
      assert s.trace == Stages[..2];
    } else if a.content.Err? {
      assert s.trace == Stages[..5];
    } else if a.attach.result.Err? {
      assert s.trace == Stages[..7];
    } else {
      assert s.trace == Stages;
    }
  }

  lemma StagesIncrease(n: nat)
    requires n <= |Stages|
    ensures Increasing(Stages[..n])
  {
  }

  /** A pass creates one record, under a fresh id, named after the file, and
      touches no other record. */
  lemma PassRecords(db: Db, data: Bytes, f: string, a: Answers, loadTime: Value)
    requires IdsIssued(db)
    ensures var s := Pass(db, data, f, a, loadTime); var id := IdFor(db.cvCreated);
      && id !in db.cvDocs
      && s.db.cvCreated == db.cvCreated + 1 && IdsIssued(s.db)
      && s.db.cvDocs.Keys == db.cvDocs.Keys + {id}
      && (forall k :: k in db.cvDocs ==> s.db.cvDocs[k] == db.cvDocs[k])
      && "name" in s.db.cvDocs[id] && s.db.cvDocs[id]["name"] == Str(f)
  {
    var s := Pass(db, data, f, a, loadTime);
    var rec := PassRecord(db, f, a, loadTime);
    FreshInsert(db, s.db, rec);
  }

  lemma FreshInsert(db: Db, db2: Db, rec: Record)
    requires IdsIssued(db)
    requires db2.cvDocs == db.cvDocs[IdFor(db.cvCreated) := rec] && db2.cvCreated == db.cvCreated + 1
    ensures var id := IdFor(db.cvCreated);
      && id !in db.cvDocs && IdsIssued(db2)
      && db2.cvDocs.Keys == db.cvDocs.Keys + {id}
      && (forall k :: k in db.cvDocs ==> db2.cvDocs[k] == db.cvDocs[k])
  {
    var id := IdFor(db.cvCreated);
    assert id !in db.cvDocs;
  }

  /** The record a pass leaves under its new id: the fresh record, then the
      path and URL if the upload went through, then the text if the
      extraction did. */
  function PassRecord(db: Db, f: string, a: Answers, loadTime: Value): (rec: Record)
    ensures "name" in rec && rec["name"] == Str(f)
    ensures forall data :: Pass(db, data, f, a, loadTime).db.cvDocs == db.cvDocs[IdFor(db.cvCreated) := rec]
    ensures forall data :: Pass(db, data, f, a, loadTime).db.cvCreated == db.cvCreated + 1
  {
    var r0 := FreshRecord(f, loadTime);
    if a.reply.UploadFailed? then r0
    else
      var r1 := r0 + map["path" := Str(a.reply.path), "url" := Str(a.reply.url)];
      if a.content.Err? then r1 else r1 + map["content" := a.content.value]
  }

  /** The upload and the extraction leave the position alone; a pass that
      gets past them ends as `update_cv` does. */
  lemma PassPosition(db: Db, data: Bytes, f: string, a: Answers, loadTime: Value)
    ensures var s := Pass(db, data, f, a, loadTime);
      && (a.reply.UploadFailed? || a.content.Err? ==>
            s.result.Err? && s.db.position == db.position && s.db.positionDocs == db.positionDocs)
      && (a.reply.Uploaded? && a.content.Ok? ==>
            (s.result.Ok? <==> a.attach.result.Ok?) && s.db.position == a.attach.data && s.db.positionDocs == a.attach.docs)
  {
  }

  /** What a pass that gets through leaves behind: the record holds the
      storage path and URL and the extracted text, the file is in storage. */
  lemma PassSucceeds(db: Db, data: Bytes, f: string, a: Answers, loadTime: Value)
    requires Pass(db, data, f, a, loadTime).result.Ok?
    ensures var s := Pass(db, data, f, a, loadTime);
      && a.reply.Uploaded? && a.content.Ok? && a.attach.result.Ok?
      && s.db.cvDocs == db.cvDocs[IdFor(db.cvCreated) := FreshRecord(f, loadTime)
                                    + map["path" := Str(a.reply.path), "url" := Str(a.reply.url)]
                                    + map["content" := a.content.value]]
      && s.db.blobs == db.blobs[a.reply.path := data]
  {
  }

  /** A pass that gets through appends its id to the position's list. */
  lemma FileStepAppends(w: World, watch: string, data: Bytes, f: string, s: Services, loadTime: Value)
    requires watch in w.progress
    ensures AppendFacts(w.db, FileStep(w, watch, data, f, AnswersFor(w.db, data, f, s), loadTime))
  {
    var db := w.db;
    var a := AnswersFor(db, data, f, s);
    var id := IdFor(db.cvCreated);
    PassPosition(db, data, f, a, loadTime);
    if Pass(db, data, f, a, loadTime).result.Ok? {
      AddAppends(db.position, db.positionDocs, id);
      UpdateCvKeepsOtherFields(db.position, db.positionDocs, id, true);
    }
  }

  /** The pass the loop runs, for every state it may start from. */
  ghost predicate TracesAs(step: Step, watch: string) {
    forall w: World, data: Bytes, f: string :: watch in w.progress ==> TraceFacts(w, watch, f, step(w, data, f))
  }

  ghost predicate RecordsAs(step: Step, watch: string) {
    forall w: World, data: Bytes, f: string :: watch in w.progress && IdsIssued(w.db) ==> RecordFacts(w.db, f, step(w, data, f))
  }

  ghost predicate AppendsAs(step: Step, watch: string) {
    forall w: World, data: Bytes, f: string :: watch in w.progress ==> AppendFacts(w.db, step(w, data, f))
  }

  lemma PassForTraces(watch: string, s: Services, loadTime: Value)
    ensures TracesAs(PassFor(watch, s, loadTime), watch)
  {
    forall w: World, data: Bytes, f: string | watch in w.progress
      ensures TraceFacts(w, watch, f, PassFor(watch, s, loadTime)(w, data, f))
    {
      FileStepTrace(w, watch, data, f, AnswersFor(w.db, data, f, s), loadTime);
    }
  }

  lemma PassForRecords(watch: string, s: Services, loadTime: Value)
    ensures RecordsAs(PassFor(watch, s, loadTime), watch)
  {
    forall w: World, data: Bytes, f: string | watch in w.progress && IdsIssued(w.db)
      ensures RecordFacts(w.db, f, PassFor(watch, s, loadTime)(w, data, f))
    {
      PassRecords(w.db, data, f, AnswersFor(w.db, data, f, s), loadTime);
    }
  }

  lemma PassForAppends(watch: string, s: Services, loadTime: Value)
    ensures AppendsAs(PassFor(watch, s, loadTime), watch)
  {
    forall w: World, data: Bytes, f: string | watch in w.progress
      ensures AppendFacts(w.db, PassFor(watch, s, loadTime)(w, data, f))
    {
      FileStepAppends(w, watch, data, f, s, loadTime);
    }
  }

  // ---------------------------------------------------------------------
  // The file loop

  /** A pass that raises ends the loop: nothing after it runs. */
  lemma {:induction false} LoopStopsAtFailure(w: World, files: seq<(Bytes, string)>, step: Step, k: nat)
    requires k <= |files|
    requires RunFiles(w, files[..k], step).result.Err?
    ensures RunFiles(w, files, step) == RunFiles(w, files[..k], step)
    decreases |files|
  {
    if k < |files| {
      var init := files[..|files| - 1];
      assert init[..k] == files[..k];
      LoopStopsAtFailure(w, init, step, k);
    } else {
      assert files[..k] == files;
    }
  }

  /** A pass runs on the state the passes before it left, when they got
      through. */
  lemma RunFilesAfter(w: World, files: seq<(Bytes, string)>, step: Step)
    requires files != []
    requires RunFiles(w, files[..|files| - 1], step).result.Ok?
    ensures var prev := RunFiles(w, files[..|files| - 1], step);
      var one := step(prev.w, files[|files| - 1].0, files[|files| - 1].1);
      RunFiles(w, files, step) == LoopOutcome(one.w, prev.cvIds + [one.id], Some(files[|files| - 1].1), one.result)
  {
  }

  /** A loop that gets through ran every pass, the last on the state the
      others left, and that pass got through. */
  lemma RunFilesLast(w: World, files: seq<(Bytes, string)>, step: Step)
    requires files != []
    requires RunFiles(w, files, step).result.Ok?
    ensures var prev := RunFiles(w, files[..|files| - 1], step);
      var one := step(prev.w, files[|files| - 1].0, files[|files| - 1].1);
      && prev.result.Ok? && one.result.Ok?
      && RunFiles(w, files, step) == LoopOutcome(one.w, prev.cvIds + [one.id], Some(files[|files| - 1].1), one.result)
  {
  }

  /** The loop keeps the set of watch ids. */
  lemma {:induction false} FilesKeys(w: World, watch: string, files: seq<(Bytes, string)>, step: Step)
    requires watch in w.progress && TracesAs(step, watch)
    ensures RunFiles(w, files, step).w.progress.Keys == w.progress.Keys
    decreases |files|
  {
    if files != [] {
      var prev := RunFiles(w, files[..|files| - 1], step);
      FilesKeys(w, watch, files[..|files| - 1], step);
      var (data, f) := files[|files| - 1];
      assert TraceFacts(prev.w, watch, f, step(prev.w, data, f));
    }
  }

  /** A loop that gets through creates one record per file, in order, under
      ids handed out one after another and never used before, each named
      after its file; it changes no record that was already there, and ends
      with `filename` bound to the last file. */
  lemma {:induction false} FilesRecords(w: World, watch: string, files: seq<(Bytes, string)>, step: Step)
    requires watch in w.progress && IdsIssued(w.db) && TracesAs(step, watch) && RecordsAs(step, watch)
    requires RunFiles(w, files, step).result.Ok?
    ensures var o := RunFiles(w, files, step);
      && |o.cvIds| == |files| && o.w.db.cvCreated == w.db.cvCreated + |files| && IdsIssued(o.w.db)
      && (forall k :: 0 <= k < |files| ==> o.cvIds[k] == IdFor(w.db.cvCreated + k) && o.cvIds[k] !in w.db.cvDocs)
      && (forall k :: 0 <= k < |files| ==>
            o.cvIds[k] in o.w.db.cvDocs && "name" in o.w.db.cvDocs[o.cvIds[k]] && o.w.db.cvDocs[o.cvIds[k]]["name"] == Str(files[k].1))
      && (forall key :: key in w.db.cvDocs ==> key in o.w.db.cvDocs && o.w.db.cvDocs[key] == w.db.cvDocs[key])
      && o.current == (if files == [] then None else Some(files[|files| - 1].1))
    decreases |files|
  {
    if files != [] {
      var init := files[..|files| - 1];
      var prev := RunFiles(w, init, step);
      RunFilesLast(w, files, step);
      FilesRecords(w, watch, init, step);
      FilesKeys(w, watch, init, step);
      var (data, f) := files[|files| - 1];
      assert RecordFacts(prev.w.db, f, step(prev.w, data, f));
      var o := RunFiles(w, files, step);
      forall k | 0 <= k < |files|
        ensures o.cvIds[k] == IdFor(w.db.cvCreated + k) && o.cvIds[k] !in w.db.cvDocs
        ensures o.cvIds[k] in o.w.db.cvDocs && "name" in o.w.db.cvDocs[o.cvIds[k]] && o.w.db.cvDocs[o.cvIds[k]]["name"] == Str(files[k].1)
      {
        if k < |files| - 1 {
          assert files[k] == init[k] && o.cvIds[k] == prev.cvIds[k];
        } else {
          assert o.cvIds[k] == IdFor(w.db.cvCreated + k);
          LaterIdFresh(w.db, w.db.cvCreated + k);
        }
      }
    }
  }

  /** Ids handed out later are not in the collection yet. */
  lemma LaterIdFresh(db: Db, n: nat)
    requires IdsIssued(db) && db.cvCreated <= n
    ensures IdFor(n) !in db.cvDocs
  {
  }

  /** `StrList` grows at the end as its list does. */
  lemma StrListSnoc(xs: seq<string>, x: string)
    ensures StrList(xs + [x]).items == StrList(xs).items + [Str(x)]
  {
    var l, r := StrList(xs + [x]).items, StrList(xs).items + [Str(x)];
    assert |l| == |r|;
    forall i | 0 <= i < |l| ensures l[i] == r[i] {
      assert (xs + [x])[i] == if i < |xs| then xs[i] else x;
    }
  }

  /** A loop that gets through appends the new ids, in order, to the
      position's list, and changes no other field of the position object. */
  lemma {:induction false} FilesPosition(w: World, watch: string, files: seq<(Bytes, string)>, step: Step)
    requires watch in w.progress && TracesAs(step, watch) && AppendsAs(step, watch)
    requires RunFiles(w, files, step).result.Ok?
    ensures var o := RunFiles(w, files, step);
      && o.w.db.position == w.db.position.(cvs := o.w.db.position.cvs)
      && (files != [] ==> w.db.position.cvs.List? && o.w.db.position.cvs == List(w.db.position.cvs.items + StrList(o.cvIds).items))
    decreases |files|
  {
    if files != [] {
      var init := files[..|files| - 1];
      var prev := RunFiles(w, init, step);
      RunFilesLast(w, files, step);
      FilesPosition(w, watch, init, step);
      FilesKeys(w, watch, init, step);
      var (data, f) := files[|files| - 1];
      var one := step(prev.w, data, f);
      assert AppendFacts(prev.w.db, one);
      assert TraceFacts(prev.w, watch, f, one);
      var id := one.id;
      StrListSnoc(prev.cvIds, id);
      var items0, items1 := w.db.position.cvs.items, prev.w.db.position.cvs.items;
      if init == [] {
        assert prev.w == w && prev.cvIds == [];
        assert StrList(prev.cvIds).items == [];
        assert items1 + [Str(id)] == items0 + StrList(prev.cvIds + [id]).items;
      } else {
        assert items1 == items0 + StrList(prev.cvIds).items;
        assert items1 + [Str(id)] == items0 + StrList(prev.cvIds + [id]).items;
      }
    }
  }

  /** The file has not been through the loop. */
  predicate Unnamed(files: seq<(Bytes, string)>, g: string) {
    forall k :: 0 <= k < |files| ==> files[k].1 != g
  }

  /** A loop that gets through leaves every file at 70, every other percent
      of the watch as it was, the error texts as they were, and every other
      watch alone. */
  lemma {:induction false} FilesProgress(w: World, watch: string, files: seq<(Bytes, string)>, step: Step)
    requires watch in w.progress && TracesAs(step, watch)
    requires RunFiles(w, files, step).result.Ok?
    ensures var o := RunFiles(w, files, step);
      && o.w.progress.Keys == w.progress.Keys
      && (forall other :: other in w.progress && other != watch ==> o.w.progress[other] == w.progress[other])
      && o.w.progress[watch].error == w.progress[watch].error
      && (forall k :: 0 <= k < |files| ==> files[k].1 in o.w.progress[watch].percent && o.w.progress[watch].percent[files[k].1] == Last(Stages))
      && (forall g :: g in w.progress[watch].percent && Unnamed(files, g) ==>
            g in o.w.progress[watch].percent && o.w.progress[watch].percent[g] == w.progress[watch].percent[g])
    decreases |files|
  {
    if files != [] {
      var init := files[..|files| - 1];
      var prev := RunFiles(w, init, step);
      RunFilesLast(w, files, step);
      FilesProgress(w, watch, init, step);
      var (data, f) := files[|files| - 1];
      assert TraceFacts(prev.w, watch, f, step(prev.w, data, f));
      var o := RunFiles(w, files, step);
      forall k | 0 <= k < |files|
        ensures files[k].1 in o.w.progress[watch].percent && o.w.progress[watch].percent[files[k].1] == Last(Stages)
      {
        if k < |files| - 1 {
          assert files[k] == init[k];
        }
      }
      forall g | g in w.progress[watch].percent && Unnamed(files, g)
        ensures g in o.w.progress[watch].percent && o.w.progress[watch].percent[g] == w.progress[watch].percent[g]
      {
        assert files[|files| - 1].1 != g;
        assert Unnamed(init, g) by {
          forall k | 0 <= k < |init| ensures init[k].1 != g {
            assert init[k] == files[k];
          }
        }
      }
    }
  }

  /** The loop when the pass at file `k` raises: it stops there with that
      pass's error and `filename` bound to that file, every earlier file
      under another name at 70, the error texts and the other watches as
      they were. */
  lemma FailedLoop(w: World, watch: string, files: seq<(Bytes, string)>, step: Step, k: nat)
    requires watch in w.progress && TracesAs(step, watch) && k < |files|
    requires RunFiles(w, files[..k], step).result.Ok?
    requires RunFiles(w, files[..k + 1], step).result.Err?
    ensures var o := RunFiles(w, files, step);
      && o.w.progress.Keys == w.progress.Keys
      && o.result == RunFiles(w, files[..k + 1], step).result
      && o.current == Some(files[k].1)
      && o.w.progress[watch].error == w.progress[watch].error
      && (forall j :: 0 <= j < k && files[j].1 != files[k].1 ==>
            files[j].1 in o.w.progress[watch].percent && o.w.progress[watch].percent[files[j].1] == Last(Stages))
      && (forall other :: other in w.progress && other != watch ==> o.w.progress[other] == w.progress[other])
  {
    var head := files[..k + 1];
    LoopStopsAtFailure(w, files, step, k + 1);
    assert head[..k] == files[..k];
    var prev := RunFiles(w, files[..k], step);
    RunFilesAfter(w, head, step);
    var (data, f) := files[k];
    FilesProgress(w, watch, files[..k], step);
    assert TraceFacts(prev.w, watch, f, step(prev.w, data, f));
    forall j | 0 <= j < k && files[j].1 != f
      ensures files[j].1 in prev.w.progress[watch].percent && prev.w.progress[watch].percent[files[j].1] == Last(Stages)
    {
      assert files[..k][j] == files[j];
    }
  }

  // ---------------------------------------------------------------------
  // The batch stages

  /** One processing result: the position is left alone and no record is
      created; without a bound filename it raises and leaves the cache
      alone; with one, it sets that file to 100 if it gets through and
      leaves the cache alone if not. */
  lemma ProcessOneFacts(w: World, watch: string, current: Option<string>, r: Processed, weight: Value)
    requires watch in w.progress
    ensures var d := ProcessOne(w, watch, current, r, weight);
      && d.w.db.position == w.db.position && d.w.db.positionDocs == w.db.positionDocs
      && d.w.db.cvDocs.Keys == w.db.cvDocs.Keys
      && (current.None? ==> d.result.Err?)
      && (d.result.Err? ==> d.w.progress == w.progress)
      && (d.result.Ok? ==> d.w.progress == SetPct(w.progress, watch, current.value, 100))
  {
    match Cv.FindById(w.db.cvDocs, r.docId)
    case Err(_) =>
    case Ok(None) =>
    case Ok(Some(c)) =>
      var docs1 := AfterUpdate(w.db.cvDocs, c.id, map["weight" := weight]);
      var docs2 := AfterUpdate(docs1, c.id, map["summary" := r.summary]);
      assert docs2.Keys == w.db.cvDocs.Keys;
  }

  /** A later percent for the same file replaces the earlier one. */
  lemma SetPctAgain(c: map<string, Progress>, watch: string, f: string, v: int, u: int)
    requires watch in c
    ensures SetPct(SetPct(c, watch, f, v), watch, f, u) == SetPct(c, watch, f, u)
  {
    assert c[watch].percent[f := v][f := u] == c[watch].percent[f := u];
  }

  /** The processing loop leaves the position alone and creates no record;
      the cache is as it was, or has the last-bound file at 100, and it has
      that whenever the loop got through at least one result; without a
      bound filename any result raises. */
  lemma {:induction false} ProcessedFacts(w: World, watch: string, current: Option<string>, results: seq<Processed>, weight: Value)
    requires watch in w.progress
    ensures var d := RunProcessed(w, watch, current, results, weight);
      && d.w.db.position == w.db.position && d.w.db.positionDocs == w.db.positionDocs
      && d.w.db.cvDocs.Keys == w.db.cvDocs.Keys
      && (results == [] ==> d == Done(w, Ok(())))
      && (current.None? ==> d.w.progress == w.progress && (results != [] ==> d.result.Err?))
      && (current.Some? ==> d.w.progress == w.progress || d.w.progress == SetPct(w.progress, watch, current.value, 100))
      && (current.Some? && results != [] && d.result.Ok? ==> d.w.progress == SetPct(w.progress, watch, current.value, 100))
    decreases |results|
  {
    if results != [] {
      var init := results[..|results| - 1];
      var prev := RunProcessed(w, watch, current, init, weight);
      ProcessedFacts(w, watch, current, init, weight);
      if prev.result.Ok? {
        ProcessOneFacts(prev.w, watch, current, results[|results| - 1], weight);
        if current.Some? && init != [] {
          SetPctAgain(w.progress, watch, current.value, 100, 100);
        }
      }
    }
  }

  // ---------------------------------------------------------------------
  // The whole task

  /** `Ingest` is `IngestWith` on the zipped files and the real pass. */
  lemma IngestIsWith(w: World, watch: string, cvs: seq<Bytes>, names: seq<string>, weight: Value,
                     s: Services, matcher: Matcher, loadTime: Value)
    requires watch in w.progress
    ensures TracesAs(PassFor(watch, s, loadTime), watch)
    ensures RecordsAs(PassFor(watch, s, loadTime), watch)
    ensures AppendsAs(PassFor(watch, s, loadTime), watch)
    ensures Ingest(w, watch, cvs, names, weight, s, matcher, loadTime)
         == IngestWith(w, watch, Zip(cvs, names), PassFor(watch, s, loadTime), weight, s, matcher)
  {
    PassForTraces(watch, s, loadTime);
    PassForRecords(watch, s, loadTime);
    PassForAppends(watch, s, loadTime);
  }

  /** With no file to go through (`zip` of an empty list) the task raises
      and leaves the cache as it was. */
  lemma EmptyBatchFails(w: World, watch: string, step: Step, weight: Value, s: Services, matcher: Matcher)
    requires watch in w.progress && TracesAs(step, watch)
    ensures var d := IngestWith(w, watch, [], step, weight, s, matcher);
      d.result.Err? && d.w.progress == w.progress
  {
    var loop := Loop(w, watch, [], step);
    assert loop == LoopOutcome(w, [], None, Ok(()));
    if s.process([]).Ok? {
      ProcessedFacts(w, watch, None, s.process([]).value, weight);
    }
  }

  /** `zip` of two lists one of which is empty is empty. */
  lemma ZipEmpty(cvs: seq<Bytes>, names: seq<string>)
    ensures Zip(cvs, names) == [] <==> cvs == [] || names == []
  {
  }

  /** A loop or a processing call that raised with a filename bound goes
      to the `except` block: RuntimeError carrying the message, that file
      at -1 with the message, and the rest of the cache as the loop left
      it (the 100 the processing call may have set is overwritten). */
  lemma FailedAfterLoop(loop: LoopOutcome, watch: string, weight: Value, s: Services, matcher: Matcher)
    requires watch in loop.w.progress && loop.current.Some?
    requires Processing(loop, watch, weight, s).result.Err?
    ensures var f := loop.current.value; var e := Processing(loop, watch, weight, s).result.error;
      var d := AfterLoop(loop, watch, weight, s, matcher); var p := loop.w.progress[watch];
      && d.result == Err(Stopped(e))
      && watch in d.w.progress
      && d.w.progress[watch].percent == p.percent[f := -1]
      && d.w.progress[watch].error == p.error[f := e.Message()]
      && (forall other :: other in loop.w.progress && other != watch ==> other in d.w.progress && d.w.progress[other] == loop.w.progress[other])
  {
    var f := loop.current.value;
    var tried := Processing(loop, watch, weight, s);
    if loop.result.Ok? {
      ProcessingFacts(loop, watch, weight, s);
    }
    MarkFailedFacts(tried.w.progress, watch, f, tried.result.error.Message());
    var p := loop.w.progress[watch];
    assert p.percent[f := 100][f := -1] == p.percent[f := -1];
  }

  /** The `except` block's writes, spelled out. */
  lemma MarkFailedFacts(c: map<string, Progress>, watch: string, f: string, message: string)
    requires watch in c
    ensures var r := MarkFailed(c, watch, f, message);
      && r[watch].percent == c[watch].percent[f := -1]
      && r[watch].error == c[watch].error[f := message]
      && (forall other :: other in c && other != watch ==> r[other] == c[other])
  {
  }

  /** A pass that raises at file `k` stops the task with RuntimeError
      carrying its message; the file is marked -1 with that message, every
      earlier file under another name stays at 70, and no other watch
      changes. Nothing is processed or matched. */
  lemma FailureAtFile(w: World, watch: string, files: seq<(Bytes, string)>, step: Step, weight: Value,
                      s: Services, matcher: Matcher, k: nat)
    requires watch in w.progress && TracesAs(step, watch) && k < |files|
    requires RunFiles(w, files[..k], step).result.Ok?
    requires RunFiles(w, files[..k + 1], step).result.Err?
    ensures var f := files[k].1;
      var e := RunFiles(w, files[..k + 1], step).result.error;
      var d := IngestWith(w, watch, files, step, weight, s, matcher);
      && d.result == Err(Stopped(e))
      && watch in d.w.progress
      && f in d.w.progress[watch].percent && d.w.progress[watch].percent[f] == -1
      && f in d.w.progress[watch].error && d.w.progress[watch].error[f] == e.Message()
      && (forall j :: 0 <= j < k && files[j].1 != f ==>
            files[j].1 in d.w.progress[watch].percent && d.w.progress[watch].percent[files[j].1] == Last(Stages))
      && (forall other :: other in w.progress && other != watch ==> other in d.w.progress && d.w.progress[other] == w.progress[other])
  {
    FailedLoop(w, watch, files, step, k);
    FailedAfterLoop(Loop(w, watch, files, step), watch, weight, s, matcher);
  }

  /** The processing call after a loop that got through: the position is
      left alone; the cache is as the loop left it, or has the last file at
      100, and it has that when at least one result was written; when the
      service answers with no results nothing changes. */
  lemma ProcessingFacts(loop: LoopOutcome, watch: string, weight: Value, s: Services)
    requires watch in loop.w.progress && loop.result.Ok?
    ensures var d := Processing(loop, watch, weight, s);
      && d.w.db.position == loop.w.db.position
      && (d.w.progress == loop.w.progress
          || (loop.current.Some? && d.w.progress == SetPct(loop.w.progress, watch, loop.current.value, 100)))
      && (s.process(loop.cvIds) == Ok([]) ==> d == Done(loop.w, Ok(())))
      && (loop.current.Some? && s.process(loop.cvIds).Ok? && s.process(loop.cvIds).value != [] && d.result.Ok? ==>
            d.w.progress == SetPct(loop.w.progress, watch, loop.current.value, 100))
  {
    if s.process(loop.cvIds).Ok? {
      ProcessedFacts(loop.w, watch, loop.current, s.process(loop.cvIds).value, weight);
    }
  }

  /** Once processing got through at least one result, the last file is at
      100 and every other file at 70: only the filename bound last ever
      reaches 100. */
  lemma ProcessingMarksLastFile(w: World, watch: string, files: seq<(Bytes, string)>, step: Step, weight: Value, s: Services)
    requires watch in w.progress && TracesAs(step, watch) && files != []
    requires Loop(w, watch, files, step).result.Ok?
    requires var loop := Loop(w, watch, files, step);
      && s.process(loop.cvIds).Ok? && s.process(loop.cvIds).value != []
      && Processing(loop, watch, weight, s).result.Ok?
    ensures var d := Processing(Loop(w, watch, files, step), watch, weight, s);
      var f := files[|files| - 1].1;
      && watch in d.w.progress
      && f in d.w.progress[watch].percent && d.w.progress[watch].percent[f] == 100
      && (forall j :: 0 <= j < |files| && files[j].1 != f ==>
            files[j].1 in d.w.progress[watch].percent && d.w.progress[watch].percent[files[j].1] == Last(Stages))
  {
    RunFilesLast(w, files, step);
    FilesProgress(w, watch, files, step);
    ProcessingFacts(Loop(w, watch, files, step), watch, weight, s);
  }

  /** A processing call that raises after the loop got through stops the
      task with RuntimeError carrying its message; the last file is marked
      -1 with that message, every other file stays at 70, and no other
      watch changes. */
  lemma ProcessingFailure(w: World, watch: string, files: seq<(Bytes, string)>, step: Step, weight: Value,
                          s: Services, matcher: Matcher)
    requires watch in w.progress && TracesAs(step, watch) && files != []
    requires Loop(w, watch, files, step).result.Ok?
    requires Processing(Loop(w, watch, files, step), watch, weight, s).result.Err?
    ensures var f := files[|files| - 1].1;
      var e := Processing(Loop(w, watch, files, step), watch, weight, s).result.error;
      var d := IngestWith(w, watch, files, step, weight, s, matcher);
      && d.result == Err(Stopped(e))
      && watch in d.w.progress
      && f in d.w.progress[watch].percent && d.w.progress[watch].percent[f] == -1
      && f in d.w.progress[watch].error && d.w.progress[watch].error[f] == e.Message()
      && (forall j :: 0 <= j < |files| && files[j].1 != f ==>
            files[j].1 in d.w.progress[watch].percent && d.w.progress[watch].percent[files[j].1] == Last(Stages))
      && (forall other :: other in w.progress && other != watch ==> other in d.w.progress && d.w.progress[other] == w.progress[other])
  {
    RunFilesLast(w, files, step);
    FilesProgress(w, watch, files, step);
    FailedAfterLoop(Loop(w, watch, files, step), watch, weight, s, matcher);
  }

  /** The matching request asks for the position's own JD: the first CV id
      is in the position's list by then, and processing does not touch the
      position. */
  lemma MatchingUsesPositionJd(w: World, watch: string, files: seq<(Bytes, string)>, step: Step, weight: Value, s: Services)
    requires watch in w.progress && TracesAs(step, watch) && AppendsAs(step, watch) && files != []
    requires Loop(w, watch, files, step).result.Ok?
    ensures var loop := Loop(w, watch, files, step);
      MatchingJd(Processing(loop, watch, weight, s).w.db, loop.cvIds) == Ok(w.db.position.jd)
  {
    var loop := Loop(w, watch, files, step);
    FilesPosition(w, watch, files, step);
    RunFilesLast(w, files, step);
    ProcessingFacts(loop, watch, weight, s);
    var items0 := w.db.position.cvs.items;
    assert (items0 + StrList(loop.cvIds).items)[|items0|] == Str(loop.cvIds[0]);
  }

  /** Two caches that agree outside `watch` and have the same watches are
      equal once `watch` is removed. */
  lemma SameOutside(c1: map<string, Progress>, c2: map<string, Progress>, watch: string)
    requires c1.Keys == c2.Keys
    requires forall other :: other in c1 && other != watch ==> c1[other] == c2[other]
    ensures c1 - {watch} == c2 - {watch}
  {
  }

  /** The loop and the processing call change no watch id but `watch`. */
  lemma OthersKept(w: World, watch: string, files: seq<(Bytes, string)>, step: Step, weight: Value, s: Services)
    requires watch in w.progress && TracesAs(step, watch)
    requires Loop(w, watch, files, step).result.Ok?
    ensures Processing(Loop(w, watch, files, step), watch, weight, s).w.progress - {watch} == w.progress - {watch}
  {
    var loop := Loop(w, watch, files, step);
    FilesProgress(w, watch, files, step);
    SameOutside(loop.w.progress, w.progress, watch);
    ProcessingFacts(loop, watch, weight, s);
    var tried := Processing(loop, watch, weight, s);
    SameOutside(tried.w.progress, loop.w.progress, watch);
  }

  /** A task that completes got through the loop and the processing call,
      and removed the watch id from the cache they left. */
  lemma AfterLoopCompleted(loop: LoopOutcome, watch: string, weight: Value, s: Services, matcher: Matcher)
    requires watch in loop.w.progress
    requires AfterLoop(loop, watch, weight, s, matcher).result.Ok?
    ensures var tried := Processing(loop, watch, weight, s);
      && loop.result.Ok? && tried.result.Ok?
      && AfterLoop(loop, watch, weight, s, matcher).w.progress == tried.w.progress - {watch}
  {
  }

  /** A task that completes had at least one file, and leaves the cache as
      it found it with the watch id removed. */
  lemma SuccessRemovesWatch(w: World, watch: string, files: seq<(Bytes, string)>, step: Step, weight: Value,
                            s: Services, matcher: Matcher)
    requires watch in w.progress && TracesAs(step, watch)
    requires IngestWith(w, watch, files, step, weight, s, matcher).result.Ok?
    ensures files != []
    ensures IngestWith(w, watch, files, step, weight, s, matcher).w.progress == w.progress - {watch}
  {
    if files == [] {
      EmptyBatchFails(w, watch, step, weight, s, matcher);
    } else {
      AfterLoopCompleted(Loop(w, watch, files, step), watch, weight, s, matcher);
      OthersKept(w, watch, files, step, weight, s);
    }
  }

  /** Once the `try` block raised, the matching service is never called:
      the outcome is the same whatever it would answer. */
  lemma NoMatchingAfterFailure(w: World, watch: string, files: seq<(Bytes, string)>, step: Step, weight: Value,
                               s: Services, m1: Matcher, m2: Matcher)
    requires watch in w.progress && TracesAs(step, watch)
    requires Processing(Loop(w, watch, files, step), watch, weight, s).result.Err?
    ensures IngestWith(w, watch, files, step, weight, s, m1) == IngestWith(w, watch, files, step, weight, s, m2)
  {
  }
}

# SMART4IT back end: a verified model of its core

SMART4IT's back end is a FastAPI service over a Firestore-like document
database. Recruiters use it to manage projects, hiring positions, job
descriptions (JDs) and candidate CVs. Underneath the web glue sits a small
amount of sequential logic, and this project models it in Dafny and proves
what it promises:

- the records of CVs, positions, JDs and users: their `to_dict`/`from_dict`
  round trips and their single-field update methods;
- a position's CV list and the status it triggers (`update_cv`);
- the permission checks every CV and JD endpoint starts with;
- the CV upload: the per-file loop with its progress percentages, the batch
  processing pass, the `except` block, and the matching pass;
- the rematch and delete endpoints;
- the JD controller's lazy creation and its create-or-update logic;
- the two dashboards: status counters and five-bucket score histograms;
- the file-name checks;
- the text formatters and the row ordering of the CV-summary export.

## How the model is built

- **Values.** A Python dict value is a `Values.Value` (None, bool, number,
  string, list or dict), and a stored document is a `map<string, Value>`.
  Fields the code passes through without looking at them stay `Value`s.
- **Enums.** `CVStatus` and `PositionStatus` are datatypes. Building one from
  an unknown string raises ValueError, so `from_dict` returns a `Result`.
- **The database.** A collection is the class `Store.Collection`: a map from
  document id to record, plus a counter from which fresh ids are made.
  - `get_by_id` gives the record with its id added under "id", or None when
    there is no record.
  - `get_all_by_ids` gives the records of the ids that exist, in list order.
  - `update` on a missing document is an error, as Firestore's is.
  - The database provider is not part of this model; these are the
    assumptions made about it.
- **Blob storage and the progress cache.** These are the classes
  `Store.BlobStore` and `Store.ProgressCache`. A cache entry is a watch id
  mapped to `percent` (filename→int) and `error` (filename→string).
- **Objects that change.** `CVSchema`, `PositionSchema`, `JDSchema` and
  `UserSchema` are classes whose fields the update methods assign. Each
  method's contract ties the new fields and the new store to the old ones.
- **The upload task.** `_upload_cvs_data` is the method
  `CvController.UploadCvsTask`. It runs over the cache, the two collections,
  the position object and the blob storage, and it is proved equal to the
  function `Ingestion.Ingest`. The properties of the upload are lemmas about
  `Ingest`.
- **External services.** The storage upload, the text extraction, the
  processing service and the matching service are parameters (`Services`,
  `Matcher`). Their answers may be failures, and every failure takes the
  path the Python exception would take.
- **Pure code.** The formatters, the bucket rule, the file-name checks and
  the serialisers are functions with lemmas. The loops of the dashboards and
  of `build_cv_summary_file` are methods proved against those functions.

## Model

| member | source | states |
|---|---|---|
| Values.Contains | apis/v1/controllers/cv_controller.py:26 | `x in container`: list membership, key membership for a dict; TypeError for None, bool and numbers |
| Strings.Lower | apis/v1/utils/utils.py:20 | `lower()` on ASCII letters: the length is kept and each character is lower-cased on its own (Unicode case mapping is not modelled) |
| Strings.LowerIdempotent | apis/v1/utils/utils.py:20 | lower-casing twice is lower-casing once |
| Strings.LowerOfLowerCase | apis/v1/utils/utils.py:20 | a string without upper-case letters is its own lower case |
| Strings.Join | apis/v1/utils/formatter.py:5 | joining no parts gives "", joining one part gives that part |
| Strings.LStrip | apis/v1/utils/formatter.py:18 | left strip of a character set: a suffix of the input, every dropped character in the set, the first kept one not in it |
| Strings.RStrip | apis/v1/utils/formatter.py:18 | right strip of a character set: a prefix of the input, every dropped character in the set, the last kept one not in it |
| Strings.StripCharsSpec | apis/v1/utils/formatter.py:18 | `strip(chars)` keeps one contiguous piece, drops only characters of the set, and the piece neither starts nor ends with one |
| Store.Lookup | apis/v1/schemas/cv_schema.py:101 | `get_by_id` returns a record exactly when the id is a stored string, and adds the id to it |
| Store.LookupAll | apis/v1/schemas/cv_schema.py:97 | `get_all_by_ids` returns at most one record per id, only records of listed ids, and every listed stored one |
| Store.LookupAllAppend | apis/v1/schemas/position_schema.py:121 | the documents come back in list order: the lookup of a concatenation is the concatenation of the lookups |
| Store.LookupAllOne | apis/v1/schemas/position_schema.py:121 | one id gives its document with the id added, or nothing |
| Store.IdList | apis/v1/schemas/position_schema.py:121 | the id list handed to `get_all_by_ids` must be a list, and is then taken as it is |
| Store.Patched | apis/v1/schemas/cv_schema.py:114-117 | `update` succeeds exactly when the document exists |
| Store.PatchedFields | apis/v1/schemas/cv_schema.py:114-117 | a successful `update` keeps every other document and merges the patch over the old fields |
| Store.IdFor | apis/v1/schemas/cv_schema.py:107 | the n-th created document gets a different id from every other |
| Store.Collection.Create | apis/v1/schemas/cv_schema.py:107 | `create` stores the fields under a fresh id and returns that id |
| Store.Collection.Update | apis/v1/schemas/cv_schema.py:114 | `update` merges the patch into an existing document, and fails for a missing one |
| Store.Collection.Delete | apis/v1/schemas/cv_schema.py:150 | `delete` removes the document, if there is one |
| Store.BlobStore.Upload | apis/v1/controllers/cv_controller.py:260 | a storage upload stores the bytes at the path the service answers, or raises its error |
| Store.BlobStore.Remove | apis/v1/schemas/cv_schema.py:151 | `remove(path)` deletes the object at the path |
| Store.ProgressCache.Set | apis/v1/controllers/cv_controller.py:140-143 | `memory_cacher.set` replaces the entry of the watch id |
| Store.ProgressCache.Remove | apis/v1/controllers/cv_controller.py:254 | `memory_cacher.remove` drops the watch id |
| Store.ProgressCache.SetPercent | apis/v1/controllers/cv_controller.py:156 | `percent[filename] = v` changes that one percent only |
| Store.ProgressCache.AddPercent | apis/v1/controllers/cv_controller.py:161 | `percent[filename] += d` on a key already present changes that one percent only |
| Store.ProgressCache.SetError | apis/v1/controllers/cv_controller.py:200 | `error[filename] = msg` changes that one error text only |
| Permissions.ProjectAccess | apis/v1/controllers/cv_controller.py:26-30 | 403 exactly when the project id is in neither the user's projects nor the shared ones |
| Permissions.ValidatePermissions | apis/v1/controllers/cv_controller.py:24-55 | the four checks in order, stopping at the first failure: 403 project, 404 project, 403 position, then the position lookup, whose missing-record case raises before the 404 |
| Permissions.OnlyMembersPass | apis/v1/controllers/cv_controller.py:24-55 | only an owner of the project, or a user it is shared with, gets past the checks |
| Position.StatusValue | apis/v1/schemas/position_schema.py:9-13 | each status is stored as one of the four strings |
| Position.ParseStatus | apis/v1/schemas/position_schema.py:104 | `PositionStatus(v)` succeeds exactly on the four strings and inverts `StatusValue`; other values raise ValueError |
| Position.ParseStatusValue | apis/v1/schemas/position_schema.py:104 | parsing a status's stored string gives the status back |
| Position.ToDict | apis/v1/schemas/position_schema.py:76-95 | name, description, alias, status and jd always; the five detail fields exactly when not minimal; id exactly when asked for; a non-string jd raises |
| Position.FromDict | apis/v1/schemas/position_schema.py:98-114 | an absent status means OPEN, an unknown one raises; cvs, jd and id are read as stored |
| Position.RoundTrip | apis/v1/schemas/position_schema.py:76-114 | `from_dict(to_dict(p))` gives back every field when jd is a string |
| Position.MissingStatusIsOpen | apis/v1/schemas/position_schema.py:104 | a record without a status reads as an OPEN position |
| Position.FindById | apis/v1/schemas/position_schema.py:125-130 | a missing record goes to `from_dict(None)` and raises AttributeError; otherwise the record with its id, read back |
| Position.FromDictAll | apis/v1/schemas/position_schema.py:122 | the list comprehension succeeds exactly when every record reads, one position per record |
| Position.FindAllByIds | apis/v1/schemas/position_schema.py:116-122 | a result needs a list of ids, and holds at most one position per listed id that is stored (FindAllByIdsReads ties each to its record) |
| Position.FindAllByIdsReads | apis/v1/schemas/position_schema.py:116-122 | a non-list raises; otherwise the result is Ok exactly when every found record reads, and position k is read from found record k |
| Position.RemoveFirst | apis/v1/schemas/position_schema.py:161 | `list.remove` fails exactly when the value is absent |
| Position.IndexOf | apis/v1/schemas/position_schema.py:161 | the first position holding the value |
| Position.RemoveFirstSpec | apis/v1/schemas/position_schema.py:161 | `remove` deletes the first occurrence and keeps the rest in order |
| Position.CvsAfter | apis/v1/schemas/position_schema.py:155-161 | an add appends the id; a remove of an absent id raises; a remove shortens the list by one; a non-list raises |
| Position.StatusWrite | apis/v1/schemas/position_schema.py:157-164 | PROCESSING is written exactly on an add to an OPEN position, OPEN exactly when a remove empties a PROCESSING one, nothing otherwise |
| Position.UpdateCvKeepsOtherFields | apis/v1/schemas/position_schema.py:151-165 | `update_cv` changes no field of the object but `cvs`; the status in memory never changes |
| Position.AddAppends | apis/v1/schemas/position_schema.py:155-156 | an add appends the id, keeps the earlier entries, and stores the same list it holds in memory |
| Position.AddStatus | apis/v1/schemas/position_schema.py:157-159 | an add stores PROCESSING exactly when the in-memory status is OPEN, and otherwise leaves the stored status alone |
| Position.RemoveAbsentRaises | apis/v1/schemas/position_schema.py:161 | removing an absent id raises ValueError and writes nothing |
| Position.RemoveDropsFirst | apis/v1/schemas/position_schema.py:160-161 | removing drops the first occurrence of the id and nothing else |
| Position.RemoveStatus | apis/v1/schemas/position_schema.py:162-164 | a remove stores OPEN only when it empties a PROCESSING position, and otherwise leaves the stored status alone |
| Position.RepeatedAddsRewriteStatus | apis/v1/schemas/position_schema.py:144-146 | the in-memory status stays OPEN, so a second add writes PROCESSING again |
| Position.JdByCvs | apis/v1/schemas/position_schema.py:179-185 | `get_jd_by_cvs(c)` is the position's jd exactly when c is in its list, and None otherwise |
| Position.JdAfterAdd | apis/v1/schemas/position_schema.py:179-185 | after an add of c, `get_jd_by_cvs(c)` is the position's jd |
| Position.PositionSchema.constructor | apis/v1/schemas/position_schema.py:46-74 | the object holds the given fields |
| Position.PositionSchema.UpdatePosition | apis/v1/schemas/position_schema.py:141-142 | `update_position` writes the patch to the store only |
| Position.PositionSchema.UpdateStatus | apis/v1/schemas/position_schema.py:144-146 | `update_status` writes the status's string to the store and leaves the object alone |
| Position.PositionSchema.UpdateJd | apis/v1/schemas/position_schema.py:167-171 | `update_jd` writes the jd to the store and leaves the object alone |
| Position.PositionSchema.UpdateCv | apis/v1/schemas/position_schema.py:151-165 | `update_cv` leaves the object, the store and the outcome that `UpdateCvSpec` describes |
| Cv.StatusValue | apis/v1/schemas/cv_schema.py:10-14 | each CV status is stored as one of the four strings |
| Cv.ParseCvStatus | apis/v1/schemas/cv_schema.py:91 | `CVStatus(v)` succeeds exactly on the four strings and inverts `StatusValue`; other values raise ValueError |
| Cv.Fresh | apis/v1/schemas/cv_schema.py:36-60 | `CVSchema(name=n)`: no id, status APPLYING, no labels, an empty weight, the upload time read when the module was loaded |
| Cv.ToDictFields | apis/v1/schemas/cv_schema.py:62-77 | `to_dict` stores each of the ten fields under its own key, the status by its value, and the id only when asked for |
| Cv.ToDictIgnoresId | apis/v1/schemas/cv_schema.py:75-77 | `to_dict(include_id=False)` does not depend on the id |
| Cv.WithoutIdDropsOnlyId | apis/v1/schemas/cv_schema.py:75-77 | `to_dict(include_id=False)` omits the id and nothing else |
| Cv.FromDict | apis/v1/schemas/cv_schema.py:79-93 | fails exactly when the stored status is not a CVStatus value; reads the id and the status back |
| Cv.RoundTrip | apis/v1/schemas/cv_schema.py:62-93 | `from_dict(to_dict(cv))` gives back all eleven fields |
| Cv.FindById | apis/v1/schemas/cv_schema.py:99-104 | None exactly when there is no record; otherwise `from_dict` of the record |
| Cv.FromDictAll | apis/v1/schemas/cv_schema.py:97 | the list comprehension succeeds exactly when every record reads, one CV per record |
| Cv.FindByIds | apis/v1/schemas/cv_schema.py:95-97 | one CV per listed stored id, each carrying a listed id; empty only when no listed id is stored |
| Cv.Apply | apis/v1/schemas/cv_schema.py:111-175 | no update changes the id, name, labels or upload time in memory |
| Cv.UpdateKeepsInSync | apis/v1/schemas/cv_schema.py:111-175 | every update but `update_labels` keeps the stored record equal to `to_dict` of the updated object |
| Cv.PatchIsToDict | apis/v1/schemas/cv_schema.py:111-175 | each update's patch, merged into the record, is the record of the updated object |
| Cv.PatchPathUrl | apis/v1/schemas/cv_schema.py:111-117 | `update_path_url` writes exactly the two fields it assigns |
| Cv.SetPath | apis/v1/schemas/cv_schema.py:112 | writing `path` is assigning it |
| Cv.SetUrl | apis/v1/schemas/cv_schema.py:113 | writing `url` is assigning it |
| Cv.SetWeight | apis/v1/schemas/cv_schema.py:119-123 | writing `weight` is assigning it |
| Cv.SetSummary | apis/v1/schemas/cv_schema.py:125-129 | writing `summary` is assigning it |
| Cv.SetMatching | apis/v1/schemas/cv_schema.py:137-141 | writing `matching` is assigning it |
| Cv.SetContent | apis/v1/schemas/cv_schema.py:159-163 | writing `content` is assigning it |
| Cv.SetStatus | apis/v1/schemas/cv_schema.py:171-175 | writing the status's value is assigning the status |
| Cv.UpdateLabelsMixUp | apis/v1/schemas/cv_schema.py:131-135 | `update_labels` stores the labels but assigns them to `summary`, so the object keeps its old labels and no longer matches its record |
| Cv.CVSchema.constructor | apis/v1/schemas/cv_schema.py:36-60 | the object holds the given fields |
| Cv.CVSchema.CreateCv | apis/v1/schemas/cv_schema.py:106-109 | `create_cv` stores the record without the id under a fresh id, takes that id, and then matches its record |
| Cv.CVSchema.Change | apis/v1/schemas/cv_schema.py:111-175 | each update assigns in memory as `Apply` says and writes its patch for the object's id |
| Cv.CVSchema.UpdatePathUrl | apis/v1/schemas/cv_schema.py:111-117 | path and url change, in memory and in the store, and nothing else |
| Cv.CVSchema.UpdateWeight | apis/v1/schemas/cv_schema.py:119-123 | weight changes, in memory and in the store, and nothing else |
| Cv.CVSchema.UpdateSummary | apis/v1/schemas/cv_schema.py:125-129 | summary changes, in memory and in the store, and nothing else |
| Cv.CVSchema.UpdateLabels | apis/v1/schemas/cv_schema.py:131-135 | the store gets the labels, the object gets them as its summary, and its labels stay |
| Cv.CVSchema.UpdateMatching | apis/v1/schemas/cv_schema.py:137-141 | matching changes, in memory and in the store, and nothing else |
| Cv.CVSchema.UpdateContent | apis/v1/schemas/cv_schema.py:159-163 | content changes, in memory and in the store, and nothing else |
| Cv.CVSchema.UpdateStatus | apis/v1/schemas/cv_schema.py:171-175 | the enum in memory, its value in the store, and nothing else |
| Cv.CVSchema.DeleteCv | apis/v1/schemas/cv_schema.py:149-151 | the record is deleted by id and the stored file at `path` is removed |
| Jd.ToDict | apis/v1/schemas/jd_schema.py:27-36 | the content, plus the id exactly when asked for |
| Jd.MinimalHasNoEffect | apis/v1/schemas/jd_schema.py:31-33 | the `minimal` flag changes nothing |
| Jd.RoundTrip | apis/v1/schemas/jd_schema.py:27-44 | `from_dict(to_dict(j))` gives `j` back |
| Jd.FindById | apis/v1/schemas/jd_schema.py:46-51 | None exactly when there is no record; otherwise the looked-up id and the stored content |
| Jd.JDSchema.constructor | apis/v1/schemas/jd_schema.py:17-25 | the object keeps id and content; `extraction` is dropped |
| Jd.JDSchema.CreateJd | apis/v1/schemas/jd_schema.py:53-56 | stores only the content under a fresh id and takes that id |
| Jd.JDSchema.UpdateSummary | apis/v1/schemas/jd_schema.py:65-68 | writes the summary to the store only; the object does not change |
| Jd.JDSchema.UpdateContent | apis/v1/schemas/jd_schema.py:70-74 | content changes in memory and in the store |
| User.ToDict | apis/v1/schemas/user_schema.py:46-56 | name, email and avatar always; created_at exactly when not minimal; id exactly when asked for |
| User.RoundTrip | apis/v1/schemas/user_schema.py:46-66 | `from_dict(to_dict(u))` gives `u` back |
| User.MinimalLosesCreatedAt | apis/v1/schemas/user_schema.py:52-53 | a minimal dict read back has no created_at |
| User.QueryEqual | apis/v1/schemas/user_schema.py:75 | `query_equal(field, value)` gives only documents whose field holds the value |
| User.FindByEmail | apis/v1/schemas/user_schema.py:73-78 | None exactly when no document has the email; otherwise the first one that does |
| User.QueryFirst | apis/v1/schemas/user_schema.py:75-78 | the query is empty exactly when no document matches; its head is the first matching document |
| User.FindAllByIds | apis/v1/schemas/user_schema.py:87-90 | users of stored listed ids only, and every stored listed id's user |
| User.KeepTruthy | apis/v1/schemas/user_schema.py:90 | `[r for r in records if r]` never lengthens the list |
| User.KeepTruthyRecords | apis/v1/schemas/user_schema.py:90 | a record is kept exactly when it is listed and not empty |
| User.MapFromDict | apis/v1/schemas/user_schema.py:90 | one user per record, in order |
| User.MapFromDictMembers | apis/v1/schemas/user_schema.py:90 | every record's user is in the result |
| User.UserSchema.SetUserId | apis/v1/schemas/user_schema.py:42-44 | the `user_id` setter writes `id` only, and `user_id` reads it back |
| User.UserSchema.constructor | apis/v1/schemas/user_schema.py:24-36 | the id goes through the setter, so `user_id` and `id` agree |
| User.UserSchema.CreateUser | apis/v1/schemas/user_schema.py:97-99 | stores every field but the id under a fresh id and takes that id |
| FileUtils.ValidateFileExtension | apis/v1/utils/utils.py:16-24 | accepts exactly when the lower-cased name ends with an allowed string; otherwise 400 with the list in the detail |
| FileUtils.AcceptsNameWithoutDot | apis/v1/utils/utils.py:20 | with the default list, "resumepdf" is accepted |
| FileUtils.AcceptsUpperCase | apis/v1/utils/utils.py:20 | "CV.PDF" is accepted |
| FileUtils.RejectsDoc | apis/v1/utils/constants.py:21 | a ".doc" name, in any case, is refused by the default list |
| FileUtils.DefaultRejectionDetail | apis/v1/utils/utils.py:23 | the detail joins the default list with ", " |
| FileUtils.ValidateIgnoresCase | apis/v1/utils/utils.py:20 | the check reads only the lower-cased name |
| FileUtils.GetContentType | apis/v1/utils/utils.py:27-40 | the type is one of the five strings; ".pdf" gives the PDF type; the default type exactly when none of the four suffixes matches |
| FileUtils.ContentTypeIgnoresCase | apis/v1/utils/utils.py:31-37 | the type does not depend on letter case |
| FileUtils.ContentTypeDocx | apis/v1/utils/utils.py:33-34 | a ".docx" name gets the Word type, although it does not end with ".doc" |
| FileUtils.ContentTypeDoc | apis/v1/utils/utils.py:31-36 | every name ending in ".doc", in any case, gets the msword type |
| FileUtils.ContentTypeTxt | apis/v1/utils/utils.py:31-38 | every name ending in ".txt", in any case, gets the text type |
| FileUtils.LastLetterDiffers | apis/v1/utils/utils.py:31-38 | two suffixes with different last letters cannot both end a name |
| FileUtils.ContentTypeWithoutDot | apis/v1/utils/utils.py:39-40 | a name without a dot gets the default type |
| FileUtils.NoDotNoSuffix | apis/v1/utils/utils.py:31-37 | a name without a dot ends with none of the dotted suffixes |
| Formatter.NonEmpty | apis/v1/utils/formatter.py:6 | `filter(None, parts)` keeps only non-empty parts, each taken from the input |
| Formatter.NonEmptyAppend | apis/v1/utils/formatter.py:6 | filtering keeps the order: it filters each half on its own |
| Formatter.NonEmptyKeeps | apis/v1/utils/formatter.py:6 | filtering drops every empty string and keeps every other one |
| Formatter.PairJoin | apis/v1/utils/formatter.py:35-38 | the `" - "` join of two filtered parts, case by case |
| Formatter.Split | apis/v1/utils/formatter.py:34 | splitting a text never gives an empty list |
| Formatter.SplitPiece | apis/v1/utils/formatter.py:34 | a piece without the separator comes back as one piece |
| Formatter.SplitJoin | apis/v1/utils/formatter.py:34 | joining on a character and splitting on it gives the parts back when no part holds it |
| Formatter.JoinAvoids | apis/v1/utils/formatter.py:34 | a join holds no character that neither the parts nor the separator hold |
| Formatter.LanguageLine | apis/v1/utils/formatter.py:35-38 | a language line is the present parts of language and level, joined by " - " |
| Formatter.FormatLanguages | apis/v1/utils/formatter.py:33-40 | an empty list formats as "" |
| Formatter.LanguagesOneLineEach | apis/v1/utils/formatter.py:33-40 | the text splits back into exactly one line per language |
| Formatter.CertificationLine | apis/v1/utils/formatter.py:26-29 | name and organisation joined by " - ", then " (date)" exactly when there is a date |
| Formatter.FormatCertifications | apis/v1/utils/formatter.py:24-31 | an empty list formats as "" |
| Formatter.CertificationsOneLineEach | apis/v1/utils/formatter.py:24-31 | the text splits back into exactly one line per certification |
| Formatter.FormatEducation | apis/v1/utils/formatter.py:4-12 | an empty list formats as "" |
| Formatter.EducationBlocksSplit | apis/v1/utils/formatter.py:4-12 | the text splits into each entry's lines in order, with one blank line between entries |
| Formatter.Stacked | apis/v1/utils/formatter.py:5 | line groups stacked with blank lines between them: one line fewer than groups, plus their lines |
| Formatter.SplitConcat | apis/v1/utils/formatter.py:5 | a text with the separator in the middle splits into the pieces of each side |
| Formatter.StackedSplit | apis/v1/utils/formatter.py:5 | texts joined by a doubled separator split into their pieces with an empty piece between neighbours |
| Formatter.EducationLines | apis/v1/utils/formatter.py:6-10 | an entry's block is its non-empty lines in order; the year line is last when there is a year and absent otherwise |
| Formatter.EducationPartsAvoid | apis/v1/utils/formatter.py:6-10 | no kept line of an entry holds a line break when no field does |
| Formatter.EducationKept | apis/v1/utils/formatter.py:6-10 | without a year at most two lines are kept; with one, the year line is kept and last |
| Formatter.YearLineAvoids | apis/v1/utils/formatter.py:9 | the year line holds a line break only if the year does |
| Formatter.JobLineWithoutTitle | apis/v1/utils/formatter.py:17 | with neither title nor company the job line is the bare word "at", which the filter keeps |
| Formatter.DurationAsWrittenEatsT | apis/v1/utils/formatter.py:18 | an end date ending in "t" loses that letter |
| Formatter.DurationAsWrittenTruncates | apis/v1/utils/formatter.py:18 | for start "2020" and end "Present" the line is the start, " to " and the end without its last letter ("2020 to Presen"), which differs from the intended line |
| Formatter.LStripPrefix | apis/v1/utils/formatter.py:18 | the left strip removes a prefix of stripped characters up to the first kept one |
| Formatter.RStripSuffix | apis/v1/utils/formatter.py:18 | the right strip removes a suffix of stripped characters back to the last kept one |
| Formatter.Duration | apis/v1/utils/formatter.py:18 | the intended duration line: both dates around " to ", the one date there is, or nothing |
| Formatter.DurationAgrees | apis/v1/utils/formatter.py:18 | on dates that start and end outside the stripped set, the line as written is the intended one |
| Formatter.DurationOnlyEnd | apis/v1/utils/formatter.py:18 | with only an end date, the line is that date |
| Formatter.DurationOnlyStart | apis/v1/utils/formatter.py:18 | with only a start date, the line is that date |
| Formatter.DurationBoth | apis/v1/utils/formatter.py:18 | with both dates, only the leading "From " goes |
| Formatter.AllStripped | apis/v1/utils/formatter.py:18 | a text made only of stripped characters strips to "" |
| Formatter.FormatWorkExperience | apis/v1/utils/formatter.py:14-22 | an empty list formats as ""; each block uses the duration line as written |
| Formatter.WorkBlocksSplit | apis/v1/utils/formatter.py:14-22 | the text splits into each entry's lines in order, with one blank line between entries |
| Formatter.WorkLines | apis/v1/utils/formatter.py:16-20 | an entry's block splits back into its non-empty lines: job line, duration line as written, responsibilities |
| Formatter.WorkPartsAvoid | apis/v1/utils/formatter.py:17-18 | neither strip introduces a line break |
| Formatter.WorkBlockAgrees | apis/v1/utils/formatter.py:18 | on dates that start and end outside the stripped set, the block holds the intended duration line |
| Formatter.WorkWithoutDates | apis/v1/utils/formatter.py:16-20 | without dates the duration line disappears, and the block is the job line and the responsibilities |
| Formatter.Decorate | apis/v1/utils/formatter.py:44 | every CV gets the instant of its own `upload_at`, in order; it raises exactly when some `upload_at` does not parse |
| Formatter.Insert | apis/v1/utils/formatter.py:44 | an insertion adds exactly the one CV |
| Formatter.InsertNewestFirst | apis/v1/utils/formatter.py:44 | inserting into a newest-first list keeps it newest first |
| Formatter.SortNewestFirst | apis/v1/utils/formatter.py:44 | the sort is a permutation |
| Formatter.SortIsNewestFirst | apis/v1/utils/formatter.py:44 | the sort puts newer CVs first |
| Formatter.PermutedKeyedBy | apis/v1/utils/formatter.py:44 | a permutation keeps every CV with its own key |
| Formatter.Numbered | apis/v1/utils/formatter.py:46-67 | one row per CV |
| Formatter.NumberedAt | apis/v1/utils/formatter.py:47-53 | row k holds the k-th CV and is numbered k + 1 |
| Formatter.NumberedSnoc | apis/v1/utils/formatter.py:47-67 | a loop pass appends one row, numbered after the earlier ones |
| Formatter.SummaryRowsOrdered | apis/v1/utils/formatter.py:42-67 | raises exactly when some `upload_at` does not parse; otherwise one row per CV, numbered 1..n from the newest, and every CV has its row |
| Formatter.FindsCv | apis/v1/utils/formatter.py:44-67 | every CV appears in some numbered row |
| Formatter.BuildCvSummaryRows | apis/v1/utils/formatter.py:42-67 | the sort and the numbering loop give the rows `SummaryRows` describes |
| Dashboard.PositionCountsSnoc | apis/v1/controllers/dashboard_controller.py:57 | one more position adds one at its status key |
| Dashboard.CvCountsSnoc | apis/v1/controllers/dashboard_controller.py:63 | one more CV adds one at its status key |
| Dashboard.PositionCountsTotal | apis/v1/controllers/dashboard_controller.py:41-57 | the position counters have exactly the four keys and add up to the number of positions |
| Dashboard.CvCountsTotal | apis/v1/controllers/dashboard_controller.py:47-63 | the CV counters have exactly the four keys and add up to the number of CVs |
| Dashboard.AddCvCounts | apis/v1/controllers/dashboard_controller.py:62-63 | the inner loop adds one count per CV |
| Dashboard.ProjectDashboard | apis/v1/controllers/dashboard_controller.py:13-71 | 403 unless the project is owned or shared, then 404 when it is missing, then the counts over its positions |
| Dashboard.ProjectDashboardTotals | apis/v1/controllers/dashboard_controller.py:41-68 | the position counters have the four keys and sum to `total_positions`; the CV counters sum to `total_cvs` |
| Dashboard.TallyProject | apis/v1/controllers/dashboard_controller.py:55-63 | the counting loop yields the tally over the positions |
| Dashboard.CvsOfPositionsStops | apis/v1/controllers/dashboard_controller.py:60 | a lookup that raises ends the loop over the positions |
| Dashboard.TallyStep | apis/v1/controllers/dashboard_controller.py:55-63 | one more position adds one to its status counter and appends its CVs to those seen, unless their lookup raises |
| Dashboard.GetProjectDashboardStats | apis/v1/controllers/dashboard_controller.py:13-71 | the method gives what `ProjectDashboard` describes |
| Dashboard.NumBucketRange | apis/v1/controllers/dashboard_controller.py:188-197 | a score is in bucket i exactly when it is above the bound before i and at most the bound of i |
| Dashboard.Bucket | apis/v1/controllers/dashboard_controller.py:188-197 | the bucket of a number, a bool compared as 0 or 1, and TypeError for any other value |
| Dashboard.MatchingScores | apis/v1/controllers/dashboard_controller.py:117-122 | at most one score per CV, taken only from a non-empty dict `matching` |
| Dashboard.ScoreDicts | apis/v1/controllers/dashboard_controller.py:179 | only the non-empty dict scores are bucketed |
| Dashboard.BucketsOf | apis/v1/controllers/dashboard_controller.py:180-263 | one label per score key, in order, or the first comparison that raises |
| Dashboard.BucketsStop | apis/v1/controllers/dashboard_controller.py:180-263 | a comparison that raises ends the entry |
| Dashboard.Inc | apis/v1/controllers/dashboard_controller.py:189 | `distribution[label] += 1` adds the label to the keys |
| Dashboard.AddBuckets | apis/v1/controllers/dashboard_controller.py:188-263 | one more entry gives seven distributions again |
| Dashboard.Distributions | apis/v1/controllers/dashboard_controller.py:127-263 | seven distributions, each keyed by the five bucket labels |
| Dashboard.DistributionsTotal | apis/v1/controllers/dashboard_controller.py:178-263 | every distribution counts every bucketed entry exactly once |
| Dashboard.PositionDashboard | apis/v1/controllers/dashboard_controller.py:74-276 | 403 unless the project is owned or shared, 404 when it is missing, then the position lookup (which raises for a missing one), the CV counters and the seven distributions |
| Dashboard.PositionDashboardTotals | apis/v1/controllers/dashboard_controller.py:109-276 | the CV counters sum to `total_cvs`; seven distributions with the five keys, all with the same total, at most `total_cvs` |
| Dashboard.PositionDashboardIgnoresMembership | apis/v1/controllers/dashboard_controller.py:82-103 | the result does not depend on whether the project lists the position |
| Dashboard.CountCvs | apis/v1/controllers/dashboard_controller.py:117-122 | the first loop yields the CV counters and `matching_scores` |
| Dashboard.BucketEntry | apis/v1/controllers/dashboard_controller.py:180-263 | the seven comparison chains for one score dict add its buckets, or raise |
| Dashboard.BucketScores | apis/v1/controllers/dashboard_controller.py:178-263 | the second loop yields the seven distributions of the score dicts |
| Dashboard.ScoreDictsStep | apis/v1/controllers/dashboard_controller.py:179 | one more score adds its dict when it is a non-empty one |
| Dashboard.DistributionsSnoc | apis/v1/controllers/dashboard_controller.py:178-263 | one more score dict is bucketed after all the earlier ones |
| Dashboard.DistributionsStop | apis/v1/controllers/dashboard_controller.py:178-263 | a comparison that raises ends the bucketing loop |
| Dashboard.GetPositionDashboardStats | apis/v1/controllers/dashboard_controller.py:74-276 | the method gives what `PositionDashboard` describes |
| Ingestion.FreshRecordIsToDict | apis/v1/controllers/cv_controller.py:159 | the record a new CV stores is `to_dict` of `CVSchema(name=filename)` |
| Ingestion.SetPct | apis/v1/controllers/cv_controller.py:156 | a percent write keeps the watch ids and sets the file's key |
| Ingestion.Pass | apis/v1/controllers/cv_controller.py:156-180 | a pass writes at least one percent |
| Ingestion.PassInParts | apis/v1/controllers/cv_controller.py:156-180 | a pass is its first stage followed by the rest |
| Ingestion.FileStep | apis/v1/controllers/cv_controller.py:155-180 | a pass keeps the watch ids and leaves a percent for its file |
| Ingestion.Zip | apis/v1/controllers/cv_controller.py:155 | `zip` pairs entries in order and stops at the shorter list |
| Ingestion.ProcessOne | apis/v1/controllers/cv_controller.py:190-197 | one processing result keeps the watch ids |
| Ingestion.RunProcessed | apis/v1/controllers/cv_controller.py:189-197 | the processing loop keeps the watch ids |
| Ingestion.MarkFailed | apis/v1/controllers/cv_controller.py:200-201 | the `except` writes keep the watch ids |
| Ingestion.Processing | apis/v1/controllers/cv_controller.py:186-197 | the processing call keeps the watch ids |
| Ingestion.Loop | apis/v1/controllers/cv_controller.py:155-180 | the file loop keeps the watch ids |
| Ingestion.FileStepTrace | apis/v1/controllers/cv_controller.py:156-180 | a pass writes a prefix of 0, 10, 25, 30, 40, 50, 60, 70 for its file, all of it exactly when it gets through, and nothing else in the cache |
| Ingestion.PassTrace | apis/v1/controllers/cv_controller.py:156-180 | the percents of a pass are a prefix of the stages, all of them exactly when it gets through |
| Ingestion.StagesIncrease | apis/v1/controllers/cv_controller.py:156-180 | the stage percents strictly increase |
| Ingestion.PassRecords | apis/v1/controllers/cv_controller.py:159-160 | a pass creates one record under a fresh id, named after the file, and touches no other |
| Ingestion.PassRecord | apis/v1/controllers/cv_controller.py:159-175 | the new record: the fresh fields, then path and url after the upload, then the text after the extraction |
| Ingestion.PassPosition | apis/v1/controllers/cv_controller.py:164-178 | the upload and the extraction leave the position alone; a pass that gets past them ends as `update_cv` does |
| Ingestion.PassSucceeds | apis/v1/controllers/cv_controller.py:159-179 | a pass that gets through leaves a record with the path, the url and the text, and the file in storage |
| Ingestion.FileStepAppends | apis/v1/controllers/cv_controller.py:178 | a pass that gets through appends its id to the position's list |
| Ingestion.PassForTraces | apis/v1/controllers/cv_controller.py:156-180 | the real pass behaves as `TraceFacts` says |
| Ingestion.PassForRecords | apis/v1/controllers/cv_controller.py:159-160 | the real pass behaves as `RecordFacts` says |
| Ingestion.PassForAppends | apis/v1/controllers/cv_controller.py:178 | the real pass behaves as `AppendFacts` says |
| Ingestion.LoopStopsAtFailure | apis/v1/controllers/cv_controller.py:154-202 | a pass that raises ends the loop |
| Ingestion.RunFilesAfter | apis/v1/controllers/cv_controller.py:155 | each pass runs on the state the earlier passes left |
| Ingestion.RunFilesLast | apis/v1/controllers/cv_controller.py:155 | a loop that gets through ran every pass, and the last one got through |
| Ingestion.FilesKeys | apis/v1/controllers/cv_controller.py:155-180 | the loop keeps the watch ids |
| Ingestion.FilesRecords | apis/v1/controllers/cv_controller.py:152-160 | `cv_ids` holds one fresh id per file, in input order, each record named after its file; old records are untouched |
| Ingestion.FilesPosition | apis/v1/controllers/cv_controller.py:178 | the new ids are appended to the position's list in input order |
| Ingestion.FilesProgress | apis/v1/controllers/cv_controller.py:156-180 | after a loop that gets through every file is at 70 and the rest of the cache is unchanged |
| Ingestion.FailedLoop | apis/v1/controllers/cv_controller.py:155-180 | a pass that raises at file k stops the loop there, with that file bound and every earlier file at 70 |
| Ingestion.ProcessOneFacts | apis/v1/controllers/cv_controller.py:190-197 | one result leaves the position alone and creates no record; with a bound filename it sets that file to 100 |
| Ingestion.ProcessedFacts | apis/v1/controllers/cv_controller.py:189-197 | the processing loop sets only the last-bound filename to 100, once at least one result got through |
| Ingestion.IngestIsWith | apis/v1/controllers/cv_controller.py:151-254 | the task is the general one run on the zipped files with the real pass |
| Ingestion.EmptyBatchFails | apis/v1/controllers/cv_controller.py:197-202 | with no file the task raises and leaves the cache as it was |
| Ingestion.FailedAfterLoop | apis/v1/controllers/cv_controller.py:199-202 | a failure goes to the `except` block: RuntimeError, the bound file at -1 with the message, and the rest of the cache kept |
| Ingestion.MarkFailedFacts | apis/v1/controllers/cv_controller.py:200-201 | the `except` block sets one error text and one -1, for the bound file only |
| Ingestion.FailureAtFile | apis/v1/controllers/cv_controller.py:154-202 | a pass that raises at file k: RuntimeError, that file at -1 with its message, every earlier file at 70, other watches unchanged, nothing processed or matched |
| Ingestion.ProcessingFacts | apis/v1/controllers/cv_controller.py:186-197 | processing leaves the position alone, and sets the last file to 100 once a result was written |
| Ingestion.ProcessingMarksLastFile | apis/v1/controllers/cv_controller.py:189-197 | only the last-bound file reaches 100; every other file stays at 70 |
| Ingestion.ProcessingFailure | apis/v1/controllers/cv_controller.py:186-202 | a processing failure: RuntimeError, the last file at -1, the others at 70 |
| Ingestion.MatchingUsesPositionJd | apis/v1/controllers/cv_controller.py:206 | the matching request's jd is the position's jd, since the first CV is in its list by then |
| Ingestion.OthersKept | apis/v1/controllers/cv_controller.py:154-197 | the loop and the processing call change no other watch |
| Ingestion.AfterLoopCompleted | apis/v1/controllers/cv_controller.py:204-254 | a task that completes got through the loop and the processing, then removed the watch id |
| Ingestion.SuccessRemovesWatch | apis/v1/controllers/cv_controller.py:254 | a task that completes had a file and leaves the cache as it found it, minus the watch id |
| Ingestion.NoMatchingAfterFailure | apis/v1/controllers/cv_controller.py:199-202 | once the `try` block raised, the matching service's answer makes no difference |
| CvController.UploadOne | apis/v1/controllers/cv_controller.py:156-180 | one pass of the file loop, on the real objects, as `FileStep` describes |
| CvController.BeginFile | apis/v1/controllers/cv_controller.py:156-161 | percent 0, a new CV record named after the file, +10 |
| CvController.FinishUpload | apis/v1/controllers/cv_controller.py:163-180 | the stages from the upload on, as `FromUpload` describes |
| CvController.FinishExtract | apis/v1/controllers/cv_controller.py:166-180 | the stages from the extraction on, as `FromExtract` describes |
| CvController.FinishAttach | apis/v1/controllers/cv_controller.py:178-179 | `update_cv(id, is_add=True)` then +10, as `AttachStage` describes |
| CvController.UploadToStore | apis/v1/controllers/cv_controller.py:257-263 | the storage upload and the path and url written to the record, as `UploadStage` describes |
| CvController.ExtractInto | apis/v1/controllers/cv_controller.py:168-175 | the extracted text written to the record, as `ExtractStage` describes |
| CvController.Bump | apis/v1/controllers/cv_controller.py:161 | `+= d` raises the file's percent by d and changes nothing else |
| CvController.BumpTwice | apis/v1/controllers/cv_controller.py:261-263 | two `+=` in a row add both steps |
| CvController.UploadFiles | apis/v1/controllers/cv_controller.py:155-180 | the file loop, as `RunFiles` describes |
| CvController.ProcessOneResult | apis/v1/controllers/cv_controller.py:190-197 | one processing result, as `ProcessOne` describes |
| CvController.WriteProcessed | apis/v1/controllers/cv_controller.py:194-196 | the weight, summary and labels writes, in that order |
| CvController.ProcessedStopsAtFailure | apis/v1/controllers/cv_controller.py:189-197 | a result that raises ends the processing loop |
| CvController.ProcessResults | apis/v1/controllers/cv_controller.py:189-197 | the processing loop, as `RunProcessed` describes |
| CvController.MatchOneResult | apis/v1/controllers/cv_controller.py:242-245 | one matching result written to its CV, as `MatchOne` describes |
| CvController.MatchesStopAtFailure | apis/v1/controllers/cv_controller.py:241-245 | a result that raises ends the matching loop |
| CvController.MatchResults | apis/v1/controllers/cv_controller.py:241-245 | the matching loop, as `RunMatches` describes |
| CvController.UploadCvsTask | apis/v1/controllers/cv_controller.py:151-254 | the whole background task, as `Ingest` describes |
| CvController.UploadAndProcess | apis/v1/controllers/cv_controller.py:155-197 | the `try` block up to the matching |
| CvController.Except | apis/v1/controllers/cv_controller.py:199-202 | the `except` block, as `Fail` describes |
| CvController.Matching | apis/v1/controllers/cv_controller.py:205-254 | the matching request, its results written, then the watch id removed, as `RunMatching` describes |
| CvController.ReadUploads | apis/v1/controllers/cv_controller.py:131-137 | the contents and names of the uploads, in upload order |
| CvController.UploadCvsData | apis/v1/controllers/cv_controller.py:124-148 | the checks, then an empty progress entry for the fresh watch id, and the task scheduled on exactly these files |
| CvController.IdsOf | apis/v1/controllers/cv_controller.py:318 | `[cv.id for cv in cvs]`, one id per CV |
| CvController.RematchCvsData | apis/v1/controllers/cv_controller.py:302-321 | the checks, 404 when no CV is found, otherwise a rematch of the found CVs' ids, each a stored CV the position lists |
| CvController.FoundAreListed | apis/v1/controllers/cv_controller.py:310 | the CVs `find_by_ids` returns are stored records with listed ids |
| CvController.RematchIsMatching | apis/v1/controllers/cv_controller.py:324-351 | the rematch writes what the upload's matching step writes |
| CvController.OnlyMatchingChangedTrans | apis/v1/controllers/cv_controller.py:343-347 | changing only `matching` twice changes only `matching` |
| CvController.MatchOneWritesOnlyMatching | apis/v1/controllers/cv_controller.py:344-347 | one matching result writes only the `matching` field of its CV |
| CvController.MatchesWriteOnlyMatching | apis/v1/controllers/cv_controller.py:343-347 | the matching loop changes only the `matching` field of existing CVs |
| CvController.RematchTask | apis/v1/controllers/cv_controller.py:324-351 | the rematch task, as `Rematched` describes: the writes before an error stay, and the error is swallowed |
| CvController.DeleteCurrentCv | apis/v1/controllers/cv_controller.py:406-422 | the checks, 404 for a missing CV, the id removed from the position, then the record and its file deleted; nothing deleted when the removal raises |
| CvController.DeletedByIdsRemoves | apis/v1/controllers/cv_controller.py:399-403 | records of unlisted ids are kept; when no lookup raises, none of the listed ones is left |
| CvController.DeletionStopsAtFailure | apis/v1/controllers/cv_controller.py:399-403 | a lookup that raises ends the deletion loop |
| CvController.DeleteCvsByIds | apis/v1/controllers/cv_controller.py:399-403 | the deletion loop, as `DeletedByIds` describes |
| CvController.SummaryRows | apis/v1/controllers/cv_controller.py:70-79 | one row per CV, in order, with exactly its id, upload time and summary |
| JdController.NoJdIsFalsy | apis/v1/controllers/jd_controller.py:51 | `not jd or jd == ""` is `not jd`: the second test adds nothing |
| JdController.GetCurrentJd | apis/v1/controllers/jd_controller.py:47-66 | the checks; a position without a JD gets a new empty one, written to the position; otherwise the stored JD, or 404 |
| JdController.CurrentJdOf | apis/v1/controllers/jd_controller.py:50-66 | the body after the checks, by the two cases |
| JdController.AttachNewJd | apis/v1/controllers/jd_controller.py:52-56 | a new empty JD, whose id is written to the position |
| JdController.UploadJdContent | apis/v1/controllers/jd_controller.py:96-110 | the content updated in the referenced JD or stored in a new one; the position's jd written only when it had none |
| JdController.SaveJdContent | apis/v1/controllers/jd_controller.py:98-106 | an existing JD gets the content; otherwise a new JD holding it is created |
| JdController.UpdateCurrentJd | apis/v1/controllers/jd_controller.py:122-133 | the checks, then 400 for empty content before any JD write, then the upload |

## Left out

- `httpx` calls, FastAPI `BackgroundTasks`, `async`/`await` and `time.sleep(10)`: I/O and scheduling. A background task is an ordinary method run to its end. A service's answer is a parameter that may be a failure.
- The blob storage service, `get_cv_content`/`get_jd_content`, the cache folder and the database provider: foreign I/O. They are maps and parameters, under the assumptions stated above.
- `uuid.uuid4()` and `get_current_time()`: randomness and the clock. The watch id is a parameter, and each CV's `upload_at` default is the load-time reading `loadTime`.
- `datetime.fromisoformat`: the parser is not modelled. It is the parameter `Formatter.Clock`, which gives an instant or None, and None raises ValueError.
- The pandas `DataFrame`, `ExcelWriter` and `BytesIO`, and the dropping of the `upload_at` column: file output. `Formatter.Row` keeps the number and the CV the row shows.
- Formatter.TextOf: the summary JSON arrives already decoded into typed entries whose text fields are strings, and absent keys read as "". Decoding raw dicts and non-string values is not modelled.
- Formatter.SortNewestFirst: the contract states a newest-first permutation, not the stability of Python's `sorted`.
- `upload_cv_data` (apis/v1/controllers/cv_controller.py:266-299): it reads `position.is_closed`, which `PositionSchema` never defines, and passes lists where `_upload_cv_data` takes single values. Only its extension check, `FileUtils.ValidateFileExtension`, is modelled.
- `CVSchema.update_score`: it uses `self.score`, which no object has.
- apis/v1/schemas/project_member_schema.py: `from_dict` and `to_dict` always raise, and what is left is query glue. The project record is `Permissions.Project`, the one field the checks read.
- The other getters of cv_controller.py: `get_all_cvs`, `get_all_cvs_matching`, `get_cv_by_id`, `get_upload_progress`, `download_cv_content` and `get_cv_detail_control`. They are lookups behind the same permission checks; only the projection of `get_all_cvs_summary` is in the model.
- `_analyse_jd_content` and the end of `_upload_jd_content`: HTTP calls to the JD analysis service.
- Routes, router wiring, provider singletons, pydantic response models and commented-out code: framework glue with no behaviour of its own.
- Position.ToDict: a `jd` field holding a `JDSchema` object is not modelled. A `jd` read from the store is a string or a dict, and a dict has no `to_dict`, so the model raises for every non-string `jd`.
- Python's shared mutable defaults: each object has its own lists and dicts.
- Store.IdList: the database provider is not part of this model; its `get_all_by_ids` is taken to raise TypeError for anything but a list.
- Strings.Lower: ASCII letters only. Python's Unicode case mapping (which lower-cases non-ASCII capitals and can change a string's length, as for "İ") is not modelled, and neither is the non-ASCII whitespace that `str.strip()` also removes (`Strings.Whitespace` is the ASCII part).
- User.QueryEqual: the order in which the database scans its documents is the parameter `order`. It is taken to list each stored id once; the model does not require this, so an `order` that omits or repeats an id is not excluded.
- Ingestion.Pass: the trace lists the values written to the file's percent, in order, and the cache keeps only the last one. Concurrent readers of the cache, such as `get_upload_progress`, are not modelled.

## Findings

| source | as written | input that shows it | evidently intended | confidence | as-written member | corrected member |
|---|---|---|---|---|---|---|
| apis/v1/utils/formatter.py:18 | `"From {} to {}".format(s, e).strip("From to ")` removes any of the characters F, r, o, m, space and t from both ends, so a date that starts or ends with one of them loses it | StartDate "2020", EndDate "Present" gives "2020 to Presen" | the duration line is "S to E", with the dates kept whole | not executed; high, from the semantics of `str.strip` | Formatter.DurationAsWrittenTruncates | Formatter.DurationAgrees |

The export follows the code as written: `Formatter.WorkParts` uses
`Formatter.DurationAsWritten`. The intended line is `Formatter.Duration`,
and `Formatter.DurationAgrees` and `Formatter.WorkBlockAgrees` prove that the
two coincide whenever the dates start and end outside the stripped set.
`Formatter.JobLineWithoutTitle` records a related quirk, which the model
keeps: with neither title nor company, the job line is the bare word "at".

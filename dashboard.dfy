/** apis/v1/controllers/dashboard_controller.py: the project and the
    position dashboards, which count statuses and put matching scores into
    five buckets. */
module Dashboard {
  import opened Wrappers
  import opened Values
  import opened Store
  import opened Position
  import opened Permissions
  import Cv

  const AccessDetail := "You don't have access to this project."

  // ---------------------------------------------------------------------
  // Status counters

  /** How many of `ps` have status `s`. */
  function PositionsWith(ps: seq<PositionData>, s: PositionStatus): nat
    decreases |ps|
  {
    if ps == [] then 0
    else PositionsWith(ps[..|ps| - 1], s) + (if ps[|ps| - 1].status == s then 1 else 0)
  }

  /** How many of `cvs` have status `s`. */
  function CvsWith(cvs: seq<Cv.CVData>, s: Cv.CVStatus): nat
    decreases |cvs|
  {
    if cvs == [] then 0
    else CvsWith(cvs[..|cvs| - 1], s) + (if cvs[|cvs| - 1].status == s then 1 else 0)
  }

  /** `position_status_counts` over `ps`. */
  function PositionCounts(ps: seq<PositionData>): map<string, int> {
    map["open" := PositionsWith(ps, Open), "processing" := PositionsWith(ps, Processing),
        "closed" := PositionsWith(ps, Closed), "cancelled" := PositionsWith(ps, Cancelled)]
  }

  /** `cv_status_counts` over `cvs`. */
  function CvCounts(cvs: seq<Cv.CVData>): map<string, int> {
    map["APPLYING" := CvsWith(cvs, Cv.Applying), "ACCEPTED" := CvsWith(cvs, Cv.Accepted),
        "INTERVIEWING" := CvsWith(cvs, Cv.Interviewing), "HIRED" := CvsWith(cvs, Cv.Hired)]
  }

  /** The sum of the four position counters. */
  function PositionTotal(m: map<string, int>): int
    requires PositionCounts([]).Keys <= m.Keys
  {
    m["open"] + m["processing"] + m["closed"] + m["cancelled"]
  }

  /** The sum of the four CV counters. */
  function CvTotal(m: map<string, int>): int
    requires CvCounts([]).Keys <= m.Keys
  {
    m["APPLYING"] + m["ACCEPTED"] + m["INTERVIEWING"] + m["HIRED"]
  }

  /** `position_status_counts[position.status.value] += 1`. */
  lemma PositionCountsSnoc(ps: seq<PositionData>, p: PositionData)
    ensures var c := PositionCounts(ps);
      StatusValue(p.status) in c && PositionCounts(ps + [p]) == c[StatusValue(p.status) := c[StatusValue(p.status)] + 1]
  {
    assert (ps + [p])[..|ps|] == ps;
  }

  /** `cv_status_counts[cv.status.value] += 1`. */
  lemma CvCountsSnoc(cvs: seq<Cv.CVData>, c: Cv.CVData)
    ensures var m := CvCounts(cvs);
      Cv.StatusValue(c.status) in m && CvCounts(cvs + [c]) == m[Cv.StatusValue(c.status) := m[Cv.StatusValue(c.status)] + 1]
  {
    assert (cvs + [c])[..|cvs|] == cvs;
  }

  /** Every position is counted under exactly one of the four keys. */
  lemma {:induction false} PositionCountsTotal(ps: seq<PositionData>)
    ensures PositionCounts(ps).Keys == {"open", "processing", "closed", "cancelled"}
    ensures PositionTotal(PositionCounts(ps)) == |ps|
    decreases |ps|
  {
    if ps != [] {
      PositionCountsTotal(ps[..|ps| - 1]);
    }
  }

  /** Every CV is counted under exactly one of the four keys. */
  lemma {:induction false} CvCountsTotal(cvs: seq<Cv.CVData>)
    ensures CvCounts(cvs).Keys == {"APPLYING", "ACCEPTED", "INTERVIEWING", "HIRED"}
    ensures CvTotal(CvCounts(cvs)) == |cvs|
    decreases |cvs|
  {
    if cvs != [] {
      CvCountsTotal(cvs[..|cvs| - 1]);
    }
  }

  /** The inner loop of the project dashboard: one increment per CV. */
  method AddCvCounts(counts: map<string, int>, ghost before: seq<Cv.CVData>, cvs: seq<Cv.CVData>)
    returns (after: map<string, int>)
    requires counts == CvCounts(before)
    ensures after == CvCounts(before + cvs)
  {
    after := counts;
    var j := 0;
    assert before + cvs[..j] == before;
    while j < |cvs|
      invariant 0 <= j <= |cvs|
      invariant after == CvCounts(before + cvs[..j])
    {
      CvCountsSnoc(before + cvs[..j], cvs[j]);
      assert before + cvs[..j + 1] == before + cvs[..j] + [cvs[j]];
      after := after[Cv.StatusValue(cvs[j].status) := after[Cv.StatusValue(cvs[j].status)] + 1];
      j := j + 1;
    }
    assert cvs[..j] == cvs;
  }

  // ---------------------------------------------------------------------
  // The project dashboard

  datatype ProjectStats = ProjectStats(totalPositions: int, totalCvs: int,
                                       positionStatusCounts: map<string, int>, cvStatusCounts: map<string, int>)

  /** The CVs of every position, position by position, or the first
      `find_by_ids` that raises. */
  function CvsOfPositions(cvDocs: Docs, ps: seq<PositionData>): Result<seq<Cv.CVData>>
    decreases |ps|
  {
    if ps == [] then Ok([])
    else
      var before :- CvsOfPositions(cvDocs, ps[..|ps| - 1]);
      var cvs :- Cv.FindByIdList(cvDocs, ps[|ps| - 1].cvs);
      Ok(before + cvs)
  }

  /** What the counting loop of `get_project_dashboard_stats` yields. */
  function ProjectTally(cvDocs: Docs, ps: seq<PositionData>): Result<ProjectStats> {
    var all :- CvsOfPositions(cvDocs, ps);
    Ok(ProjectStats(|ps|, |all|, PositionCounts(ps), CvCounts(all)))
  }

  /** `get_project_dashboard_stats` (lines 13-71): 403 unless the project is
      the user's own or shared, 404 when it does not exist, then the counts
      over the positions the project lists. */
  function ProjectDashboard(user: Caller, projects: Projects, positionDocs: Docs, cvDocs: Docs, projectId: string)
    : (r: Result<ProjectStats>)
    ensures ProjectAccess(user, projectId, AccessDetail).Err? ==> r == Err(ProjectAccess(user, projectId, AccessDetail).error)
    ensures ProjectAccess(user, projectId, AccessDetail).Ok? && projectId !in projects ==> r == Err(ProjectMissing)
    ensures r.Ok? ==> && ProjectAccess(user, projectId, AccessDetail).Ok? && projectId in projects
                      && FindAllByIds(positionDocs, projects[projectId].positions).Ok?
                      && r == ProjectTally(cvDocs, FindAllByIds(positionDocs, projects[projectId].positions).value)
  {
    var _ :- ProjectAccess(user, projectId, AccessDetail);
    if projectId !in projects then Err(ProjectMissing)
    else
      var ps :- FindAllByIds(positionDocs, projects[projectId].positions);
      ProjectTally(cvDocs, ps)
  }

  /** The position counters have exactly the four status keys and add up to
      `total_positions`; the CV counters add up to `total_cvs`. */
  lemma ProjectDashboardTotals(user: Caller, projects: Projects, positionDocs: Docs, cvDocs: Docs, projectId: string)
    requires ProjectDashboard(user, projects, positionDocs, cvDocs, projectId).Ok?
    ensures var s := ProjectDashboard(user, projects, positionDocs, cvDocs, projectId).value;
      && s.positionStatusCounts.Keys == {"open", "processing", "closed", "cancelled"}
      && PositionTotal(s.positionStatusCounts) == s.totalPositions
      && s.cvStatusCounts.Keys == {"APPLYING", "ACCEPTED", "INTERVIEWING", "HIRED"}
      && CvTotal(s.cvStatusCounts) == s.totalCvs
  {
    var ps := FindAllByIds(positionDocs, projects[projectId].positions).value;
    PositionCountsTotal(ps);
    CvCountsTotal(CvsOfPositions(cvDocs, ps).value);
  }

  /** The counting loop over the positions. */
  method TallyProject(cvDocs: Docs, ps: seq<PositionData>) returns (r: Result<ProjectStats>)
    ensures r == ProjectTally(cvDocs, ps)
  {
    var positionCounts := map["open" := 0, "processing" := 0, "closed" := 0, "cancelled" := 0];
    var cvCounts := map["APPLYING" := 0, "ACCEPTED" := 0, "INTERVIEWING" := 0, "HIRED" := 0];
    var totalCvs := 0;
    ghost var seen: seq<Cv.CVData> := [];
    var i := 0;
    while i < |ps|
      invariant 0 <= i <= |ps|
      invariant CvsOfPositions(cvDocs, ps[..i]) == Ok(seen)
      invariant positionCounts == PositionCounts(ps[..i])
      invariant cvCounts == CvCounts(seen) && totalCvs == |seen|
    {
      TallyStep(cvDocs, ps, i, seen);
      var key := StatusValue(ps[i].status);
      positionCounts := positionCounts[key := positionCounts[key] + 1];
      assert positionCounts == PositionCounts(ps[..i + 1]);
      var cvs := Cv.FindByIdList(cvDocs, ps[i].cvs);
      if cvs.Err? {
        CvsOfPositionsStops(cvDocs, ps, i + 1);
        return Err(cvs.error);
      }
      totalCvs := totalCvs + |cvs.value|;
      cvCounts := AddCvCounts(cvCounts, seen, cvs.value);
      seen := seen + cvs.value;
      i := i + 1;
    }
    assert ps[..i] == ps;
    r := Ok(ProjectStats(|ps|, totalCvs, positionCounts, cvCounts));
  }

  /** One more position: its status is counted, and its CVs are appended
      to those seen so far unless looking them up raises. */
  lemma TallyStep(cvDocs: Docs, ps: seq<PositionData>, i: nat, seen: seq<Cv.CVData>)
    requires i < |ps| && CvsOfPositions(cvDocs, ps[..i]) == Ok(seen)
    ensures var c := PositionCounts(ps[..i]); var key := StatusValue(ps[i].status);
      key in c && PositionCounts(ps[..i + 1]) == c[key := c[key] + 1]
    ensures var cvs := Cv.FindByIdList(cvDocs, ps[i].cvs);
      cvs.Err? ==> CvsOfPositions(cvDocs, ps[..i + 1]) == Err(cvs.error)
    ensures var cvs := Cv.FindByIdList(cvDocs, ps[i].cvs);
      cvs.Ok? ==> CvsOfPositions(cvDocs, ps[..i + 1]) == Ok(seen + cvs.value)
  {
    var next := ps[..i + 1];
    assert next[..|next| - 1] == ps[..i] && next[|next| - 1] == ps[i];
    assert next == ps[..i] + [ps[i]];
    PositionCountsSnoc(ps[..i], ps[i]);
  }

  /** A lookup that raises ends the loop over the positions. */
  lemma {:induction false} CvsOfPositionsStops(cvDocs: Docs, ps: seq<PositionData>, k: nat)
    requires k <= |ps|
    requires CvsOfPositions(cvDocs, ps[..k]).Err?
    ensures CvsOfPositions(cvDocs, ps) == CvsOfPositions(cvDocs, ps[..k])
    decreases |ps|
  {
    if k < |ps| {
      var init := ps[..|ps| - 1];
      assert init[..k] == ps[..k];
      CvsOfPositionsStops(cvDocs, init, k);
    } else {
      assert ps[..k] == ps;
    }
  }

  /** `get_project_dashboard_stats`. */
  method GetProjectDashboardStats(user: Caller, projects: Projects, positionDocs: Docs, cvDocs: Docs, projectId: string)
    returns (r: Result<ProjectStats>)
    ensures r == ProjectDashboard(user, projects, positionDocs, cvDocs, projectId)
  {
    var access := ProjectAccess(user, projectId, AccessDetail);
    if access.Err? {
      return Err(access.error);
    }
    if projectId !in projects {
      return Err(ProjectMissing);
    }
    var ps := FindAllByIds(positionDocs, projects[projectId].positions);
    if ps.Err? {
      return Err(ps.error);
    }
    r := TallyProject(cvDocs, ps.value);
  }

  // ---------------------------------------------------------------------
  // Score buckets

  /** The keys of `overall_result`, in the order the source buckets them;
      the last one feeds `matching_score_distribution`. */
  const ScoreKeys: seq<string> := ["education_score", "language_skills_score", "technical_skills_score",
                                   "personal_projects_score", "work_experience_score", "publications_score",
                                   "overall_score"]

  /** The five bucket labels, lowest first. */
  const Labels: seq<string> := ["0-20", "21-40", "41-60", "61-80", "81-100"]

  /** The upper bounds of the first four buckets. */
  const Bounds: seq<real> := [20.0, 40.0, 60.0, 80.0]

  /** The `if score <= 20 ... elif <= 40 ... else` chain on a number. */
  function NumBucket(x: real): string {
    if x <= 20.0 then "0-20"
    else if x <= 40.0 then "21-40"
    else if x <= 60.0 then "41-60"
    else if x <= 80.0 then "61-80"
    else "81-100"
  }

  /** A score lands in bucket `i` exactly when it is above the bound before
      `i` (if any) and at most the bound of `i` (if any). */
  lemma NumBucketRange(x: real, i: nat)
    requires i < |Labels|
    ensures NumBucket(x) == Labels[i] <==> (i == 0 || Bounds[i - 1] < x) && (i == 4 || x <= Bounds[i])
  {
  }

  /** One comparison chain on a score: Python compares a bool as 0 or 1;
      any other value that is not a number raises TypeError. */
  function Bucket(score: Value): (r: Result<string>)
    ensures r.Ok? <==> score.Num? || score.Bool?
    ensures score.Num? ==> r == Ok(NumBucket(score.n))
    ensures r.Ok? ==> r.value in Labels
  {
    match score
    case Num(x) => Ok(NumBucket(x))
    case Bool(b) => Ok(NumBucket(if b then 1.0 else 0.0))
    case _ => Err(TypeError("'<=' not supported between instances of '" + TypeName(score) + "' and 'int'"))
  }

  /** `matching_scores`: the `overall_result` of every CV whose `matching`
      is a non-empty dict (None when the key is absent). */
  function MatchingScores(cvs: seq<Cv.CVData>): (scores: seq<Value>)
    ensures |scores| <= |cvs|
    decreases |cvs|
  {
    if cvs == [] then []
    else
      var m := cvs[|cvs| - 1].matching;
      MatchingScores(cvs[..|cvs| - 1]) + (if Truthy(m) && m.Dict? then [Get(m.fields, "overall_result")] else [])
  }

  /** The scores the second loop buckets: those that are non-empty dicts. */
  function ScoreDicts(scores: seq<Value>): (ds: seq<Record>)
    ensures |ds| <= |scores|
    decreases |scores|
  {
    if scores == [] then []
    else
      var s := scores[|scores| - 1];
      ScoreDicts(scores[..|scores| - 1]) + (if Truthy(s) && s.Dict? then [s.fields] else [])
  }

  /** The buckets of the scores of `d` under `keys`, compared in that order;
      the first comparison that raises. */
  function BucketsOf(d: Record, keys: seq<string>): (r: Result<seq<string>>)
    ensures r.Ok? ==> |r.value| == |keys| && forall i :: 0 <= i < |keys| ==> r.value[i] in Labels
    decreases |keys|
  {
    if keys == [] then Ok([])
    else
      var before :- BucketsOf(d, keys[..|keys| - 1]);
      var b :- Bucket(Get(d, keys[|keys| - 1]));
      Ok(before + [b])
  }

  /** A comparison that raises ends the scores of an entry. */
  lemma {:induction false} BucketsStop(d: Record, keys: seq<string>, k: nat)
    requires k <= |keys|
    requires BucketsOf(d, keys[..k]).Err?
    ensures BucketsOf(d, keys) == BucketsOf(d, keys[..k])
    decreases |keys|
  {
    if k < |keys| {
      var init := keys[..|keys| - 1];
      assert init[..k] == keys[..k];
      BucketsStop(d, init, k);
    } else {
      assert keys[..k] == keys;
    }
  }

  /** A distribution with every bucket at zero. */
  const EmptyDist: map<string, int> := map["0-20" := 0, "21-40" := 0, "41-60" := 0, "61-80" := 0, "81-100" := 0]

  /** The sum of a distribution's five buckets. */
  function DistTotal(m: map<string, int>): int
    requires EmptyDist.Keys <= m.Keys
  {
    m["0-20"] + m["21-40"] + m["41-60"] + m["61-80"] + m["81-100"]
  }

  /** `distribution[label] += 1`, for a label that is always a key already. */
  function Inc(m: map<string, int>, key: string): (r: map<string, int>)
    ensures r.Keys == m.Keys + {key}
  {
    m[key := (if key in m then m[key] else 0) + 1]
  }

  /** The distributions after one more entry: one more in bucket `bs[i]` of
      the `i`-th distribution. */
  function AddBuckets(ds: seq<map<string, int>>, bs: seq<string>): (r: seq<map<string, int>>)
    requires |bs| == |ds|
    ensures |r| == |ds|
  {
    seq(|ds|, i requires 0 <= i < |ds| => Inc(ds[i], bs[i]))
  }

  /** The seven distributions over the score dicts `entries`, or the first
      comparison that raises. */
  function Distributions(entries: seq<Record>): (r: Result<seq<map<string, int>>>)
    ensures r.Ok? ==> |r.value| == |ScoreKeys| && forall i :: 0 <= i < |ScoreKeys| ==> r.value[i].Keys == EmptyDist.Keys
    decreases |entries|
  {
    if entries == [] then Ok(seq(|ScoreKeys|, _ => EmptyDist))
    else
      var before :- Distributions(entries[..|entries| - 1]);
      var bs :- BucketsOf(entries[|entries| - 1], ScoreKeys);
      Ok(AddBuckets(before, bs))
  }

  /** Each entry adds one to exactly one bucket of every distribution, so all
      seven distributions count every entry. */
  lemma {:induction false} DistributionsTotal(entries: seq<Record>)
    requires Distributions(entries).Ok?
    ensures forall i :: 0 <= i < |ScoreKeys| ==> DistTotal(Distributions(entries).value[i]) == |entries|
    decreases |entries|
  {
    if entries != [] {
      var init := entries[..|entries| - 1];
      DistributionsTotal(init);
      var before := Distributions(init).value;
      var bs := BucketsOf(entries[|entries| - 1], ScoreKeys).value;
      forall i | 0 <= i < |ScoreKeys| ensures DistTotal(AddBuckets(before, bs)[i]) == |entries| {
        assert bs[i] in Labels;
      }
    }
  }

  // ---------------------------------------------------------------------
  // The position dashboard

  datatype PositionStats = PositionStats(totalCvs: int, cvStatusCounts: map<string, int>,
                                         distributions: seq<map<string, int>>)

  /** `get_position_dashboard_stats` (lines 74-276): the project checks, the
      position looked up (a missing one raises before the 404 is reached),
      the CV counters, and the seven distributions. Whether the project
      lists the position is never checked. */
  function PositionDashboard(user: Caller, projects: Projects, positionDocs: Docs, cvDocs: Docs,
                             projectId: string, positionId: string): (r: Result<PositionStats>)
    ensures ProjectAccess(user, projectId, AccessDetail).Err? ==> r == Err(ProjectAccess(user, projectId, AccessDetail).error)
    ensures ProjectAccess(user, projectId, AccessDetail).Ok? && projectId !in projects ==> r == Err(ProjectMissing)
    ensures r.Ok? ==> positionId in positionDocs
  {
    var _ :- ProjectAccess(user, projectId, AccessDetail);
    if projectId !in projects then Err(ProjectMissing)
    else
      var p :- Position.FindById(positionDocs, Str(positionId));
      var cvs :- Cv.FindByIdList(cvDocs, p.cvs);
      var ds :- Distributions(ScoreDicts(MatchingScores(cvs)));
      Ok(PositionStats(|cvs|, CvCounts(cvs), ds))
  }

  /** The CV counters add up to `total_cvs`; there are seven distributions,
      each with the five bucket keys, all with the same total, which is at
      most `total_cvs`. */
  lemma PositionDashboardTotals(user: Caller, projects: Projects, positionDocs: Docs, cvDocs: Docs,
                                projectId: string, positionId: string)
    requires PositionDashboard(user, projects, positionDocs, cvDocs, projectId, positionId).Ok?
    ensures var s := PositionDashboard(user, projects, positionDocs, cvDocs, projectId, positionId).value;
      && s.cvStatusCounts.Keys == {"APPLYING", "ACCEPTED", "INTERVIEWING", "HIRED"}
      && CvTotal(s.cvStatusCounts) == s.totalCvs
      && |s.distributions| == 7
      && (forall i :: 0 <= i < 7 ==> s.distributions[i].Keys == {"0-20", "21-40", "41-60", "61-80", "81-100"})
      && (forall i :: 0 <= i < 7 ==> DistTotal(s.distributions[i]) == DistTotal(s.distributions[6]) <= s.totalCvs)
  {
    var p := Position.FindById(positionDocs, Str(positionId)).value;
    var cvs := Cv.FindByIdList(cvDocs, p.cvs).value;
    CvCountsTotal(cvs);
    DistributionsTotal(ScoreDicts(MatchingScores(cvs)));
  }

  /** The position dashboard does not look at the project's list of
      positions: any position of the store is reported. */
  lemma PositionDashboardIgnoresMembership(user: Caller, projects: Projects, positionDocs: Docs, cvDocs: Docs,
                                           projectId: string, positionId: string, listed: Value)
    requires projectId in projects
    ensures PositionDashboard(user, projects[projectId := Project(listed)], positionDocs, cvDocs, projectId, positionId)
         == PositionDashboard(user, projects, positionDocs, cvDocs, projectId, positionId)
  {
  }

  /** The first loop of the position dashboard: the CV counters and
      `matching_scores`. */
  method CountCvs(cvs: seq<Cv.CVData>) returns (counts: map<string, int>, scores: seq<Value>)
    ensures counts == CvCounts(cvs) && scores == MatchingScores(cvs)
  {
    counts := map["APPLYING" := 0, "ACCEPTED" := 0, "INTERVIEWING" := 0, "HIRED" := 0];
    scores := [];
    var i := 0;
    while i < |cvs|
      invariant 0 <= i <= |cvs|
      invariant counts == CvCounts(cvs[..i]) && scores == MatchingScores(cvs[..i])
    {
      assert cvs[..i + 1][..i] == cvs[..i];
      CvCountsSnoc(cvs[..i], cvs[i]);
      assert cvs[..i + 1] == cvs[..i] + [cvs[i]];
      counts := counts[Cv.StatusValue(cvs[i].status) := counts[Cv.StatusValue(cvs[i].status)] + 1];
      var m := cvs[i].matching;
      if Truthy(m) && m.Dict? {
        scores := scores + [Get(m.fields, "overall_result")];
      }
      i := i + 1;
    }
    assert cvs[..i] == cvs;
  }

  /** The seven comparison chains for one score dict `d`, each followed by
      its increment. */
  method BucketEntry(ds: seq<map<string, int>>, d: Record) returns (r: Result<seq<map<string, int>>>)
    requires |ds| == |ScoreKeys|
    ensures BucketsOf(d, ScoreKeys).Err? ==> r == Err(BucketsOf(d, ScoreKeys).error)
    ensures BucketsOf(d, ScoreKeys).Ok? ==> r == Ok(AddBuckets(ds, BucketsOf(d, ScoreKeys).value))
  {
    var out := ds;
    ghost var bs: seq<string> := [];
    var j := 0;
    while j < |ScoreKeys|
      invariant 0 <= j <= |ScoreKeys| && |out| == |ds|
      invariant BucketsOf(d, ScoreKeys[..j]) == Ok(bs)
      invariant forall i :: 0 <= i < j ==> out[i] == Inc(ds[i], bs[i])
      invariant forall i :: j <= i < |ds| ==> out[i] == ds[i]
    {
      assert ScoreKeys[..j + 1][..j] == ScoreKeys[..j];
      var b := Bucket(Get(d, ScoreKeys[j]));
      if b.Err? {
        BucketsStop(d, ScoreKeys, j + 1);
        return Err(b.error);
      }
      out := out[j := Inc(out[j], b.value)];
      bs := bs + [b.value];
      j := j + 1;
    }
    assert ScoreKeys[..j] == ScoreKeys;
    assert out == AddBuckets(ds, bs);
    r := Ok(out);
  }

  /** The second loop of the position dashboard: every score that is a
      non-empty dict bucketed. */
  method BucketScores(scores: seq<Value>) returns (r: Result<seq<map<string, int>>>)
    ensures r == Distributions(ScoreDicts(scores))
  {
    var ds := seq(|ScoreKeys|, _ => EmptyDist);
    var i := 0;
    while i < |scores|
      invariant 0 <= i <= |scores|
      invariant Distributions(ScoreDicts(scores[..i])) == Ok(ds)
    {
      ScoreDictsStep(scores, i);
      var s := scores[i];
      if Truthy(s) && s.Dict? {
        DistributionsSnoc(ScoreDicts(scores[..i]), s.fields);
        var next := BucketEntry(ds, s.fields);
        if next.Err? {
          DistributionsStop(scores, i + 1);
          return Err(next.error);
        }
        assert ScoreDicts(scores[..i + 1]) == ScoreDicts(scores[..i]) + [s.fields];
        assert BucketsOf(s.fields, ScoreKeys).Ok?;
        ds := next.value;
      } else {
        assert ScoreDicts(scores[..i + 1]) == ScoreDicts(scores[..i]);
      }
      i := i + 1;
    }
    assert scores[..i] == scores;
    r := Ok(ds);
  }

  /** One more score adds its dict, if it is a non-empty one. */
  lemma ScoreDictsStep(scores: seq<Value>, i: nat)
    requires i < |scores|
    ensures ScoreDicts(scores[..i + 1])
         == ScoreDicts(scores[..i]) + (if Truthy(scores[i]) && scores[i].Dict? then [scores[i].fields] else [])
  {
    assert scores[..i + 1][..i] == scores[..i];
  }

  /** One more score dict is bucketed after all the earlier ones. */
  lemma DistributionsSnoc(entries: seq<Record>, d: Record)
    ensures Distributions(entries + [d])
         == (var before :- Distributions(entries);
             var bs :- BucketsOf(d, ScoreKeys);
             Ok(AddBuckets(before, bs)))
  {
    assert (entries + [d])[..|entries|] == entries;
  }

  /** A comparison that raises ends the bucketing loop. */
  lemma {:induction false} DistributionsStop(scores: seq<Value>, k: nat)
    requires k <= |scores|
    requires Distributions(ScoreDicts(scores[..k])).Err?
    ensures Distributions(ScoreDicts(scores)) == Distributions(ScoreDicts(scores[..k]))
    decreases |scores|
  {
    if k < |scores| {
      var init := scores[..|scores| - 1];
      assert init[..k] == scores[..k];
      DistributionsStop(init, k);
      var e := ScoreDicts(init);
      if ScoreDicts(scores) != e {
        assert ScoreDicts(scores)[..|ScoreDicts(scores)| - 1] == e;
      }
    } else {
      assert scores[..k] == scores;
    }
  }

  /** `get_position_dashboard_stats`. */
  method GetPositionDashboardStats(user: Caller, projects: Projects, positionDocs: Docs, cvDocs: Docs,
                                   projectId: string, positionId: string) returns (r: Result<PositionStats>)
    ensures r == PositionDashboard(user, projects, positionDocs, cvDocs, projectId, positionId)
  {
    var access := ProjectAccess(user, projectId, AccessDetail);
    if access.Err? {
      return Err(access.error);
    }
    if projectId !in projects {
      return Err(ProjectMissing);
    }
    var p := Position.FindById(positionDocs, Str(positionId));
    if p.Err? {
      return Err(p.error);
    }
    var cvs := Cv.FindByIdList(cvDocs, p.value.cvs);
    if cvs.Err? {
      return Err(cvs.error);
    }
    var counts, scores := CountCvs(cvs.value);
    var ds := BucketScores(scores);
    if ds.Err? {
      return Err(ds.error);
    }
    r := Ok(PositionStats(|cvs.value|, counts, ds.value));
  }
}

/** The access checks that open every project- and position-level request:
    `_validate_permissions` in apis/v1/controllers/cv_controller.py and the
    identical `_validate_permission` in apis/v1/controllers/jd_controller.py. */
module Permissions {
  import opened Wrappers
  import opened Values
  import opened Store
  import opened Position

  /** What the checks read from the signed-in user: the ids of the projects
      the user owns and of those shared with the user. */
  datatype Caller = Caller(projects: Value, shared: Value)

  /** What the checks read from a project: its list of position ids. */
  datatype Project = Project(positions: Value)

  /** `ProjectSchema.find_by_id`: project id to project, None when absent. */
  type Projects = map<string, Project>

  const ProjectDeniedDetail := "You don't have permission to access this project."
  const ProjectMissing := Http(NotFound, "Project not found.")
  const PositionDenied := Http(Forbidden, "You don't have permission to access this position.")

  /** `project_id not in user.projects and project_id not in user.shared`
      raising 403 with `detail`: the shared list is consulted only when the
      project is not among the user's own. */
  function ProjectAccess(user: Caller, projectId: string, detail: string): (r: Result<()>)
    ensures Contains(user.projects, projectId) == Ok(true) ==> r == Ok(())
    ensures Contains(user.projects, projectId) == Ok(false) && Contains(user.shared, projectId) == Ok(true) ==> r == Ok(())
    ensures Contains(user.projects, projectId) == Ok(false) && Contains(user.shared, projectId) == Ok(false) ==> r == Err(Http(Forbidden, detail))
    ensures r.Ok? ==> Contains(user.projects, projectId) == Ok(true) || Contains(user.shared, projectId) == Ok(true)
  {
    var own :- Contains(user.projects, projectId);
    if own then Ok(())
    else
      var shared :- Contains(user.shared, projectId);
      if shared then Ok(()) else Err(Http(Forbidden, detail))
  }

  /** The four checks in order, stopping at the first that fails: project
      access (403), project existence (404), position in project (403), and
      the position lookup. A missing position reaches `from_dict(None)`, which
      raises, so the "Position not found." 404 is never produced. */
  function ValidatePermissions(user: Caller, projects: Projects, positions: Docs, projectId: string, positionId: string): (r: Result<PositionData>)
    ensures ProjectAccess(user, projectId, ProjectDeniedDetail).Err? ==> r == Err(ProjectAccess(user, projectId, ProjectDeniedDetail).error)
    ensures ProjectAccess(user, projectId, ProjectDeniedDetail).Ok? && projectId !in projects ==> r == Err(ProjectMissing)
    ensures ProjectAccess(user, projectId, ProjectDeniedDetail).Ok? && projectId in projects ==>
              match Contains(projects[projectId].positions, positionId)
              case Err(e) => r == Err(e)
              case Ok(false) => r == Err(PositionDenied)
              case Ok(true) => r == FindById(positions, Str(positionId))
    ensures r.Ok? ==> && ProjectAccess(user, projectId, ProjectDeniedDetail).Ok?
                      && projectId in projects
                      && Contains(projects[projectId].positions, positionId) == Ok(true)
                      && positionId in positions
                      && r.value.id == Str(positionId)
    ensures r != Err(Http(NotFound, "Position not found."))
  {
    var _ :- ProjectAccess(user, projectId, ProjectDeniedDetail);
    if projectId !in projects then Err(ProjectMissing)
    else
      var listed :- Contains(projects[projectId].positions, positionId);
      if !listed then Err(PositionDenied)
      else FindById(positions, Str(positionId))
  }

  /** Only a user who owns the project or has it shared gets past the checks. */
  lemma OnlyMembersPass(user: Caller, projects: Projects, positions: Docs, projectId: string, positionId: string)
    requires user.projects.List? && user.shared.List?
    requires ValidatePermissions(user, projects, positions, projectId, positionId).Ok?
    ensures Str(projectId) in user.projects.items || Str(projectId) in user.shared.items
  {
  }
}

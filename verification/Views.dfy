/** The view sets (SoftDesk/api/views.py): which permission classes guard
    each one, which serializer each action selects, what each list query
    returns, what each creation writes, and the per-request memoized
    lookups. */
module Views {
  import opened Outcomes
  import opened Text
  import opened Models
  import opened Storage
  import opened QuerySets
  import opened Permissions

  /** The five view sets. */
  datatype Endpoint = Users | Projects | Contributors | Issues | Comments

  // ---------------------------------------------------------------------
  // `permission_classes`.

  function PermissionClasses(e: Endpoint): (r: seq<PermClass>)
    ensures 0 < |r| && r[0] == (if e == Users then IsAccountOwnerOrReadOnly
                                else if e == Contributors then IsProjectAuthor
                                else IsAuthorOrReadOnly)
    ensures IsProjectContributor in r <==> e == Issues || e == Comments
    ensures IsProjectAuthor in r <==> e == Contributors
    ensures IsProjectAuthorOrContributor !in r
  {
    match e
    case Users => [IsAccountOwnerOrReadOnly]
    case Projects => [IsAuthorOrReadOnly]
    case Contributors => [IsProjectAuthor]
    case Issues => [IsAuthorOrReadOnly, IsProjectContributor]
    case Comments => [IsAuthorOrReadOnly, IsProjectContributor]
  }

  /** The object an issue is checked as. */
  function IssueTarget(iid: IssueId, i: Issue): Target { Authored(iid, i.author) }

  /** Users and projects are open at view level: neither listed class
      overrides `has_permission`. */
  lemma OpenEndpointsAllowEveryRequest(e: Endpoint, s: Store, req: Request, kw: Kwargs)
    requires e == Users || e == Projects
    ensures CheckPermissions(PermissionClasses(e), s, req, kw) == Allow
  {
    CombineAllowIff(PermissionClasses(e), pc => HasPermission(pc, s, req, kw));
  }

  /** The contributor endpoints admit exactly the project's author, whatever
      the method; an unknown project raises. Objects are not checked further. */
  lemma ContributorsGate(s: Store, req: Request, kw: Kwargs, obj: Target)
    ensures CheckPermissions(PermissionClasses(Contributors), s, req, kw)
         == match GetProject(s, kw.projectPk)
            case Err(_) => Fail(DoesNotExist)
            case Ok(p) => if req.user == p.author then Allow else Deny(Some(PROJECT_AUTHOR_MESSAGE))
    ensures CheckObjectPermissions(PermissionClasses(Contributors), req, obj) == Allow
  {
  }

  /** Issues and comments admit exactly the project's contributors; the author
      of the project is not admitted on that ground alone. An unknown project
      raises. */
  lemma {:induction false} IssuesAndCommentsGate(e: Endpoint, s: Store, req: Request, kw: Kwargs)
    requires e == Issues || e == Comments
    ensures CheckPermissions(PermissionClasses(e), s, req, kw)
         == match GetProject(s, kw.projectPk)
            case Err(_) => Fail(DoesNotExist)
            case Ok(p) => if req.user in p.contributors then Allow else Deny(Some(CONTRIBUTOR_MESSAGE))
  {
    var cs := PermissionClasses(e);
    var answer := pc => HasPermission(pc, s, req, kw);
    assert answer(cs[0]) == Granted;
    if answer(cs[1]) == Granted {
      CombineAllowIff(cs, answer);
    } else {
      CombineFirstFailure(cs, answer, 1);
    }
  }

  /** On projects, issues and comments the object check lets every read
      through and lets a write through iff the requester is the object's
      author; on issues and comments the contributor class adds nothing at
      object level. */
  lemma {:induction false} AuthoredObjectGate(e: Endpoint, req: Request, obj: Target)
    requires e == Projects || e == Issues || e == Comments
    requires obj.Authored?
    ensures CheckObjectPermissions(PermissionClasses(e), req, obj)
         == if IsSafe(req.verb) || obj.author == req.user then Allow else Deny(Some(AUTHOR_MESSAGE))
  {
    var cs := PermissionClasses(e);
    var answer := pc => HasObjectPermission(pc, req, obj);
    if answer(cs[0]) == Granted {
      CombineAllowIff(cs, answer);
    } else {
      CombineFirstFailure(cs, answer, 0);
    }
  }

  /** A user account can be read by anyone and written only by its owner;
      the refusal carries no message of its own. */
  lemma AccountGate(req: Request, obj: Target)
    ensures CheckObjectPermissions(PermissionClasses(Users), req, obj)
         == if IsSafe(req.verb) || obj.id == req.user then Allow else Deny(None)
  {
  }

  /** Whoever is admitted to a project's issue list is one of its
      contributors: someone outside the contributors set never sees its issues. */
  lemma IssueListNeedsMembership(s: Store, req: Request, pid: ProjectId)
    requires CheckPermissions(PermissionClasses(Issues), s, req, Kwargs(Some(pid))) == Allow
    ensures pid in s.projects && req.user in s.projects[pid].contributors
  {
    IssuesAndCommentsGate(Issues, s, req, Kwargs(Some(pid)));
  }

  // ---------------------------------------------------------------------
  // `get_serializer_class`.

  datatype Serializer =
    | UserCreateSerializer | UserListSerializer | UserDetailSerializer
    | ProjectCreateSerializer | ProjectListSerializer | ProjectDetailSerializer
    | ContributorCreateSerializer | ContributorListSerializer | ContributorDetailSerializer
    | IssueCreateSerializer | IssueListSerializer | IssueDetailSerializer
    | CommentCreateSerializer | CommentListSerializer | CommentDetailSerializer

  datatype Role = CreateRole | ListRole | DetailRole

  /** Which view set's family a serializer belongs to. */
  function SerializerEndpoint(z: Serializer): Endpoint {
    match z
    case UserCreateSerializer | UserListSerializer | UserDetailSerializer => Users
    case ProjectCreateSerializer | ProjectListSerializer | ProjectDetailSerializer => Projects
    case ContributorCreateSerializer | ContributorListSerializer | ContributorDetailSerializer => Contributors
    case IssueCreateSerializer | IssueListSerializer | IssueDetailSerializer => Issues
    case CommentCreateSerializer | CommentListSerializer | CommentDetailSerializer => Comments
  }

  function SerializerRole(z: Serializer): Role {
    match z
    case UserCreateSerializer | ProjectCreateSerializer | ContributorCreateSerializer
      | IssueCreateSerializer | CommentCreateSerializer => CreateRole
    case UserListSerializer | ProjectListSerializer | ContributorListSerializer
      | IssueListSerializer | CommentListSerializer => ListRole
    case _ => DetailRole
  }

  /** The serializer picked for an action: the view's own create, list or
      detail serializer for "create", "list" and "retrieve"; for every other
      action (update, partial update, destroy, none) the detail serializer on
      users and the create serializer elsewhere. */
  function GetSerializerClass(e: Endpoint, action: string): (z: Serializer)
    ensures SerializerEndpoint(z) == e
    ensures SerializerRole(z)
         == if action == "create" then CreateRole
            else if action == "list" then ListRole
            else if action == "retrieve" then DetailRole
            else if e == Users then DetailRole
            else CreateRole
  {
    match e
    case Users =>
      if action == "create" then UserCreateSerializer
      else if action == "list" then UserListSerializer
      else if action == "retrieve" then UserDetailSerializer
      else UserDetailSerializer
    case Projects =>
      if action == "create" then ProjectCreateSerializer
      else if action == "list" then ProjectListSerializer
      else if action == "retrieve" then ProjectDetailSerializer
      else ProjectCreateSerializer
    case Contributors =>
      if action == "create" then ContributorCreateSerializer
      else if action == "list" then ContributorListSerializer
      else if action == "retrieve" then ContributorDetailSerializer
      else ContributorCreateSerializer
    case Issues =>
      if action == "create" then IssueCreateSerializer
      else if action == "list" then IssueListSerializer
      else if action == "retrieve" then IssueDetailSerializer
      else IssueCreateSerializer
    case Comments =>
      if action == "create" then CommentCreateSerializer
      else if action == "list" then CommentListSerializer
      else if action == "retrieve" then CommentDetailSerializer
      else CommentCreateSerializer
  }

  // ---------------------------------------------------------------------
  // `get_queryset`: filter, then order.

  function ContributesTo(s: Store, user: UserId): nat -> bool {
    pid => pid in s.projects && user in s.projects[pid].contributors
  }

  function ProjectCreated(s: Store): nat -> nat {
    pid => if pid in s.projects then s.projects[pid].createdTime else 0
  }

  function InProject(s: Store, projectPk: ProjectId): nat -> bool {
    iid => iid in s.issues && s.issues[iid].project == projectPk
  }

  function IssueCreated(s: Store): nat -> nat {
    iid => if iid in s.issues then s.issues[iid].createdTime else 0
  }

  function OnIssue(s: Store, issuePk: IssueId): nat -> bool {
    cid => cid in s.comments && s.comments[cid].issue == issuePk
  }

  function CommentCreated(s: Store): nat -> nat {
    cid => if cid in s.comments then s.comments[cid].createdTime else 0
  }

  function Registered(s: Store): nat -> bool {
    u => u in s.users
  }

  function AmongContributors(s: Store, members: set<UserId>): nat -> bool {
    u => u in s.users && u in members
  }

  function DateJoined(s: Store): nat -> nat {
    u => if u in s.users then s.users[u].dateJoined else 0
  }

  // A sequence sorted on one of the key functions above, whose keys are all
  // rows of the table, is sorted on the rows' own field.

  lemma ProjectsInOrder(s: Store, r: seq<nat>)
    requires SortedBy(r, ProjectCreated(s)) && forall x :: x in r ==> x in s.projects
    ensures forall i, j :: 0 <= i < j < |r| ==> s.projects[r[i]].createdTime <= s.projects[r[j]].createdTime
  {
  }

  lemma IssuesInOrder(s: Store, r: seq<nat>)
    requires SortedBy(r, IssueCreated(s)) && forall x :: x in r ==> x in s.issues
    ensures forall i, j :: 0 <= i < j < |r| ==> s.issues[r[i]].createdTime <= s.issues[r[j]].createdTime
  {
  }

  lemma CommentsInOrder(s: Store, r: seq<nat>)
    requires SortedBy(r, CommentCreated(s)) && forall x :: x in r ==> x in s.comments
    ensures forall i, j :: 0 <= i < j < |r| ==> s.comments[r[i]].createdTime <= s.comments[r[j]].createdTime
  {
  }

  lemma UsersInOrder(s: Store, r: seq<nat>)
    requires SortedBy(r, DateJoined(s)) && forall x :: x in r ==> x in s.users
    ensures forall i, j :: 0 <= i < j < |r| ==> s.users[r[i]].dateJoined <= s.users[r[j]].dateJoined
  {
  }

  /** `ProjectViewSet.project` before ordering: the projects the user
      contributes to. */
  function ProjectFilter(s: Store, user: UserId): seq<ProjectId> {
    Where(s.nextProject, ContributesTo(s, user))
  }

  /** `IssueViewSet.issue` before ordering: the issues of one project. */
  function IssueFilter(s: Store, projectPk: ProjectId): seq<IssueId> {
    Where(s.nextIssue, InProject(s, projectPk))
  }

  /** `CommentViewSet.comment` before ordering: the comments of one issue. */
  function CommentFilter(s: Store, issuePk: IssueId): seq<CommentId> {
    Where(s.nextComment, OnIssue(s, issuePk))
  }

  /** The project list: exactly the projects whose contributors include the
      user, each once, oldest first. */
  function ProjectQueryset(s: Store, user: UserId): (r: seq<ProjectId>)
    requires WellFormed(s)
    ensures forall pid: nat :: pid in r <==> pid in s.projects && user in s.projects[pid].contributors
    ensures Distinct(r)
    ensures forall i, j :: 0 <= i < j < |r| ==> s.projects[r[i]].createdTime <= s.projects[r[j]].createdTime
  {
    WhereOrderBy(s.nextProject, ContributesTo(s, user), ProjectCreated(s));
    var r := OrderBy(ProjectFilter(s, user), ProjectCreated(s));
    ProjectsInOrder(s, r);
    r
  }

  /** The issue list: exactly the issues whose project is `projectPk`, each
      once, oldest first. */
  function IssueQueryset(s: Store, projectPk: ProjectId): (r: seq<IssueId>)
    requires WellFormed(s)
    ensures forall iid: nat :: iid in r <==> iid in s.issues && s.issues[iid].project == projectPk
    ensures Distinct(r)
    ensures forall i, j :: 0 <= i < j < |r| ==> s.issues[r[i]].createdTime <= s.issues[r[j]].createdTime
  {
    WhereOrderBy(s.nextIssue, InProject(s, projectPk), IssueCreated(s));
    var r := OrderBy(IssueFilter(s, projectPk), IssueCreated(s));
    IssuesInOrder(s, r);
    r
  }

  /** The comment list: exactly the comments whose issue is `issuePk`, each
      once, oldest first. The project in the URL plays no part. */
  function CommentQueryset(s: Store, issuePk: IssueId): (r: seq<CommentId>)
    requires WellFormed(s)
    ensures forall cid: nat :: cid in r <==> cid in s.comments && s.comments[cid].issue == issuePk
    ensures Distinct(r)
    ensures forall i, j :: 0 <= i < j < |r| ==> s.comments[r[i]].createdTime <= s.comments[r[j]].createdTime
  {
    WhereOrderBy(s.nextComment, OnIssue(s, issuePk), CommentCreated(s));
    var r := OrderBy(CommentFilter(s, issuePk), CommentCreated(s));
    CommentsInOrder(s, r);
    r
  }

  /** `UserViewSet.get_queryset`: every user, each once, by date joined. */
  function UserQueryset(s: Store): (r: seq<UserId>)
    requires WellFormed(s)
    ensures forall u: nat :: u in r <==> u in s.users
    ensures Distinct(r)
    ensures forall i, j :: 0 <= i < j < |r| ==> s.users[r[i]].dateJoined <= s.users[r[j]].dateJoined
  {
    WhereOrderBy(s.nextUser, Registered(s), DateJoined(s));
    var r := OrderBy(Where(s.nextUser, Registered(s)), DateJoined(s));
    UsersInOrder(s, r);
    r
  }

  /** `ContributorViewSet.get_queryset`: exactly the project's contributors,
      each once, by date joined. */
  function ContributorQueryset(s: Store, pid: ProjectId): (r: seq<UserId>)
    requires WellFormed(s) && pid in s.projects
    ensures forall u: nat :: u in r <==> u in s.projects[pid].contributors
    ensures Distinct(r)
    ensures forall i, j :: 0 <= i < j < |r| ==> s.users[r[i]].dateJoined <= s.users[r[j]].dateJoined
  {
    var members := s.projects[pid].contributors;
    WhereOrderBy(s.nextUser, AmongContributors(s, members), DateJoined(s));
    var r := OrderBy(Where(s.nextUser, AmongContributors(s, members)), DateJoined(s));
    UsersInOrder(s, r);
    r
  }

  // ---------------------------------------------------------------------
  // What the creations write.

  /** The validated request data a creation starts from; the author, the
      contributors, the project, the issue and the issue URL are never taken
      from it. The issue's assignee may be omitted, since the field is
      optional on the record. */
  datatype ProjectDraft = ProjectDraft(name: string, description: string, projectType: ProjectType)

  datatype IssueDraft = IssueDraft(
    name: string,
    description: string,
    tag: IssueTag,
    state: Option<IssueState>,
    priority: IssuePriority,
    assignee: Option<UserId>,
    commentsUrl: Option<string>)

  datatype CommentDraft = CommentDraft(name: string, description: string)

  /** `ProjectViewSet.perform_create`: the requester is saved as author and
      as the only contributor. */
  function NewProject(user: UserId, d: ProjectDraft, now: nat): Project {
    Project(d.name, d.description, d.projectType, user, {user}, now, now)
  }

  /** `IssueViewSet.perform_create`: author is the requester, assignee is the
      one supplied, project is the resolved one; an omitted state is `ToDo`
      and an omitted comments URL is empty. */
  function NewIssue(user: UserId, projectPk: ProjectId, assignee: UserId, d: IssueDraft, now: nat): Issue {
    var state := if d.state.Some? then d.state.value else DEFAULT_STATE;
    var url := if d.commentsUrl.Some? then d.commentsUrl.value else "";
    Issue(d.name, d.description, d.tag, state, d.priority, projectPk, user, assignee, now, url)
  }

  /** Reads the issue key back out of the end of an issue URL. */
  function ParseIssueTail(tail: string): Option<IssueId> {
    if |tail| < 8 || tail[..8] != "/issues/" then None
    else match SplitKey(tail[8..])
      case None => None
      case Some((issuePk, last)) => if last == "/" then Some(issuePk) else None
  }

  /** Reads the two path keys back out of an issue URL. */
  function ParseIssueUrl(baseUrl: string, url: string): Option<(ProjectId, IssueId)> {
    var prefix := baseUrl + "/api/projects/";
    if |url| < |prefix| || url[..|prefix|] != prefix then None
    else match SplitKey(url[|prefix|..])
      case None => None
      case Some((projectPk, tail)) =>
        match ParseIssueTail(tail)
        case None => None
        case Some(issuePk) => Some((projectPk, issuePk))
  }

  lemma IssueTailRoundTrip(issuePk: IssueId)
    ensures ParseIssueTail("/issues/" + Decimal(issuePk) + "/") == Some(issuePk)
  {
    var tail := "/issues/" + Decimal(issuePk) + "/";
    assert tail[..8] == "/issues/";
    assert tail[8..] == Decimal(issuePk) + "/";
    SplitKeyOfDecimal(issuePk, "/");
  }

  /** The issue URL stored on a comment, from the configured base URL and
      the two path keys; it names exactly those two keys. */
  function IssueUrl(baseUrl: string, projectPk: ProjectId, issuePk: IssueId): (url: string)
    ensures ParseIssueUrl(baseUrl, url) == Some((projectPk, issuePk))
  {
    var prefix := baseUrl + "/api/projects/";
    var tail := "/issues/" + Decimal(issuePk) + "/";
    var url := prefix + (Decimal(projectPk) + tail);
    assert url[..|prefix|] == prefix;
    assert url[|prefix|..] == Decimal(projectPk) + tail;
    SplitKeyOfDecimal(projectPk, tail);
    IssueTailRoundTrip(issuePk);
    url
  }

  /** `CommentViewSet.perform_create`: author is the requester, issue is the
      resolved one, and the issue URL is built from the path keys. */
  function NewComment(user: UserId, issuePk: IssueId, issueUrl: string, d: CommentDraft, now: nat): Comment {
    Comment(d.name, d.description, issuePk, user, now, issueUrl)
  }

  function CreateProject(s: Store, user: UserId, d: ProjectDraft, now: nat): Store {
    WithProject(s, NewProject(user, d, now))
  }

  /** The assignee is read from the request data first (a `KeyError` when
      it was omitted), then `get_object_or_404(Project, id=project_pk)`, then
      the save. */
  function CreateIssue(s: Store, user: UserId, projectPk: ProjectId, d: IssueDraft, now: nat): Result<Store> {
    if d.assignee.None? then Err(KeyError)
    else if projectPk !in s.projects then Err(NotFound)
    else Ok(WithIssue(s, NewIssue(user, projectPk, d.assignee.value, d, now)))
  }

  /** `get_object_or_404(Issue, id=issue_pk)` then save. The issue is not
      required to belong to `projectPk`. */
  function CreateComment(s: Store, user: UserId, projectPk: ProjectId, issuePk: IssueId,
                         baseUrl: string, d: CommentDraft, now: nat): Result<Store> {
    if issuePk !in s.issues then Err(NotFound)
    else Ok(WithComment(s, NewComment(user, issuePk, IssueUrl(baseUrl, projectPk, issuePk), d, now)))
  }

  /** After a project is created its creator is its author and its only
      contributor, so the author is among the contributors; it is new, no
      other project and no other table changes, it is in its creator's
      project list, and the store stays well formed. */
  lemma CreateProjectOutcome(s: Store, user: UserId, d: ProjectDraft, now: nat)
    requires WellFormed(s) && user in s.users
    ensures var r := CreateProject(s, user, d, now);
            var pid := s.nextProject;
            && pid !in s.projects
            && r.projects.Keys == s.projects.Keys + {pid}
            && r.projects[pid].author == user
            && r.projects[pid].contributors == {user}
            && r.projects[pid].author in r.projects[pid].contributors
            && (forall q :: q in s.projects ==> r.projects[q] == s.projects[q])
            && r.(projects := s.projects, nextProject := s.nextProject) == s
            && WellFormed(r)
            && pid in ProjectQueryset(r, user)
  {
    WithProjectWellFormed(s, NewProject(user, d, now));
  }

  /** Issue creation fails with KeyError when the assignee was omitted,
      whether or not the project exists; otherwise with NotFound iff the
      project is unknown. On success the one new issue has the requester as
      author, the supplied assignee (not defaulted), the URL's project, the
      given state or `ToDo`; no other issue and no other table changes, and
      the store stays well formed. */
  lemma CreateIssueOutcome(s: Store, user: UserId, projectPk: ProjectId, d: IssueDraft, now: nat)
    requires WellFormed(s) && user in s.users
    requires d.assignee.Some? ==> d.assignee.value in s.users
    ensures var out := CreateIssue(s, user, projectPk, d, now);
            && (out.Err? <==> d.assignee.None? || projectPk !in s.projects)
            && (d.assignee.None? ==> out == Err(KeyError))
            && (d.assignee.Some? && projectPk !in s.projects ==> out == Err(NotFound))
    ensures CreateIssue(s, user, projectPk, d, now).Ok? ==>
            var r := CreateIssue(s, user, projectPk, d, now).value;
            var i := r.issues[s.nextIssue];
            && s.nextIssue !in s.issues
            && r.issues.Keys == s.issues.Keys + {s.nextIssue}
            && i.author == user && i.assignee == d.assignee.value && i.project == projectPk
            && (d.state.None? ==> i.state == ToDo)
            && (d.state.Some? ==> i.state == d.state.value)
            && (forall q :: q in s.issues ==> r.issues[q] == s.issues[q])
            && r.(issues := s.issues, nextIssue := s.nextIssue) == s
            && WellFormed(r)
            && s.nextIssue in IssueQueryset(r, projectPk)
  {
    if d.assignee.Some? && projectPk in s.projects {
      WithIssueWellFormed(s, NewIssue(user, projectPk, d.assignee.value, d, now));
    }
  }

  /** Comment creation fails with NotFound, writing nothing, iff the issue is
      unknown; otherwise the one new comment has the requester as author,
      the URL's issue, and an issue URL that names the URL's two keys; no
      other comment and no other table changes. */
  lemma CreateCommentOutcome(s: Store, user: UserId, projectPk: ProjectId, issuePk: IssueId,
                             baseUrl: string, d: CommentDraft, now: nat)
    requires WellFormed(s) && user in s.users
    ensures CreateComment(s, user, projectPk, issuePk, baseUrl, d, now).Err? <==> issuePk !in s.issues
    ensures CreateComment(s, user, projectPk, issuePk, baseUrl, d, now).Err? ==>
            CreateComment(s, user, projectPk, issuePk, baseUrl, d, now).error == NotFound
    ensures CreateComment(s, user, projectPk, issuePk, baseUrl, d, now).Ok? ==>
            var r := CreateComment(s, user, projectPk, issuePk, baseUrl, d, now).value;
            var c := r.comments[s.nextComment];
            && s.nextComment !in s.comments
            && r.comments.Keys == s.comments.Keys + {s.nextComment}
            && c.author == user && c.issue == issuePk
            && ParseIssueUrl(baseUrl, c.issueUrl) == Some((projectPk, issuePk))
            && (forall q :: q in s.comments ==> r.comments[q] == s.comments[q])
            && r.(comments := s.comments, nextComment := s.nextComment) == s
            && WellFormed(r)
  {
    if issuePk in s.issues {
      var c := NewComment(user, issuePk, IssueUrl(baseUrl, projectPk, issuePk), d, now);
      var r := WithComment(s, c);
      assert r.comments[s.nextComment] == c;
      assert r.(comments := s.comments, nextComment := s.nextComment) == s;
      WithCommentWellFormed(s, c);
    }
  }

  /** Nothing ties the issue to the project in the URL: a contributor of one
      project passes the gate of that project and can comment on an issue of
      another project, and the comment's issue URL then names the wrong
      project. */
  lemma CommentOnForeignIssue(s: Store, user: UserId, projectPk: ProjectId, issuePk: IssueId,
                              baseUrl: string, d: CommentDraft, now: nat)
    requires WellFormed(s) && user in s.users
    requires projectPk in s.projects && user in s.projects[projectPk].contributors
    requires issuePk in s.issues && s.issues[issuePk].project != projectPk
    ensures CheckPermissions(PermissionClasses(Comments), s, Request(user, "POST"), Kwargs(Some(projectPk))) == Allow
    ensures CreateComment(s, user, projectPk, issuePk, baseUrl, d, now).Ok?
    ensures var c := CreateComment(s, user, projectPk, issuePk, baseUrl, d, now).value.comments[s.nextComment];
            && ParseIssueUrl(baseUrl, c.issueUrl) == Some((projectPk, issuePk))
            && s.issues[c.issue].project != projectPk
  {
    IssuesAndCommentsGate(Comments, s, Request(user, "POST"), Kwargs(Some(projectPk)));
  }

  /** Likewise a contributor of one project can list the comments of an issue
      of another project. */
  lemma CommentListOfForeignIssue(s: Store, user: UserId, projectPk: ProjectId, cid: CommentId)
    requires WellFormed(s)
    requires projectPk in s.projects && user in s.projects[projectPk].contributors
    requires cid in s.comments && s.issues[s.comments[cid].issue].project != projectPk
    ensures CheckPermissions(PermissionClasses(Comments), s, Request(user, "GET"), Kwargs(Some(projectPk))) == Allow
    ensures cid in CommentQueryset(s, s.comments[cid].issue)
  {
    IssuesAndCommentsGate(Comments, s, Request(user, "GET"), Kwargs(Some(projectPk)));
  }

  /** Removing a project's author from its contributors is not refused. It
      breaks "the author is a contributor"; the author then loses the
      project from their project list and loses the issue and comment
      endpoints, but keeps the contributor endpoints, where they can add
      themselves back. */
  lemma RemovingTheAuthor(s: Store, pid: ProjectId, verb: string)
    requires WellFormed(s) && pid in s.projects
    ensures var a := s.projects[pid].author;
            var r := WithoutContributor(s, pid, a);
            var kw := Kwargs(Some(pid));
            && a !in r.projects[pid].contributors
            && WellFormed(r)
            && pid !in ProjectQueryset(r, a)
            && CheckPermissions(PermissionClasses(Issues), r, Request(a, verb), kw) == Deny(Some(CONTRIBUTOR_MESSAGE))
            && CheckPermissions(PermissionClasses(Contributors), r, Request(a, verb), kw) == Allow
            && a in WithContributor(r, pid, a).projects[pid].contributors
  {
    var a := s.projects[pid].author;
    var r := WithoutContributor(s, pid, a);
    WithoutContributorWellFormed(s, pid, a);
    IssuesAndCommentsGate(Issues, r, Request(a, verb), Kwargs(Some(pid)));
  }

  /** The tracker's walk-through: Alice creates a project, so she alone passes
      its issue gate and Bob is refused; once Alice adds Bob he passes it, an
      issue he creates is his, and only its author may then change it. */
  lemma Walkthrough(s: Store, alice: UserId, bob: UserId, d: ProjectDraft, issue: IssueDraft, now: nat)
    requires WellFormed(s) && alice in s.users && bob in s.users && alice != bob
    requires issue.assignee.Some? && issue.assignee.value in s.users
    ensures var s1 := CreateProject(s, alice, d, now);
            var pid := s.nextProject;
            var kw := Kwargs(Some(pid));
            var s2 := WithContributor(s1, pid, bob);
            && CheckPermissions(PermissionClasses(Issues), s1, Request(alice, "GET"), kw) == Allow
            && CheckPermissions(PermissionClasses(Issues), s1, Request(bob, "GET"), kw) == Deny(Some(CONTRIBUTOR_MESSAGE))
            && CheckPermissions(PermissionClasses(Contributors), s1, Request(alice, "POST"), kw) == Allow
            && CheckPermissions(PermissionClasses(Issues), s2, Request(bob, "POST"), kw) == Allow
            && CreateIssue(s2, bob, pid, issue, now).Ok?
            && var i := CreateIssue(s2, bob, pid, issue, now).value.issues[s2.nextIssue];
               && i.author == bob && i.assignee == issue.assignee.value
               && CheckObjectPermissions(PermissionClasses(Issues), Request(alice, "PATCH"), IssueTarget(s2.nextIssue, i))
                  == Deny(Some(AUTHOR_MESSAGE))
               && CheckObjectPermissions(PermissionClasses(Issues), Request(bob, "PATCH"), IssueTarget(s2.nextIssue, i))
                  == Allow
  {
    var s1 := CreateProject(s, alice, d, now);
    var pid := s.nextProject;
    var kw := Kwargs(Some(pid));
    var s2 := WithContributor(s1, pid, bob);
    IssuesAndCommentsGate(Issues, s1, Request(alice, "GET"), kw);
    IssuesAndCommentsGate(Issues, s1, Request(bob, "GET"), kw);
    IssuesAndCommentsGate(Issues, s2, Request(bob, "POST"), kw);
    var i := CreateIssue(s2, bob, pid, issue, now).value.issues[s2.nextIssue];
    AuthoredObjectGate(Issues, Request(alice, "PATCH"), IssueTarget(s2.nextIssue, i));
    AuthoredObjectGate(Issues, Request(bob, "PATCH"), IssueTarget(s2.nextIssue, i));
  }

  // ---------------------------------------------------------------------
  // The view sets as objects: one per request, each with its memoized
  // lookup (`_project`, `_issue`, `_comment`) and a count of the lookups
  // actually made.

  class ProjectViewSet {
    const db: Database
    const user: UserId
    var cached: Option<seq<ProjectId>>
    var lookups: nat

    constructor (db: Database, user: UserId)
      ensures this.db == db && this.user == user
      ensures cached == None && lookups == 0
    {
      this.db := db;
      this.user := user;
      cached := None;
      lookups := 0;
    }

    /** The `project` property: filtered on first access, then cached. */
    method ProjectProperty() returns (r: seq<ProjectId>)
      modifies this
      ensures old(cached).Some? ==> r == old(cached).value && lookups == old(lookups)
      ensures old(cached).None? ==> r == ProjectFilter(db.State(), user) && lookups == old(lookups) + 1
      ensures cached == Some(r)
    {
      if cached.None? {
        cached := Some(ProjectFilter(db.State(), user));
        lookups := lookups + 1;
      }
      r := cached.value;
    }

    method GetQueryset() returns (r: seq<ProjectId>)
      requires WellFormed(db.State())
      modifies this
      ensures cached.Some? && r == OrderBy(cached.value, ProjectCreated(db.State()))
      ensures old(cached).Some? ==> cached == old(cached) && lookups == old(lookups)
      ensures old(cached).None? ==> cached == Some(ProjectFilter(db.State(), user)) && lookups == old(lookups) + 1
      ensures old(cached).None? ==> r == ProjectQueryset(db.State(), user)
    {
      var filtered := ProjectProperty();
      r := OrderBy(filtered, ProjectCreated(db.State()));
    }

    method PerformCreate(d: ProjectDraft, now: nat) returns (id: ProjectId)
      modifies db
      ensures id == old(db.nextProject)
      ensures db.State() == CreateProject(old(db.State()), user, d, now)
    {
      id := db.SaveProject(NewProject(user, d, now));
    }
  }

  class ContributorViewSet {
    const db: Database
    const user: UserId
    const projectPk: ProjectId
    var cached: Option<ProjectId>
    var lookups: nat

    /** What is cached is the project the URL names, and it exists. */
    ghost predicate Valid()
      reads this, db
    {
      cached.Some? ==> cached.value == projectPk && projectPk in db.projects
    }

    constructor (db: Database, user: UserId, projectPk: ProjectId)
      ensures this.db == db && this.user == user && this.projectPk == projectPk
      ensures cached == None && lookups == 0 && Valid()
    {
      this.db := db;
      this.user := user;
      this.projectPk := projectPk;
      cached := None;
      lookups := 0;
    }

    /** The `project` property: `get_object_or_404` on first access, then
        cached; a 404 is not cached, so the next access looks again. */
    method ProjectProperty() returns (r: Result<ProjectId>)
      requires Valid()
      modifies this
      ensures Valid()
      ensures r == if projectPk in db.projects then Ok(projectPk) else Err(NotFound)
      ensures cached == if r.Ok? then Some(projectPk) else None
      ensures lookups == if old(cached).Some? then old(lookups) else old(lookups) + 1
    {
      if cached.None? {
        lookups := lookups + 1;
        if projectPk in db.projects {
          cached := Some(projectPk);
        }
      }
      if cached.Some? {
        r := Ok(cached.value);
      } else {
        r := Err(NotFound);
      }
    }

    method GetQueryset() returns (r: Result<seq<UserId>>)
      requires Valid() && WellFormed(db.State())
      modifies this
      ensures Valid()
      ensures r == if projectPk in db.projects then Ok(ContributorQueryset(db.State(), projectPk)) else Err(NotFound)
      ensures cached == if projectPk in old(db.projects) then Some(projectPk) else None
      ensures lookups == if old(cached).Some? then old(lookups) else old(lookups) + 1
    {
      var p := ProjectProperty();
      if p.Ok? {
        r := Ok(ContributorQueryset(db.State(), p.value));
      } else {
        r := Err(NotFound);
      }
    }

    /** Adds `u` to the project's contributors. */
    method PerformCreate(u: UserId) returns (r: Result<()>)
      requires Valid()
      modifies this, db
      ensures Valid()
      ensures projectPk in old(db.projects) ==>
              r == Ok(()) && db.State() == WithContributor(old(db.State()), projectPk, u)
      ensures projectPk !in old(db.projects) ==> r == Err(NotFound) && db.State() == old(db.State())
      ensures cached == if projectPk in old(db.projects) then Some(projectPk) else None
      ensures lookups == if old(cached).Some? then old(lookups) else old(lookups) + 1
    {
      var p := ProjectProperty();
      if p.Ok? {
        db.AddContributor(p.value, u);
        r := Ok(());
      } else {
        r := Err(NotFound);
      }
    }

    /** Removes `u` from the project's contributors, the author included. */
    method PerformDestroy(u: UserId) returns (r: Result<()>)
      requires Valid()
      modifies this, db
      ensures Valid()
      ensures projectPk in old(db.projects) ==>
              r == Ok(()) && db.State() == WithoutContributor(old(db.State()), projectPk, u)
      ensures projectPk !in old(db.projects) ==> r == Err(NotFound) && db.State() == old(db.State())
      ensures cached == if projectPk in old(db.projects) then Some(projectPk) else None
      ensures lookups == if old(cached).Some? then old(lookups) else old(lookups) + 1
    {
      var p := ProjectProperty();
      if p.Ok? {
        db.RemoveContributor(p.value, u);
        r := Ok(());
      } else {
        r := Err(NotFound);
      }
    }
  }

  class IssueViewSet {
    const db: Database
    const user: UserId
    const projectPk: ProjectId
    var cached: Option<seq<IssueId>>
    var lookups: nat

    constructor (db: Database, user: UserId, projectPk: ProjectId)
      ensures this.db == db && this.user == user && this.projectPk == projectPk
      ensures cached == None && lookups == 0
    {
      this.db := db;
      this.user := user;
      this.projectPk := projectPk;
      cached := None;
      lookups := 0;
    }

    /** The `issue` property: filtered on first access, then cached. */
    method IssueProperty() returns (r: seq<IssueId>)
      modifies this
      ensures old(cached).Some? ==> r == old(cached).value && lookups == old(lookups)
      ensures old(cached).None? ==> r == IssueFilter(db.State(), projectPk) && lookups == old(lookups) + 1
      ensures cached == Some(r)
    {
      if cached.None? {
        cached := Some(IssueFilter(db.State(), projectPk));
        lookups := lookups + 1;
      }
      r := cached.value;
    }

    method GetQueryset() returns (r: seq<IssueId>)
      requires WellFormed(db.State())
      modifies this
      ensures cached.Some? && r == OrderBy(cached.value, IssueCreated(db.State()))
      ensures old(cached).Some? ==> cached == old(cached) && lookups == old(lookups)
      ensures old(cached).None? ==> cached == Some(IssueFilter(db.State(), projectPk)) && lookups == old(lookups) + 1
      ensures old(cached).None? ==> r == IssueQueryset(db.State(), projectPk)
    {
      var filtered := IssueProperty();
      r := OrderBy(filtered, IssueCreated(db.State()));
    }

    method PerformCreate(d: IssueDraft, now: nat) returns (r: Result<IssueId>)
      modifies db
      ensures match CreateIssue(old(db.State()), user, projectPk, d, now)
              case Err(e) => r == Err(e) && db.State() == old(db.State())
              case Ok(s) => r == Ok(old(db.nextIssue)) && db.State() == s
    {
      if d.assignee.None? {
        r := Err(KeyError);
      } else if projectPk !in db.projects {
        r := Err(NotFound);
      } else {
        var id := db.SaveIssue(NewIssue(user, projectPk, d.assignee.value, d, now));
        r := Ok(id);
      }
    }
  }

  class CommentViewSet {
    const db: Database
    const user: UserId
    const projectPk: ProjectId
    const issuePk: IssueId
    var cached: Option<seq<CommentId>>
    var lookups: nat

    constructor (db: Database, user: UserId, projectPk: ProjectId, issuePk: IssueId)
      ensures this.db == db && this.user == user
      ensures this.projectPk == projectPk && this.issuePk == issuePk
      ensures cached == None && lookups == 0
    {
      this.db := db;
      this.user := user;
      this.projectPk := projectPk;
      this.issuePk := issuePk;
      cached := None;
      lookups := 0;
    }

    /** The `comment` property: filtered on first access, then cached. */
    method CommentProperty() returns (r: seq<CommentId>)
      modifies this
      ensures old(cached).Some? ==> r == old(cached).value && lookups == old(lookups)
      ensures old(cached).None? ==> r == CommentFilter(db.State(), issuePk) && lookups == old(lookups) + 1
      ensures cached == Some(r)
    {
      if cached.None? {
        cached := Some(CommentFilter(db.State(), issuePk));
        lookups := lookups + 1;
      }
      r := cached.value;
    }

    method GetQueryset() returns (r: seq<CommentId>)
      requires WellFormed(db.State())
      modifies this
      ensures cached.Some? && r == OrderBy(cached.value, CommentCreated(db.State()))
      ensures old(cached).Some? ==> cached == old(cached) && lookups == old(lookups)
      ensures old(cached).None? ==> cached == Some(CommentFilter(db.State(), issuePk)) && lookups == old(lookups) + 1
      ensures old(cached).None? ==> r == CommentQueryset(db.State(), issuePk)
    {
      var filtered := CommentProperty();
      r := OrderBy(filtered, CommentCreated(db.State()));
    }

    method PerformCreate(d: CommentDraft, baseUrl: string, now: nat) returns (r: Result<CommentId>)
      modifies db
      ensures match CreateComment(old(db.State()), user, projectPk, issuePk, baseUrl, d, now)
              case Err(e) => r == Err(e) && db.State() == old(db.State())
              case Ok(s) => r == Ok(old(db.nextComment)) && db.State() == s
    {
      if issuePk !in db.issues {
        r := Err(NotFound);
      } else {
        var url := IssueUrl(baseUrl, projectPk, issuePk);
        var id := db.SaveComment(NewComment(user, issuePk, url, d, now));
        r := Ok(id);
      }
    }
  }

  // ---------------------------------------------------------------------
  // Memoization, seen from a caller: two accesses in one request.

  method ProjectsResolvedOnce(db: Database, user: UserId)
    returns (first: seq<ProjectId>, second: seq<ProjectId>, lookups: nat)
    ensures first == second == ProjectFilter(db.State(), user)
    ensures lookups == 1
  {
    var view := new ProjectViewSet(db, user);
    first := view.ProjectProperty();
    second := view.ProjectProperty();
    lookups := view.lookups;
  }

  method IssuesResolvedOnce(db: Database, user: UserId, projectPk: ProjectId)
    returns (first: seq<IssueId>, second: seq<IssueId>, lookups: nat)
    ensures first == second == IssueFilter(db.State(), projectPk)
    ensures lookups == 1
  {
    var view := new IssueViewSet(db, user, projectPk);
    first := view.IssueProperty();
    second := view.IssueProperty();
    lookups := view.lookups;
  }

  method CommentsResolvedOnce(db: Database, user: UserId, projectPk: ProjectId, issuePk: IssueId)
    returns (first: seq<CommentId>, second: seq<CommentId>, lookups: nat)
    ensures first == second == CommentFilter(db.State(), issuePk)
    ensures lookups == 1
  {
    var view := new CommentViewSet(db, user, projectPk, issuePk);
    first := view.CommentProperty();
    second := view.CommentProperty();
    lookups := view.lookups;
  }

  /** `get_queryset` reads the memoized property, so two listings in one
      request give the same ordered list with one lookup. */
  method ProjectListingsResolvedOnce(db: Database, user: UserId)
    returns (first: seq<ProjectId>, second: seq<ProjectId>, lookups: nat)
    requires WellFormed(db.State())
    ensures first == second == ProjectQueryset(db.State(), user)
    ensures lookups == 1
  {
    var view := new ProjectViewSet(db, user);
    first := view.GetQueryset();
    second := view.GetQueryset();
    lookups := view.lookups;
  }

  method IssueListingsResolvedOnce(db: Database, user: UserId, projectPk: ProjectId)
    returns (first: seq<IssueId>, second: seq<IssueId>, lookups: nat)
    requires WellFormed(db.State())
    ensures first == second == IssueQueryset(db.State(), projectPk)
    ensures lookups == 1
  {
    var view := new IssueViewSet(db, user, projectPk);
    first := view.GetQueryset();
    second := view.GetQueryset();
    lookups := view.lookups;
  }

  method CommentListingsResolvedOnce(db: Database, user: UserId, projectPk: ProjectId, issuePk: IssueId)
    returns (first: seq<CommentId>, second: seq<CommentId>, lookups: nat)
    requires WellFormed(db.State())
    ensures first == second == CommentQueryset(db.State(), issuePk)
    ensures lookups == 1
  {
    var view := new CommentViewSet(db, user, projectPk, issuePk);
    first := view.GetQueryset();
    second := view.GetQueryset();
    lookups := view.lookups;
  }

  /** Listing the contributors and then adding one looks the project up
      once when it exists; a missing project is looked up by each step. */
  method ContributorListThenAdd(db: Database, user: UserId, projectPk: ProjectId, u: UserId)
    returns (listed: Result<seq<UserId>>, added: Result<()>, lookups: nat)
    requires WellFormed(db.State())
    modifies db
    ensures listed.Ok? <==> projectPk in old(db.projects)
    ensures added == if listed.Ok? then Ok(()) else Err(NotFound)
    ensures lookups == if listed.Ok? then 1 else 2
    ensures projectPk in old(db.projects) ==>
            listed == Ok(ContributorQueryset(old(db.State()), projectPk))
            && db.State() == WithContributor(old(db.State()), projectPk, u)
    ensures projectPk !in old(db.projects) ==> db.State() == old(db.State())
  {
    var view := new ContributorViewSet(db, user, projectPk);
    listed := view.GetQueryset();
    added := view.PerformCreate(u);
    lookups := view.lookups;
  }

  /** A found project is looked up once and then served from the cache; a
      missing one is looked up on every access. */
  method ContributorProjectResolvedOnce(db: Database, user: UserId, projectPk: ProjectId)
    returns (first: Result<ProjectId>, second: Result<ProjectId>, lookups: nat)
    ensures first == second
    ensures first == if projectPk in db.projects then Ok(projectPk) else Err(NotFound)
    ensures lookups == if first.Ok? then 1 else 2
  {
    var view := new ContributorViewSet(db, user, projectPk);
    first := view.ProjectProperty();
    second := view.ProjectProperty();
    lookups := view.lookups;
  }
}

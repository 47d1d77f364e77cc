/** The access rules (SoftDesk/api/permissions.py) and the way the REST
    framework combines the rules a view lists: every listed rule must pass,
    and the first one that does not decides the refusal. */
module Permissions {
  import opened Outcomes
  import opened Models

  /** The REST framework's `SAFE_METHODS`: the read-only HTTP methods. */
  const SAFE_METHODS: set<string> := {"GET", "HEAD", "OPTIONS"}

  predicate IsSafe(verb: string) {
    verb in SAFE_METHODS
  }

  /** The authenticated user making the request and its HTTP method. */
  datatype Request = Request(user: UserId, verb: string)

  /** The URL keyword arguments a view was routed with; `project_pk` is
      absent on the routes that are not nested under a project. */
  datatype Kwargs = Kwargs(projectPk: Option<ProjectId>)

  /** The object an object-level rule is asked about: a project, issue or
      comment (it has an author), or a user account (it has none). */
  datatype Target = Authored(id: nat, author: UserId) | Account(id: UserId)

  /** What one rule answers: grant (`True`), refuse (`False` or a fall-through
      `None`), or raise. */
  datatype Answer = Granted | Refused | Raised(error: Error)

  datatype PermClass =
    | IsAuthorOrReadOnly
    | IsProjectAuthor
    | IsProjectContributor
    | IsProjectAuthorOrContributor
    | IsAccountOwnerOrReadOnly

  const AUTHOR_MESSAGE: string := "You have to be the author to update or delete."
  const PROJECT_AUTHOR_MESSAGE: string := "You have to be the author of this project to access."
  const CONTRIBUTOR_MESSAGE: string := "You have to be a project contributor to access."
  const AUTHOR_OR_CONTRIBUTOR_MESSAGE: string :=
    "You have to be the author or a contributor of this project to access."

  /** The class's `message`; `IsAccountOwnerOrReadOnly` declares none, so the
      framework's default text is used for it. */
  function Message(pc: PermClass): Option<string> {
    match pc
    case IsAuthorOrReadOnly => Some(AUTHOR_MESSAGE)
    case IsProjectAuthor => Some(PROJECT_AUTHOR_MESSAGE)
    case IsProjectContributor => Some(CONTRIBUTOR_MESSAGE)
    case IsProjectAuthorOrContributor => Some(AUTHOR_OR_CONTRIBUTOR_MESSAGE)
    case IsAccountOwnerOrReadOnly => None
  }

  /** `Project.objects.get(pk=project_id)` with `project_id` taken by
      `kwargs.get`: a missing key or a missing row raises `DoesNotExist`. */
  function GetProject(s: Store, projectPk: Option<ProjectId>): Result<Project> {
    if projectPk.Some? && projectPk.value in s.projects then Ok(s.projects[projectPk.value])
    else Err(DoesNotExist)
  }

  // ---------------------------------------------------------------------
  // The five rules.

  /** `IsAuthorOrReadOnly.has_object_permission`. */
  function AuthorOrReadOnly(req: Request, obj: Target): Answer {
    if IsSafe(req.verb) then Granted
    else if obj.Account? then Raised(AttributeError)
    else if obj.author == req.user then Granted
    else Refused
  }

  /** `IsProjectAuthor.has_permission`. */
  function ProjectAuthor(s: Store, req: Request, kw: Kwargs): Answer {
    match GetProject(s, kw.projectPk)
    case Err(e) => Raised(e)
    case Ok(p) => if req.user == p.author then Granted else Refused
  }

  /** `IsProjectContributor.has_permission`: membership only, authorship is
      not consulted. */
  function ProjectContributor(s: Store, req: Request, kw: Kwargs): Answer {
    match GetProject(s, kw.projectPk)
    case Err(e) => Raised(e)
    case Ok(p) => if req.user in p.contributors then Granted else Refused
  }

  /** `IsProjectAuthorOrContributor.has_permission`. */
  function ProjectAuthorOrContributor(s: Store, req: Request, kw: Kwargs): Answer {
    match GetProject(s, kw.projectPk)
    case Err(e) => Raised(e)
    case Ok(p) => if req.user == p.author || req.user in p.contributors then Granted else Refused
  }

  /** `IsAccountOwnerOrReadOnly.has_object_permission`. */
  function AccountOwnerOrReadOnly(req: Request, obj: Target): Answer {
    if IsSafe(req.verb) then Granted
    else if obj.id == req.user then Granted
    else Refused
  }

  /** View-level check of one class; a class that does not override
      `has_permission` inherits the framework's `True`. */
  function HasPermission(pc: PermClass, s: Store, req: Request, kw: Kwargs): Answer {
    match pc
    case IsProjectAuthor => ProjectAuthor(s, req, kw)
    case IsProjectContributor => ProjectContributor(s, req, kw)
    case IsProjectAuthorOrContributor => ProjectAuthorOrContributor(s, req, kw)
    case _ => Granted
  }

  /** Object-level check of one class; a class that does not override
      `has_object_permission` inherits the framework's `True`. */
  function HasObjectPermission(pc: PermClass, req: Request, obj: Target): Answer {
    match pc
    case IsAuthorOrReadOnly => AuthorOrReadOnly(req, obj)
    case IsAccountOwnerOrReadOnly => AccountOwnerOrReadOnly(req, obj)
    case _ => Granted
  }

  // ---------------------------------------------------------------------
  // Combining a view's list of classes.

  datatype Verdict = Allow | Deny(message: Option<string>) | Fail(error: Error)

  /** The classes are asked in order; the first one that does not grant stops
      the request, with its message or its exception. */
  function Combine(cs: seq<PermClass>, answer: PermClass -> Answer): Verdict {
    if cs == [] then Allow
    else match answer(cs[0])
      case Granted => Combine(cs[1..], answer)
      case Refused => Deny(Message(cs[0]))
      case Raised(e) => Fail(e)
  }

  function CheckPermissions(cs: seq<PermClass>, s: Store, req: Request, kw: Kwargs): Verdict {
    Combine(cs, pc => HasPermission(pc, s, req, kw))
  }

  function CheckObjectPermissions(cs: seq<PermClass>, req: Request, obj: Target): Verdict {
    Combine(cs, pc => HasObjectPermission(pc, req, obj))
  }

  /** A list of classes allows a request iff every class in it grants. */
  lemma {:induction false} CombineAllowIff(cs: seq<PermClass>, answer: PermClass -> Answer)
    ensures Combine(cs, answer) == Allow <==> forall i :: 0 <= i < |cs| ==> answer(cs[i]) == Granted
  {
    if cs != [] {
      CombineAllowIff(cs[1..], answer);
      if answer(cs[0]) == Granted {
        forall i | 0 <= i < |cs| && (forall j :: 0 <= j < |cs| - 1 ==> answer(cs[1..][j]) == Granted)
          ensures answer(cs[i]) == Granted
        {
          if i > 0 {
            assert cs[i] == cs[1..][i - 1];
          }
        }
      }
    }
  }

  /** When class `k` is the first that does not grant, the verdict is its
      refusal message or its exception. */
  lemma {:induction false} CombineFirstFailure(cs: seq<PermClass>, answer: PermClass -> Answer, k: nat)
    requires k < |cs| && answer(cs[k]) != Granted
    requires forall i :: 0 <= i < k ==> answer(cs[i]) == Granted
    ensures Combine(cs, answer)
         == if answer(cs[k]) == Refused then Deny(Message(cs[k])) else Fail(answer(cs[k]).error)
  {
    if k > 0 {
      assert answer(cs[0]) == Granted;
      CombineFirstFailure(cs[1..], answer, k - 1);
    }
  }

  // ---------------------------------------------------------------------
  // Properties of the individual rules.

  /** `IsAuthorOrReadOnly` lets every GET, HEAD and OPTIONS through, whoever
      asks; any other method goes through iff the asker is the author; and
      so whoever may write may also read. */
  lemma AuthorOrReadOnlyRule(req: Request, obj: Target, read: string)
    requires obj.Authored? && IsSafe(read)
    ensures IsSafe(req.verb) ==> AuthorOrReadOnly(req, obj) == Granted
    ensures !IsSafe(req.verb) ==> (AuthorOrReadOnly(req, obj) == Granted <==> obj.author == req.user)
    ensures AuthorOrReadOnly(req, obj) != Raised(AttributeError)
    ensures AuthorOrReadOnly(req, obj) == Granted ==> AuthorOrReadOnly(req.(verb := read), obj) == Granted
  {
  }

  /** `IsProjectAuthor` grants iff the project named by `project_pk` exists and
      the asker is its author; the method plays no part; an unknown project
      raises rather than refuses. */
  lemma ProjectAuthorRule(s: Store, req: Request, kw: Kwargs, verb: string)
    ensures ProjectAuthor(s, req, kw) == Granted
        <==> GetProject(s, kw.projectPk).Ok? && GetProject(s, kw.projectPk).value.author == req.user
    ensures ProjectAuthor(s, req, kw) == Raised(DoesNotExist)
        <==> kw.projectPk.None? || kw.projectPk.value !in s.projects
    ensures ProjectAuthor(s, req.(verb := verb), kw) == ProjectAuthor(s, req, kw)
  {
  }

  /** `IsProjectContributor` grants iff the asker is in the contributors set;
      an author who is not in it is refused. */
  lemma ProjectContributorRule(s: Store, req: Request, kw: Kwargs)
    ensures ProjectContributor(s, req, kw) == Granted
        <==> GetProject(s, kw.projectPk).Ok? && req.user in GetProject(s, kw.projectPk).value.contributors
    ensures ProjectContributor(s, req, kw) == Raised(DoesNotExist)
        <==> kw.projectPk.None? || kw.projectPk.value !in s.projects
    ensures GetProject(s, kw.projectPk).Ok?
         && GetProject(s, kw.projectPk).value.author == req.user
         && req.user !in GetProject(s, kw.projectPk).value.contributors
        ==> ProjectContributor(s, req, kw) == Refused
  {
  }

  /** `IsProjectAuthorOrContributor` grants iff the asker is the author or a
      contributor, so it grants whenever either of the other two project
      rules grants for the same request. */
  lemma ProjectAuthorOrContributorRule(s: Store, req: Request, kw: Kwargs)
    ensures ProjectAuthorOrContributor(s, req, kw) == Granted
        <==> (GetProject(s, kw.projectPk).Ok?
              && (req.user == GetProject(s, kw.projectPk).value.author
                  || req.user in GetProject(s, kw.projectPk).value.contributors))
    ensures ProjectAuthor(s, req, kw) == Granted ==> ProjectAuthorOrContributor(s, req, kw) == Granted
    ensures ProjectContributor(s, req, kw) == Granted ==> ProjectAuthorOrContributor(s, req, kw) == Granted
  {
  }

  /** `IsAccountOwnerOrReadOnly` lets safe methods through for anyone, and
      any other method iff the account is the asker's own. */
  lemma AccountOwnerOrReadOnlyRule(req: Request, obj: Target)
    ensures IsSafe(req.verb) ==> AccountOwnerOrReadOnly(req, obj) == Granted
    ensures !IsSafe(req.verb) ==> (AccountOwnerOrReadOnly(req, obj) == Granted <==> obj.id == req.user)
    ensures AccountOwnerOrReadOnly(req, obj) != Granted ==> AccountOwnerOrReadOnly(req, obj) == Refused
  {
  }
}

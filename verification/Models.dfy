/** The records of the tracker (SoftDesk/api/models.py): users, projects,
    issues and comments, their code sets, the default issue state, the
    store that holds them, and their `__str__` renderings. */
module Models {
  import opened Outcomes
  import opened Text

  type UserId = nat
  type ProjectId = nat
  type IssueId = nat
  type CommentId = nat

  // ---------------------------------------------------------------------
  // Code sets. Each value is stored as a one-letter code and shown with a
  // long label; the code is what the database holds and what `__str__` prints.

  datatype ProjectType = Backend | Frontend | IOS | Android

  function ProjectTypeCode(t: ProjectType): string {
    match t
    case Backend => "B"
    case Frontend => "F"
    case IOS => "I"
    case Android => "A"
  }

  function ProjectTypeLabel(t: ProjectType): string {
    match t
    case Backend => "Back-end"
    case Frontend => "Front-end"
    case IOS => "iOS"
    case Android => "Android"
  }

  /** The `choices` check on `Project.type`: only the four codes are accepted. */
  function ParseProjectType(code: string): (r: Option<ProjectType>)
    ensures r.Some? <==> code in {"B", "F", "I", "A"}
    ensures r.Some? ==> ProjectTypeCode(r.value) == code
  {
    if code == "B" then Some(Backend)
    else if code == "F" then Some(Frontend)
    else if code == "I" then Some(IOS)
    else if code == "A" then Some(Android)
    else None
  }

  datatype IssueTag = Bug | Feature | Task

  function IssueTagCode(t: IssueTag): string {
    match t
    case Bug => "B"
    case Feature => "F"
    case Task => "T"
  }

  function IssueTagLabel(t: IssueTag): string {
    match t
    case Bug => "Bug"
    case Feature => "Feature"
    case Task => "Task"
  }

  function ParseIssueTag(code: string): (r: Option<IssueTag>)
    ensures r.Some? <==> code in {"B", "F", "T"}
    ensures r.Some? ==> IssueTagCode(r.value) == code
  {
    if code == "B" then Some(Bug)
    else if code == "F" then Some(Feature)
    else if code == "T" then Some(Task)
    else None
  }

  datatype IssueState = ToDo | InProgress | Completed

  /** `Issue.state` is `TODO` when the creator gives none. */
  const DEFAULT_STATE: IssueState := ToDo

  function IssueStateCode(t: IssueState): string {
    match t
    case ToDo => "T"
    case InProgress => "I"
    case Completed => "C"
  }

  function IssueStateLabel(t: IssueState): string {
    match t
    case ToDo => "ToDo"
    case InProgress => "In Progress"
    case Completed => "Completed"
  }

  function ParseIssueState(code: string): (r: Option<IssueState>)
    ensures r.Some? <==> code in {"T", "I", "C"}
    ensures r.Some? ==> IssueStateCode(r.value) == code
  {
    if code == "T" then Some(ToDo)
    else if code == "I" then Some(InProgress)
    else if code == "C" then Some(Completed)
    else None
  }

  datatype IssuePriority = Low | Medium | High

  function IssuePriorityCode(t: IssuePriority): string {
    match t
    case Low => "L"
    case Medium => "M"
    case High => "H"
  }

  function IssuePriorityLabel(t: IssuePriority): string {
    match t
    case Low => "Low"
    case Medium => "Medium"
    case High => "High"
  }

  function ParseIssuePriority(code: string): (r: Option<IssuePriority>)
    ensures r.Some? <==> code in {"L", "M", "H"}
    ensures r.Some? ==> IssuePriorityCode(r.value) == code
  {
    if code == "L" then Some(Low)
    else if code == "M" then Some(Medium)
    else if code == "H" then Some(High)
    else None
  }

  /** Every value of the four code sets is stored under a code that reads back
      as that same value. */
  lemma CodesRoundTrip(p: ProjectType, t: IssueTag, s: IssueState, q: IssuePriority)
    ensures ParseProjectType(ProjectTypeCode(p)) == Some(p)
    ensures ParseIssueTag(IssueTagCode(t)) == Some(t)
    ensures ParseIssueState(IssueStateCode(s)) == Some(s)
    ensures ParseIssuePriority(IssuePriorityCode(q)) == Some(q)
  {
  }

  /** No two values of a code set share a code or a label, so each pair of
      the `choices` lists names exactly one value. */
  lemma ChoicesAreDistinct(p1: ProjectType, p2: ProjectType, t1: IssueTag, t2: IssueTag,
                           s1: IssueState, s2: IssueState, q1: IssuePriority, q2: IssuePriority)
    ensures ProjectTypeCode(p1) == ProjectTypeCode(p2) <==> p1 == p2
    ensures ProjectTypeLabel(p1) == ProjectTypeLabel(p2) <==> p1 == p2
    ensures IssueTagCode(t1) == IssueTagCode(t2) <==> t1 == t2
    ensures IssueTagLabel(t1) == IssueTagLabel(t2) <==> t1 == t2
    ensures IssueStateCode(s1) == IssueStateCode(s2) <==> s1 == s2
    ensures IssueStateLabel(s1) == IssueStateLabel(s2) <==> s1 == s2
    ensures IssuePriorityCode(q1) == IssuePriorityCode(q2) <==> q1 == q2
    ensures IssuePriorityLabel(q1) == IssuePriorityLabel(q2) <==> q1 == q2
  {
  }

  // ---------------------------------------------------------------------
  // Records. Foreign keys are ids into the store; a ForeignKey is a single
  // id, so each issue has exactly one project, author and assignee, and each
  // comment exactly one issue and author.

  /** `date_joined` comes from Django's user model; timestamps are naturals. */
  datatype User = User(
    username: string,
    age: int,
    contactConsent: bool,
    dataShareConsent: bool,
    dateJoined: nat)

  datatype Project = Project(
    name: string,
    description: string,
    projectType: ProjectType,
    author: UserId,
    contributors: set<UserId>,
    createdTime: nat,
    updatedTime: nat)

  datatype Issue = Issue(
    name: string,
    description: string,
    tag: IssueTag,
    state: IssueState,
    priority: IssuePriority,
    project: ProjectId,
    author: UserId,
    assignee: UserId,
    createdTime: nat,
    commentsUrl: string)

  datatype Comment = Comment(
    name: string,
    description: string,
    issue: IssueId,
    author: UserId,
    createdTime: nat,
    issueUrl: string)

  /** The four tables, keyed by primary key, with the next value of each
      auto-increment key. */
  datatype Store = Store(
    users: map<UserId, User>,
    projects: map<ProjectId, Project>,
    issues: map<IssueId, Issue>,
    comments: map<CommentId, Comment>,
    nextUser: nat,
    nextProject: nat,
    nextIssue: nat,
    nextComment: nat)

  ghost predicate ProjectLinked(s: Store, p: Project) {
    p.author in s.users && p.contributors <= s.users.Keys
  }

  ghost predicate IssueLinked(s: Store, i: Issue) {
    i.project in s.projects && i.author in s.users && i.assignee in s.users
  }

  ghost predicate CommentLinked(s: Store, c: Comment) {
    c.issue in s.issues && c.author in s.users
  }

  /** Referential integrity, as the database's foreign keys enforce it, and
      every key below its table's next auto-increment value. */
  ghost predicate WellFormed(s: Store) {
    && (forall u :: u in s.users ==> u < s.nextUser)
    && (forall pid :: pid in s.projects ==> pid < s.nextProject && ProjectLinked(s, s.projects[pid]))
    && (forall iid :: iid in s.issues ==> iid < s.nextIssue && IssueLinked(s, s.issues[iid]))
    && (forall cid :: cid in s.comments ==> cid < s.nextComment && CommentLinked(s, s.comments[cid]))
  }

  // ---------------------------------------------------------------------
  // Renderings (`__str__`).

  /** `User.__str__`: the username. */
  function UserStr(u: User): string {
    u.username
  }

  const AUTHOR_SEPARATOR: string := " \U{A6} Author: "

  function RenderProject(name: string, author: string): string {
    "Project: " + name + AUTHOR_SEPARATOR + author
  }

  /** Splits a project rendering back into the project name and the author's
      rendering, at the first broken bar. */
  function ParseProjectStr(r: string): Option<(string, string)> {
    var prefix := "Project: ";
    if |r| < |prefix| || r[..|prefix|] != prefix then None
    else
      var rest := r[|prefix|..];
      var k := IndexOf(rest, '\U{A6}');
      if k == 0 || k + |AUTHOR_SEPARATOR| - 1 > |rest| then None
      else if rest[k - 1..k + |AUTHOR_SEPARATOR| - 1] != AUTHOR_SEPARATOR then None
      else Some((rest[..k - 1], rest[k + |AUTHOR_SEPARATOR| - 1..]))
  }

  /** A project rendering reads back as the name and the author's rendering
      when the name holds no broken bar. */
  lemma RenderProjectRoundTrip(name: string, author: string)
    requires '\U{A6}' !in name
    ensures ParseProjectStr(RenderProject(name, author)) == Some((name, author))
  {
    var r := RenderProject(name, author);
    var rest := name + AUTHOR_SEPARATOR + author;
    assert r == "Project: " + rest;
    assert r[..9] == "Project: ";
    assert r[9..] == rest;
    var a, b := name + " ", AUTHOR_SEPARATOR[1..] + author;
    assert rest == a + b;
    IndexOfAtSeam(a, b, '\U{A6}');
    var k := |name| + 1;
    assert rest[k - 1..k + |AUTHOR_SEPARATOR| - 1] == AUTHOR_SEPARATOR;
    assert rest[..k - 1] == name;
    assert rest[k + |AUTHOR_SEPARATOR| - 1..] == author;
  }

  /** `Project.__str__`: the name and the rendering of the author, which is
      the author's username; both read back from it when the name holds no
      broken bar. */
  function ProjectStr(s: Store, pid: ProjectId): (r: string)
    requires WellFormed(s) && pid in s.projects
    ensures var p := s.projects[pid];
            '\U{A6}' !in p.name ==> ParseProjectStr(r) == Some((p.name, s.users[p.author].username))
  {
    var p := s.projects[pid];
    var r := RenderProject(p.name, UserStr(s.users[p.author]));
    if '\U{A6}' in p.name then r
    else
      RenderProjectRoundTrip(p.name, UserStr(s.users[p.author]));
      r
  }

  const BAR: string := " | "

  /** Splits a rendering at its first bar separator. */
  function SplitAtBar(r: string): Option<(string, string)> {
    var k := IndexOf(r, '|');
    if k == 0 || k + 2 > |r| || r[k - 1..k + 2] != BAR then None
    else Some((r[..k - 1], r[k + 2..]))
  }

  /** Text without a bar, a bar separator, and anything: the split finds
      the separator. */
  lemma SplitAtBarRoundTrip(a: string, b: string)
    requires '|' !in a
    ensures SplitAtBar(a + BAR + b) == Some((a, b))
  {
    var r := a + BAR + b;
    assert r == (a + " ") + ("| " + b);
    IndexOfAtSeam(a + " ", "| " + b, '|');
    var k := |a| + 1;
    assert r[k - 1..k + 2] == BAR;
    assert r[..k - 1] == a;
    assert r[k + 2..] == b;
  }

  /** The parts an issue rendering shows. */
  datatype IssueParts = IssueParts(
    name: string,
    tag: IssueTag,
    state: IssueState,
    priority: IssuePriority,
    project: string)

  /** The tag, state and priority codes, joined by ", ". */
  function CodesStr(tag: IssueTag, state: IssueState, priority: IssuePriority): string {
    IssueTagCode(tag) + ", " + IssueStateCode(state) + ", " + IssuePriorityCode(priority)
  }

  function ParseCodes(c: string): Option<(IssueTag, IssueState, IssuePriority)> {
    if |c| != 7 || c[1] != ',' || c[2] != ' ' || c[4] != ',' || c[5] != ' ' then None
    else
      var tag, state, priority := ParseIssueTag(c[0..1]), ParseIssueState(c[3..4]), ParseIssuePriority(c[6..7]);
      if tag.None? || state.None? || priority.None? then None
      else Some((tag.value, state.value, priority.value))
  }

  lemma CodesStrRoundTrip(tag: IssueTag, state: IssueState, priority: IssuePriority)
    ensures |CodesStr(tag, state, priority)| == 7
    ensures ParseCodes(CodesStr(tag, state, priority)) == Some((tag, state, priority))
  {
    var a, b, d := IssueTagCode(tag), IssueStateCode(state), IssuePriorityCode(priority);
    assert |a| == 1 && |b| == 1 && |d| == 1;
    var c := CodesStr(tag, state, priority);
    assert c == a + ", " + b + ", " + d;
    assert |c| == 7;
    assert c[1] == ',' && c[2] == ' ' && c[4] == ',' && c[5] == ' ';
    assert c[0..1] == IssueTagCode(tag);
    assert c[3..4] == IssueStateCode(state);
    assert c[6..7] == IssuePriorityCode(priority);
    CodesRoundTrip(Backend, tag, state, priority);
  }

  function RenderIssue(name: string, tag: IssueTag, state: IssueState, priority: IssuePriority,
                       project: string): string {
    name + BAR + CodesStr(tag, state, priority) + BAR + project + " "
  }

  /** Reads the name, the three codes and the project rendering back out of
      an issue rendering. */
  function ParseIssueStr(r: string): Option<IssueParts> {
    match SplitAtBar(r)
    case None => None
    case Some((name, rest)) =>
      if |rest| < 11 || rest[7..10] != BAR || rest[|rest| - 1] != ' ' then None
      else
        match ParseCodes(rest[..7])
        case None => None
        case Some((tag, state, priority)) => Some(IssueParts(name, tag, state, priority, rest[10..|rest| - 1]))
  }

  lemma RenderIssueRoundTrip(name: string, tag: IssueTag, state: IssueState, priority: IssuePriority,
                             project: string)
    requires '|' !in name
    ensures ParseIssueStr(RenderIssue(name, tag, state, priority, project))
         == Some(IssueParts(name, tag, state, priority, project))
  {
    var codes := CodesStr(tag, state, priority);
    var rest := codes + BAR + project + " ";
    assert RenderIssue(name, tag, state, priority, project) == name + BAR + rest;
    SplitAtBarRoundTrip(name, rest);
    CodesStrRoundTrip(tag, state, priority);
    assert rest[..7] == codes;
    assert rest[7..10] == BAR;
    assert rest[10..|rest| - 1] == project;
  }

  /** `Issue.__str__`: the name, the tag, state and priority codes, and the
      project's rendering, with a trailing space; all of them read back from
      it when the name holds no bar. */
  function IssueStr(s: Store, iid: IssueId): (r: string)
    requires WellFormed(s) && iid in s.issues
    ensures var i := s.issues[iid];
            '|' !in i.name ==>
            ParseIssueStr(r) == Some(IssueParts(i.name, i.tag, i.state, i.priority, ProjectStr(s, i.project)))
  {
    var i := s.issues[iid];
    var r := RenderIssue(i.name, i.tag, i.state, i.priority, ProjectStr(s, i.project));
    if '|' in i.name then r
    else
      RenderIssueRoundTrip(i.name, i.tag, i.state, i.priority, ProjectStr(s, i.project));
      r
  }

  /** `Comment.__str__`: the comment's name, a bar separator, then its
      issue's rendering; both read back from it when the name holds no bar. */
  function CommentStr(s: Store, cid: CommentId): (r: string)
    requires WellFormed(s) && cid in s.comments
    ensures var c := s.comments[cid];
            '|' !in c.name ==> SplitAtBar(r) == Some((c.name, IssueStr(s, c.issue)))
  {
    var c := s.comments[cid];
    var r := c.name + BAR + IssueStr(s, c.issue);
    if '|' in c.name then r
    else
      SplitAtBarRoundTrip(c.name, IssueStr(s, c.issue));
      r
  }
}

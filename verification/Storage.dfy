/** The database the views write to: the store's updates as functions, and a
    `Database` object whose tables the views change in place. */
module Storage {
  import opened Models

  /** A row saved into the projects table under the next auto-increment key:
      the row is stored under it, and no other row or table changes. */
  function WithProject(s: Store, p: Project): (r: Store)
    ensures r.projects.Keys == s.projects.Keys + {s.nextProject} && r.projects[s.nextProject] == p
    ensures forall q :: q in s.projects && q != s.nextProject ==> r.projects[q] == s.projects[q]
    ensures r.(projects := s.projects, nextProject := s.nextProject) == s
  {
    s.(projects := s.projects[s.nextProject := p], nextProject := s.nextProject + 1)
  }

  function WithIssue(s: Store, i: Issue): (r: Store)
    ensures r.issues.Keys == s.issues.Keys + {s.nextIssue} && r.issues[s.nextIssue] == i
    ensures forall q :: q in s.issues && q != s.nextIssue ==> r.issues[q] == s.issues[q]
    ensures r.(issues := s.issues, nextIssue := s.nextIssue) == s
  {
    s.(issues := s.issues[s.nextIssue := i], nextIssue := s.nextIssue + 1)
  }

  function WithComment(s: Store, c: Comment): (r: Store)
    ensures r.comments.Keys == s.comments.Keys + {s.nextComment} && r.comments[s.nextComment] == c
    ensures forall q :: q in s.comments && q != s.nextComment ==> r.comments[q] == s.comments[q]
    ensures r.(comments := s.comments, nextComment := s.nextComment) == s
  {
    s.(comments := s.comments[s.nextComment := c], nextComment := s.nextComment + 1)
  }

  /** `project.contributors.add(u)`: set insertion, and nothing else changes. */
  function WithContributor(s: Store, pid: ProjectId, u: UserId): (r: Store)
    requires pid in s.projects
    ensures r.projects.Keys == s.projects.Keys
    ensures r.projects[pid].contributors == s.projects[pid].contributors + {u}
    ensures r.projects[pid] == s.projects[pid].(contributors := r.projects[pid].contributors)
    ensures forall q :: q in s.projects && q != pid ==> r.projects[q] == s.projects[q]
    ensures r.(projects := s.projects) == s
  {
    var p := s.projects[pid];
    s.(projects := s.projects[pid := p.(contributors := p.contributors + {u})])
  }

  /** `project.contributors.remove(u)`: set deletion, and nothing else
      changes. There is no guard: the author can be removed too. */
  function WithoutContributor(s: Store, pid: ProjectId, u: UserId): (r: Store)
    requires pid in s.projects
    ensures r.projects.Keys == s.projects.Keys
    ensures r.projects[pid].contributors == s.projects[pid].contributors - {u}
    ensures r.projects[pid] == s.projects[pid].(contributors := r.projects[pid].contributors)
    ensures forall q :: q in s.projects && q != pid ==> r.projects[q] == s.projects[q]
    ensures r.(projects := s.projects) == s
  {
    var p := s.projects[pid];
    s.(projects := s.projects[pid := p.(contributors := p.contributors - {u})])
  }

  /** Adding a user who is already a contributor leaves the store as it was. */
  lemma AddExistingContributorIsNoOp(s: Store, pid: ProjectId, u: UserId)
    requires pid in s.projects && u in s.projects[pid].contributors
    ensures WithContributor(s, pid, u) == s
  {
    var p := s.projects[pid];
    assert p.contributors + {u} == p.contributors;
    assert p.(contributors := p.contributors) == p;
    assert s.projects[pid := p] == s.projects;
  }

  /** Removing a user who is not a contributor leaves the store as it was. */
  lemma RemoveAbsentContributorIsNoOp(s: Store, pid: ProjectId, u: UserId)
    requires pid in s.projects && u !in s.projects[pid].contributors
    ensures WithoutContributor(s, pid, u) == s
  {
    var p := s.projects[pid];
    assert p.contributors - {u} == p.contributors;
    assert p.(contributors := p.contributors) == p;
    assert s.projects[pid := p] == s.projects;
  }

  /** Removing a contributor and adding them back restores a store in which
      they were a member. */
  lemma RemoveThenAddRestores(s: Store, pid: ProjectId, u: UserId)
    requires pid in s.projects && u in s.projects[pid].contributors
    ensures WithContributor(WithoutContributor(s, pid, u), pid, u) == s
  {
    var p := s.projects[pid];
    assert p.contributors - {u} + {u} == p.contributors;
    assert p.(contributors := p.contributors) == p;
    assert s.projects[pid := p] == s.projects;
  }

  // Each update keeps the store's referential integrity, given that the new
  // row's foreign keys resolve.

  lemma WithProjectWellFormed(s: Store, p: Project)
    requires WellFormed(s) && ProjectLinked(s, p)
    ensures WellFormed(WithProject(s, p))
  {
  }

  lemma WithIssueWellFormed(s: Store, i: Issue)
    requires WellFormed(s) && IssueLinked(s, i)
    ensures WellFormed(WithIssue(s, i))
  {
  }

  lemma WithCommentWellFormed(s: Store, c: Comment)
    requires WellFormed(s) && CommentLinked(s, c)
    ensures WellFormed(WithComment(s, c))
  {
  }

  lemma WithContributorWellFormed(s: Store, pid: ProjectId, u: UserId)
    requires WellFormed(s) && pid in s.projects && u in s.users
    ensures WellFormed(WithContributor(s, pid, u))
  {
  }

  lemma WithoutContributorWellFormed(s: Store, pid: ProjectId, u: UserId)
    requires WellFormed(s) && pid in s.projects
    ensures WellFormed(WithoutContributor(s, pid, u))
  {
  }

  /** The database, its four tables updated in place. */
  class Database {
    var users: map<UserId, User>
    var projects: map<ProjectId, Project>
    var issues: map<IssueId, Issue>
    var comments: map<CommentId, Comment>
    var nextUser: nat
    var nextProject: nat
    var nextIssue: nat
    var nextComment: nat

    function State(): Store
      reads this
    {
      Store(users, projects, issues, comments, nextUser, nextProject, nextIssue, nextComment)
    }

    constructor (initial: Store)
      ensures State() == initial
    {
      users, projects, issues, comments := initial.users, initial.projects, initial.issues, initial.comments;
      nextUser, nextProject := initial.nextUser, initial.nextProject;
      nextIssue, nextComment := initial.nextIssue, initial.nextComment;
    }

    /** Saves a new project row and returns its key. */
    method SaveProject(p: Project) returns (id: ProjectId)
      modifies this
      ensures id == old(nextProject)
      ensures State() == WithProject(old(State()), p)
    {
      id := nextProject;
      projects := projects[id := p];
      nextProject := nextProject + 1;
    }

    method SaveIssue(i: Issue) returns (id: IssueId)
      modifies this
      ensures id == old(nextIssue)
      ensures State() == WithIssue(old(State()), i)
    {
      id := nextIssue;
      issues := issues[id := i];
      nextIssue := nextIssue + 1;
    }

    method SaveComment(c: Comment) returns (id: CommentId)
      modifies this
      ensures id == old(nextComment)
      ensures State() == WithComment(old(State()), c)
    {
      id := nextComment;
      comments := comments[id := c];
      nextComment := nextComment + 1;
    }

    method AddContributor(pid: ProjectId, u: UserId)
      requires pid in projects
      modifies this
      ensures State() == WithContributor(old(State()), pid, u)
    {
      var p := projects[pid];
      projects := projects[pid := p.(contributors := p.contributors + {u})];
    }

    method RemoveContributor(pid: ProjectId, u: UserId)
      requires pid in projects
      modifies this
      ensures State() == WithoutContributor(old(State()), pid, u)
    {
      var p := projects[pid];
      projects := projects[pid := p.(contributors := p.contributors - {u})];
    }
  }
}

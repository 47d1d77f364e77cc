# SoftDesk authorization and membership, in Dafny

SoftDesk is a REST issue tracker. Users create projects. A project has one
author and a set of contributors. Issues belong to a project and comments
belong to an issue. This project models the part of SoftDesk that decides
who may do what and what each write stores:

- the five permission classes;
- the way a view's `permission_classes` list combines them;
- how a project's contributors are added and removed;
- what creating a project, an issue or a comment stores;
- the list queries, with their filter and ordering;
- the per-request memoized lookups;
- the action-to-serializer table;
- the records, their code sets and their `__str__` renderings.

Modules:

- `Outcomes`: `Option`, `Result`, and the exceptions the rules and views can raise:
  - `NotFound`, from `get_object_or_404`;
  - `DoesNotExist`, from `Project.objects.get`;
  - `KeyError`, when issue creation reads an `assignee` the request left out;
  - `AttributeError`, which `IsAuthorOrReadOnly` would raise on a user account. No view applies that class to one, so it never ends a request.
- `Text`: the decimal rendering of a key, and reading it back.
- `Models`: the records, the four code sets, the default issue state, the store of tables, its referential integrity (`WellFormed`), and the `__str__` renderings.
- `Storage`: the store updates as functions, and a `Database` class whose tables the views change in place.
- `QuerySets`: `filter` as a scan over keys and `order_by` as an insertion sort on a natural-number key.
- `Permissions`: the five rules, and how the REST framework asks a list of them in order.
- `Views`: each view set's gate, its serializer table, its list queries and its creations. Four view-set classes hold the memoized lookups.

Where the code and its comments disagree, the model follows the code:

- Issue creation stores the assignee that was supplied. It does not default the assignee to the author, although a comment in the views and the `Issue` docstring say so.
- Nothing stops the author from being removed from the contributors.
- `IsProjectContributor` does not admit an author who is not a contributor.
- Comment creation does not check that the issue belongs to the project in the URL. The comment's `issue_url` can therefore name the wrong project (`CommentOnForeignIssue`). A contributor of one project can also list the comments of another project's issue (`CommentListOfForeignIssue`).

## Model

| member | source | states |
|---|---|---|
| Permissions.AuthorOrReadOnlyRule | SoftDesk/api/permissions.py:17-20 | GET, HEAD and OPTIONS are granted to anyone. Any other method is granted iff the object's author is the requester. Whoever may write may also read. |
| Permissions.ProjectAuthorRule | SoftDesk/api/permissions.py:34-39 | Grants iff the project named by `project_pk` exists and the requester is its author. The method plays no part. A missing key or row raises `DoesNotExist`; it does not refuse. |
| Permissions.ProjectContributorRule | SoftDesk/api/permissions.py:53-58 | Grants iff the requester is in the project's contributors. An unknown project raises. An author outside the contributors set is refused. |
| Permissions.ProjectAuthorOrContributorRule | SoftDesk/api/permissions.py:72-77 | Grants iff the requester is the author or a contributor. So it grants whenever `IsProjectAuthor` or `IsProjectContributor` grants. |
| Permissions.AccountOwnerOrReadOnlyRule | SoftDesk/api/permissions.py:88-92 | Safe methods are granted to anyone. Any other method is granted iff the account is the requester's. Otherwise it refuses and never raises. |
| Permissions.CombineAllowIff | SoftDesk/api/views.py:153 | A `permission_classes` list allows a request iff every class in it grants. |
| Permissions.CombineFirstFailure | SoftDesk/api/views.py:189 | The first class that does not grant decides: its message, or its exception. |
| Views.OpenEndpointsAllowEveryRequest | SoftDesk/api/views.py:60 | The users and projects views let every request through at view level. |
| Views.ContributorsGate | SoftDesk/api/views.py:107 | The contributors view admits exactly the project's author, with that class's message otherwise. An unknown project raises. There is no further check at object level. |
| Views.IssuesAndCommentsGate | SoftDesk/api/views.py:153 | The issues and comments views admit exactly the project's contributors, with the contributor message otherwise. An unknown project raises. |
| Views.AuthoredObjectGate | SoftDesk/api/views.py:189 | On projects, issues and comments, a read always passes the object check. A write passes iff the requester is the author; otherwise it is refused with the author message. |
| Views.AccountGate | SoftDesk/api/views.py:34 | A user account can be read by anyone and changed only by its owner. A refusal has no message of its own. |
| Views.PermissionClasses | SoftDesk/api/views.py:153 | Each view's first class: `IsAccountOwnerOrReadOnly` on users (line 34), `IsProjectAuthor` on contributors (line 107), `IsAuthorOrReadOnly` on projects, issues and comments (lines 60, 153, 189). `IsProjectContributor` is listed iff the view is issues or comments. `IsProjectAuthor` is listed iff it is contributors. `IsProjectAuthorOrContributor` (permissions.py:61-77) is listed by no view. |
| Views.IssueListNeedsMembership | SoftDesk/api/views.py:153 | Whoever passes the issue view's gate for a project is one of its contributors. |
| Views.GetSerializerClass | SoftDesk/api/views.py:36-46 | The serializer is of the view's own family. "create", "list" and "retrieve" give the create, list and detail serializer. Any other action gives detail on users and create on the other four views (lines 81-88, 131-138, 168-175, 203-210). |
| Views.UserQueryset | SoftDesk/api/views.py:53 | Every user, each once, ascending by date joined. |
| Views.ProjectQueryset | SoftDesk/api/views.py:77-92 | Exactly the projects whose contributors include the requester, each once, ascending by creation time. |
| Views.ContributorQueryset | SoftDesk/api/views.py:129 | Exactly the project's contributors, each once, ascending by date joined. |
| Views.IssueQueryset | SoftDesk/api/views.py:160-165 | Exactly the issues whose project is `project_pk`, each once, ascending by creation time. |
| Views.CommentQueryset | SoftDesk/api/views.py:196-201 | Exactly the comments whose issue is `issue_pk`, each once, ascending by creation time. The project key plays no part. |
| Views.CreateProjectOutcome | SoftDesk/api/views.py:99 | A new project has the creator as author and as its only contributor, so the author is a contributor. It is stored under a fresh key, and no other project, table or counter changes. The store stays well formed. The project is in its creator's list. |
| Views.CreateIssueOutcome | SoftDesk/api/views.py:179-182 | An omitted assignee fails with KeyError, before and whatever the project lookup. A supplied assignee fails with NotFound iff the project is unknown. Otherwise the one new issue has: the requester as author; the supplied assignee, not defaulted; the URL's project; the given state, or `ToDo` when none is given. It is stored under a fresh key, and no other issue, table or counter changes. The store stays well formed and the issue is in its project's list. |
| Views.CreateCommentOutcome | SoftDesk/api/views.py:214-220 | Fails with NotFound iff the issue is unknown. Otherwise the one new comment has the requester as author and the URL's issue, and its `issue_url` reads back as the URL's two keys. It is stored under a fresh key, and no other comment, table or counter changes. The store stays well formed. |
| Views.IssueUrl | SoftDesk/api/views.py:217 | The stored issue URL, base URL + "/api/projects/" + project key + "/issues/" + issue key + "/", reads back as exactly those two keys. |
| Views.CommentOnForeignIssue | SoftDesk/api/views.py:214-216 | A contributor of one project can comment on another project's issue. The stored `issue_url` then names the wrong project. |
| Views.CommentListOfForeignIssue | SoftDesk/api/views.py:196 | A contributor of one project can list the comments of another project's issue. |
| Views.RemovingTheAuthor | SoftDesk/api/views.py:146 | Removing the author is not refused. Afterwards the author is not a contributor and loses the project from their list. They are refused by the issue gate but still pass the contributors gate, where they can add themselves back. |
| Views.Walkthrough | SoftDesk/api/views.py:99-182 | A creator alone passes the new project's issue gate. An added contributor then passes it and authors the issue they create. Only that author may change the issue. |
| Views.ProjectViewSet.ProjectProperty | SoftDesk/api/views.py:75-79 | The first access filters the projects and counts one lookup. Later accesses return the cached value without a lookup. |
| Views.ProjectViewSet.GetQueryset | SoftDesk/api/views.py:90-92 | The requester's projects ordered by creation time (`ProjectQueryset`). It goes through the property: the first call fills the cache with one lookup, and a later call keeps the cache and the lookup count. |
| Views.ProjectViewSet.PerformCreate | SoftDesk/api/views.py:94-99 | The database afterwards is `CreateProject` of the database before. The new key is returned. |
| Views.ContributorViewSet.ProjectProperty | SoftDesk/api/views.py:120-125 | Returns the project iff it exists, else NotFound. Only a found project is cached, so one lookup is counted per uncached access. |
| Views.ContributorViewSet.GetQueryset | SoftDesk/api/views.py:127-129 | `ContributorQueryset` of the project, or NotFound. The project is cached iff it exists, and a lookup is counted iff it was not cached before. |
| Views.ContributorViewSet.PerformCreate | SoftDesk/api/views.py:141-142 | The project's contributors gain the user and nothing else changes; or NotFound, with the database unchanged. The cache and lookup count move as in `ProjectProperty`. |
| Views.ContributorViewSet.PerformDestroy | SoftDesk/api/views.py:145-146 | The project's contributors lose the user, with no guard for the author; or NotFound, with the database unchanged. The cache and lookup count move as in `ProjectProperty`. |
| Views.IssueViewSet.IssueProperty | SoftDesk/api/views.py:157-162 | The first access filters the issues by project and counts one lookup. Later accesses return the cache. |
| Views.IssueViewSet.GetQueryset | SoftDesk/api/views.py:164-165 | The project's issues ordered by creation time (`IssueQueryset`). The first call fills the cache with one lookup; a later call keeps the cache and the count. |
| Views.IssueViewSet.PerformCreate | SoftDesk/api/views.py:178-182 | The database afterwards is `CreateIssue` of the database before: the new key, or KeyError or NotFound with nothing written. |
| Views.CommentViewSet.CommentProperty | SoftDesk/api/views.py:193-198 | The first access filters the comments by issue and counts one lookup. Later accesses return the cache. |
| Views.CommentViewSet.GetQueryset | SoftDesk/api/views.py:200-201 | The issue's comments ordered by creation time (`CommentQueryset`). The first call fills the cache with one lookup; a later call keeps the cache and the count. |
| Views.CommentViewSet.PerformCreate | SoftDesk/api/views.py:213-220 | The database afterwards is `CreateComment` of the database before: the new key, or NotFound with nothing written. |
| Views.ProjectsResolvedOnce | SoftDesk/api/views.py:75-79 | Two accesses in one request give the same project set with exactly one lookup. |
| Views.ContributorProjectResolvedOnce | SoftDesk/api/views.py:120-125 | Two accesses give the same answer. A found project costs one lookup; a missing one costs two. |
| Views.IssuesResolvedOnce | SoftDesk/api/views.py:159-162 | Two accesses in one request give the same issue set with exactly one lookup. |
| Views.CommentsResolvedOnce | SoftDesk/api/views.py:195-198 | Two accesses in one request give the same comment set with exactly one lookup. |
| Views.ProjectListingsResolvedOnce | SoftDesk/api/views.py:90-92 | Two listings in one request give the same ordered projects with exactly one lookup. |
| Views.IssueListingsResolvedOnce | SoftDesk/api/views.py:164-165 | Two listings in one request give the same ordered issues with exactly one lookup. |
| Views.CommentListingsResolvedOnce | SoftDesk/api/views.py:200-201 | Two listings in one request give the same ordered comments with exactly one lookup. |
| Views.ContributorListThenAdd | SoftDesk/api/views.py:127-142 | Listing then adding contributors in one request: the listing succeeds iff the project exists, the addition then succeeds too, and the project is looked up once. A missing project fails both steps and is looked up by each. |
| Storage.WithContributor | SoftDesk/api/views.py:142 | Adding a contributor makes the set `contributors ∪ {u}`. No other field of the project, no other project and no other table changes. |
| Storage.WithoutContributor | SoftDesk/api/views.py:146 | Removing a contributor makes the set `contributors − {u}`, with no guard. Nothing else changes. |
| Storage.AddExistingContributorIsNoOp | SoftDesk/api/views.py:142 | Adding a user who is already a contributor changes nothing. |
| Storage.RemoveAbsentContributorIsNoOp | SoftDesk/api/views.py:146 | Removing a user who is not a contributor changes nothing. |
| Storage.RemoveThenAddRestores | SoftDesk/api/views.py:142-146 | Removing a contributor and adding them back restores the store. |
| Storage.WithProjectWellFormed | SoftDesk/api/models.py:35-47 | Saving a project whose author and contributors are users keeps referential integrity. |
| Storage.WithIssueWellFormed | SoftDesk/api/models.py:112-133 | Saving an issue whose one project, one author and one assignee exist keeps referential integrity. |
| Storage.WithCommentWellFormed | SoftDesk/api/models.py:152-165 | Saving a comment whose one issue and one author exist keeps referential integrity. |
| Storage.WithContributorWellFormed | SoftDesk/api/models.py:42-47 | Adding an existing user as contributor keeps referential integrity. |
| Storage.WithoutContributorWellFormed | SoftDesk/api/models.py:42-47 | Removing a contributor keeps referential integrity. |
| Storage.Database.SaveProject | SoftDesk/api/views.py:99 | Stores the row under the next auto-increment key and returns that key. |
| Storage.Database.SaveIssue | SoftDesk/api/views.py:182 | Stores the issue under the next auto-increment key and returns that key; the tables afterwards are `WithIssue` of the tables before. |
| Storage.Database.SaveComment | SoftDesk/api/views.py:220 | Stores the comment under the next auto-increment key and returns that key; the tables afterwards are `WithComment` of the tables before. |
| Storage.Database.AddContributor | SoftDesk/api/views.py:142 | The tables afterwards are `WithContributor` of the tables before. |
| Storage.Database.RemoveContributor | SoftDesk/api/views.py:146 | The tables afterwards are `WithoutContributor` of the tables before. |
| QuerySets.Where | SoftDesk/api/views.py:77 | `filter`: exactly the keys that meet the condition, each once. |
| QuerySets.OrderBy | SoftDesk/api/views.py:92 | `order_by`: the same keys, as a permutation, ascending by the sort key. |
| QuerySets.WhereOrderBy | SoftDesk/api/views.py:165 | `filter` then `order_by`: exactly the matching keys, each once, in ascending order. |
| Models.ParseProjectType | SoftDesk/api/models.py:19-34 | A project type is accepted iff its code is B, F, I or A. The accepted value is stored under that code. |
| Models.ParseIssueTag | SoftDesk/api/models.py:69-78 | An issue tag is accepted iff its code is B, F or T. |
| Models.ParseIssueState | SoftDesk/api/models.py:81-90 | An issue state is accepted iff its code is T, I or C. |
| Models.ParseIssuePriority | SoftDesk/api/models.py:93-102 | An issue priority is accepted iff its code is L, M or H. |
| Models.CodesRoundTrip | SoftDesk/api/models.py:19-111 | Every value of the four code sets reads back from its stored code. |
| Models.ChoicesAreDistinct | SoftDesk/api/models.py:19-102 | In each of the four `choices` lists, two values share a code iff they are equal, and share a label iff they are equal. |
| Models.RenderProjectRoundTrip | SoftDesk/api/models.py:54-55 | "Project: " + name + " ¦ Author: " + author reads back as the name and the author. This holds when the name has no broken bar. |
| Models.ProjectStr | SoftDesk/api/models.py:54-55 | A project's rendering reads back as its name and its author's username, when the name has no broken bar. The author is rendered by `User.__str__` (models.py:11-12), which is the username. |
| Models.SplitAtBarRoundTrip | SoftDesk/api/models.py:139 | Text without a bar, then " \| ", then anything: splitting at the first bar gives back both parts. |
| Models.CodesStrRoundTrip | SoftDesk/api/models.py:139 | The tag, state and priority codes joined by ", " take seven characters and read back as the same three values. |
| Models.RenderIssueRoundTrip | SoftDesk/api/models.py:137-140 | Name, " \| ", the tag, state and priority codes joined by ", ", " \| ", the project's rendering and a space: reads back as the name, the three values and the project rendering, when the name has no bar. |
| Models.IssueStr | SoftDesk/api/models.py:137-140 | An issue's rendering reads back as its name, its tag, state and priority, and its project's rendering, when the name has no bar. |
| Models.CommentStr | SoftDesk/api/models.py:169-170 | A comment's rendering splits at its first bar separator into the comment's name and its issue's rendering, when the name has no bar. |
| Text.DigitsValueOfDecimal | SoftDesk/api/views.py:217 | A key written as its canonical decimal digits reads back as the same key. |

## Left out

- Authentication. The requester is always an authenticated user id. `AnonymousUser`, passwords and the username validator are not modelled.
- The serializers, which `api.serializers` defines. That file is not part of this model. The serializers appear only as tags in the table, and the validated data they produce is a draft record.
- The framework's default retrieve, update and destroy for users, projects, issues and comments. Their lookup of one object by key goes through the object gate, which is modelled; the writes themselves are not.
- Registration and account fields beyond those the rules read. `age` and the two consent flags (models.py:7-9) are fields of the user record, but no rule or view reads them, and their `default=False` is not modelled. Of the field validators, only `choices` is modelled, as the code-set parsers; `max_length` is not.
- URL keyword arguments are natural numbers written in canonical decimal. `issue_url` is modelled only for such keys. The view copies the raw path segment into it, so a segment such as "07" would be stored as written, and that case is left out.
- Querysets are lazy in the framework. The model evaluates a memoized filter at first access.
- Views.ContributorViewSet.ProjectProperty: caches the project's key, not the fetched `Project` instance. Each use reads the project's current row from the store, where the view would keep using the instance it fetched first.
- Views.ContributorViewSet.PerformDestroy: takes the user to remove directly. The framework's lookup of that user among the contributors, which 404s for a non-member, is not modelled. Removing a non-member changes nothing (`Storage.RemoveAbsentContributorIsNoOp`).
- Timestamps (`auto_now`, `auto_now_add`) and `settings.BASE_URL` are parameters supplied by the caller.
- The HTTP status codes, pagination, and the default refusal text used when a class has no `message`.
- The generated migration schema, which repeats the models.
- Concurrency: each request is one sequential step on the store.

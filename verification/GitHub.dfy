/**
  The part of GitHub that delivery uses, and the pure and request-level parts of its client. A commit
  is identified with its content, which is what an injective hash amounts to.
 */
module GitHub {
  import opened Basics
  import opened Jobs
  import opened Strings

  type FileTree = map<string, string>

  datatype Commit = Commit(files: FileTree, parents: seq<Commit>, message: string)

  datatype PullRequest = PullRequest(
    number: int, url: string, head: string, base: string, open: bool, title: string, body: string)

  datatype Repository = Repository(refs: map<string, Commit>, pulls: seq<PullRequest>)

  type Repositories = map<string, Repository>

  datatype FileChange = FileChange(path: string, content: string)

  datatype Request = Request(
    job: Job, repository: string, baseBranch: string, title: string, body: string,
    changes: seq<FileChange>, allowWrite: bool)

  /** What a delivery amounts to, for the one who made it and for the one who finds it. */
  datatype Delivery = Delivery(number: int, url: string, commit: Commit)

  // ---- validation ----

  const MAX_FILES := 32
  const MAX_FILE_CHARS := 64_000
  const MAX_REPOSITORY_CHARS := 256
  const MAX_BRANCH_CHARS := 128

  predicate ValidBranch(s: string) {
    !Blank(s) && NUL !in s && !StartsWith(s, "/") && !Contains(s, "..")
  }

  predicate ValidPath(s: string) {
    && s != "" && NUL !in s && BACKSLASH !in s && !StartsWith(s, "/")
    && forall i :: 0 <= i < |Split(s, SLASH)| ==> Split(s, SLASH)[i] !in {"", ".", ".."}
  }

  /** Two non-empty names around one slash, without backslash or NUL. */
  predicate OwnerAndName(s: string) {
    && BACKSLASH !in s && NUL !in s
    && |Split(s, SLASH)| == 2 && Split(s, SLASH)[0] != "" && Split(s, SLASH)[1] != ""
  }

  predicate ValidChange(c: FileChange) {
    ValidPath(c.path) && c.content != "" && |c.content| <= MAX_FILE_CHARS && NUL !in c.content
  }

  predicate WriteGatesOpen(r: Request) {
    r.allowWrite && r.job.status == Verified && !r.job.dryRun
  }

  predicate ValidFields(r: Request) {
    && |r.repository| <= MAX_REPOSITORY_CHARS && OwnerAndName(r.repository)
    && ValidBranch(r.baseBranch) && |r.baseBranch| <= MAX_BRANCH_CHARS
    && !Blank(r.title) && !Blank(r.body)
    && NUL !in r.title && NUL !in r.body
  }

  predicate ValidChanges(changes: seq<FileChange>) {
    && 1 <= |changes| <= MAX_FILES
    && (forall i :: 0 <= i < |changes| ==> ValidChange(changes[i]))
    && (forall i, k :: 0 <= i < k < |changes| ==> changes[i].path != changes[k].path)
  }

  predicate ValidRequest(r: Request) {
    WriteGatesOpen(r) && ValidFields(r) && ValidChanges(r.changes)
  }

  datatype RequestError = GateClosed | BadField | BadFileCount | BadPath | DuplicatePath | BadContent

  /** `validate_request`: accepts exactly the valid requests. */
  method ValidateRequest(r: Request) returns (result: Result<(), RequestError>)
    ensures result.Ok? <==> ValidRequest(r)
    ensures result.Ok? <==>
            // the write gates
            && r.allowWrite && r.job.status == Verified && !r.job.dryRun
            // the fields
            && |r.repository| <= 256 && |Split(r.repository, '/')| == 2
            && Split(r.repository, '/')[0] != "" && Split(r.repository, '/')[1] != ""
            && '\\' !in r.repository && NUL !in r.repository
            && !Blank(r.baseBranch) && |r.baseBranch| <= 128 && NUL !in r.baseBranch
            && !("/" <= r.baseBranch) && !Contains(r.baseBranch, "..")
            && !Blank(r.title) && !Blank(r.body) && NUL !in r.title && NUL !in r.body
            // the changes
            && 1 <= |r.changes| <= 32
            && (forall i, k :: 0 <= i < k < |r.changes| ==> r.changes[i].path != r.changes[k].path)
            && (forall i :: 0 <= i < |r.changes| ==>
                  && 1 <= |r.changes[i].content| <= 64_000 && NUL !in r.changes[i].content && ValidPath(r.changes[i].path))
  {
    if !WriteGatesOpen(r) {
      return Err(GateClosed);
    }
    if !ValidFields(r) {
      return Err(BadField);
    }
    if !(1 <= |r.changes| <= MAX_FILES) {
      return Err(BadFileCount);
    }
    var paths: set<string> := {};
    for i := 0 to |r.changes|
      invariant paths == set k | 0 <= k < i :: r.changes[k].path
      invariant forall k :: 0 <= k < i ==> ValidChange(r.changes[k])
      invariant forall j, k :: 0 <= j < k < i ==> r.changes[j].path != r.changes[k].path
    {
      var change := r.changes[i];
      if !ValidPath(change.path) {
        return Err(BadPath);
      }
      if change.path in paths {
        return Err(DuplicatePath);
      }
      paths := paths + {change.path};
      if change.content == "" || |change.content| > MAX_FILE_CHARS || NUL in change.content {
        return Err(BadContent);
      }
    }
    result := Ok(());
  }

  // ---- what is delivered ----

  const PREFIX := "sentinel/remediation/"

  function BranchName(jobId: JobId): string {
    PREFIX + jobId
  }

  predicate IsSentinelBranch(b: string) {
    StartsWith(b, PREFIX)
  }

  lemma BranchNameInjective(a: JobId, b: JobId)
    ensures BranchName(a) == "sentinel/remediation/" + a
    ensures BranchName(a) == BranchName(b) ==> a == b
  {
    assert a == BranchName(a)[|PREFIX|..];
    assert b == BranchName(b)[|PREFIX|..];
  }

  /** A tree made of a base tree and entries that replace or add one file each, in order. */
  function Overlay(files: FileTree, entries: seq<FileChange>): FileTree {
    if entries == [] then files
    else
      var last := entries[|entries| - 1];
      Overlay(files, entries[..|entries| - 1])[last.path := last.content]
  }

  function DeliveredCommit(base: Commit, r: Request): Commit {
    Commit(Overlay(base.files, r.changes), [base], r.title)
  }

  /** With unique paths the delivered tree is the base tree with exactly the requested files replaced. */
  lemma {:induction false} OverlayReplacesExactly(files: FileTree, changes: seq<FileChange>)
    requires forall i, k :: 0 <= i < k < |changes| ==> changes[i].path != changes[k].path
    ensures forall p ::
              p in Overlay(files, changes) <==> p in files || exists i :: 0 <= i < |changes| && changes[i].path == p
    ensures forall i :: 0 <= i < |changes| ==> Overlay(files, changes)[changes[i].path] == changes[i].content
    ensures forall p :: p in files && (forall i :: 0 <= i < |changes| ==> changes[i].path != p) ==>
                          Overlay(files, changes)[p] == files[p]
  {
    if changes != [] {
      OverlayReplacesExactly(files, changes[..|changes| - 1]);
    }
  }

  // ---- requests ----

  /** POST /git/refs: refused if the ref exists. */
  function CreateRef(repo: Repository, branch: string, commit: Commit): Option<Repository> {
    if branch in repo.refs then None
    else Some(repo.(refs := repo.refs[branch := commit]))
  }

  predicate NumberTaken(repo: Repository, number: int) {
    exists i :: 0 <= i < |repo.pulls| && repo.pulls[i].number == number
  }

  /** POST /pulls: the provider picks an unused number and a url; refused without the head branch. */
  function CreatePull(repo: Repository, number: int, url: string, head: string, base: string, title: string, body: string)
    : Option<Repository>
  {
    if head !in repo.refs || NumberTaken(repo, number) then None
    else Some(repo.(pulls := repo.pulls + [PullRequest(number, url, head, base, true, title, body)]))
  }

  predicate IsDelivery(p: PullRequest, branch: string, base: string) {
    p.open && p.head == branch && p.base == base
  }

  /** The first open pull request from `branch` into `base`, with the commit its branch points to. */
  function Found(repo: Repository, branch: string, base: string): Option<Delivery> {
    FoundFrom(repo, branch, base, 0)
  }

  function FoundFrom(repo: Repository, branch: string, base: string, i: nat): Option<Delivery>
    decreases |repo.pulls| - i
  {
    if i >= |repo.pulls| then None
    else if IsDelivery(repo.pulls[i], branch, base) && branch in repo.refs
    then Some(Delivery(repo.pulls[i].number, repo.pulls[i].url, repo.refs[branch]))
    else FoundFrom(repo, branch, base, i + 1)
  }

  /** What `find_delivery` finds is such a pull request; it finds nothing only if there is none. */
  lemma {:induction false} FoundIsDelivery(repo: Repository, branch: string, base: string, i: nat)
    ensures FoundFrom(repo, branch, base, i).Some? ==>
              && branch in repo.refs && FoundFrom(repo, branch, base, i).value.commit == repo.refs[branch]
              && exists k :: i <= k < |repo.pulls| && IsDelivery(repo.pulls[k], branch, base)
                             && repo.pulls[k].number == FoundFrom(repo, branch, base, i).value.number
                             && repo.pulls[k].url == FoundFrom(repo, branch, base, i).value.url
    ensures FoundFrom(repo, branch, base, i).None? && branch in repo.refs ==>
              forall k :: i <= k < |repo.pulls| ==> !IsDelivery(repo.pulls[k], branch, base)
    decreases |repo.pulls| - i
  {
    if i < |repo.pulls| {
      FoundIsDelivery(repo, branch, base, i + 1);
    }
  }

  /** The arguments that `find_delivery` accepts. */
  predicate Findable(repository: string, branch: string, base: string) {
    OwnerAndName(repository) && ValidBranch(branch) && ValidBranch(base)
  }

  /** `find_delivery`: refuses invalid arguments, and otherwise searches the listed pull requests. */
  method FindDelivery(repo: Repository, repository: string, branch: string, base: string)
    returns (r: Result<Option<Delivery>, RequestError>)
    ensures r.Ok? <==> Findable(repository, branch, base)
    ensures r.Ok? ==> r.value == Found(repo, branch, base)
  {
    if !Findable(repository, branch, base) {
      return Err(BadField);
    }
    for i := 0 to |repo.pulls|
      invariant Found(repo, branch, base) == FoundFrom(repo, branch, base, i)
    {
      var pull := repo.pulls[i];
      if IsDelivery(pull, branch, base) && branch in repo.refs {
        return Ok(Some(Delivery(pull.number, pull.url, repo.refs[branch])));
      }
    }
    r := Ok(None);
  }

  // ---- everybody else ----

  /** Pull requests from remediation branches stay as they are, up to being open or closed; no other becomes one. */
  predicate PullsKept(before: Repository, after: Repository) {
    && |before.pulls| <= |after.pulls|
    && forall i :: 0 <= i < |before.pulls| ==>
         if IsSentinelBranch(before.pulls[i].head)
         then after.pulls[i] == before.pulls[i].(open := after.pulls[i].open)
         else !IsSentinelBranch(after.pulls[i].head)
  }

  /**
    What others may do to a repository: anything to their own branches and to pull requests from them,
    and close or reopen any pull request; the branches of remediations are left alone, and so are the
    title, the body and the base of pull requests from them.
   */
  predicate OutsideChange(before: Repository, after: Repository) {
    && (forall b :: b in before.refs && IsSentinelBranch(b) ==> b in after.refs && after.refs[b] == before.refs[b])
    && (forall b :: b in after.refs && IsSentinelBranch(b) ==> b in before.refs)
    && PullsKept(before, after)
    && (forall i :: |before.pulls| <= i < |after.pulls| ==> !IsSentinelBranch(after.pulls[i].head))
  }
}

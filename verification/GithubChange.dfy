/**
 Approved GitHub change requests: what a request writes, and what GitHub does with it.

 The remote side is the request's branch, as a tree of files, and the number of pull
 requests open for it. Every accepted write is a commit, so when all changes are written the
 branch has commits of its own exactly if there are changes. The model assumes what the
 source relies on: nobody else writes the branch, and an opened pull request stays open.
 `GithubService` holds the executor and `GithubMachine` any number of them at once.
 */
module GithubChange {
  import opened Prelude
  import opened ExternalCalls

  type Path = string

  type Tree = map<Path, string>

  datatype Status = Draft | Approved | Executing | PullRequestOpened

  /** A file to write; `permitted` is the verdict of `validateChange`. */
  datatype Change = Change(path: Path, content: string, permitted: bool)

  /** The tree after the changes, in order; a later change to a path wins. */
  function Overlay(tree: Tree, changes: seq<Change>): Tree {
    if changes == [] then tree
    else
      var last := changes[|changes| - 1];
      Overlay(tree, changes[..|changes| - 1])[last.path := last.content]
  }

  function Paths(changes: seq<Change>): (paths: set<Path>)
    ensures forall i :: 0 <= i < |changes| ==> changes[i].path in paths
  {
    set c | c in changes :: c.path
  }

  /** Two trees that differ at most on `paths`. */
  ghost predicate AgreeOff(a: Tree, b: Tree, paths: set<Path>) {
    forall p :: p !in paths ==> (p in a <==> p in b) && (p in a ==> a[p] == b[p])
  }

  lemma OverlaySnoc(tree: Tree, changes: seq<Change>, k: nat)
    requires k < |changes|
    ensures Overlay(tree, changes[..k + 1]) == Overlay(tree, changes[..k])[changes[k].path := changes[k].content]
  {
    assert changes[..k + 1][..k] == changes[..k];
  }

  lemma {:induction false} OverlayAgreesOff(tree: Tree, base: Tree, changes: seq<Change>, k: nat)
    requires k <= |changes| && AgreeOff(tree, base, Paths(changes))
    ensures AgreeOff(Overlay(tree, changes[..k]), base, Paths(changes))
  {
    if k > 0 {
      OverlayAgreesOff(tree, base, changes, k - 1);
      OverlaySnoc(tree, changes, k - 1);
    }
  }

  /** On the paths it writes, an overlay does not depend on the tree below. */
  lemma {:induction false} OverlayDecides(a: Tree, b: Tree, changes: seq<Change>, p: Path)
    requires p in Paths(changes)
    ensures p in Overlay(a, changes) && p in Overlay(b, changes) && Overlay(a, changes)[p] == Overlay(b, changes)[p]
  {
    var front := changes[..|changes| - 1];
    if p != changes[|changes| - 1].path {
      var c :| c in changes && c.path == p;
      assert c in front;
      OverlayDecides(a, b, front, p);
    }
  }

  /** Whatever earlier attempts wrote of the changes, applying all of them gives the same tree. */
  lemma OverlayConverges(tree: Tree, base: Tree, changes: seq<Change>)
    requires AgreeOff(tree, base, Paths(changes))
    ensures Overlay(tree, changes) == Overlay(base, changes)
  {
    var a, b := Overlay(tree, changes), Overlay(base, changes);
    assert changes[..|changes|] == changes;
    OverlayAgreesOff(tree, base, changes, |changes|);
    OverlayAgreesOff(base, base, changes, |changes|);
    forall p
      ensures (p in a <==> p in b) && (p in a ==> a[p] == b[p])
    {
      if p in Paths(changes) { OverlayDecides(tree, base, changes, p); }
    }
    assert a.Keys == b.Keys;
  }

  // ---------- GitHub ----------

  /** The request's branch, absent until the first attempt creates it, and the pull requests open for it. */
  datatype Remote = Remote(branch: Option<Tree>, pulls: nat)

  /** POST /git/refs: refused when the branch exists. */
  function CreateBranch(r: Remote, base: Tree, answer: Answer): (after: Remote)
    ensures after.pulls == r.pulls && (r.branch.Some? ==> after == r)
    ensures r.branch.None? ==> after.branch == if answer == Throws(false) then None else Some(base)
  {
    if r.branch.None? && answer.Took() then r.(branch := Some(base)) else r
  }

  predicate CreateWorks(r: Remote, answer: Answer) {
    r.branch.None? && answer.Works?
  }

  /** PUT /contents: without the file's current sha, refused when the file exists. */
  predicate PutAccepted(r: Remote, c: Change, shaKnown: bool) {
    r.branch.Some? && (c.path in r.branch.value ==> shaKnown)
  }

  function PutFile(r: Remote, c: Change, shaKnown: bool, answer: Answer): (after: Remote)
    ensures after.pulls == r.pulls && after.branch.Some? == r.branch.Some?
    ensures after != r ==> answer != Throws(false) && c.path in after.branch.value
    ensures r.branch.Some? && c.path in r.branch.value && !shaKnown ==> after == r
    ensures r.branch.Some? && (c.path !in r.branch.value || shaKnown) && answer != Throws(false) ==>
      after.branch.value == r.branch.value[c.path := c.content]
  {
    if PutAccepted(r, c, shaKnown) && answer.Took() then r.(branch := Some(r.branch.value[c.path := c.content])) else r
  }

  /** POST /pulls: refused while one is open for the branch, and when the branch has no commit of its own. */
  predicate PullAccepted(r: Remote, changes: seq<Change>) {
    r.branch.Some? && r.pulls == 0 && changes != []
  }

  function OpenPull(r: Remote, changes: seq<Change>, answer: Answer): (after: Remote)
    ensures after.branch == r.branch && (r.pulls > 0 || r.branch.None? || changes == [] ==> after == r)
    ensures r.pulls == 0 && r.branch.Some? && changes != [] ==>
      after.pulls == if answer == Throws(false) then 0 else 1
  {
    if PullAccepted(r, changes) && answer.Took() then r.(pulls := 1) else r
  }

  /** What every prefix of every attempt leaves of the remote side. */
  ghost predicate Tidy(r: Remote, base: Tree, changes: seq<Change>) {
    r.pulls <= 1 && (r.branch.Some? ==> AgreeOff(r.branch.value, base, Paths(changes)))
      && (r.pulls == 1 ==> r.branch.Some? && changes != [])
  }

  lemma AgreesWithItself(base: Tree, changes: seq<Change>)
    ensures AgreeOff(base, base, Paths(changes))
  {
  }
}

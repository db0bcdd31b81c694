/**
  Commits and their ancestry. A commit is named by its position in the order of
  creation, which stands for its hash: names are never reused, and the parents
  of a commit exist before it does.
 */
module CommitGraph {
  import opened Options

  type Sha = nat
  type Path = string
  type Blob = nat
  type Tree = map<Path, Blob>
  type Diff = map<Path, (Option<Blob>, Option<Blob>)>

  datatype Commit = Commit(parents: seq<Sha>, tree: Tree, message: string)

  type Store = seq<Commit>

  predicate WellFormed(store: Store) {
    forall i, p :: 0 <= i < |store| && p in store[i].parents ==> p < i
  }

  function Content(tree: Tree, path: Path): Option<Blob> {
    if path in tree then Some(tree[path]) else None
  }

  /** What changes, path by path; its hash stands for it, so equal hashes mean equal diffs. */
  function DiffOf(before: Tree, after: Tree): Diff {
    map p | p in before.Keys + after.Keys && Content(before, p) != Content(after, p) :: (Content(before, p), Content(after, p))
  }

  /** The working files seen from a base, where a new file counts only if it is an approved one. */
  function Restrict(files: Tree, base: Tree, approvedNew: set<Path>): Tree {
    map p | p in files && (p in base || p in approvedNew) :: files[p]
  }

  lemma DiffDetermines(base: Tree, a: Tree, b: Tree)
    requires DiffOf(base, a) == DiffOf(base, b)
    ensures a == b
  {
    forall p ensures Content(a, p) == Content(b, p) {
      if p in DiffOf(base, a) {
        assert DiffOf(base, a)[p] == DiffOf(base, b)[p];
      } else {
        assert Content(base, p) == Content(a, p) == Content(b, p);
      }
    }
    assert forall p :: p in a ==> Content(a, p) == Content(b, p);
    assert forall p :: p in b ==> Content(a, p) == Content(b, p);
  }

  ghost predicate Ancestor(store: Store, a: Sha, b: Sha)
    decreases b
  {
    a == b || (b < |store| && exists p :: p in store[b].parents && p < b && Ancestor(store, a, p))
  }

  ghost predicate StrictAncestor(store: Store, a: Sha, b: Sha) {
    a != b && Ancestor(store, a, b)
  }

  lemma {:induction false} AncestorIsOlder(store: Store, a: Sha, b: Sha)
    requires Ancestor(store, a, b)
    ensures a <= b
    decreases b
  {
    if a != b {
      var p :| p in store[b].parents && p < b && Ancestor(store, a, p);
      AncestorIsOlder(store, a, p);
    }
  }

  lemma {:induction false} AncestorTransitive(store: Store, a: Sha, b: Sha, c: Sha)
    requires Ancestor(store, a, b) && Ancestor(store, b, c)
    ensures Ancestor(store, a, c)
    decreases c
  {
    if b != c {
      var p :| p in store[c].parents && p < c && Ancestor(store, b, p);
      AncestorTransitive(store, a, b, p);
    }
  }

  lemma StrictThenAncestor(store: Store, a: Sha, b: Sha, c: Sha)
    requires Ancestor(store, a, b) && StrictAncestor(store, b, c)
    ensures StrictAncestor(store, a, c)
  {
    AncestorTransitive(store, a, b, c);
    AncestorIsOlder(store, a, b);
    AncestorIsOlder(store, b, c);
  }

  /** New commits leave the ancestry of old ones as it was. */
  lemma {:induction false} AncestorStable(store: Store, more: Store, a: Sha, b: Sha)
    requires store <= more && Ancestor(store, a, b)
    ensures Ancestor(more, a, b)
    decreases b
  {
    if a != b {
      var p :| p in store[b].parents && p < b && Ancestor(store, a, p);
      AncestorStable(store, more, a, p);
      assert p in more[b].parents;
    }
  }

  lemma ParentIsAncestor(store: Store, a: Sha, b: Sha)
    requires WellFormed(store) && b < |store| && a in store[b].parents
    ensures StrictAncestor(store, a, b)
  {
    assert Ancestor(store, a, a);
  }

  /** No merge commit is reachable from tip without being reachable from base. */
  ghost predicate LinearFrom(store: Store, base: Sha, tip: Sha) {
    && Ancestor(store, base, tip)
    && forall c: nat :: c < |store| && Ancestor(store, c, tip) && !Ancestor(store, c, base) ==> |store[c].parents| <= 1
  }
}

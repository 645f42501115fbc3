/** Merge-back of a worker pool (internal/wsserver/workerpool.go, the sequential phase;
    internal/gitctl/git.go, ChangedFiles and Merge).

    git follows renames, both when it lists what a branch changed and when it merges the
    branch.  So a commit is taken as git reads it against the commit all workers started
    from: where each file of that one went, with what content, and which files are new.
    A merge is three-way, file by file, with that commit as its base. */
module WorkerMerge {
  import opened Text
  import opened WorkerPool

  type Tree = map<string, string>

  datatype File = File(path: string, content: string)

  /** The files that were in the base, by their old names, and the new files. */
  datatype Commit = Commit(kept: map<string, File>, added: Tree)

  /** Where a base file is in a commit; None when it was deleted. */
  function Fate(c: Commit, p: string): Option<File> { if p in c.kept then Some(c.kept[p]) else None }

  function NewAt(c: Commit, q: string): Option<string> { if q in c.added then Some(c.added[q]) else None }

  /** A file of a commit: an old one, by its base name, or a new one. */
  datatype Key = Old(name: string) | Fresh(name: string)

  function Keys(c: Commit): set<Key> { (set p | p in c.kept :: Old(p)) + (set q | q in c.added :: Fresh(q)) }

  function Place(c: Commit, k: Key): string
    requires k in Keys(c)
  {
    match k
    case Old(p) => c.kept[p].path
    case Fresh(q) => q
  }

  /** No two files are at one path, and none is also a directory of another. */
  predicate Sound(c: Commit)
  {
    forall k, l :: k in Keys(c) && l in Keys(c) && k != l ==> !(Segs(Place(c, k)) <= Segs(Place(c, l)))
  }

  // ---- Reading a tree against the base ----

  /** No file is also a directory of another. */
  predicate Tidy(t: Tree)
  {
    forall a, b :: a in t && b in t && a != b ==> !(Segs(a) <= Segs(b))
  }

  /** Renames: each takes a file that is gone to a path that is new, no two to the same. */
  predicate IsMoves(base: Tree, t: Tree, moves: map<string, string>)
  {
    && (forall p :: p in moves ==> p in base && p !in t && moves[p] in t && moves[p] !in base)
    && (forall p, q :: p in moves && q in moves && p != q ==> moves[p] != moves[q])
  }

  function Read(base: Tree, t: Tree, moves: map<string, string>): Commit
    requires IsMoves(base, t, moves)
  {
    Commit(
      map p | p in base && (p in t || p in moves) ::
        if p in t then File(p, t[p]) else File(moves[p], t[moves[p]]),
      map q | q in t && q !in base && q !in moves.Values :: t[q])
  }

  function Content(c: Commit, k: Key): string
    requires k in Keys(c)
  {
    match k
    case Old(p) => c.kept[p].content
    case Fresh(q) => c.added[q]
  }

  /** The tree has exactly the files of the commit, at their places. */
  ghost predicate HasTree(c: Commit, t: Tree)
  {
    && (forall k :: k in Keys(c) ==> Place(c, k) in t && t[Place(c, k)] == Content(c, k))
    && (forall q :: q in t ==> exists k :: k in Keys(c) && Place(c, k) == q)
  }

  lemma TreeUnique(c: Commit, t: Tree, u: Tree)
    requires HasTree(c, t) && HasTree(c, u)
    ensures t == u
  {
  }

  /** Whatever renames git finds, reading a tree loses nothing of it. */
  lemma ReadHasTree(base: Tree, t: Tree, moves: map<string, string>)
    requires Tidy(t) && IsMoves(base, t, moves)
    ensures Sound(Read(base, t, moves)) && HasTree(Read(base, t, moves), t)
  {
    var c := Read(base, t, moves);
    forall k | k in Keys(c) ensures Place(c, k) in t && t[Place(c, k)] == Content(c, k) {}
    forall k, l | k in Keys(c) && l in Keys(c) && k != l ensures !(Segs(Place(c, k)) <= Segs(Place(c, l))) {
      ReadApart(base, t, moves, k, l);
    }
    forall q | q in t ensures exists k :: k in Keys(c) && Place(c, k) == q { ReadFinds(base, t, moves, q); }
  }

  lemma ReadApart(base: Tree, t: Tree, moves: map<string, string>, k: Key, l: Key)
    requires IsMoves(base, t, moves)
    requires k in Keys(Read(base, t, moves)) && l in Keys(Read(base, t, moves)) && k != l
    ensures Place(Read(base, t, moves), k) != Place(Read(base, t, moves), l)
  {
  }

  lemma ReadFinds(base: Tree, t: Tree, moves: map<string, string>, q: string)
    requires IsMoves(base, t, moves) && q in t
    ensures exists k :: k in Keys(Read(base, t, moves)) && Place(Read(base, t, moves), k) == q
  {
    var c := Read(base, t, moves);
    if q in base {
      assert Old(q) in Keys(c) && Place(c, Old(q)) == q;
    } else if p :| p in moves && moves[p] == q {
      assert Old(p) in Keys(c) && Place(c, Old(p)) == q;
    } else {
      assert Fresh(q) in Keys(c) && Place(c, Fresh(q)) == q;
    }
  }

  // ---- One merge ----

  /** A three-way merge of one value; None is a conflict. */
  function MergeValue(base: string, ours: string, theirs: string): Option<string>
  {
    if theirs == base then Some(ours)
    else if ours == base || ours == theirs then Some(theirs)
    else None
  }

  /** One base file: a side that left it alone takes the other's fate; otherwise a
      deletion agrees with nothing else, and path and content merge separately. */
  function MergeFate(b: File, ours: Option<File>, theirs: Option<File>): Option<Option<File>>
  {
    if theirs == Some(b) then Some(ours)
    else if ours == Some(b) || ours == theirs then Some(theirs)
    else if ours.None? || theirs.None? then None
    else
      var path := MergeValue(b.path, ours.value.path, theirs.value.path);
      var content := MergeValue(b.content, ours.value.content, theirs.value.content);
      if path.Some? && content.Some? then Some(Some(File(path.value, content.value))) else None
  }

  function BaseFile(base: Tree, p: string): File
    requires p in base
  {
    File(p, base[p])
  }

  predicate Agree(base: Tree, ours: Commit, theirs: Commit)
  {
    && (forall p :: p in base ==> MergeFate(BaseFile(base, p), Fate(ours, p), Fate(theirs, p)).Some?)
    && (forall q :: q in ours.added && q in theirs.added ==> ours.added[q] == theirs.added[q])
  }

  function Combine(base: Tree, ours: Commit, theirs: Commit): Commit
    requires Agree(base, ours, theirs)
  {
    Commit(
      map p | p in base && MergeFate(BaseFile(base, p), Fate(ours, p), Fate(theirs, p)).value.Some? ::
        MergeFate(BaseFile(base, p), Fate(ours, p), Fate(theirs, p)).value.value,
      ours.added + theirs.added)
  }

  /** git merge, on whole commits. */
  function Merge(base: Tree, ours: Commit, theirs: Commit): Option<Commit>
  {
    if Agree(base, ours, theirs) && Sound(Combine(base, ours, theirs)) then Some(Combine(base, ours, theirs)) else None
  }

  // ---- What the merges should add up to ----

  /** Both changed the file, and git cannot have both: one deleted it and the other did
      not, or they moved it to different paths, or rewrote it differently. */
  predicate Contrary(b: File, x: Option<File>, y: Option<File>)
  {
    && x != Some(b) && y != Some(b) && x != y
    && (x.Some? && y.Some? ==>
          || (x.value.path != b.path && y.value.path != b.path && x.value.path != y.value.path)
          || (x.value.content != b.content && y.value.content != b.content && x.value.content != y.value.content))
  }

  ghost predicate Collide(base: Tree, c: Commit, d: Commit)
  {
    exists p :: p in base && Contrary(BaseFile(base, p), Fate(c, p), Fate(d, p))
  }

  ghost predicate Within(commits: seq<Commit>, who: set<nat>) { forall i :: i in who ==> i < |commits| }

  /** A base file that several workers dealt with: gone exactly when one deleted it, and
      then none did anything else to it; otherwise at the path one moved it to, with the
      content one wrote. */
  ghost predicate FateOverlaid(v: Option<File>, b: File, p: string, commits: seq<Commit>, who: set<nat>)
    requires Within(commits, who)
  {
    && (v.None? <==> exists i :: i in who && Fate(commits[i], p).None?)
    && (v.None? ==> forall i :: i in who ==> Fate(commits[i], p).None? || Fate(commits[i], p) == Some(b))
    && (v.Some? ==> PathOverlaid(v.value, b, p, commits, who) && ContentOverlaid(v.value, b, p, commits, who))
  }

  ghost predicate PathOverlaid(v: File, b: File, p: string, commits: seq<Commit>, who: set<nat>)
    requires Within(commits, who)
  {
    && (forall i :: i in who && p in commits[i].kept && commits[i].kept[p].path != b.path ==>
          v.path == commits[i].kept[p].path)
    && (v.path == b.path || exists i :: i in who && p in commits[i].kept && commits[i].kept[p].path == v.path)
  }

  ghost predicate ContentOverlaid(v: File, b: File, p: string, commits: seq<Commit>, who: set<nat>)
    requires Within(commits, who)
  {
    && (forall i :: i in who && p in commits[i].kept && commits[i].kept[p].content != b.content ==>
          v.content == commits[i].kept[p].content)
    && (v.content == b.content
        || exists i :: i in who && p in commits[i].kept && commits[i].kept[p].content == v.content)
  }

  /** The new files are exactly those the workers added. */
  ghost predicate NewOverlaid(v: Option<string>, q: string, commits: seq<Commit>, who: set<nat>)
    requires Within(commits, who)
  {
    && (forall i :: i in who && q in commits[i].added ==> v == Some(commits[i].added[q]))
    && (v.Some? ==> exists i :: i in who && q in commits[i].added)
  }

  /** The base with each worker's own changes put on top. */
  ghost predicate IsOverlay(c: Commit, base: Tree, commits: seq<Commit>, who: set<nat>)
    requires Within(commits, who)
  {
    && c.kept.Keys <= base.Keys
    && (forall p :: p in base ==> FateOverlaid(Fate(c, p), BaseFile(base, p), p, commits, who))
    && (forall q: string :: NewOverlaid(NewAt(c, q), q, commits, who))
  }

  lemma OverlayUnique(c: Commit, d: Commit, base: Tree, commits: seq<Commit>, who: set<nat>)
    requires Within(commits, who) && IsOverlay(c, base, commits, who) && IsOverlay(d, base, commits, who)
    ensures c == d
  {
    forall p | p in base ensures Fate(c, p) == Fate(d, p) {
      FateUnique(Fate(c, p), Fate(d, p), BaseFile(base, p), p, commits, who);
    }
    forall q: string ensures NewAt(c, q) == NewAt(d, q) {
      assert NewOverlaid(NewAt(c, q), q, commits, who) && NewOverlaid(NewAt(d, q), q, commits, who);
    }
    SameKept(c, d, base);
    SameAdded(c, d);
  }

  lemma FateUnique(v: Option<File>, w: Option<File>, b: File, p: string, commits: seq<Commit>, who: set<nat>)
    requires Within(commits, who) && FateOverlaid(v, b, p, commits, who) && FateOverlaid(w, b, p, commits, who)
    ensures v == w
  {
    if v.Some? {
      assert v.value.path == w.value.path && v.value.content == w.value.content;
    }
  }

  lemma SameKept(c: Commit, d: Commit, base: Tree)
    requires c.kept.Keys <= base.Keys && d.kept.Keys <= base.Keys
    requires forall p :: p in base ==> Fate(c, p) == Fate(d, p)
    ensures c.kept == d.kept
  {
    forall p ensures p in c.kept <==> p in d.kept {
      if p in base { assert Fate(c, p) == Fate(d, p); }
    }
    forall p | p in c.kept ensures p in d.kept && c.kept[p] == d.kept[p] {
      assert Fate(c, p) == Fate(d, p);
    }
  }

  lemma SameAdded(c: Commit, d: Commit)
    requires forall q: string :: NewAt(c, q) == NewAt(d, q)
    ensures c.added == d.added
  {
    forall q ensures q in c.added <==> q in d.added { assert NewAt(c, q) == NewAt(d, q); }
    forall q | q in c.added ensures q in d.added && c.added[q] == d.added[q] { assert NewAt(c, q) == NewAt(d, q); }
  }

  /** A file at a path the commit gave it: a new file or a moved one. */
  predicate Placed(c: Commit, k: Key) { k in Keys(c) && (k.Fresh? || Place(c, k) != k.name) }

  /** What two workers place is never at the same path or at nested paths. */
  ghost predicate PlacedApart(c: Commit, d: Commit)
  {
    forall k, l :: Placed(c, k) && Placed(d, l) ==>
      !(Segs(Place(c, k)) <= Segs(Place(d, l))) && !(Segs(Place(d, l)) <= Segs(Place(c, k)))
  }

  ghost predicate Apart(base: Tree, c: Commit, d: Commit) { PlacedApart(c, d) && !Collide(base, c, d) }

  ghost predicate AllApart(base: Tree, commits: seq<Commit>, who: set<nat>)
    requires Within(commits, who)
  {
    && Tidy(base)
    && (forall i :: i in who ==> Sound(commits[i]))
    && (forall i, j :: i in who && j in who && i != j ==> Apart(base, commits[i], commits[j]))
  }

  // ---- Such changes laid over the base leave a sound commit ----

  /** The file is where worker i placed it. */
  ghost predicate PlacedBy(c: Commit, k: Key, commits: seq<Commit>, i: nat)
  {
    k in Keys(c) && i < |commits| && Placed(commits[i], k) && Place(commits[i], k) == Place(c, k)
  }

  /** The file is where it was in the base, and every worker left it there. */
  ghost predicate Unmoved(c: Commit, k: Key, base: Tree, commits: seq<Commit>, who: set<nat>)
    requires Within(commits, who)
  {
    && k in Keys(c) && k.Old? && k.name in base && Place(c, k) == k.name
    && forall i :: i in who ==> k in Keys(commits[i]) && Place(commits[i], k) == k.name
  }

  lemma PlacedOrUnmoved(c: Commit, base: Tree, commits: seq<Commit>, who: set<nat>, k: Key)
    requires Within(commits, who) && IsOverlay(c, base, commits, who) && k in Keys(c)
    ensures Unmoved(c, k, base, commits, who) || exists i :: i in who && PlacedBy(c, k, commits, i)
  {
    match k
    case Fresh(q) =>
      assert NewOverlaid(NewAt(c, q), q, commits, who);
      var i :| i in who && q in commits[i].added;
      assert PlacedBy(c, k, commits, i);
    case Old(p) =>
      OldPlacedOrUnmoved(c, base, commits, who, p);
  }

  lemma OldPlacedOrUnmoved(c: Commit, base: Tree, commits: seq<Commit>, who: set<nat>, p: string)
    requires Within(commits, who) && IsOverlay(c, base, commits, who) && p in c.kept
    ensures Unmoved(c, Old(p), base, commits, who) || exists i :: i in who && PlacedBy(c, Old(p), commits, i)
  {
    assert p in base && FateOverlaid(Fate(c, p), BaseFile(base, p), p, commits, who);
    assert PathOverlaid(c.kept[p], BaseFile(base, p), p, commits, who);
    if c.kept[p].path == p {
      forall i | i in who ensures Old(p) in Keys(commits[i]) && Place(commits[i], Old(p)) == p {
        assert Fate(commits[i], p).Some?;
      }
    } else {
      var i :| i in who && p in commits[i].kept && commits[i].kept[p].path == c.kept[p].path;
      assert PlacedBy(c, Old(p), commits, i);
    }
  }

  lemma OverlaySound(c: Commit, base: Tree, commits: seq<Commit>, who: set<nat>)
    requires Within(commits, who) && AllApart(base, commits, who) && IsOverlay(c, base, commits, who)
    ensures Sound(c)
  {
    forall k, l | k in Keys(c) && l in Keys(c) && k != l ensures !(Segs(Place(c, k)) <= Segs(Place(c, l))) {
      PlacedOrUnmoved(c, base, commits, who, k);
      PlacedOrUnmoved(c, base, commits, who, l);
      OverlaySoundAt(c, base, commits, who, k, l);
    }
  }

  lemma OverlaySoundAt(c: Commit, base: Tree, commits: seq<Commit>, who: set<nat>, k: Key, l: Key)
    requires Within(commits, who) && AllApart(base, commits, who)
    requires k in Keys(c) && l in Keys(c) && k != l
    requires Unmoved(c, k, base, commits, who) || exists i :: i in who && PlacedBy(c, k, commits, i)
    requires Unmoved(c, l, base, commits, who) || exists i :: i in who && PlacedBy(c, l, commits, i)
    ensures !(Segs(Place(c, k)) <= Segs(Place(c, l)))
  {
    if i :| i in who && PlacedBy(c, k, commits, i) {
      if j :| j in who && j != i && PlacedBy(c, l, commits, j) {
        assert Apart(base, commits[i], commits[j]);
      } else {
        assert l in Keys(commits[i]) && Sound(commits[i]);
      }
    } else if j :| j in who && PlacedBy(c, l, commits, j) {
      assert k in Keys(commits[j]) && Sound(commits[j]);
    } else {
      assert k.name in base && l.name in base && k.name != l.name;
    }
  }

  // ---- One more merge ----

  /** A file merges exactly when the worker's fate for it is contrary to none before. */
  lemma FateMergesIff(v: Option<File>, b: File, p: string, commits: seq<Commit>, who: set<nat>, f: Option<File>)
    requires Within(commits, who) && b.path == p && FateOverlaid(v, b, p, commits, who)
    ensures MergeFate(b, v, f).Some? <==> forall j :: j in who ==> !Contrary(b, Fate(commits[j], p), f)
  {
  }

  lemma FateMerges(v: Option<File>, b: File, p: string, commits: seq<Commit>, who: set<nat>, i: nat)
    requires i < |commits| && i !in who && Within(commits, who) && b.path == p
    requires FateOverlaid(v, b, p, commits, who) && MergeFate(b, v, Fate(commits[i], p)).Some?
    ensures FateOverlaid(MergeFate(b, v, Fate(commits[i], p)).value, b, p, commits, who + {i})
  {
  }

  lemma CombineAt(base: Tree, ours: Commit, theirs: Commit, p: string)
    requires Agree(base, ours, theirs) && p in base
    ensures Some(Fate(Combine(base, ours, theirs), p)) == MergeFate(BaseFile(base, p), Fate(ours, p), Fate(theirs, p))
  {
  }

  lemma BothAdd(c: Commit, d: Commit, q: string)
    requires q in c.added && q in d.added
    ensures !PlacedApart(c, d)
  {
    assert Placed(c, Fresh(q)) && Placed(d, Fresh(q)) && Place(c, Fresh(q)) == q == Place(d, Fresh(q));
  }

  /** What the branch has as new some worker placed. */
  lemma AddedApart(ours: Commit, base: Tree, commits: seq<Commit>, who: set<nat>, i: nat, q: string)
    requires i < |commits| && i !in who && Within(commits, who) && AllApart(base, commits, who + {i})
    requires IsOverlay(ours, base, commits, who) && q in ours.added
    ensures q !in commits[i].added
  {
    assert NewOverlaid(NewAt(ours, q), q, commits, who);
    var j :| j in who && q in commits[j].added;
    assert Apart(base, commits[j], commits[i]);
    if q in commits[i].added { BothAdd(commits[j], commits[i], q); }
  }

  /** One more merge: it cannot conflict, and it adds that worker's changes. */
  lemma MergeOne(ours: Commit, base: Tree, commits: seq<Commit>, who: set<nat>, i: nat)
    requires i < |commits| && i !in who && Within(commits, who)
    requires AllApart(base, commits, who + {i}) && IsOverlay(ours, base, commits, who)
    ensures var m := Merge(base, ours, commits[i]); m.Some? && IsOverlay(m.value, base, commits, who + {i})
  {
    var theirs := commits[i];
    forall p | p in base ensures MergeFate(BaseFile(base, p), Fate(ours, p), Fate(theirs, p)).Some? {
      forall j | j in who ensures !Contrary(BaseFile(base, p), Fate(commits[j], p), Fate(theirs, p)) {
        assert Apart(base, commits[j], theirs);
      }
      FateMergesIff(Fate(ours, p), BaseFile(base, p), p, commits, who, Fate(theirs, p));
    }
    forall q | q in ours.added ensures q !in theirs.added { AddedApart(ours, base, commits, who, i, q); }
    MergeOverlaid(ours, base, commits, who, i);
    OverlaySound(Combine(base, ours, theirs), base, commits, who + {i});
  }

  lemma MergeOverlaid(ours: Commit, base: Tree, commits: seq<Commit>, who: set<nat>, i: nat)
    requires i < |commits| && i !in who && Within(commits, who)
    requires IsOverlay(ours, base, commits, who) && Agree(base, ours, commits[i])
    requires forall q :: q in ours.added ==> q !in commits[i].added
    ensures IsOverlay(Combine(base, ours, commits[i]), base, commits, who + {i})
  {
    var m := Combine(base, ours, commits[i]);
    forall p | p in base ensures FateOverlaid(Fate(m, p), BaseFile(base, p), p, commits, who + {i}) {
      FateMerges(Fate(ours, p), BaseFile(base, p), p, commits, who, i);
      CombineAt(base, ours, commits[i], p);
    }
    forall q: string ensures NewOverlaid(NewAt(m, q), q, commits, who + {i}) {
      assert NewOverlaid(NewAt(ours, q), q, commits, who);
    }
  }

  /** A merge that collides with one already merged conflicts. */
  lemma MergeConflicts(ours: Commit, base: Tree, commits: seq<Commit>, who: set<nat>, j: nat, theirs: Commit)
    requires Within(commits, who) && IsOverlay(ours, base, commits, who) && j in who
    requires Collide(base, commits[j], theirs)
    ensures Merge(base, ours, theirs).None?
  {
    var p :| p in base && Contrary(BaseFile(base, p), Fate(commits[j], p), Fate(theirs, p));
    FateMergesIff(Fate(ours, p), BaseFile(base, p), p, commits, who, Fate(theirs, p));
  }

  // ---- Every order of merging ----

  function Start(base: Tree): Commit { Commit(map p | p in base :: BaseFile(base, p), map[]) }

  /** Merging the listed workers one after another. */
  ghost function MergeAll(base: Tree, commits: seq<Commit>, order: seq<nat>): Option<Commit>
    requires forall k :: 0 <= k < |order| ==> order[k] < |commits|
  {
    if order == [] then Some(Start(base))
    else
      var n := |order| - 1;
      var ours := MergeAll(base, commits, order[..n]);
      if ours.None? then None else Merge(base, ours.value, commits[order[n]])
  }

  ghost function Members(order: seq<nat>): set<nat> { set k | 0 <= k < |order| :: order[k] }

  ghost predicate Distinct(order: seq<nat>) { forall j, k :: 0 <= j < k < |order| ==> order[j] != order[k] }

  lemma StartIsOverlay(base: Tree, commits: seq<Commit>)
    ensures IsOverlay(Start(base), base, commits, {})
  {
  }

  /** No order of merging conflicts, and each one ends with the overlay. */
  lemma {:induction false} AnyOrderMerges(base: Tree, commits: seq<Commit>, order: seq<nat>)
    requires Distinct(order) && forall k :: 0 <= k < |order| ==> order[k] < |commits|
    requires AllApart(base, commits, Members(order))
    ensures MergeAll(base, commits, order).Some?
    ensures IsOverlay(MergeAll(base, commits, order).value, base, commits, Members(order))
  {
    if order == [] {
      StartIsOverlay(base, commits);
    } else {
      var n := |order| - 1;
      var front := order[..n];
      assert order == front + [order[n]];
      assert Members(order) == Members(front) + {order[n]};
      AnyOrderMerges(base, commits, front);
      MergeOne(MergeAll(base, commits, front).value, base, commits, Members(front), order[n]);
    }
  }

  lemma OrderIrrelevant(base: Tree, commits: seq<Commit>, a: seq<nat>, b: seq<nat>)
    requires Distinct(a) && Distinct(b) && Members(a) == Members(b)
    requires forall k :: 0 <= k < |a| ==> a[k] < |commits|
    requires forall k :: 0 <= k < |b| ==> b[k] < |commits|
    requires AllApart(base, commits, Members(a))
    ensures MergeAll(base, commits, a).Some? && MergeAll(base, commits, a) == MergeAll(base, commits, b)
  {
    AnyOrderMerges(base, commits, a);
    AnyOrderMerges(base, commits, b);
    OverlayUnique(MergeAll(base, commits, a).value, MergeAll(base, commits, b).value, base, commits, Members(a));
  }

  // ---- The merge-back loop ----

  /** What git lists as changed: a deleted file by its name, a rewritten one by its name,
      a new one by its name, and a moved one by its new name only. */
  function Names(base: Tree, c: Commit): set<string>
  {
    (set p | p in base && p !in c.kept)
    + (set p | p in c.kept && p in base && c.kept[p] != BaseFile(base, p) :: c.kept[p].path)
    + c.added.Keys
  }

  /** The paths at which two trees differ. */
  ghost function Changed(base: Tree, t: Tree): set<string>
  {
    set p | p in base.Keys + t.Keys && !(p in base && p in t && base[p] == t[p])
  }

  /** For a tree the listing is every path that differs, but for the old names of renames. */
  lemma NamesOfTree(base: Tree, t: Tree, moves: map<string, string>)
    requires IsMoves(base, t, moves)
    ensures Names(base, Read(base, t, moves)) == Changed(base, t) - moves.Keys
  {
    var names := Names(base, Read(base, t, moves));
    forall p | p in Changed(base, t) - moves.Keys ensures p in names { NamedByTree(base, t, moves, p); }
    forall p | p in names ensures p in Changed(base, t) - moves.Keys { ChangedByName(base, t, moves, p); }
  }

  /** It is empty only for the base itself. */
  lemma NothingNamedIff(base: Tree, t: Tree, moves: map<string, string>)
    requires IsMoves(base, t, moves)
    ensures Names(base, Read(base, t, moves)) == {} <==> t == base
  {
    NamesOfTree(base, t, moves);
    if p :| p in moves {
      assert moves[p] in Changed(base, t) - moves.Keys;
    } else if t != base {
      var p :| p in base.Keys + t.Keys && !(p in base && p in t && base[p] == t[p]);
      assert p in Changed(base, t) - moves.Keys;
    }
  }

  lemma ChangedByName(base: Tree, t: Tree, moves: map<string, string>, p: string)
    requires IsMoves(base, t, moves) && p in Names(base, Read(base, t, moves))
    ensures p in Changed(base, t) - moves.Keys
  {
  }

  lemma NamedByTree(base: Tree, t: Tree, moves: map<string, string>, p: string)
    requires IsMoves(base, t, moves) && p in Changed(base, t) && p !in moves
    ensures p in Names(base, Read(base, t, moves))
  {
    var c := Read(base, t, moves);
    if p in base && p in t {
      assert c.kept[p] == File(p, t[p]);
    } else if q :| q in moves && moves[q] == p {
      assert c.kept[q] == File(p, t[p]);
    } else if p !in base {
      assert p in c.added;
    }
  }

  /** One worker when the loop reaches it: whether it reported success, whether its commit
      works, what git lists as its changed files (None when that fails), its commit, and
      whether git stops the merge for a reason outside the files themselves. */
  datatype Worker = Worker(success: bool, commits: bool, listed: Option<seq<string>>, commit: Commit, stopped: bool)

  ghost predicate Lists(base: Tree, w: Worker)
  {
    w.listed.Some? ==> forall p :: p in w.listed.value <==> p in Names(base, w.commit)
  }

  datatype Outcome = NotSuccessful | CommitFailed | NothingChanged | ListFailed | ScopeViolation | Conflict | Merged

  ghost predicate InScope(listed: seq<string>, scope: seq<string>)
  {
    forall k :: 0 <= k < |listed| ==> PathInScope(listed[k], scope)
  }

  ghost predicate Mergeable(base: Tree, task: SubTask, w: Worker)
  {
    w.success && w.commits && Names(base, w.commit) != {} && w.listed.Some? && InScope(w.listed.value, task.paths)
  }

  /** The merge of worker i conflicts with one of `who`, or git stops it anyway. */
  ghost predicate Blocked(base: Tree, workers: seq<Worker>, who: set<nat>, i: nat)
    requires i < |workers| && forall j :: j in who ==> j < |workers|
  {
    workers[i].stopped || exists j :: j in who && Collide(base, workers[j].commit, workers[i].commit)
  }

  /** The workers merged among the first n: those that may be and are not blocked by
      one merged before. */
  ghost function MergedSet(base: Tree, tasks: seq<SubTask>, workers: seq<Worker>, n: nat): (who: set<nat>)
    requires n <= |workers| == |tasks|
    ensures forall i :: i in who ==> i < n
  {
    if n == 0 then {}
    else
      var who := MergedSet(base, tasks, workers, n - 1);
      if Mergeable(base, tasks[n - 1], workers[n - 1]) && !Blocked(base, workers, who, n - 1) then who + {n - 1}
      else who
  }

  ghost function CommitsOf(workers: seq<Worker>): (commits: seq<Commit>)
    ensures |commits| == |workers|
  {
    seq(|workers|, i requires 0 <= i < |workers| => workers[i].commit)
  }

  /** A commit of base files and new ones, listed as git lists it. */
  ghost predicate Ordinary(base: Tree, w: Worker)
  {
    w.commit.kept.Keys <= base.Keys && Sound(w.commit) && Lists(base, w)
  }

  /** A pool with disjoint scopes whose workers left ordinary commits. */
  ghost predicate Pool(base: Tree, tasks: seq<SubTask>, workers: seq<Worker>)
  {
    && DisjointTasks(tasks) && |workers| == |tasks| && Tidy(base)
    && forall i :: 0 <= i < |workers| ==> Ordinary(base, workers[i])
  }

  /** A name listed for a mergeable worker is in its scope. */
  lemma NamedInScope(base: Tree, tasks: seq<SubTask>, workers: seq<Worker>, i: nat, p: string)
    requires Pool(base, tasks, workers) && i < |workers| && Mergeable(base, tasks[i], workers[i])
    requires p in Names(base, workers[i].commit)
    ensures PathInScope(p, tasks[i].paths)
  {
    assert p in workers[i].listed.value;
  }

  lemma PlacedIsNamed(base: Tree, c: Commit, k: Key)
    requires Placed(c, k) && c.kept.Keys <= base.Keys
    ensures Place(c, k) in Names(base, c)
  {
  }

  /** Disjoint scopes and the scope check keep apart what mergeable workers place. */
  lemma ScopesPlaceApart(base: Tree, tasks: seq<SubTask>, workers: seq<Worker>, i: nat, j: nat)
    requires Pool(base, tasks, workers) && i < |workers| && j < |workers| && i != j
    requires Mergeable(base, tasks[i], workers[i]) && Mergeable(base, tasks[j], workers[j])
    ensures PlacedApart(workers[i].commit, workers[j].commit)
  {
    var c, d := workers[i].commit, workers[j].commit;
    forall k, l | Placed(c, k) && Placed(d, l)
      ensures !(Segs(Place(c, k)) <= Segs(Place(d, l))) && !(Segs(Place(d, l)) <= Segs(Place(c, k)))
    {
      PlacedIsNamed(base, c, k);
      PlacedIsNamed(base, d, l);
      NamedInScope(base, tasks, workers, i, Place(c, k));
      NamedInScope(base, tasks, workers, j, Place(d, l));
      TasksDisjoint(tasks, i, j, Place(c, k), Place(d, l));
    }
  }

  /** The two made of a base file what git cannot combine, and the first one moved it. */
  ghost predicate MovedAgainst(base: Tree, c: Commit, d: Commit, p: string)
  {
    && p in base && p in c.kept && c.kept[p].path != p
    && (|| p !in d.kept
        || d.kept[p].path != p
        || (c.kept[p].content != base[p] && d.kept[p].content != base[p] && c.kept[p].content != d.kept[p].content))
  }

  ghost predicate EitherMoved(base: Tree, c: Commit, d: Commit, p: string)
  {
    MovedAgainst(base, c, d, p) || MovedAgainst(base, d, c, p)
  }

  /** Two workers of which one moved a file against what the other did to it. */
  ghost predicate MoveClash(base: Tree, c: Commit, d: Commit) { exists p :: EitherMoved(base, c, d, p) }

  /** No name is listed for two mergeable workers. */
  lemma NamedOnce(base: Tree, tasks: seq<SubTask>, workers: seq<Worker>, i: nat, j: nat, p: string)
    requires Pool(base, tasks, workers) && i < |workers| && j < |workers| && i != j
    requires Mergeable(base, tasks[i], workers[i]) && Mergeable(base, tasks[j], workers[j])
    ensures !(p in Names(base, workers[i].commit) && p in Names(base, workers[j].commit))
  {
    if p in Names(base, workers[i].commit) && p in Names(base, workers[j].commit) {
      NamedInScope(base, tasks, workers, i, p);
      NamedInScope(base, tasks, workers, j, p);
      TasksDisjoint(tasks, i, j, p, p);
    }
  }

  lemma ContraryIffMoved(base: Tree, c: Commit, d: Commit, p: string)
    requires p in base && PlacedApart(c, d) && !(p in Names(base, c) && p in Names(base, d))
    ensures Contrary(BaseFile(base, p), Fate(c, p), Fate(d, p)) <==> EitherMoved(base, c, d, p)
  {
    if p in c.kept && p in d.kept && c.kept[p].path != p && d.kept[p].path != p {
      assert Placed(c, Old(p)) && Placed(d, Old(p));
      assert c.kept[p].path != d.kept[p].path;
    }
    if Contrary(BaseFile(base, p), Fate(c, p), Fate(d, p)) {
      if p in c.kept ==> c.kept[p].path == p { UnmovedIsNamed(base, c, p); }
      if p in d.kept ==> d.kept[p].path == p { UnmovedIsNamed(base, d, p); }
    }
  }

  /** A base file that was changed but not moved is listed by its own name. */
  lemma UnmovedIsNamed(base: Tree, c: Commit, p: string)
    requires p in base && Fate(c, p) != Some(BaseFile(base, p)) && (p in c.kept ==> c.kept[p].path == p)
    ensures p in Names(base, c)
  {
  }

  lemma FilesIffMoved(base: Tree, c: Commit, d: Commit)
    requires PlacedApart(c, d) && forall p: string :: !(p in Names(base, c) && p in Names(base, d))
    ensures Collide(base, c, d) <==> MoveClash(base, c, d)
  {
    forall p | p in base ensures Contrary(BaseFile(base, p), Fate(c, p), Fate(d, p)) <==> EitherMoved(base, c, d, p) {
      ContraryIffMoved(base, c, d, p);
    }
  }

  /** In a pool it takes a move to collide: the other worker deleted or moved the same
      file, or both rewrote it differently. */
  lemma CollideIffMoved(base: Tree, tasks: seq<SubTask>, workers: seq<Worker>, i: nat, j: nat)
    requires Pool(base, tasks, workers) && i < |workers| && j < |workers| && i != j
    requires Mergeable(base, tasks[i], workers[i]) && Mergeable(base, tasks[j], workers[j])
    ensures Collide(base, workers[i].commit, workers[j].commit) <==>
            MoveClash(base, workers[i].commit, workers[j].commit)
  {
    forall p: string ensures !(p in Names(base, workers[i].commit) && p in Names(base, workers[j].commit)) {
      NamedOnce(base, tasks, workers, i, j, p);
    }
    ScopesPlaceApart(base, tasks, workers, i, j);
    FilesIffMoved(base, workers[i].commit, workers[j].commit);
  }

  lemma CollideSymmetric(base: Tree, c: Commit, d: Commit)
    ensures Collide(base, c, d) <==> Collide(base, d, c)
  {
  }

  lemma {:induction false} MergedMergeable(base: Tree, tasks: seq<SubTask>, workers: seq<Worker>, n: nat, i: nat)
    requires n <= |workers| == |tasks| && i in MergedSet(base, tasks, workers, n)
    ensures Mergeable(base, tasks[i], workers[i])
  {
    if i == n - 1 {
    } else {
      MergedMergeable(base, tasks, workers, n - 1, i);
    }
  }

  /** A merged worker collides with none merged before it. */
  lemma {:induction false} MergedAfter(base: Tree, tasks: seq<SubTask>, workers: seq<Worker>, n: nat, i: nat, j: nat)
    requires n <= |workers| == |tasks| && i < j
    requires i in MergedSet(base, tasks, workers, n) && j in MergedSet(base, tasks, workers, n)
    ensures !Collide(base, workers[i].commit, workers[j].commit)
  {
    if j < n - 1 {
      MergedAfter(base, tasks, workers, n - 1, i, j);
    } else {
      assert !Blocked(base, workers, MergedSet(base, tasks, workers, n - 1), n - 1);
    }
  }

  lemma MergedNeverCollide(base: Tree, tasks: seq<SubTask>, workers: seq<Worker>, n: nat, i: nat, j: nat)
    requires n <= |workers| == |tasks| && i != j
    requires i in MergedSet(base, tasks, workers, n) && j in MergedSet(base, tasks, workers, n)
    ensures !Collide(base, workers[i].commit, workers[j].commit)
  {
    if i < j {
      MergedAfter(base, tasks, workers, n, i, j);
    } else {
      MergedAfter(base, tasks, workers, n, j, i);
      CollideSymmetric(base, workers[i].commit, workers[j].commit);
    }
  }

  lemma AcceptedApart(base: Tree, tasks: seq<SubTask>, workers: seq<Worker>, n: nat)
    requires Pool(base, tasks, workers) && n <= |workers|
    ensures AllApart(base, CommitsOf(workers), MergedSet(base, tasks, workers, n))
  {
    var who := MergedSet(base, tasks, workers, n);
    forall i, j | i in who && j in who && i != j ensures Apart(base, workers[i].commit, workers[j].commit) {
      MergedMergeable(base, tasks, workers, n, i);
      MergedMergeable(base, tasks, workers, n, j);
      ScopesPlaceApart(base, tasks, workers, i, j);
      MergedNeverCollide(base, tasks, workers, n, i, j);
    }
  }

  /** The out-of-scope scan. */
  method AllInScope(changed: seq<string>, scope: seq<string>) returns (ok: bool)
    ensures ok <==> forall k :: 0 <= k < |changed| ==> PathInScope(changed[k], scope)
  {
    ok := true;
    for k := 0 to |changed|
      invariant ok <==> forall j :: 0 <= j < k ==> PathInScope(changed[j], scope)
    {
      if !PathInScope(changed[k], scope) { ok := false; }
    }
  }

  /** What the loop makes of worker i. */
  ghost function OutcomeOf(base: Tree, tasks: seq<SubTask>, workers: seq<Worker>, i: nat): Outcome
    requires i < |workers| == |tasks|
  {
    var w := workers[i];
    if !w.success then NotSuccessful
    else if !w.commits then CommitFailed
    else if Names(base, w.commit) == {} then NothingChanged
    else if w.listed.None? then ListFailed
    else if !InScope(w.listed.value, tasks[i].paths) then ScopeViolation
    else if Blocked(base, workers, MergedSet(base, tasks, workers, i), i) then Conflict
    else Merged
  }

  /** What each outcome says of the worker. */
  lemma OutcomesMean(base: Tree, tasks: seq<SubTask>, workers: seq<Worker>, i: nat)
    requires i < |workers| == |tasks|
    ensures var o := OutcomeOf(base, tasks, workers, i); var w := workers[i];
      && (o == NotSuccessful <==> !w.success)
      && (o == CommitFailed <==> w.success && !w.commits)
      && (o == NothingChanged <==> w.success && w.commits && Names(base, w.commit) == {})
      && (o == ListFailed <==> w.success && w.commits && Names(base, w.commit) != {} && w.listed.None?)
      && (o == ScopeViolation <==>
            && w.success && w.commits && Names(base, w.commit) != {} && w.listed.Some?
            && exists f :: f in w.listed.value && !PathInScope(f, tasks[i].paths))
      && (o == Merged <==> i in MergedSet(base, tasks, workers, i + 1))
      && (o == Merged || o == Conflict <==> Mergeable(base, tasks[i], w))
  {
    var w := workers[i];
    if w.listed.Some? {
      assert !InScope(w.listed.value, tasks[i].paths) <==>
             exists f :: f in w.listed.value && !PathInScope(f, tasks[i].paths);
    }
  }

  ghost predicate Outcomes(outcomes: seq<Outcome>, base: Tree, tasks: seq<SubTask>, workers: seq<Worker>)
  {
    && |outcomes| <= |workers| == |tasks|
    && forall k :: 0 <= k < |outcomes| ==> outcomes[k] == OutcomeOf(base, tasks, workers, k)
  }

  /** A worker that passes every check conflicts exactly when git stops its merge, or it
      or a worker merged before moved a file that the other deleted, moved or, where the
      move rewrites it, rewrote differently. */
  lemma ConflictIff(base: Tree, tasks: seq<SubTask>, workers: seq<Worker>, i: nat)
    requires Pool(base, tasks, workers) && i < |workers|
    ensures OutcomeOf(base, tasks, workers, i) == Conflict <==>
      && Mergeable(base, tasks[i], workers[i])
      && (|| workers[i].stopped
          || exists j :: j in MergedSet(base, tasks, workers, i)
                         && MoveClash(base, workers[j].commit, workers[i].commit))
  {
    if Mergeable(base, tasks[i], workers[i]) {
      forall j | j in MergedSet(base, tasks, workers, i)
        ensures Collide(base, workers[j].commit, workers[i].commit)
                <==> MoveClash(base, workers[j].commit, workers[i].commit)
      {
        MergedMergeable(base, tasks, workers, i, j);
        CollideIffMoved(base, tasks, workers, j, i);
      }
    }
  }

  /** Moves that start in the worker's own scope. */
  ghost predicate MovesOwn(base: Tree, task: SubTask, c: Commit)
  {
    forall p :: p in base && p in c.kept && c.kept[p].path != p ==> PathInScope(p, task.paths)
  }

  /** Workers that only move files of their own scopes never conflict. */
  lemma OwnMovesNeverConflict(base: Tree, tasks: seq<SubTask>, workers: seq<Worker>, i: nat)
    requires Pool(base, tasks, workers) && i < |workers| && !workers[i].stopped
    requires forall k :: 0 <= k < |workers| ==> MovesOwn(base, tasks[k], workers[k].commit)
    ensures OutcomeOf(base, tasks, workers, i) != Conflict
  {
    if Mergeable(base, tasks[i], workers[i]) {
      forall j | j in MergedSet(base, tasks, workers, i) ensures !Collide(base, workers[j].commit, workers[i].commit) {
        MergedMergeable(base, tasks, workers, i, j);
        forall p | p in base
          ensures !Contrary(BaseFile(base, p), Fate(workers[j].commit, p), Fate(workers[i].commit, p))
        {
          OwnChangesApart(base, tasks, workers, i, j, p);
        }
      }
    }
  }

  lemma ChangedInScope(base: Tree, tasks: seq<SubTask>, workers: seq<Worker>, i: nat, p: string)
    requires Pool(base, tasks, workers) && i < |workers| && Mergeable(base, tasks[i], workers[i])
    requires MovesOwn(base, tasks[i], workers[i].commit)
    requires p in base && Fate(workers[i].commit, p) != Some(BaseFile(base, p))
    ensures PathInScope(p, tasks[i].paths)
  {
    var c := workers[i].commit;
    if p in c.kept && c.kept[p].path != p {
    } else {
      UnmovedIsNamed(base, c, p);
      NamedInScope(base, tasks, workers, i, p);
    }
  }

  lemma OwnChangesApart(base: Tree, tasks: seq<SubTask>, workers: seq<Worker>, i: nat, j: nat, p: string)
    requires Pool(base, tasks, workers) && i < |workers| && j < |workers| && i != j && p in base
    requires Mergeable(base, tasks[i], workers[i]) && Mergeable(base, tasks[j], workers[j])
    requires MovesOwn(base, tasks[i], workers[i].commit) && MovesOwn(base, tasks[j], workers[j].commit)
    ensures !Contrary(BaseFile(base, p), Fate(workers[j].commit, p), Fate(workers[i].commit, p))
  {
    if Contrary(BaseFile(base, p), Fate(workers[j].commit, p), Fate(workers[i].commit, p)) {
      ChangedInScope(base, tasks, workers, i, p);
      ChangedInScope(base, tasks, workers, j, p);
      TasksDisjoint(tasks, i, j, p, p);
    }
  }

  /** A file that its own worker deletes and another worker moves away: the listing names
      only where it went, so the move passes the scope check, and git cannot merge it. */
  lemma MovedAndDeletedConflicts(tasks: seq<SubTask>, workers: seq<Worker>, path: string, target: string, was: string)
    requires |tasks| == |workers| == 2 && DisjointTasks(tasks)
    requires PathInScope(path, tasks[0].paths) && PathInScope(target, tasks[1].paths)
    requires workers[0] == Worker(true, true, Some([path]), Commit(map[], map[]), false)
    requires workers[1] == Worker(true, true, Some([target]), Commit(map[path := File(target, was)], map[]), false)
    ensures Pool(map[path := was], tasks, workers) && OutcomeOf(map[path := was], tasks, workers, 1) == Conflict
  {
    var base := map[path := was];
    TasksDisjoint(tasks, 0, 1, path, target);
    OneFileOrdinary(base, tasks[0], workers[0], path, path);
    OneFileOrdinary(base, tasks[1], workers[1], path, target);
    FirstMerged(base, tasks, workers);
    assert EitherMoved(base, workers[0].commit, workers[1].commit, path);
    ConflictIff(base, tasks, workers, 1);
  }

  lemma OneFileOrdinary(base: Tree, task: SubTask, w: Worker, path: string, name: string)
    requires w.success && w.commits && w.listed == Some([name]) && PathInScope(name, task.paths)
    requires base.Keys == {path} && w.commit.kept.Keys <= {path} && w.commit.added == map[]
    requires if path in w.commit.kept then path != name == w.commit.kept[path].path else path == name
    ensures Ordinary(base, w) && Mergeable(base, task, w)
  {
    forall k | k in Keys(w.commit) ensures k == Old(path) {}
    assert Names(base, w.commit) == {name};
  }

  lemma FirstMerged(base: Tree, tasks: seq<SubTask>, workers: seq<Worker>)
    requires |workers| == |tasks| > 0 && Mergeable(base, tasks[0], workers[0]) && !workers[0].stopped
    ensures 0 in MergedSet(base, tasks, workers, 1)
  {
    var none := MergedSet(base, tasks, workers, 0);
    assert none == {} && !Blocked(base, workers, none, 0);
  }

  /** A file that its own worker rewrites and another worker moves away: the rewriting
      follows the move, in either order. */
  lemma MovedAndRewrittenMerges(path: string, target: string, was: string, now: string)
    requires path != target && was != now
    ensures
      var base := map[path := was];
      var rewritten, moved := OneFile(path, File(path, now)), OneFile(path, File(target, was));
      var both := Some(OneFile(path, File(target, now)));
      Merge(base, rewritten, moved) == both && Merge(base, moved, rewritten) == both
  {
    MergeOneFile(map[path := was], path, File(path, now), File(target, was), File(target, now));
    MergeOneFile(map[path := was], path, File(target, was), File(path, now), File(target, now));
  }

  function OneFile(path: string, f: File): Commit { Commit(map[path := f], map[]) }

  lemma MergeOneFile(base: Tree, path: string, ours: File, theirs: File, both: File)
    requires base.Keys == {path} && MergeFate(BaseFile(base, path), Some(ours), Some(theirs)) == Some(Some(both))
    ensures Merge(base, OneFile(path, ours), OneFile(path, theirs)) == Some(OneFile(path, both))
  {
    var c, d := OneFile(path, ours), OneFile(path, theirs);
    assert Fate(c, path) == Some(ours) && Fate(d, path) == Some(theirs);
    var m := Combine(base, c, d);
    assert m.kept == map[path := both] && m.added == map[];
    forall k | k in Keys(m) ensures k == Old(path) {}
  }

  /** The branch is the base with the changes of the merged among the first n workers. */
  ghost predicate MergedUpTo(head: Commit, base: Tree, tasks: seq<SubTask>, workers: seq<Worker>, n: nat)
  {
    n <= |workers| == |tasks| && IsOverlay(head, base, CommitsOf(workers), MergedSet(base, tasks, workers, n))
  }

  /** Where the loop is after some turns. */
  ghost predicate SoFar(outcomes: seq<Outcome>, head: Commit, base: Tree, tasks: seq<SubTask>, workers: seq<Worker>)
  {
    Outcomes(outcomes, base, tasks, workers) && MergedUpTo(head, base, tasks, workers, |outcomes|)
  }

  lemma NoneSettled(base: Tree, tasks: seq<SubTask>, workers: seq<Worker>)
    requires |workers| == |tasks|
    ensures SoFar([], Start(base), base, tasks, workers)
  {
    StartIsOverlay(base, CommitsOf(workers));
  }

  lemma OneSettled(outcomes: seq<Outcome>, outcome: Outcome, was: Commit, head: Commit,
                   base: Tree, tasks: seq<SubTask>, workers: seq<Worker>)
    requires SoFar(outcomes, was, base, tasks, workers) && |outcomes| < |workers|
    requires outcome == OutcomeOf(base, tasks, workers, |outcomes|)
    requires MergedUpTo(head, base, tasks, workers, |outcomes| + 1)
    ensures SoFar(outcomes + [outcome], head, base, tasks, workers)
  {
  }

  lemma OneSkipped(head: Commit, base: Tree, tasks: seq<SubTask>, workers: seq<Worker>, i: nat)
    requires MergedUpTo(head, base, tasks, workers, i) && i < |workers|
    requires i !in MergedSet(base, tasks, workers, i + 1)
    ensures MergedUpTo(head, base, tasks, workers, i + 1)
  {
  }

  lemma OneLeftOut(head: Commit, base: Tree, tasks: seq<SubTask>, workers: seq<Worker>, i: nat)
    requires MergedUpTo(head, base, tasks, workers, i) && i < |workers|
    ensures OutcomeOf(base, tasks, workers, i) != Merged ==> MergedUpTo(head, base, tasks, workers, i + 1)
  {
    OutcomesMean(base, tasks, workers, i);
    if i !in MergedSet(base, tasks, workers, i + 1) { OneSkipped(head, base, tasks, workers, i); }
  }

  lemma OneConflicts(head: Commit, base: Tree, tasks: seq<SubTask>, workers: seq<Worker>, i: nat)
    requires MergedUpTo(head, base, tasks, workers, i) && i < |workers| && !workers[i].stopped
    requires Blocked(base, workers, MergedSet(base, tasks, workers, i), i)
    ensures Merge(base, head, workers[i].commit).None?
  {
    var who := MergedSet(base, tasks, workers, i);
    var j :| j in who && Collide(base, workers[j].commit, workers[i].commit);
    MergeConflicts(head, base, CommitsOf(workers), who, j, workers[i].commit);
  }

  lemma OneMerges(head: Commit, base: Tree, tasks: seq<SubTask>, workers: seq<Worker>, i: nat)
    requires Pool(base, tasks, workers) && MergedUpTo(head, base, tasks, workers, i) && i < |workers|
    requires Mergeable(base, tasks[i], workers[i]) && !Blocked(base, workers, MergedSet(base, tasks, workers, i), i)
    ensures Merge(base, head, workers[i].commit).Some?
    ensures MergedUpTo(Merge(base, head, workers[i].commit).value, base, tasks, workers, i + 1)
  {
    AcceptedApart(base, tasks, workers, i + 1);
    MergeOne(head, base, CommitsOf(workers), MergedSet(base, tasks, workers, i), i);
  }

  /** A mergeable worker that git does not stop is merged exactly when it collides with
      none merged before. */
  lemma OneMerged(head: Commit, base: Tree, tasks: seq<SubTask>, workers: seq<Worker>, i: nat)
    requires Pool(base, tasks, workers) && MergedUpTo(head, base, tasks, workers, i) && i < |workers|
    requires Mergeable(base, tasks[i], workers[i]) && !workers[i].stopped
    ensures var m := Merge(base, head, workers[i].commit);
      && (m.Some? <==> !Blocked(base, workers, MergedSet(base, tasks, workers, i), i))
      && OutcomeOf(base, tasks, workers, i) == (if m.Some? then Merged else Conflict)
      && (m.Some? ==> MergedUpTo(m.value, base, tasks, workers, i + 1))
  {
    if Blocked(base, workers, MergedSet(base, tasks, workers, i), i) {
      OneConflicts(head, base, tasks, workers, i);
    } else {
      OneMerges(head, base, tasks, workers, i);
    }
  }

  lemma MergedSound(head: Commit, base: Tree, tasks: seq<SubTask>, workers: seq<Worker>, n: nat)
    requires Pool(base, tasks, workers) && MergedUpTo(head, base, tasks, workers, n)
    ensures Sound(head)
  {
    AcceptedApart(base, tasks, workers, n);
    OverlaySound(head, base, CommitsOf(workers), MergedSet(base, tasks, workers, n));
  }

  /** The primary branch. */
  class Repo {
    var head: Commit

    constructor (base: Tree)
      ensures head == Start(base)
    {
      head := Start(base);
    }

    /** A merge that does not go through is aborted and leaves the branch as it was. */
    method MergeBranch(base: Tree, theirs: Commit, stopped: bool) returns (ok: bool)
      modifies this
      ensures ok <==> !stopped && Merge(base, old(head), theirs).Some?
      ensures head == if ok then Merge(base, old(head), theirs).value else old(head)
    {
      var m := Merge(base, head, theirs);
      ok := !stopped && m.Some?;
      if ok { head := m.value; }
    }

    /** The loop of internal/wsserver: with disjoint scopes a mergeable worker conflicts
        exactly when git stops its merge or it collides with one merged before, which
        takes a moved file; the other mergeable workers and no others are merged, and the
        branch ends as the base with exactly their changes. */
    method MergeBack(base: Tree, tasks: seq<SubTask>, workers: seq<Worker>)
      returns (outcomes: seq<Outcome>)
      requires Pool(base, tasks, workers) && head == Start(base)
      modifies this
      ensures |outcomes| == |workers| && Outcomes(outcomes, base, tasks, workers)
      ensures MergedUpTo(head, base, tasks, workers, |workers|) && Sound(head)
    {
      outcomes := [];
      NoneSettled(base, tasks, workers);
      for i := 0 to |workers|
        invariant |outcomes| == i && SoFar(outcomes, head, base, tasks, workers)
      {
        ghost var was := head;
        var outcome := Settle(base, tasks, workers, i);
        OneSettled(outcomes, outcome, was, head, base, tasks, workers);
        outcomes := outcomes + [outcome];
      }
      MergedSound(head, base, tasks, workers, |workers|);
    }

    /** One turn of the loop. */
    method Settle(base: Tree, tasks: seq<SubTask>, workers: seq<Worker>, i: nat)
      returns (outcome: Outcome)
      requires Pool(base, tasks, workers) && i < |workers|
      requires MergedUpTo(head, base, tasks, workers, i)
      modifies this
      ensures outcome == OutcomeOf(base, tasks, workers, i)
      ensures MergedUpTo(head, base, tasks, workers, i + 1)
    {
      var w := workers[i];
      OneLeftOut(head, base, tasks, workers, i);
      if !w.success { return NotSuccessful; }
      if !w.commits { return CommitFailed; }
      if Names(base, w.commit) == {} { return NothingChanged; }
      if w.listed.None? { return ListFailed; }
      var ok := AllInScope(w.listed.value, tasks[i].paths);
      if !ok { return ScopeViolation; }
      if !w.stopped { OneMerged(head, base, tasks, workers, i); }
      var merged := MergeBranch(base, w.commit, w.stopped);
      return if merged then Merged else Conflict;
    }
  }
}

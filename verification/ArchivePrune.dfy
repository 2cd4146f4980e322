/** scripts/prune_orphan_archive_files.py: which files the sweep deletes, and which directories the bottom-up pass takes
    away after it. A path is its list of names; the database's answers are given as sets of paths. */
module ArchivePrune {
  import opened Options

  type Path = seq<string>

  /** path equals ancestor or is somewhere beneath it. */
  predicate IsUnder(path: Path, ancestor: Path) { ancestor <= path }

  predicate Skipped(path: Path, skip: set<Path>) { exists s :: s in skip && IsUnder(path, s) }

  function Parent(path: Path): Path
    requires path != []
  {
    path[..|path| - 1]
  }

  predicate IsChild(path: Path, dir: Path) { path != [] && Parent(path) == dir }

  /** Every entry under root but root itself lies in a directory that is there. */
  ghost predicate IsTree(dirs: set<Path>, files: set<Path>, root: Path) {
    && (forall d | d in dirs && IsUnder(d, root) && d != root :: Parent(d) in dirs)
    && (forall f | f in files && IsUnder(f, root) :: f != root && Parent(f) in dirs)
    && (forall f | f in files :: f !in dirs)
  }

  lemma {:induction false} AncestorsAreThere(dirs: set<Path>, files: set<Path>, root: Path, path: Path, n: nat)
    requires IsTree(dirs, files, root) && (path in dirs || path in files) && IsUnder(path, root) && |root| <= n < |path|
    ensures path[..n] in dirs && IsUnder(path[..n], root)
    decreases |path| - n
  {
    if n < |path| - 1 {
      AncestorsAreThere(dirs, files, root, path, n + 1);
      assert path[..n + 1][..n] == path[..n];
    } else {
      assert path[..n] == Parent(path);
    }
  }

  lemma SkippedBelow(path: Path, ancestor: Path, skip: set<Path>)
    requires Skipped(ancestor, skip) && IsUnder(path, ancestor)
    ensures Skipped(path, skip)
  {
    var s :| s in skip && IsUnder(ancestor, s);
    assert IsUnder(path, s);
  }

  // ----- the walk -----

  /** The files the walk yields: those of a directory under root that is not skipped. */
  ghost predicate Yielded(files: set<Path>, root: Path, skip: set<Path>, f: Path) {
    f in files && IsUnder(f, root) && f != [] && !Skipped(Parent(f), skip)
  }

  ghost predicate Reaches(frontier: set<Path>, d: Path) { exists a :: a in frontier && IsUnder(d, a) }

  function Below(dirs: set<Path>, d: Path, skip: set<Path>): set<Path> {
    set c | c in dirs && IsChild(c, d) && !Skipped(c, skip)
  }

  /** What was reached through d is d itself, or reached through a child of it that is entered. */
  lemma Enters(dirs: set<Path>, files: set<Path>, root: Path, skip: set<Path>, d: Path, x: Path)
    requires IsTree(dirs, files, root) && x in dirs && IsUnder(d, root) && IsUnder(x, d) && !Skipped(x, skip)
    ensures !Skipped(d, skip)
    ensures x == d || Reaches(Below(dirs, d, skip), x)
  {
    if Skipped(d, skip) { SkippedBelow(x, d, skip); }
    if x != d {
      var c := x[..|d| + 1];
      if c != x { AncestorsAreThere(dirs, files, root, x, |d| + 1); }
      if Skipped(c, skip) { SkippedBelow(x, c, skip); }
      assert c[..|c| - 1] == d;
      assert c in Below(dirs, d, skip) && IsUnder(x, c);
    }
  }

  ghost predicate AllReached(dirs: set<Path>, root: Path, skip: set<Path>, visited: set<Path>, frontier: set<Path>) {
    forall x | x in dirs && IsUnder(x, root) && !Skipped(x, skip) :: x in visited || Reaches(frontier, x)
  }

  lemma StillReached(dirs: set<Path>, files: set<Path>, root: Path, skip: set<Path>, visited: set<Path>,
                     frontier: set<Path>, d: Path)
    requires IsTree(dirs, files, root) && AllReached(dirs, root, skip, visited, frontier)
    requires d in frontier && IsUnder(d, root)
    ensures AllReached(dirs, root, skip, visited + {d},
                       frontier - {d} + if Skipped(d, skip) then {} else Below(dirs, d, skip))
  {
    hide Below;
    var next := frontier - {d} + if Skipped(d, skip) then {} else Below(dirs, d, skip);
    forall x | x in dirs && IsUnder(x, root) && !Skipped(x, skip) && x !in visited + {d}
      ensures Reaches(next, x)
    {
      var a :| a in frontier && IsUnder(x, a);
      if a == d {
        Enters(dirs, files, root, skip, d, x);
        var b :| b in Below(dirs, d, skip) && IsUnder(x, b);
        assert b in next;
      } else {
        assert a in next;
      }
    }
  }

  /** Where the walk is: each entered directory was reached from one entered before, so none is entered twice. */
  ghost predicate Walking(dirs: set<Path>, root: Path, visited: set<Path>, frontier: set<Path>) {
    && visited <= dirs && frontier <= dirs && visited !! frontier
    && (forall d | d in visited + frontier :: IsUnder(d, root))
    && (forall d | d in visited + frontier && d != root :: d != [] && Parent(d) in visited)
  }

  lemma StillWalking(dirs: set<Path>, root: Path, skip: set<Path>, visited: set<Path>, frontier: set<Path>, d: Path)
    requires Walking(dirs, root, visited, frontier) && d in frontier
    ensures Walking(dirs, root, visited + {d}, frontier - {d} + if Skipped(d, skip) then {} else Below(dirs, d, skip))
  {
    forall c | c in Below(dirs, d, skip) ensures c !in visited + frontier && IsUnder(c, root) {
      assert |c| == |d| + 1 && c[..|d|] == d;
    }
  }

  /** Top-down, leaving out the skipped directories before they are entered. */
  method WalkFiles(dirs: set<Path>, files: set<Path>, root: Path, skip: set<Path>) returns (found: set<Path>)
    requires IsTree(dirs, files, root)
    ensures root !in dirs ==> found == {}
    ensures root in dirs ==> forall f :: f in found <==> Yielded(files, root, skip, f)
  {
    hide Below, Skipped, Reaches, AllReached, Walking;
    found := {};
    if root !in dirs { return; }
    var frontier, visited: set<Path> := {root}, {};
    Begin(dirs, root, skip);
    while frontier != {}
      invariant Walking(dirs, root, visited, frontier) && AllReached(dirs, root, skip, visited, frontier)
      invariant found == Gathered(files, visited, skip)
      decreases dirs - visited
    {
      var d :| d in frontier;
      EnteredOnce(dirs, root, visited, frontier, d);
      StillWalking(dirs, root, skip, visited, frontier, d);
      StillReached(dirs, files, root, skip, visited, frontier, d);
      GatherMore(files, visited, skip, d);
      frontier := frontier - {d} + if Skipped(d, skip) then {} else Below(dirs, d, skip);
      found := found + if Skipped(d, skip) then {} else set f | f in files && IsChild(f, d);
      visited := visited + {d};
    }
    WalkedAll(dirs, files, root, skip, visited);
  }

  ghost function Gathered(files: set<Path>, visited: set<Path>, skip: set<Path>): set<Path> {
    set f | f in files && f != [] && Parent(f) in visited && !Skipped(Parent(f), skip)
  }

  lemma Begin(dirs: set<Path>, root: Path, skip: set<Path>)
    requires root in dirs
    ensures Walking(dirs, root, {}, {root}) && AllReached(dirs, root, skip, {}, {root})
    ensures forall files :: Gathered(files, {}, skip) == {}
  {
    assert root in {root};
  }

  lemma EnteredOnce(dirs: set<Path>, root: Path, visited: set<Path>, frontier: set<Path>, d: Path)
    requires Walking(dirs, root, visited, frontier) && d in frontier
    ensures d in dirs && d !in visited && IsUnder(d, root)
  {
  }

  lemma GatherMore(files: set<Path>, visited: set<Path>, skip: set<Path>, d: Path)
    ensures Gathered(files, visited + {d}, skip) ==
      Gathered(files, visited, skip) + if Skipped(d, skip) then {} else set f | f in files && IsChild(f, d)
  {
    hide Skipped;
  }

  lemma WalkedAll(dirs: set<Path>, files: set<Path>, root: Path, skip: set<Path>, visited: set<Path>)
    requires IsTree(dirs, files, root) && Walking(dirs, root, visited, {}) && AllReached(dirs, root, skip, visited, {})
    ensures forall f :: f in Gathered(files, visited, skip) <==> Yielded(files, root, skip, f)
  {
    hide Skipped;
    forall f | f in files && f != [] && IsUnder(f, root) && !Skipped(Parent(f), skip)
      ensures Parent(f) in visited
    {
      assert IsUnder(Parent(f), root);
      assert !Reaches({}, Parent(f));
    }
    forall f | f in Gathered(files, visited, skip) ensures IsUnder(f, root) {
      assert IsUnder(Parent(f), root) && IsUnder(f, Parent(f));
    }
  }

  // ----- the collapse -----

  predicate HasFile(files: set<Path>, d: Path) { exists f :: f in files && IsUnder(f, d) }

  predicate AboveSkipped(dirs: set<Path>, skip: set<Path>, d: Path) {
    exists e :: e in dirs && IsUnder(e, d) && Skipped(e, skip)
  }

  /** What an apply takes away below root: the directories with no file beneath them that neither lie in a skipped
      directory nor have one beneath them. */
  function Removable(dirs: set<Path>, files: set<Path>, root: Path, skip: set<Path>): set<Path> {
    set d | d in dirs && IsUnder(d, root) && d != root && !HasFile(files, d) && !AboveSkipped(dirs, skip, d)
  }

  /** What a dry run counts: the directories below root, not skipped, that are empty as they are. */
  function EmptyNow(dirs: set<Path>, files: set<Path>, root: Path, skip: set<Path>): set<Path> {
    set d | d in dirs && IsUnder(d, root) && d != root && !Skipped(d, skip) && IsEmptyDir(dirs, files, d)
  }

  lemma CountsWhenEmpty(dirs: set<Path>, files: set<Path>, root: Path, skip: set<Path>, order: seq<Path>, i: nat)
    requires IsBottomUp(order, dirs, root) && i < |order|
    ensures var d := order[i];
      d in EmptyNow(dirs, files, root, skip) <==> d != root && !Skipped(d, skip) && IsEmptyDir(dirs, files, d)
  {
    hide Skipped, IsEmptyDir;
    assert order[i] in order;
  }

  lemma CountedAll(dirs: set<Path>, files: set<Path>, root: Path, skip: set<Path>, order: seq<Path>)
    requires IsBottomUp(order, dirs, root)
    ensures Taken(order, |order|, EmptyNow(dirs, files, root, skip)) == EmptyNow(dirs, files, root, skip)
  {
    hide Skipped, IsEmptyDir;
    assert order[..|order|] == order;
  }

  predicate IsEmptyDir(dirs: set<Path>, files: set<Path>, d: Path) {
    (forall c | c in dirs :: !IsChild(c, d)) && (forall f | f in files :: !IsChild(f, d))
  }

  /** os.walk(topdown=False): every directory under root once, and none before one beneath it. */
  ghost predicate IsBottomUp(order: seq<Path>, dirs: set<Path>, root: Path) {
    && (forall d :: d in order <==> d in dirs && IsUnder(d, root))
    && (forall i, j | 0 <= i < j < |order| :: !IsUnder(order[j], order[i]))
  }

  lemma Beneath(path: Path, ancestor: Path)
    requires IsUnder(path, ancestor)
    ensures path == ancestor || |path| > |ancestor|
  {
    if |path| == |ancestor| { assert path == ancestor; }
  }

  /** A directory is left because of a file or of a skipped directory beneath it; so is each one on the way there. */
  lemma LeftBelow(dirs: set<Path>, files: set<Path>, root: Path, skip: set<Path>, d: Path)
    requires IsTree(dirs, files, root) && d in dirs && IsUnder(d, root) && d != root && !Skipped(d, skip)
    requires d !in Removable(dirs, files, root, skip)
    ensures (exists f :: f in files && IsChild(f, d)) ||
            (exists c :: c in dirs && IsChild(c, d) && c !in Removable(dirs, files, root, skip))
  {
    if HasFile(files, d) {
      var f :| f in files && IsUnder(f, d);
      assert f !in dirs;
      Beneath(f, d);
      var c := f[..|d| + 1];
      assert c[..|c| - 1] == d;
      if c != f {
        AncestorsAreThere(dirs, files, root, f, |d| + 1);
        assert c in dirs && IsChild(c, d) && HasFile(files, c);
      }
    } else {
      var e :| e in dirs && IsUnder(e, d) && Skipped(e, skip);
      var c := e[..|d| + 1];
      assert c[..|c| - 1] == d;
      if c != e { AncestorsAreThere(dirs, files, root, e, |d| + 1); }
      assert c in dirs && IsChild(c, d) && AboveSkipped(dirs, skip, c);
    }
  }

  /** Below a removable directory everything is removable. */
  lemma RemovableBelow(dirs: set<Path>, files: set<Path>, root: Path, skip: set<Path>, d: Path, c: Path)
    requires d in Removable(dirs, files, root, skip) && c in dirs && IsUnder(c, d)
    ensures c in Removable(dirs, files, root, skip)
  {
    assert forall p: Path | IsUnder(p, c) :: IsUnder(p, d);
  }

  /** With what is removable before it gone, a directory is empty exactly when it is removable. */
  lemma EmptyWhenRemovable(dirs: set<Path>, files: set<Path>, root: Path, skip: set<Path>, order: seq<Path>, i: nat)
    requires IsTree(dirs, files, root) && IsBottomUp(order, dirs, root) && i < |order|
    requires order[i] != root && !Skipped(order[i], skip)
    ensures var gone := Removable(dirs, files, root, skip);
      IsEmptyDir(dirs - Taken(order, i, gone), files, order[i]) <==> order[i] in gone
  {
    var d := order[i];
    var gone := Removable(dirs, files, root, skip);
    assert d in order;
    if d in gone {
      forall c | c in dirs && IsChild(c, d) ensures c in Taken(order, i, gone) {
        RemovableBelow(dirs, files, root, skip, d, c);
        assert c in order;
        var j :| 0 <= j < |order| && order[j] == c;
        assert j < i;
      }
      forall f | f in files ensures !IsChild(f, d) {
        if IsChild(f, d) { assert IsUnder(f, d); }
      }
    } else {
      LeftBelow(dirs, files, root, skip, d);
      if c :| c in dirs && IsChild(c, d) && c !in gone { assert c in dirs - Taken(order, i, gone); }
    }
  }

  function Taken(order: seq<Path>, n: nat, gone: set<Path>): set<Path>
    requires n <= |order|
  {
    set d | d in order[..n] && d in gone
  }

  /** Nothing more is removable afterwards, and what is left is still a tree. */
  lemma CollapseTwice(dirs: set<Path>, files: set<Path>, root: Path, skip: set<Path>)
    requires IsTree(dirs, files, root)
    ensures var left := dirs - Removable(dirs, files, root, skip);
      IsTree(left, files, root) && Removable(left, files, root, skip) == {}
  {
    hide HasFile;
    var gone := Removable(dirs, files, root, skip);
    var left := dirs - gone;
    forall d | d in left && IsUnder(d, root) && d != root ensures Parent(d) in left {
      if Parent(d) in gone { RemovableBelow(dirs, files, root, skip, Parent(d), d); }
    }
    forall f | f in files && IsUnder(f, root) ensures Parent(f) in left { FileKeeps(dirs, files, root, skip, f); }
    forall d | d in left && IsUnder(d, root) && d != root && !HasFile(files, d) ensures AboveSkipped(left, skip, d) {
      assert AboveSkipped(dirs, skip, d);
      var e :| e in dirs && IsUnder(e, d) && Skipped(e, skip);
      assert AboveSkipped(dirs, skip, e);
      assert e in left;
    }
  }

  lemma FileKeeps(dirs: set<Path>, files: set<Path>, root: Path, skip: set<Path>, f: Path)
    requires IsTree(dirs, files, root) && f in files && IsUnder(f, root)
    ensures f != [] && Parent(f) in dirs - Removable(dirs, files, root, skip)
  {
    assert IsUnder(f, Parent(f));
    assert HasFile(files, Parent(f));
  }

  // ----- the sweep -----

  /** What the database says: the files it names, and the folders its archive rows own. */
  datatype Database = Database(referenced: set<Path>, owned: set<Path>)

  /** A file the walk yields that nothing in the database claims. */
  ghost predicate Orphan(db: Database, files: set<Path>, root: Path, skip: set<Path>, f: Path) {
    Yielded(files, root, skip, f) && f !in db.referenced && forall d | d in db.owned :: !IsUnder(f, d)
  }

  class DataDir {
    var dirs: set<Path>
    var files: set<Path>

    /** The bottom-up pass over one root; with apply off it only counts the directories that are empty now. */
    method Collapse(root: Path, skip: set<Path>, apply: bool, order: seq<Path>) returns (removed: nat)
      requires IsTree(dirs, files, root) && IsBottomUp(order, dirs, root)
      modifies this`dirs
      ensures apply ==> dirs == old(dirs) - Removable(old(dirs), files, root, skip)
      ensures apply ==> removed == |Removable(old(dirs), files, root, skip)|
      ensures !apply ==> dirs == old(dirs) && removed == |EmptyNow(dirs, files, root, skip)|
    {
      hide Removable, IsEmptyDir, Skipped, Taken, IsBottomUp, IsTree, EmptyNow;
      NoneTaken(order, Removable(dirs, files, root, skip));
      NoneTaken(order, EmptyNow(dirs, files, root, skip));
      ghost var empty := EmptyNow(dirs, files, root, skip);
      ghost var was := dirs;
      ghost var gone := Removable(dirs, files, root, skip);
      removed := 0;
      var i := 0;
      while i < |order|
        invariant 0 <= i <= |order|
        invariant dirs == if apply then was - Taken(order, i, gone) else was
        invariant removed == |Taken(order, i, if apply then gone else empty)|
      {
        var d := order[i];
        TakeOne(was, root, order, i, gone);
        TakeOne(was, root, order, i, empty);
        CountsWhenEmpty(was, files, root, skip, order, i);
        if d != root && !Skipped(d, skip) {
          if apply { EmptyWhenRemovable(was, files, root, skip, order, i); }
          if IsEmptyDir(dirs, files, d) {
            if apply { dirs := dirs - {d}; }
            removed := removed + 1;
          }
        } else {
          KeptAnyway(was, files, root, skip, d);
        }
        i := i + 1;
      }
      TakenAll(was, files, root, skip, order);
      CountedAll(was, files, root, skip, order);
    }

    /** The orphans under one root. */
    method FindOrphans(db: Database, root: Path, skip: set<Path>) returns (orphans: set<Path>)
      requires IsTree(dirs, files, root)
      ensures forall f :: f in orphans <==> root in dirs && Orphan(db, files, root, skip, f)
    {
      var found := WalkFiles(dirs, files, root, skip);
      orphans := set f | f in found && f !in db.referenced && forall d | d in db.owned :: !IsUnder(f, d);
    }

    /** Unlinks what was found; a file the OS will not delete is reported and left. */
    method Delete(orphans: set<Path>, fails: set<Path>)
      modifies this`files
      ensures files == old(files) - (orphans - fails)
    {
      var rest := orphans;
      while rest != {}
        invariant rest <= orphans
        invariant files == old(files) - ((orphans - rest) - fails)
        decreases |rest|
      {
        var f :| f in rest;
        if f !in fails { files := files - {f}; }
        rest := rest - {f};
      }
    }

    /** The whole run over the two roots, which lie apart: the sweep first, then the collapse of what it left empty. */
    method Run(db: Database, archive: Path, library: Path, skip: set<Path>, apply: bool, fails: set<Path>,
               first: seq<Path>, second: seq<Path>) returns (orphans: set<Path>)
      requires IsTree(dirs, files, archive) && IsTree(dirs, files, library)
      requires !IsUnder(archive, library) && !IsUnder(library, archive)
      requires IsBottomUp(first, dirs, archive) && IsBottomUp(second, dirs, library)
      modifies this
      ensures archive !in old(dirs) ==> orphans == {}
      ensures archive in old(dirs) ==> forall f :: f in orphans <==>
        || Orphan(db, old(files), archive, skip, f)
        || (library in old(dirs) && Orphan(db, old(files), library, skip, f))
      ensures !apply || archive !in old(dirs) ==> dirs == old(dirs) && files == old(files)
      ensures apply && archive in old(dirs) ==>
        && files == old(files) - (orphans - fails)
        && dirs == old(dirs) - Removable(old(dirs), files, archive, skip) - Removable(old(dirs), files, library, skip)
    {
      hide Removable, IsBottomUp, Orphan;
      orphans := {};
      if archive !in dirs { return; }
      orphans := FindOrphans(db, archive, skip);
      var more := FindOrphans(db, library, skip);
      orphans := orphans + more;
      ghost var was := dirs;
      if apply { Delete(orphans, fails); }
      var _ := Collapse(archive, skip, apply, first);
      if apply { Apart(was, files, archive, library, skip, second); }
      var _ := Collapse(library, skip, apply, second);
    }
  }

  /** Collapsing one root changes nothing for the other. */
  lemma Apart(dirs: set<Path>, files: set<Path>, archive: Path, library: Path, skip: set<Path>, order: seq<Path>)
    requires IsTree(dirs, files, archive) && IsTree(dirs, files, library) && IsBottomUp(order, dirs, library)
    requires !IsUnder(archive, library) && !IsUnder(library, archive)
    ensures var left := dirs - Removable(dirs, files, archive, skip);
      && IsTree(left, files, library) && IsBottomUp(order, left, library)
      && Removable(left, files, library, skip) == Removable(dirs, files, library, skip)
  {
    var gone := Removable(dirs, files, archive, skip);
    var left := dirs - gone;
    forall d | d in dirs && IsUnder(d, library) ensures d in left { NotBoth(d, archive, library); }
    forall f | f in files && IsUnder(f, library) ensures Parent(f) in left {
      Beneath(f, library);
      assert IsUnder(Parent(f), library);
    }
    forall d | d in left && IsUnder(d, library) && d != library ensures Parent(d) in left {
      Beneath(d, library);
      assert IsUnder(Parent(d), library);
    }
    forall d | d in dirs && IsUnder(d, library) ensures AboveSkipped(left, skip, d) <==> AboveSkipped(dirs, skip, d) {
      if e :| e in dirs && IsUnder(e, d) && Skipped(e, skip) { assert IsUnder(e, library) && e in left; }
    }
  }

  lemma OnOneLine(path: Path, a: Path, b: Path)
    requires IsUnder(path, a) && IsUnder(path, b)
    ensures IsUnder(a, b) || IsUnder(b, a)
  {
    if |a| <= |b| { assert a == path[..|a|] == b[..|a|]; } else { assert b == path[..|b|] == a[..|b|]; }
  }

  lemma NotBoth(path: Path, a: Path, b: Path)
    requires !IsUnder(a, b) && !IsUnder(b, a) && IsUnder(path, b)
    ensures !IsUnder(path, a)
  {
    if IsUnder(path, a) { OnOneLine(path, a, b); }
  }

  lemma KeptAnyway(dirs: set<Path>, files: set<Path>, root: Path, skip: set<Path>, d: Path)
    requires d == root || Skipped(d, skip)
    ensures d !in Removable(dirs, files, root, skip)
  {
    hide Skipped;
    assert IsUnder(d, d);
  }

  lemma NoneTaken(order: seq<Path>, gone: set<Path>)
    ensures Taken(order, 0, gone) == {}
  {
  }

  lemma TakeOne(dirs: set<Path>, root: Path, order: seq<Path>, i: nat, gone: set<Path>)
    requires IsBottomUp(order, dirs, root) && i < |order|
    ensures Taken(order, i + 1, gone) == Taken(order, i, gone) + (if order[i] in gone then {order[i]} else {})
    ensures order[i] !in Taken(order, i, gone) && order[i] in dirs
  {
    assert order[i] in order;
    assert forall j | 0 <= j < i :: order[j] != order[i] by {
      forall j | 0 <= j < i ensures order[j] != order[i] { assert !IsUnder(order[i], order[j]); }
    }
    assert order[..i + 1] == order[..i] + [order[i]];
  }

  lemma TakenAll(dirs: set<Path>, files: set<Path>, root: Path, skip: set<Path>, order: seq<Path>)
    requires IsBottomUp(order, dirs, root)
    ensures Taken(order, |order|, Removable(dirs, files, root, skip)) == Removable(dirs, files, root, skip)
  {
    assert order[..|order|] == order;
  }
}

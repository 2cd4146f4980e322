/** scripts/step_preview_sources.py: which sources the copyleft parts of a component need, the bundle that carries them,
    and the check its publishers make of it.

    Fetching, git, recipes, hashing and JSON are given by the world. File names are numbers in their sort order. */
module SourcesBundle {
  import opened Options
  import opened Sorting

  type File = nat
  type Bytes = seq<int>
  type Sha = string

  // ----- the notices -----

  datatype Source =
    | Srpm(url: string, sha: Sha, file: File)
    | Archive(url: string, sha: Sha, file: File)
    | Git(url: string, commit: string, file: File)
    | OtherKind

  datatype Package = Package(platform: string, named: bool, url: string, sha: Sha, file: File)

  datatype Tree = Tree(url: string, commit: string, file: File)

  /** who names the part by its family and id; packages are in platform order. */
  datatype Component = Component(who: string, copyleft: bool, source: Source, packages: seq<Package>,
                                 builtBy: Option<Tree>)

  datatype Notices = Notices(closure: Sha, components: seq<Component>)

  predicate IsHex(s: string, n: nat) {
    |s| == n && forall c | c in s :: '0' <= c <= '9' || 'a' <= c <= 'f'
  }

  lemma HexExactly(s: string, n: nat)
    ensures IsHex(s, n) <==> |s| == n && forall i | 0 <= i < |s| :: s[i] in "0123456789abcdef"
  {
    HexDigits();
    assert forall i | 0 <= i < |s| :: s[i] in s;
  }

  lemma HexDigits()
    ensures forall c: char :: ('0' <= c <= '9' || 'a' <= c <= 'f') <==> c in "0123456789abcdef"
  {
    var digits := "0123456789abcdef";
    forall c: char | '0' <= c <= '9' ensures c in digits { assert digits[c as int - 48] == c; }
    forall c: char | 'a' <= c <= 'f' ensures c in digits { assert digits[c as int - 87] == c; }
  }

  predicate PinnedGit(url: string, commit: string) { url != "" && IsHex(commit, 40) }

  predicate PinnedBytes(url: string, sha: Sha) {
    ("https://" <= url || "http://" <= url) && IsHex(sha, 64)
  }

  // ----- plan -----

  /** What one source is, however many parts it serves. */
  datatype Key = BytesKey(srpm: bool, sha: Sha) | GitKey(url: string, commit: string) | RecipeKey(sha: Sha)

  datatype Kind = IsSrpm | IsArchive | IsGit | IsRecipe

  datatype Entry = Entry(
    kind: Kind, url: string, sha: Option<Sha>, commit: Option<string>, packageSha: Option<Sha>, file: File,
    serves: seq<string>)

  datatype Need = Need(key: Key, entry: Entry, suffix: string)

  function Upstream(c: Component): Option<Need> {
    match c.source
    case Srpm(url, sha, file) =>
      if PinnedBytes(url, sha) then
        Some(Need(BytesKey(true, sha), Entry(IsSrpm, url, Some(sha), None, None, file, []), ""))
      else None
    case Archive(url, sha, file) =>
      if PinnedBytes(url, sha) then
        Some(Need(BytesKey(false, sha), Entry(IsArchive, url, Some(sha), None, None, file, []), ""))
      else None
    case Git(url, commit, file) =>
      if PinnedGit(url, commit) then
        Some(Need(GitKey(url, commit), Entry(IsGit, url, None, Some(commit), None, file, []), ""))
      else None
    case OtherKind => None
  }

  function RecipeNeed(p: Package): Need {
    Need(RecipeKey(p.sha), Entry(IsRecipe, p.url, None, None, Some(p.sha), p.file, []), "@" + p.platform)
  }

  function TreeNeed(t: Tree): Need {
    Need(GitKey(t.url, t.commit), Entry(IsGit, t.url, None, Some(t.commit), None, t.file, []), "")
  }

  predicate PinnedPackage(p: Package) { IsHex(p.sha, 64) && p.named }

  function Recipes(packages: seq<Package>): seq<Need> {
    seq(|packages|, i requires 0 <= i < |packages| => RecipeNeed(packages[i]))
  }

  /** What controlled the part's build; None when nothing says how it was built, or something of it is not pinned. */
  method Builds(c: Component) returns (r: Option<seq<Need>>)
    ensures r == BuildsOf(c)
  {
    if c.source.Srpm? { return Some([]); }
    var found := [];
    var i := 0;
    while i < |c.packages|
      invariant 0 <= i <= |c.packages|
      invariant found == Recipes(c.packages[..i])
      invariant forall k | 0 <= k < i :: PinnedPackage(c.packages[k])
    {
      var p := c.packages[i];
      if !PinnedPackage(p) {
        assert p in c.packages;
        return None;
      }
      found := found + [RecipeNeed(p)];
      i := i + 1;
      assert found == Recipes(c.packages[..i]);
    }
    assert c.packages[..i] == c.packages && found == Recipes(c.packages);
    assert forall p | p in c.packages :: PinnedPackage(p);
    if c.builtBy.Some? {
      if !PinnedGit(c.builtBy.value.url, c.builtBy.value.commit) { return None; }
      found := found + [TreeNeed(c.builtBy.value)];
    }
    r := if found == [] then None else Some(found);
  }

  function BuildsOf(c: Component): Option<seq<Need>> {
    if c.source.Srpm? then Some([])
    else if exists p :: p in c.packages && !PinnedPackage(p) then None
    else if c.builtBy.Some? && !PinnedGit(c.builtBy.value.url, c.builtBy.value.commit) then None
    else
      var recipes := Recipes(c.packages);
      var found := if c.builtBy.Some? then recipes + [TreeNeed(c.builtBy.value)] else recipes;
      if found == [] then None else Some(found)
  }

  /** The build's parts, one by one: a source package carries its own; else every package's recipe and the build tree,
      in that order, all of them pinned; and there is none when anything of it is not pinned or there is nothing. */
  lemma BuildsExactly(c: Component)
    ensures c.source.Srpm? ==> BuildsOf(c) == Some([])
    ensures !c.source.Srpm? ==>
      (BuildsOf(c).None? <==>
        || (exists p :: p in c.packages && !(IsHex(p.sha, 64) && p.named))
        || (c.builtBy.Some? && !(c.builtBy.value.url != "" && IsHex(c.builtBy.value.commit, 40)))
        || (c.packages == [] && c.builtBy.None?))
    ensures !c.source.Srpm? && BuildsOf(c).Some? ==>
      var needs, n := BuildsOf(c).value, |c.packages|;
      && |needs| == n + (if c.builtBy.Some? then 1 else 0)
      && (forall i | 0 <= i < n :: var p := c.packages[i];
            && needs[i].key == RecipeKey(p.sha) && needs[i].suffix == "@" + p.platform
            && needs[i].entry == Entry(IsRecipe, p.url, None, None, Some(p.sha), p.file, []))
      && (c.builtBy.Some? ==> var b := c.builtBy.value;
            && needs[n].key == GitKey(b.url, b.commit) && needs[n].suffix == ""
            && needs[n].entry == Entry(IsGit, b.url, None, Some(b.commit), None, b.file, []))
  {
    hide IsHex;
  }

  /** The part's own source, when it is pinned: bytes by their hash, a tree by its commit. */
  lemma UpstreamExactly(c: Component)
    ensures Upstream(c).None? <==>
      match c.source
      case Srpm(url, sha, _) => !(("https://" <= url || "http://" <= url) && IsHex(sha, 64))
      case Archive(url, sha, _) => !(("https://" <= url || "http://" <= url) && IsHex(sha, 64))
      case Git(url, commit, _) => !(url != "" && IsHex(commit, 40))
      case OtherKind => true
    ensures Upstream(c).Some? ==>
      var n := Upstream(c).value;
      && n.suffix == ""
      && match c.source
         case Srpm(url, sha, file) =>
           n.key == BytesKey(true, sha) && n.entry == Entry(IsSrpm, url, Some(sha), None, None, file, [])
         case Archive(url, sha, file) =>
           n.key == BytesKey(false, sha) && n.entry == Entry(IsArchive, url, Some(sha), None, None, file, [])
         case Git(url, commit, file) =>
           n.key == GitKey(url, commit) && n.entry == Entry(IsGit, url, None, Some(commit), None, file, [])
         case OtherKind => true
  {
    hide IsHex;
  }

  /** The part cannot be served: its upstream or its build is not pinned, or nothing says how it was built. */
  predicate Vague(c: Component) { c.copyleft && (Upstream(c).None? || BuildsOf(c).None?) }

  /** What a part needs: nothing unless it is copyleft; else its own source and then its build. */
  lemma NeedsExactly(c: Component)
    ensures !c.copyleft ==> NeedsOf(c) == []
    ensures c.copyleft && Upstream(c).Some? && BuildsOf(c).Some? ==>
      NeedsOf(c) == [Upstream(c).value] + BuildsOf(c).value
  {
    hide Upstream, BuildsOf;
  }

  function NeedsOf(c: Component): seq<Need> {
    if !c.copyleft || Vague(c) then [] else [Upstream(c).value] + BuildsOf(c).value
  }

  /** setdefault(key, entry)["serves"].append(who + suffix) */
  function Serve(found: map<Key, Entry>, n: Need, who: string): map<Key, Entry> {
    var e := if n.key in found then found[n.key] else n.entry;
    found[n.key := e.(serves := e.serves + [who + n.suffix])]
  }

  function ServeAll(found: map<Key, Entry>, needs: seq<Need>, who: string): map<Key, Entry> {
    if needs == [] then found else
      Serve(ServeAll(found, needs[..|needs| - 1], who), needs[|needs| - 1], who)
  }

  function Gather(components: seq<Component>): map<Key, Entry> {
    if components == [] then map[] else
      var c := components[|components| - 1];
      ServeAll(Gather(components[..|components| - 1]), NeedsOf(c), c.who)
  }

  function FilesAt(found: map<Key, Entry>, keys: set<Key>): set<File>
    requires keys <= found.Keys
  {
    set key | key in keys :: found[key].file
  }

  ghost predicate DifferAt(found: map<Key, Entry>, keys: set<Key>)
    requires keys <= found.Keys
  {
    forall k, l | k in keys && l in keys && k != l :: found[k].file != found[l].file
  }

  lemma {:induction false} FilesCount(found: map<Key, Entry>, keys: set<Key>)
    requires keys <= found.Keys
    ensures |FilesAt(found, keys)| <= |keys|
    ensures |FilesAt(found, keys)| == |keys| <==> DifferAt(found, keys)
    decreases |keys|
  {
    if keys == {} {
      assert FilesAt(found, keys) == {};
    } else {
      var k :| k in keys;
      var rest := keys - {k};
      FilesCount(found, rest);
      assert FilesAt(found, keys) == FilesAt(found, rest) + {found[k].file};
      if found[k].file in FilesAt(found, rest) {
        assert FilesAt(found, keys) == FilesAt(found, rest);
        var l :| l in rest && found[l].file == found[k].file;
      }
    }
  }

  /** The plan holds: every copyleft part is pinned with its build, and no two sources share a file name. */
  ghost predicate Planned(n: Notices) {
    && (forall c | c in n.components :: !Vague(c))
    && var found := Gather(n.components); DifferAt(found, found.Keys)
  }

  method ServeNeeds(before: map<Key, Entry>, needs: seq<Need>, who: string) returns (found: map<Key, Entry>)
    ensures found == ServeAll(before, needs, who)
  {
    hide Serve;
    found := before;
    var j := 0;
    while j < |needs|
      invariant 0 <= j <= |needs|
      invariant found == ServeAll(before, needs[..j], who)
    {
      assert needs[..j + 1][..j] == needs[..j];
      found := Serve(found, needs[j], who);
      j := j + 1;
    }
    assert needs[..j] == needs;
  }

  lemma GatherOne(components: seq<Component>, i: nat)
    requires i < |components|
    ensures var c := components[i];
      Gather(components[..i + 1]) == ServeAll(Gather(components[..i]), NeedsOf(c), c.who)
    ensures !components[i].copyleft ==> Gather(components[..i + 1]) == Gather(components[..i])
  {
    assert components[..i + 1][..i] == components[..i];
  }

  method Plan(n: Notices) returns (r: Option<map<Key, Entry>>)
    ensures r.Some? <==> Planned(n)
    ensures r.Some? ==> r.value == Gather(n.components)
  {
    hide Gather, ServeAll, BuildsOf, Upstream;
    var found: map<Key, Entry> := map[];
    NothingGathered();
    var vague := false;
    var i := 0;
    while i < |n.components|
      invariant 0 <= i <= |n.components|
      invariant !vague ==> found == Gather(n.components[..i])
      invariant vague <==> exists k :: 0 <= k < i && Vague(n.components[k])
    {
      var c := n.components[i];
      GatherOne(n.components, i);
      if c.copyleft {
        var upstream := Upstream(c);
        var builds := Builds(c);
        if upstream.None? || builds.None? {
          vague := true;
        } else {
          found := ServeNeeds(found, [upstream.value] + builds.value, c.who);
        }
      }
      i := i + 1;
    }
    assert n.components[..i] == n.components;
    if vague { return None; }
    FilesCount(found, found.Keys);
    if |FilesAt(found, found.Keys)| != |found| { return None; }
    r := Some(found);
  }

  lemma NothingGathered()
    ensures Gather([]) == map[]
  {
  }

  // ----- what a plan holds -----

  /** An entry is what its key says: the key is the pinned identity. */
  ghost predicate IsOf(e: Entry, key: Key) {
    match key
    case BytesKey(srpm, sha) =>
      && e.kind == (if srpm then IsSrpm else IsArchive) && e.sha == Some(sha)
      && e.commit.None? && e.packageSha.None?
    case GitKey(url, commit) =>
      && e.kind.IsGit? && e.url == url && e.sha.None? && e.commit == Some(commit) && e.packageSha.None?
    case RecipeKey(sha) => e.kind.IsRecipe? && e.sha.None? && e.commit.None? && e.packageSha == Some(sha)
  }

  ghost predicate NeedsAre(needs: seq<Need>) {
    forall n | n in needs :: IsOf(n.entry, n.key) && n.entry.serves == []
  }

  ghost predicate FoundAre(found: map<Key, Entry>) {
    forall key | key in found :: IsOf(found[key], key)
  }

  lemma NeedsOfAre(c: Component)
    ensures NeedsAre(NeedsOf(c))
  {
    hide Upstream, BuildsOf;
    UpstreamIs(c);
    BuildsAre(c);
  }

  lemma UpstreamIs(c: Component)
    ensures Upstream(c).Some? ==> NeedsAre([Upstream(c).value])
  {
    hide IsHex;
  }

  lemma BuildsAre(c: Component)
    ensures BuildsOf(c).Some? ==> NeedsAre(BuildsOf(c).value)
  {
    hide IsHex;
  }

  predicate Serves(found: map<Key, Entry>, key: Key, s: string) { key in found && s in found[key].serves }

  ghost predicate Asks(needs: seq<Need>, who: string, key: Key, s: string) {
    exists n :: n in needs && n.key == key && s == who + n.suffix
  }

  lemma ServeOne(found: map<Key, Entry>, n: Need, who: string, key: Key, s: string)
    requires FoundAre(found) && IsOf(n.entry, n.key) && n.entry.serves == []
    ensures var after := Serve(found, n, who);
      FoundAre(after) && (Serves(after, key, s) <==> Serves(found, key, s) || (n.key == key && s == who + n.suffix))
      && (key in after <==> key in found || n.key == key)
  {
  }

  lemma {:induction false} ServesExactly(found: map<Key, Entry>, needs: seq<Need>, who: string, key: Key, s: string)
    requires FoundAre(found) && NeedsAre(needs)
    ensures var after := ServeAll(found, needs, who);
      && FoundAre(after)
      && (Serves(after, key, s) <==> Serves(found, key, s) || Asks(needs, who, key, s))
      && (key in after <==> key in found || exists n :: n in needs && n.key == key)
  {
    hide Serve, Serves, IsOf;
    if needs != [] {
      var k := |needs| - 1;
      ServesExactly(found, needs[..k], who, key, s);
      ServeOne(ServeAll(found, needs[..k], who), needs[k], who, key, s);
      AsksOneMore(needs[..k], needs[k], who, key, s);
      assert needs == needs[..k] + [needs[k]];
    }
  }

  lemma AsksOneMore(needs: seq<Need>, n: Need, who: string, key: Key, s: string)
    ensures Asks(needs + [n], who, key, s) <==> Asks(needs, who, key, s) || (n.key == key && s == who + n.suffix)
    ensures (exists m :: m in needs + [n] && m.key == key) <==> (exists m :: m in needs && m.key == key) || n.key == key
  {
    if Asks(needs, who, key, s) {
      var m :| m in needs && m.key == key && s == who + m.suffix;
      assert m in needs + [n];
    }
    if m :| m in needs && m.key == key { assert m in needs + [n]; }
    assert n in needs + [n];
  }

  /** Some copyleft part needs this source, and would be named so among those it serves. */
  ghost predicate AskedBy(components: seq<Component>, key: Key, s: string) {
    exists c :: c in components && Asks(NeedsOf(c), c.who, key, s)
  }

  ghost predicate KeyNeeded(components: seq<Component>, key: Key) {
    exists c, n :: c in components && n in NeedsOf(c) && n.key == key
  }

  lemma AskedOneMore(components: seq<Component>, c: Component, key: Key, s: string)
    ensures AskedBy(components + [c], key, s) <==> AskedBy(components, key, s) || Asks(NeedsOf(c), c.who, key, s)
    ensures KeyNeeded(components + [c], key) <==>
      KeyNeeded(components, key) || exists n :: n in NeedsOf(c) && n.key == key
  {
    hide NeedsOf, Asks;
    var all := components + [c];
    assert c in all && forall d | d in components :: d in all;
    assert forall d | d in all :: d in components || d == c;
  }

  lemma NothingAsked(key: Key, s: string)
    ensures !AskedBy([], key, s) && !KeyNeeded([], key)
  {
  }

  /** Every source a plan finds is what its key pins, and it serves exactly the parts that need it: none is missing, and
      none is there for nothing. */
  lemma {:induction false} GatherExactly(components: seq<Component>, key: Key, s: string)
    ensures var found := Gather(components);
      && FoundAre(found)
      && (Serves(found, key, s) <==> AskedBy(components, key, s))
      && (key in found <==> KeyNeeded(components, key))
  {
    hide ServeAll, IsOf, NeedsOf, Asks, AskedBy, KeyNeeded;
    NothingAsked(key, s);
    if components != [] {
      var k := |components| - 1;
      var c := components[k];
      GatherExactly(components[..k], key, s);
      NeedsOfAre(c);
      ServesExactly(Gather(components[..k]), NeedsOf(c), c.who, key, s);
      AskedOneMore(components[..k], c, key, s);
      assert components == components[..k] + [c];
    }
  }

  // ----- the bundle -----

  datatype Item = Item(file: Option<File>, sha: Option<Sha>, commit: Option<string>, packageSha: Option<Sha>)

  /** SOURCES.json */
  datatype Document = Document(closure: Option<Sha>, items: seq<Item>)

  datatype Name = Readme | SourcesJson | SourceFile(file: File)

  datatype Member = Member(name: Name, data: Bytes)

  type Bundle = seq<Member>

  /** Everything from outside: what a URL answers, the archive of a git commit, the packed and checked recipe of a conda
      package, hashes of bytes and of a whole bundle, and JSON. */
  datatype World = World(
    fetch: string -> Option<Bytes>, archive: (string, string) -> Option<Bytes>, recipe: Bytes -> Option<Bytes>,
    sha: Bytes -> Sha, sum: Bundle -> Sha, dump: Document -> Bytes, load: Bytes -> Option<Document>, readme: Bytes)

  ghost predicate Lawful(w: World) {
    forall d :: w.load(w.dump(d)) == Some(d)
  }

  /** The bytes of one source, or nothing when they cannot be had or are not the pinned ones. */
  function Take(w: World, e: Entry): Option<Bytes> {
    match e.kind
    case IsGit => w.archive(e.url, e.commit.UnwrapOr(""))
    case IsRecipe =>
      var package := w.fetch(e.url);
      if package.None? || Some(w.sha(package.value)) != e.packageSha then None else w.recipe(package.value)
    case _ =>
      var data := w.fetch(e.url);
      if data.None? || Some(w.sha(data.value)) != e.sha then None else data
  }

  /** A source is taken if and only if it can be had and is what its pin says: bytes by their own hash, a tree by the
      commit it was asked by, a recipe by the hash of the package it was packed from. */
  lemma TakenExactly(w: World, e: Entry)
    ensures e.kind.IsGit? ==> Take(w, e) == w.archive(e.url, if e.commit.Some? then e.commit.value else "")
    ensures e.kind.IsRecipe? ==>
      var p := w.fetch(e.url);
      Take(w, e) == if p.Some? && e.packageSha == Some(w.sha(p.value)) then w.recipe(p.value) else None
    ensures e.kind.IsSrpm? || e.kind.IsArchive? ==>
      var d := w.fetch(e.url);
      Take(w, e) == if d.Some? && e.sha == Some(w.sha(d.value)) then d else None
  {
  }

  function ItemFor(w: World, e: Entry, data: Bytes): Item {
    Item(Some(e.file), Some(w.sha(data)), e.commit, e.packageSha)
  }

  /** tarfile's extractfile: the last member of that name. */
  function Extract(b: Bundle, name: Name): Option<Bytes> {
    if b == [] then None
    else if b[|b| - 1].name == name then Some(b[|b| - 1].data)
    else Extract(b[..|b| - 1], name)
  }

  /** The dictionary of the manifest's items by file: the last one of a file. */
  function Listed(items: seq<Item>, file: File): Option<Item> {
    if items == [] then None
    else if items[|items| - 1].file == Some(file) then Some(items[|items| - 1])
    else Listed(items[..|items| - 1], file)
  }

  predicate Agrees<T(==)>(pinned: Option<T>, said: Option<T>) { pinned.Some? ==> said == pinned }

  predicate Held(w: World, b: Bundle, items: seq<Item>, e: Entry) {
    var item := Listed(items, e.file);
    var data := Extract(b, SourceFile(e.file));
    && item.Some? && Agrees(e.sha, item.value.sha) && Agrees(e.commit, item.value.commit)
    && Agrees(e.packageSha, item.value.packageSha)
    && data.Some? && item.value.sha == Some(w.sha(data.value))
  }

  function Manifest(w: World, b: Bundle): Option<Document> {
    var json := Extract(b, SourcesJson);
    if json.None? then None else w.load(json.value)
  }

  /** What verify_bundle asks of a bundle, its .sha256 file's words and the release asset's digest. */
  ghost predicate Accepted(n: Notices, w: World, b: Bundle, words: seq<string>, asset: Option<string>) {
    && words != [] && words[0] == w.sum(b)
    && (asset.Some? ==> asset.value == "sha256:" + w.sum(b))
    && var doc := Manifest(w, b);
    && doc.Some? && doc.value.closure == Some(n.closure) && Planned(n)
    && var found := Gather(n.components);
       forall key | key in found :: Held(w, b, doc.value.items, found[key])
  }

  method VerifyBundle(n: Notices, w: World, b: Bundle, words: seq<string>, asset: Option<string>) returns (ok: bool)
    ensures ok <==> Accepted(n, w, b, words, asset)
  {
    hide Planned, Gather, Held, Extract;
    var got := w.sum(b);
    if words == [] || words[0] != got { return false; }
    if asset.Some? && asset.value != "sha256:" + got { return false; }
    var doc := Manifest(w, b);
    if doc.None? || doc.value.closure != Some(n.closure) { return false; }
    var plan := Plan(n);
    if plan.None? { return false; }
    var rest := plan.value.Keys;
    while rest != {}
      invariant rest <= plan.value.Keys
      invariant forall key | key in plan.value && key !in rest :: Held(w, b, doc.value.items, plan.value[key])
      decreases |rest|
    {
      var key :| key in rest;
      if !Held(w, b, doc.value.items, plan.value[key]) { return false; }
      rest := rest - {key};
    }
    ok := true;
  }

  /** An accepted bundle is the one its .sha256 names, and the release asset's digest with it; its manifest is for this
      closure, and the notices have a plan. */
  lemma AcceptedIsNamed(n: Notices, w: World, b: Bundle, words: seq<string>, asset: Option<string>)
    requires Accepted(n, w, b, words, asset)
    ensures words != [] && words[0] == w.sum(b) && (asset.Some? ==> asset.value == "sha256:" + words[0])
    ensures Manifest(w, b).Some? && Manifest(w, b).value.closure == Some(n.closure)
    ensures forall c | c in n.components && c.copyleft :: Upstream(c).Some? && BuildsOf(c).Some?
  {
    hide Upstream, BuildsOf, Gather, Extract;
    assert forall c | c in n.components :: !Vague(c);
  }

  /** Acceptance means completeness: every source of every copyleft part is in the plan under its pinned identity, the
      bundle holds bytes for it, and the manifest names those bytes and that identity. The bytes of an archive or a
      source package hash to the very pin. */
  lemma AcceptedIsComplete(n: Notices, w: World, b: Bundle, words: seq<string>, asset: Option<string>, c: Component,
                           need: Need)
    requires Accepted(n, w, b, words, asset) && c in n.components && c.copyleft && need in NeedsOf(c)
    ensures Upstream(c).Some? && BuildsOf(c).Some?
    ensures var found := Gather(n.components);
      && need.key in found && IsOf(found[need.key], need.key) && c.who + need.suffix in found[need.key].serves
      && (forall key | key in found && key != need.key :: found[key].file != found[need.key].file)
      && var e := found[need.key];
         var data, item := Extract(b, SourceFile(e.file)), Listed(Manifest(w, b).value.items, e.file);
      && data.Some? && item.Some? && item.value.sha == Some(w.sha(data.value))
      && match need.key
         case BytesKey(_, sha) => w.sha(data.value) == sha
         case GitKey(_, commit) => item.value.commit == Some(commit)
         case RecipeKey(sha) => item.value.packageSha == Some(sha)
  {
    hide Gather, NeedsOf, BuildsOf, Upstream, Extract, Listed;
    GatherExactly(n.components, need.key, c.who + need.suffix);
    assert !Vague(c);
    assert Asks(NeedsOf(c), c.who, need.key, c.who + need.suffix);
    assert KeyNeeded(n.components, need.key);
    assert Held(w, b, Manifest(w, b).value.items, Gather(n.components)[need.key]);
  }

  /** ... but not that each source is there once: whatever members come before an accepted bundle's own, it stays
      accepted under its new sum. */
  lemma MembersBeforeAreAccepted(n: Notices, w: World, b: Bundle, words: seq<string>, more: Bundle)
    requires Accepted(n, w, b, words, None)
    ensures Accepted(n, w, more + b, [w.sum(more + b)], None)
  {
    hide Gather, Planned;
    var doc := Manifest(w, b);
    ExtractLast(more, b, SourcesJson);
    var found := Gather(n.components);
    forall key | key in found ensures Held(w, more + b, doc.value.items, found[key]) {
      ExtractLast(more, b, SourceFile(found[key].file));
      assert Held(w, b, doc.value.items, found[key]);
    }
  }

  lemma {:induction false} ExtractLast(more: Bundle, b: Bundle, name: Name)
    ensures Extract(b, name).Some? ==> Extract(more + b, name) == Extract(b, name)
  {
    if b != [] && b[|b| - 1].name != name {
      var all := more + b;
      assert all[|all| - 1] == b[|b| - 1] && all[..|all| - 1] == more + b[..|b| - 1];
      ExtractLast(more, b[..|b| - 1], name);
    }
  }

  // ----- how often a source is in the bundle -----

  function Occurs(b: Bundle, name: Name): nat {
    if b == [] then 0 else Occurs(b[..|b| - 1], name) + if b[|b| - 1].name == name then 1 else 0
  }

  /** How many of the bundle's members are named by one of these files. */
  function NamedAmong(b: Bundle, files: set<File>): nat {
    if b == [] then 0 else
      var name := b[|b| - 1].name;
      NamedAmong(b[..|b| - 1], files) + if name.SourceFile? && name.file in files then 1 else 0
  }

  lemma {:induction false} ExtractedOccurs(b: Bundle, name: Name)
    ensures Extract(b, name).Some? <==> Occurs(b, name) >= 1
  {
    if b != [] { ExtractedOccurs(b[..|b| - 1], name); }
  }

  lemma {:induction false} NamedAmongSplits(b: Bundle, files: set<File>, f: File)
    requires f in files
    ensures NamedAmong(b, files) == NamedAmong(b, files - {f}) + Occurs(b, SourceFile(f))
  {
    if b != [] { NamedAmongSplits(b[..|b| - 1], files, f); }
  }

  lemma {:induction false} NamedAmongNone(b: Bundle)
    ensures NamedAmong(b, {}) == 0
  {
    if b != [] { NamedAmongNone(b[..|b| - 1]); }
  }

  lemma {:induction false} OnceEachExactly(b: Bundle, files: set<File>)
    requires forall f | f in files :: Occurs(b, SourceFile(f)) >= 1
    ensures NamedAmong(b, files) >= |files|
    ensures NamedAmong(b, files) == |files| <==> forall f | f in files :: Occurs(b, SourceFile(f)) == 1
    decreases |files|
  {
    if files == {} {
      NamedAmongNone(b);
    } else {
      var f :| f in files;
      NamedAmongSplits(b, files, f);
      OnceEachExactly(b, files - {f});
    }
  }

  /** An accepted bundle holds each planned source once if and only if as many of its members are named by a planned
      file as sources are planned. */
  lemma AcceptedHoldsOnceExactly(n: Notices, w: World, b: Bundle, words: seq<string>, asset: Option<string>)
    requires Accepted(n, w, b, words, asset)
    ensures var found := Gather(n.components);
      && NamedAmong(b, FilesAt(found, found.Keys)) >= |found|
      && ((forall key | key in found :: Occurs(b, SourceFile(found[key].file)) == 1) <==>
            NamedAmong(b, FilesAt(found, found.Keys)) == |found|)
  {
    hide Gather, Occurs, Extract, NamedAmong;
    var found := Gather(n.components);
    var files := FilesAt(found, found.Keys);
    FilesCount(found, found.Keys);
    forall f | f in files ensures Occurs(b, SourceFile(f)) >= 1 {
      var key :| key in found && found[key].file == f;
      HeldOccurs(n, w, b, words, asset, key);
    }
    OnceEachExactly(b, files);
  }

  lemma {:induction false} OccursInBoth(more: Bundle, b: Bundle, name: Name)
    ensures Occurs(more + b, name) == Occurs(more, name) + Occurs(b, name)
  {
    if b == [] {
      assert more + b == more;
    } else {
      var all := more + b;
      assert all[|all| - 1] == b[|b| - 1] && all[..|all| - 1] == more + b[..|b| - 1];
      OccursInBoth(more, b[..|b| - 1], name);
    }
  }

  /** The failing family: one more member of a planned file before an accepted bundle's own, with any bytes. It is
      accepted, and where the source was once it is twice. */
  lemma PlannedFileTwice(n: Notices, w: World, b: Bundle, words: seq<string>, key: Key, data: Bytes)
    requires Accepted(n, w, b, words, None) && key in Gather(n.components)
    ensures var name := SourceFile(Gather(n.components)[key].file);
      var twice := [Member(name, data)] + b;
      && Accepted(n, w, twice, [w.sum(twice)], None)
      && Occurs(b, name) >= 1 && Occurs(twice, name) == Occurs(b, name) + 1
  {
    hide Gather, Accepted, Extract;
    var name := SourceFile(Gather(n.components)[key].file);
    var more := [Member(name, data)];
    MembersBeforeAreAccepted(n, w, b, words, more);
    OccursInBoth(more, b, name);
    assert Occurs(more, name) == 1 by { assert more[..0] == []; }
    HeldOccurs(n, w, b, words, None, key);
  }

  lemma HeldOccurs(n: Notices, w: World, b: Bundle, words: seq<string>, asset: Option<string>, key: Key)
    requires Accepted(n, w, b, words, asset) && key in Gather(n.components)
    ensures Occurs(b, SourceFile(Gather(n.components)[key].file)) >= 1
  {
    hide Gather, Extract, Occurs, Listed;
    var e := Gather(n.components)[key];
    assert Held(w, b, Manifest(w, b).value.items, e);
    ExtractedOccurs(b, SourceFile(e.file));
  }

  // ----- collect -----

  function MemberFor(e: Entry, data: Bytes): Member { Member(SourceFile(e.file), data) }

  /** The plan's entry of one file. */
  ghost predicate EntryOf(found: map<Key, Entry>, file: File, e: Entry) {
    exists key :: key in found && found[key] == e && e.file == file
  }

  /** What collect has made of the files so far: for each its item and its member, out of its own entry. */
  ghost predicate Made(w: World, found: map<Key, Entry>, files: seq<File>, items: seq<Item>, members: Bundle) {
    && |items| == |members| == |files|
    && forall i | 0 <= i < |files| :: MadeOf(w, found, files[i], items[i], members[i])
  }

  ghost predicate MadeOf(w: World, found: map<Key, Entry>, file: File, item: Item, member: Member) {
    exists e :: EntryOf(found, file, e) && Take(w, e).Some?
                && item == ItemFor(w, e, Take(w, e).value) && member == MemberFor(e, Take(w, e).value)
  }

  function BundleOf(w: World, closure: Sha, items: seq<Item>, members: Bundle): Bundle {
    [Member(Readme, w.readme), Member(SourcesJson, w.dump(Document(Some(closure), items)))] + members
  }

  lemma {:induction false} ListedAt(items: seq<Item>, i: nat)
    requires i < |items| && items[i].file.Some? && forall k | i < k < |items| :: items[k].file != items[i].file
    ensures Listed(items, items[i].file.value) == Some(items[i])
  {
    if i < |items| - 1 { ListedAt(items[..|items| - 1], i); }
  }

  lemma {:induction false} ExtractAt(b: Bundle, i: nat)
    requires i < |b| && forall k | i < k < |b| :: b[k].name != b[i].name
    ensures Extract(b, b[i].name) == Some(b[i].data)
  {
    if i < |b| - 1 { ExtractAt(b[..|b| - 1], i); }
  }

  lemma MadeNames(w: World, found: map<Key, Entry>, files: seq<File>, items: seq<Item>, members: Bundle, i: nat)
    requires Made(w, found, files, items, members) && i < |files|
    ensures items[i].file == Some(files[i]) && members[i].name == SourceFile(files[i])
  {
    assert MadeOf(w, found, files[i], items[i], members[i]);
  }

  /** What was collected is what the publishers' check asks for. */
  lemma CollectedIsAccepted(n: Notices, w: World, files: seq<File>, items: seq<Item>, members: Bundle,
                            asset: Option<string>)
    requires Lawful(w) && Planned(n)
    requires var found := Gather(n.components);
      Increasing(files) && Elements(files) == FilesAt(found, found.Keys) && Made(w, found, files, items, members)
    requires var b := BundleOf(w, n.closure, items, members); asset.Some? ==> asset.value == "sha256:" + w.sum(b)
    ensures var b := BundleOf(w, n.closure, items, members); Accepted(n, w, b, [w.sum(b)], asset)
  {
    hide Gather, Take, Extract, Listed, Made;
    var found := Gather(n.components);
    var b := BundleOf(w, n.closure, items, members);
    ManifestOf(n, w, found, files, items, members);
    forall key | key in found ensures Held(w, b, items, found[key]) {
      GatherExactly(n.components, key, "");
      EntryHeld(n, w, found, files, items, members, key);
    }
  }

  lemma ManifestOf(n: Notices, w: World, found: map<Key, Entry>, files: seq<File>, items: seq<Item>, members: Bundle)
    requires Lawful(w) && Made(w, found, files, items, members)
    ensures Manifest(w, BundleOf(w, n.closure, items, members)) == Some(Document(Some(n.closure), items))
  {
    hide Extract, Made;
    var b := BundleOf(w, n.closure, items, members);
    forall k | 1 < k < |b| ensures b[k].name != SourcesJson {
      assert |members| == |files| by { MadeLength(w, found, files, items, members); }
      MadeNames(w, found, files, items, members, k - 2);
      assert b[k] == members[k - 2];
    }
    ExtractAt(b, 1);
  }

  lemma MadeLength(w: World, found: map<Key, Entry>, files: seq<File>, items: seq<Item>, members: Bundle)
    requires Made(w, found, files, items, members)
    ensures |items| == |members| == |files|
  {
  }

  lemma EntryHeld(n: Notices, w: World, found: map<Key, Entry>, files: seq<File>, items: seq<Item>, members: Bundle,
                  key: Key)
    requires Increasing(files) && Elements(files) == FilesAt(found, found.Keys) && DifferAt(found, found.Keys)
    requires Made(w, found, files, items, members) && key in found && IsOf(found[key], key)
    ensures Held(w, BundleOf(w, n.closure, items, members), items, found[key])
  {
    hide Extract, Listed;
    var e := found[key];
    assert e.file in Elements(files);
    var i :| 0 <= i < |files| && files[i] == e.file;
    var b := BundleOf(w, n.closure, items, members);
    forall k | i < k < |files| ensures items[k].file != items[i].file && members[k].name != members[i].name {
      MadeNames(w, found, files, items, members, k);
      MadeNames(w, found, files, items, members, i);
    }
    MadeNames(w, found, files, items, members, i);
    ListedAt(items, i);
    forall k | i + 2 < k < |b| ensures b[k].name != b[i + 2].name { assert b[k] == members[k - 2]; }
    ExtractAt(b, i + 2);
    assert b[i + 2] == members[i];
    MadeFrom(w, found, e, key, items[i], members[i]);
  }

  lemma MadeFrom(w: World, found: map<Key, Entry>, e: Entry, key: Key, item: Item, member: Member)
    requires key in found && found[key] == e && IsOf(e, key) && DifferAt(found, found.Keys)
      && MadeOf(w, found, e.file, item, member)
    ensures Take(w, e).Some? && item == ItemFor(w, e, Take(w, e).value) && member == MemberFor(e, Take(w, e).value)
    ensures Agrees(e.sha, item.sha)
  {
    var f :| EntryOf(found, e.file, f) && Take(w, f).Some?
             && item == ItemFor(w, f, Take(w, f).value) && member == MemberFor(f, Take(w, f).value);
    var l :| l in found && found[l] == f && f.file == e.file;
    assert l == key;
  }

  lemma MadeOneMore(w: World, found: map<Key, Entry>, files: seq<File>, i: nat, items: seq<Item>, members: Bundle,
                    e: Entry)
    requires i < |files| && Made(w, found, files[..i], items, members)
    requires EntryOf(found, files[i], e) && Take(w, e).Some?
    ensures var data := Take(w, e).value;
      Made(w, found, files[..i + 1], items + [ItemFor(w, e, data)], members + [MemberFor(e, data)])
  {
    hide Take, ItemFor, MemberFor;
    var data := Take(w, e).value;
    assert MadeOf(w, found, files[i], ItemFor(w, e, data), MemberFor(e, data));
  }

  /** Each name is in the bundle once: the two documents, and one member for each planned file. */
  ghost predicate EachOnce(b: Bundle, files: seq<File>) {
    && |b| == |files| + 2 && b[0].name == Readme && b[1].name == SourcesJson
    && forall i | 0 <= i < |files| :: b[i + 2].name == SourceFile(files[i])
  }

  /** The loop over the planned files, in their order. */
  method TakeAll(found: map<Key, Entry>, w: World, files: seq<File>)
    returns (items: seq<Item>, members: Bundle, ok: bool)
    requires Elements(files) == FilesAt(found, found.Keys) && DifferAt(found, found.Keys)
    ensures ok <==> forall key | key in found :: Take(w, found[key]).Some?
    ensures ok ==> Made(w, found, files, items, members)
  {
    hide Take, Made, ItemFor, MemberFor;
    items, members := [], [];
    NothingMade(w, found, files);
    var i := 0;
    while i < |files|
      invariant 0 <= i <= |files|
      invariant Made(w, found, files[..i], items, members)
      invariant forall key | key in found && found[key].file in files[..i] :: Take(w, found[key]).Some?
    {
      assert files[i] in Elements(files);
      var key :| key in found && found[key].file == files[i];
      var e := found[key];
      var data := Take(w, e);
      if data.None? { return items, members, false; }
      MadeOneMore(w, found, files, i, items, members, e);
      items, members := items + [ItemFor(w, e, data.value)], members + [MemberFor(e, data.value)];
      i := i + 1;
    }
    assert files[..i] == files;
    forall key | key in found ensures Take(w, found[key]).Some? { assert found[key].file in Elements(files); }
    ok := true;
  }

  /** Fetch and verify every source, then pack; out maps bundle names to what is published there. A refusal writes
      nothing. */
  method Collect(n: Notices, w: World, out: map<Sha, (Bundle, Sha)>)
    returns (written: map<Sha, (Bundle, Sha)>, b: Option<Bundle>)
    requires Lawful(w)
    ensures b.Some? <==> Planned(n) && var found := Gather(n.components); forall key | key in found ::
      Take(w, found[key]).Some?
    ensures b.None? ==> written == out
    ensures b.Some? ==> written == out[n.closure := (b.value, w.sum(b.value))]
    ensures b.Some? ==> forall asset: Option<string> | Agrees(asset, Some("sha256:" + w.sum(b.value))) ::
      Accepted(n, w, b.value, [w.sum(b.value)], asset)
    ensures b.Some? ==> var found := Gather(n.components);
      && EachOnce(b.value, Sorted(FilesAt(found, found.Keys)))
      && forall key | key in found :: Occurs(b.value, SourceFile(found[key].file)) == 1
  {
    hide Gather, Take, Accepted, Made, BundleOf, EachOnce, Increasing, Lawful, Occurs;
    var plan := Plan(n);
    if plan.None? { return out, None; }
    var found := plan.value;
    var files := Sorted(FilesAt(found, found.Keys));
    var items, members, ok := TakeAll(found, w, files);
    if !ok { return out, None; }
    var bundle := BundleOf(w, n.closure, items, members);
    forall asset: Option<string> | Agrees(asset, Some("sha256:" + w.sum(bundle)))
      ensures Accepted(n, w, bundle, [w.sum(bundle)], asset)
    {
      CollectedIsAccepted(n, w, files, items, members, asset);
    }
    OnceEach(n, w, found, files, items, members);
    forall key | key in found ensures Occurs(bundle, SourceFile(found[key].file)) == 1 {
      assert found[key].file in Elements(files);
      OnceCounts(bundle, files, found[key].file);
    }
    b, written := Some(bundle), out[n.closure := (bundle, w.sum(bundle))];
  }

  lemma NothingMade(w: World, found: map<Key, Entry>, files: seq<File>)
    ensures Made(w, found, files[..0], [], [])
  {
  }

  lemma OnceEach(n: Notices, w: World, found: map<Key, Entry>, files: seq<File>, items: seq<Item>, members: Bundle)
    requires Made(w, found, files, items, members)
    ensures EachOnce(BundleOf(w, n.closure, items, members), files)
  {
    forall i | 0 <= i < |files| ensures members[i].name == SourceFile(files[i]) {
      MadeNames(w, found, files, items, members, i);
    }
  }

  lemma {:induction false} NamedNowhere(b: Bundle, name: Name)
    requires forall k | 0 <= k < |b| :: b[k].name != name
    ensures Occurs(b, name) == 0
  {
    if b != [] { NamedNowhere(b[..|b| - 1], name); }
  }

  lemma OnceCounts(b: Bundle, files: seq<File>, f: File)
    requires EachOnce(b, files) && Increasing(files) && f in Elements(files)
    ensures Occurs(b, SourceFile(f)) == 1
  {
    var name := SourceFile(f);
    var i :| 0 <= i < |files| && files[i] == f;
    forall k | 0 <= k < |b| && k != i + 2 ensures b[k].name != name {
      if k >= 2 { assert b[k - 2 + 2].name == SourceFile(files[k - 2]); }
    }
    assert b == b[..i + 2] + ([b[i + 2]] + b[i + 3..]);
    NamedNowhere(b[..i + 2], name);
    NamedNowhere(b[i + 3..], name);
    OccursInBoth(b[..i + 2], [b[i + 2]] + b[i + 3..], name);
    OccursInBoth([b[i + 2]], b[i + 3..], name);
    assert [b[i + 2]][..0] == [];
  }
}

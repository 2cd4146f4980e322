/** backend/app/step_runtime.py: the STEP component's bundles on disk. A bundle is the directory of one pin, a platform
    key and a catalog digest; install, repair and prune move whole directories by rename, and locate reads receipts.

    The disk is a history of atomic steps. Every method below appends the steps it makes, so what holds of every disk
    in the history holds wherever an operation failed or was cut off. */
module BundleStore {
  import opened Options
  import StagingOwnership

  type Key = nat
  type Digest = nat
  type Tag = nat
  type File = nat
  type Fingerprint = nat

  const ANY_PYTHON: Tag := 0  // py3-none-any

  datatype Wheel = Wheel(key: Key, tags: set<Tag>, file: File)

  datatype Catalog = Catalog(digest: Digest, wheels: seq<Wheel>, proxy: File, release: bool)

  datatype Site = Site(ocp: bool, body: int)

  datatype Fields = Fields(digest: Digest, key: Key, artifacts: seq<File>, fingerprint: Fingerprint)

  /** receipt.json; Foreign is readable JSON that is no receipt of this schema. */
  datatype Receipt = Absent | Unreadable | Foreign | Written(fields: Fields)

  datatype Tree = Tree(receipt: Receipt, site: Site)

  /** What the code asks of the world: the catalog a digest names, an interpreter's tags by its fingerprint, whether a
      site verifies against a wheel's closure, and a key's platform. */
  datatype World = World(catalog: Digest -> Catalog, tags: Fingerprint -> seq<Tag>, clean: (Site, File) -> bool,
                         platform: Key -> int)

  ghost predicate KeysDiffer(wheels: seq<Wheel>) {
    forall i, j | 0 <= i < j < |wheels| :: wheels[i].key != wheels[j].key
  }

  /** A loaded catalog has each key once, and a digest names one catalog. */
  ghost predicate Coherent(w: World) {
    forall d :: w.catalog(d).digest == d && KeysDiffer(w.catalog(d).wheels)
  }

  // ----- select -----

  function FirstWith(wheels: seq<Wheel>, tag: Tag): (r: Option<Wheel>)
    ensures r.Some? ==> r.value in wheels && tag in r.value.tags
  {
    if wheels == [] then None
    else if tag in wheels[0].tags then Some(wheels[0])
    else FirstWith(wheels[1..], tag)
  }

  function FirstServed(wheels: seq<Wheel>, tags: seq<Tag>): (r: Option<Wheel>)
    ensures r.Some? ==> r.value in wheels
  {
    if tags == [] then None else
      var r := FirstWith(wheels, tags[0]);
      if r.Some? then r else FirstServed(wheels, tags[1..])
  }

  function Selected(c: Catalog, tags: seq<Tag>): (r: Option<Wheel>)
    ensures r.Some? ==> r.value in c.wheels
  {
    if ANY_PYTHON !in tags then None else FirstServed(c.wheels, tags)
  }

  method Select(c: Catalog, tags: seq<Tag>) returns (r: Option<Wheel>)
    ensures r == Selected(c, tags)
  {
    if ANY_PYTHON !in tags { return None; }
    var i := 0;
    while i < |tags|
      invariant 0 <= i <= |tags|
      invariant FirstServed(c.wheels, tags) == FirstServed(c.wheels, tags[i..])
    {
      var j := 0;
      while j < |c.wheels|
        invariant 0 <= j <= |c.wheels|
        invariant FirstWith(c.wheels, tags[i]) == FirstWith(c.wheels[j..], tags[i])
      {
        if tags[i] in c.wheels[j].tags { return Some(c.wheels[j]); }
        j := j + 1;
      }
      i := i + 1;
    }
    return None;
  }

  ghost predicate Serves(wheels: seq<Wheel>, tag: Tag) {
    exists x :: x in wheels && tag in x.tags
  }

  /** Wheel j is the first that serves the tag. */
  ghost predicate FirstAt(wheels: seq<Wheel>, tag: Tag, j: int) {
    && 0 <= j < |wheels| && tag in wheels[j].tags
    && forall l | 0 <= l < j :: tag !in wheels[l].tags
  }

  lemma {:induction false} FirstWithServes(wheels: seq<Wheel>, tag: Tag)
    ensures FirstWith(wheels, tag).Some? <==> Serves(wheels, tag)
    ensures FirstWith(wheels, tag).Some? ==>
              exists j :: FirstAt(wheels, tag, j) && FirstWith(wheels, tag) == Some(wheels[j])
  {
    if wheels == [] {
    } else if tag in wheels[0].tags {
      assert FirstAt(wheels, tag, 0);
    } else {
      FirstWithServes(wheels[1..], tag);
      assert wheels == [wheels[0]] + wheels[1..];
      if FirstWith(wheels, tag).Some? {
        var j :| FirstAt(wheels[1..], tag, j) && FirstWith(wheels, tag) == Some(wheels[1..][j]);
        assert wheels[j + 1] == wheels[1..][j];
        forall l | 0 <= l < j + 1 ensures tag !in wheels[l].tags {
          if l > 0 { assert wheels[l] == wheels[1..][l - 1]; }
        }
        assert FirstAt(wheels, tag, j + 1);
      }
    }
  }

  /** Nothing is selected for an interpreter without py3-none-any, tag 0, nor when no wheel serves a tag of it. */
  lemma SelectedExactly(c: Catalog, tags: seq<Tag>)
    ensures Selected(c, tags).None? <==> 0 !in tags || forall t, x | t in tags && x in c.wheels :: t !in x.tags
    ensures 0 in tags ==> Selected(c, tags) == FirstServed(c.wheels, tags)
  {
    hide FirstServed;
    SelectsTheBest(c.wheels, tags);
    if t, x :| t in tags && x in c.wheels && t in x.tags { assert Serves(c.wheels, t); }
    if t :| t in tags && Serves(c.wheels, t) {
      var x :| x in c.wheels && t in x.tags;
    }
  }

  /** Tag i is the first that any wheel serves, and wheel j the first that serves it. */
  ghost predicate BestAt(wheels: seq<Wheel>, tags: seq<Tag>, i: int, j: int) {
    && 0 <= i < |tags| && FirstAt(wheels, tags[i], j)
    && forall h | 0 <= h < i :: !Serves(wheels, tags[h])
  }

  /** The tags' order decides before the wheels' does: what is selected is the best tag's first wheel, if any. */
  lemma {:induction false} SelectsTheBest(wheels: seq<Wheel>, tags: seq<Tag>)
    ensures FirstServed(wheels, tags).None? <==> forall t | t in tags :: !Serves(wheels, t)
    ensures FirstServed(wheels, tags).Some? ==>
              exists i, j :: BestAt(wheels, tags, i, j) && FirstServed(wheels, tags) == Some(wheels[j])
  {
    hide FirstWith, Serves;
    if tags != [] {
      FirstWithServes(wheels, tags[0]);
      if FirstWith(wheels, tags[0]).Some? {
        var j :| FirstAt(wheels, tags[0], j) && FirstWith(wheels, tags[0]) == Some(wheels[j]);
        assert BestAt(wheels, tags, 0, j);
        assert tags[0] in tags;
      } else {
        SelectsTheBest(wheels, tags[1..]);
        assert tags == [tags[0]] + tags[1..];
        if FirstServed(wheels, tags).Some? {
          var i, j :| BestAt(wheels, tags[1..], i, j) && FirstServed(wheels, tags[1..]) == Some(wheels[j]);
          BestLater(wheels, tags, i, j);
        }
      }
    }
  }

  lemma BestLater(wheels: seq<Wheel>, tags: seq<Tag>, i: int, j: int)
    requires tags != [] && !Serves(wheels, tags[0]) && BestAt(wheels, tags[1..], i, j)
    ensures BestAt(wheels, tags, i + 1, j)
  {
    hide Serves, FirstAt;
    forall h | 0 <= h < i + 1 ensures !Serves(wheels, tags[h]) {
      if h > 0 { assert tags[h] == tags[1..][h - 1]; }
    }
    assert tags[i + 1] == tags[1..][i];
  }

  // ----- the disk and its steps -----

  datatype Pin = Pin(key: Key, digest: Digest)

  /** A directory of .staging/<key>, an install's own or one set aside, or a .trash-* directory of <key>. */
  datatype Spot = Own(key: Key, id: nat) | Replaced(key: Key, id: nat) | Trash(key: Key, id: nat)

  /** A verified install: under its pin it put a site that was clean and that the smoke had accepted. */
  datatype Publication = Publication(pin: Pin, fingerprint: Fingerprint, site: Site)

  /** published and spoiled are history: what installs published, and the pins damaged from outside since then. */
  datatype Disk = Disk(bundles: map<Pin, Tree>, spots: map<Spot, Tree>, published: set<Publication>, spoiled: set<Pin>)

  const EMPTY := Disk(map[], map[], {}, {})

  function ReceiptFor(c: Catalog, wheel: Wheel, fp: Fingerprint): Receipt {
    Written(Fields(c.digest, wheel.key, [wheel.file, c.proxy], fp))
  }

  datatype Step =
    | Elsewhere(spots: map<Spot, Tree>)              // nothing under a pin's name changes
    | TakeAway(pin: Pin, to: Spot)                   // rename: a bundle leaves its name
    | PutBack(pin: Pin, from: Spot)                  // rename: a bundle set aside returns
    | Publish(pin: Pin, from: Spot, fp: Fingerprint) // rename: a verified staging becomes the bundle
    | Damage(pin: Pin, tree: Tree)                   // from outside: files changed or lost, no receipt made up

  ghost predicate Backed(w: World, d: Disk, pin: Pin, tree: Tree, p: Publication) {
    var c := w.catalog(pin.digest);
    var wheel := Selected(c, w.tags(p.fingerprint));
    && p in d.published && p.pin == pin
    && wheel.Some? && wheel.value.key == pin.key
    && tree.receipt == ReceiptFor(c, wheel.value, p.fingerprint)
    && w.clean(p.site, wheel.value.file) && p.site.ocp
    && (pin !in d.spoiled ==> tree.site == p.site)
  }

  /** A tree with a receipt is under this name because an install published it here. */
  ghost predicate Fits(w: World, d: Disk, pin: Pin, tree: Tree) {
    tree.receipt.Written? ==> exists p :: Backed(w, d, pin, tree, p)
  }

  ghost predicate Enabled(w: World, d: Disk, s: Step) {
    match s
    case Elsewhere(_) => true
    case TakeAway(pin, to) => pin in d.bundles && to !in d.spots
    case PutBack(pin, from) => pin !in d.bundles && from in d.spots && Fits(w, d, pin, d.spots[from])
    case Publish(pin, from, fp) =>
      && pin !in d.bundles && from in d.spots
      && var c := w.catalog(pin.digest);
         var wheel := Selected(c, w.tags(fp));
         && wheel.Some? && wheel.value.key == pin.key
         && d.spots[from].receipt == ReceiptFor(c, wheel.value, fp)
         && w.clean(d.spots[from].site, wheel.value.file) && d.spots[from].site.ocp
    case Damage(pin, tree) =>
      pin in d.bundles && (tree.receipt.Written? ==> tree.receipt == d.bundles[pin].receipt)
  }

  ghost function Next(w: World, d: Disk, s: Step): Disk
    requires Enabled(w, d, s)
  {
    match s
    case Elsewhere(spots) => d.(spots := spots)
    case TakeAway(pin, to) => d.(bundles := d.bundles - {pin}, spots := d.spots[to := d.bundles[pin]])
    case PutBack(pin, from) => d.(bundles := d.bundles[pin := d.spots[from]], spots := d.spots - {from})
    case Publish(pin, from, fp) =>
      d.(bundles := d.bundles[pin := d.spots[from]], spots := d.spots - {from},
         published := d.published + {Publication(pin, fp, d.spots[from].site)}, spoiled := d.spoiled - {pin})
    case Damage(pin, tree) => d.(bundles := d.bundles[pin := tree], spoiled := d.spoiled + {pin})
  }

  /** Every disk of the history came from the one before by one enabled step; the first is empty. */
  ghost predicate Legal(w: World, history: seq<Disk>) {
    if |history| <= 1 then history == [EMPTY] else
      var n := |history| - 1;
      Legal(w, history[..n]) && Follows(w, history[n - 1], history[n])
  }

  ghost predicate Follows(w: World, d: Disk, e: Disk) {
    exists s :: Enabled(w, d, s) && e == Next(w, d, s)
  }

  ghost predicate Inv(w: World, d: Disk) {
    forall pin | pin in d.bundles :: Fits(w, d, pin, d.bundles[pin])
  }

  lemma FitsStill(w: World, d: Disk, e: Disk, pin: Pin, tree: Tree)
    requires Fits(w, d, pin, tree) && d.published <= e.published && (pin in d.spoiled ==> pin in e.spoiled)
    ensures Fits(w, e, pin, tree)
  {
    hide Selected;
    if tree.receipt.Written? {
      var p :| Backed(w, d, pin, tree, p);
      assert Backed(w, e, pin, tree, p);
    }
  }

  lemma StepKeepsInv(w: World, d: Disk, s: Step)
    requires Inv(w, d) && Enabled(w, d, s)
    ensures Inv(w, Next(w, d, s))
  {
    hide Selected;
    var e := Next(w, d, s);
    forall pin | pin in e.bundles ensures Fits(w, e, pin, e.bundles[pin]) {
      hide Fits;
      match s
      case Publish(at, from, fp) =>
        if pin == at {
          PublishedFits(w, d, s);
        } else {
          FitsStill(w, d, e, pin, d.bundles[pin]);
        }
      case PutBack(at, from) => FitsStill(w, d, e, pin, if pin == at then d.spots[from] else d.bundles[pin]);
      case Damage(at, tree) =>
        if pin == at {
          DamagedFits(w, d, s);
        } else {
          FitsStill(w, d, e, pin, d.bundles[pin]);
        }
      case _ => FitsStill(w, d, e, pin, d.bundles[pin]);
    }
  }

  lemma PublishedFits(w: World, d: Disk, s: Step)
    requires s.Publish? && Enabled(w, d, s)
    ensures var e := Next(w, d, s); Fits(w, e, s.pin, e.bundles[s.pin])
  {
    hide Selected;
    var e := Next(w, d, s);
    assert Backed(w, e, s.pin, e.bundles[s.pin], Publication(s.pin, s.fp, d.spots[s.from].site));
  }

  lemma DamagedFits(w: World, d: Disk, s: Step)
    requires s.Damage? && Enabled(w, d, s) && Fits(w, d, s.pin, d.bundles[s.pin])
    ensures var e := Next(w, d, s); Fits(w, e, s.pin, e.bundles[s.pin])
  {
    hide Selected;
    var e := Next(w, d, s);
    if s.tree.receipt.Written? {
      var p :| Backed(w, d, s.pin, d.bundles[s.pin], p);
      assert Backed(w, e, s.pin, s.tree, p);
    }
  }

  lemma {:induction false} HistoryKeepsInv(w: World, history: seq<Disk>)
    requires Legal(w, history)
    ensures Inv(w, history[|history| - 1])
  {
    if |history| > 1 {
      var n := |history| - 1;
      HistoryKeepsInv(w, history[..n]);
      var s :| Enabled(w, history[n - 1], s) && history[n] == Next(w, history[n - 1], s);
      StepKeepsInv(w, history[n - 1], s);
    }
  }

  // ----- locate -----

  datatype Refusal = NotInstalled | ReceiptUnreadable | ReceiptMismatch | SiteMissing | CatalogInvalid

  datatype Located = Found(pin: Pin) | Refused(why: Refusal)

  /** What locate reads of one wheel's directory. */
  function ReceiptAt(b: map<Pin, Tree>, pin: Pin): Receipt {
    if pin in b then b[pin].receipt else Absent
  }

  datatype Reading = Nothing | Garbled | Other | Mine

  function Read(b: map<Pin, Tree>, c: Catalog, fp: Fingerprint, wheel: Wheel): Reading {
    match ReceiptAt(b, Pin(wheel.key, c.digest))
    case Absent => Nothing
    case Unreadable => Garbled
    case r => if r == ReceiptFor(c, wheel, fp) then Mine else Other
  }

  /** Exactly one wheel of the catalog has this interpreter's receipt. */
  ghost predicate OnlyMine(b: map<Pin, Tree>, c: Catalog, fp: Fingerprint, j: int) {
    && 0 <= j < |c.wheels| && Read(b, c, fp, c.wheels[j]) == Mine
    && forall l | 0 <= l < |c.wheels| && l != j :: Read(b, c, fp, c.wheels[l]) != Mine
  }

  ghost predicate NoneMine(b: map<Pin, Tree>, c: Catalog, fp: Fingerprint) {
    forall l | 0 <= l < |c.wheels| :: Read(b, c, fp, c.wheels[l]) != Mine
  }

  ghost predicate SomeReads(b: map<Pin, Tree>, c: Catalog, fp: Fingerprint, n: nat, what: Reading)
    requires n <= |c.wheels|
  {
    exists l :: 0 <= l < n && Read(b, c, fp, c.wheels[l]) == what
  }

  /** Why no directory answers. */
  ghost function WhyNone(b: map<Pin, Tree>, c: Catalog, fp: Fingerprint): Refusal {
    if SomeReads(b, c, fp, |c.wheels|, Other) then ReceiptMismatch
    else if SomeReads(b, c, fp, |c.wheels|, Garbled) then ReceiptUnreadable
    else NotInstalled
  }

  ghost predicate IsAnswer(b: map<Pin, Tree>, c: Catalog, fp: Fingerprint, r: Located) {
    && (NoneMine(b, c, fp) ==> r == Refused(WhyNone(b, c, fp)))
    && (forall j | OnlyMine(b, c, fp, j) ::
          var pin := Pin(c.wheels[j].key, c.digest);
          pin in b && r == if b[pin].site.ocp then Found(pin) else Refused(SiteMissing))
    && (!NoneMine(b, c, fp) && (forall j :: !OnlyMine(b, c, fp, j)) ==> r == Refused(ReceiptMismatch))
  }

  ghost predicate ReadSoFar(b: map<Pin, Tree>, c: Catalog, fp: Fingerprint, n: nat, found: seq<nat>,
                            refused: Option<Refusal>)
    requires n <= |c.wheels|
  {
    && (forall j | j in found :: 0 <= j < n && Read(b, c, fp, c.wheels[j]) == Mine)
    && (forall l | 0 <= l < n && Read(b, c, fp, c.wheels[l]) == Mine :: l in found)
    && (forall i, j | 0 <= i < j < |found| :: found[i] < found[j])
    && refused == (if SomeReads(b, c, fp, n, Other) then Some(ReceiptMismatch)
                   else if SomeReads(b, c, fp, n, Garbled) then Some(ReceiptUnreadable) else None)
  }

  lemma OneMoreRead(b: map<Pin, Tree>, c: Catalog, fp: Fingerprint, n: nat, what: Reading)
    requires n < |c.wheels|
    ensures SomeReads(b, c, fp, n + 1, what) <==> SomeReads(b, c, fp, n, what) || Read(b, c, fp, c.wheels[n]) == what
  {
  }

  lemma ReadOne(b: map<Pin, Tree>, c: Catalog, fp: Fingerprint, n: nat, found: seq<nat>, refused: Option<Refusal>)
    requires n < |c.wheels| && ReadSoFar(b, c, fp, n, found, refused)
    ensures match Read(b, c, fp, c.wheels[n])
      case Nothing => ReadSoFar(b, c, fp, n + 1, found, refused)
      case Garbled =>
        ReadSoFar(b, c, fp, n + 1, found, if refused.None? then Some(ReceiptUnreadable) else refused)
      case Other => ReadSoFar(b, c, fp, n + 1, found, Some(ReceiptMismatch))
      case Mine => ReadSoFar(b, c, fp, n + 1, found + [n], refused)
  {
    hide SomeReads, Read;
    OneMoreRead(b, c, fp, n, Other);
    OneMoreRead(b, c, fp, n, Garbled);
    if Read(b, c, fp, c.wheels[n]) == Mine {
      var more := found + [n];
      assert forall j | j in more :: j in found || j == n;
      forall l | 0 <= l < n + 1 && Read(b, c, fp, c.wheels[l]) == Mine ensures l in more {
        if l == n { assert more[|found|] == n; } else { assert l in found; }
      }
      assert forall i | 0 <= i < |found| :: found[i] in found;
    }
  }

  /** Why nothing answers, from the receipts themselves: a mismatch when some wheel's directory has a readable receipt
      that is not this interpreter's, else unreadable when one cannot be read, else not installed. */
  lemma RefusalsExactly(b: map<Pin, Tree>, c: Catalog, fp: Fingerprint, why: Refusal)
    requires IsAnswer(b, c, fp, Refused(why)) && NoneMine(b, c, fp)
    ensures why.ReceiptMismatch? <==>
      exists x :: x in c.wheels && Pin(x.key, c.digest) in b &&
                  var got := b[Pin(x.key, c.digest)].receipt; got.Foreign? || got.Written?
    ensures why.ReceiptUnreadable? <==>
      && !why.ReceiptMismatch?
      && exists x :: x in c.wheels && Pin(x.key, c.digest) in b && b[Pin(x.key, c.digest)].receipt.Unreadable?
    ensures why.ReceiptMismatch? || why.ReceiptUnreadable? || why.NotInstalled?
  {
    hide IsAnswer, ReceiptFor;
    assert why == WhyNone(b, c, fp) by { RefusedIs(b, c, fp, why); }
    forall x | x in c.wheels ensures exists l :: 0 <= l < |c.wheels| && c.wheels[l] == x {}
    assert forall l | 0 <= l < |c.wheels| :: c.wheels[l] in c.wheels;
    if x :| x in c.wheels && Pin(x.key, c.digest) in b &&
            var got := b[Pin(x.key, c.digest)].receipt; got.Foreign? || got.Written?
    {
      var l :| 0 <= l < |c.wheels| && c.wheels[l] == x;
      assert Read(b, c, fp, c.wheels[l]) == Other;
    }
    if x :| x in c.wheels && Pin(x.key, c.digest) in b && b[Pin(x.key, c.digest)].receipt.Unreadable? {
      var l :| 0 <= l < |c.wheels| && c.wheels[l] == x;
      assert Read(b, c, fp, c.wheels[l]) == Garbled;
    }
  }

  lemma RefusedIs(b: map<Pin, Tree>, c: Catalog, fp: Fingerprint, why: Refusal)
    requires IsAnswer(b, c, fp, Refused(why)) && NoneMine(b, c, fp)
    ensures why == WhyNone(b, c, fp)
  {
  }

  method Locate(b: map<Pin, Tree>, catalog: Option<Catalog>, fp: Fingerprint) returns (r: Located)
    ensures catalog.None? ==> r == Refused(CatalogInvalid)
    ensures catalog.Some? ==> IsAnswer(b, catalog.value, fp, r)
  {
    if catalog.None? { return Refused(CatalogInvalid); }
    var c := catalog.value;
    var found: seq<nat>, refused: Option<Refusal> := [], None;
    var i := 0;
    while i < |c.wheels|
      invariant 0 <= i <= |c.wheels|
      invariant ReadSoFar(b, c, fp, i, found, refused)
    {
      hide SomeReads, ReadSoFar;
      ReadOne(b, c, fp, i, found, refused);
      var receipt := ReceiptAt(b, Pin(c.wheels[i].key, c.digest));
      if receipt.Unreadable? {
        if refused.None? { refused := Some(ReceiptUnreadable); }
      } else if !receipt.Absent? {
        if receipt != ReceiptFor(c, c.wheels[i], fp) { refused := Some(ReceiptMismatch); }
        else { found := found + [i]; }
      }
      i := i + 1;
    }
    if |found| > 1 {
      TwoFound(b, c, fp, found, refused);
      return Refused(ReceiptMismatch);
    }
    if found == [] { return Refused(if refused.Some? then refused.value else NotInstalled); }
    OneFound(b, c, fp, found, refused);
    var pin := Pin(c.wheels[found[0]].key, c.digest);
    r := if b[pin].site.ocp then Found(pin) else Refused(SiteMissing);
  }

  lemma TwoFound(b: map<Pin, Tree>, c: Catalog, fp: Fingerprint, found: seq<nat>, refused: Option<Refusal>)
    requires ReadSoFar(b, c, fp, |c.wheels|, found, refused) && |found| > 1
    ensures IsAnswer(b, c, fp, Refused(ReceiptMismatch))
  {
    hide Read;
    assert found[0] in found && found[1] in found;
  }

  lemma OneFound(b: map<Pin, Tree>, c: Catalog, fp: Fingerprint, found: seq<nat>, refused: Option<Refusal>)
    requires ReadSoFar(b, c, fp, |c.wheels|, found, refused) && |found| == 1
    ensures found[0] < |c.wheels| && OnlyMine(b, c, fp, found[0])
    ensures Pin(c.wheels[found[0]].key, c.digest) in b
  {
    assert found[0] in found;
  }

  /** Two interpreters' receipts never answer together: a fingerprint's tags select one key. */
  lemma AtMostOneCandidate(w: World, d: Disk, digest: Digest, fp: Fingerprint, j: int)
    requires Coherent(w) && Inv(w, d)
    requires var c := w.catalog(digest); 0 <= j < |c.wheels| && Read(d.bundles, c, fp, c.wheels[j]) == Mine
    ensures var c := w.catalog(digest);
      Selected(c, w.tags(fp)) == Some(c.wheels[j]) && OnlyMine(d.bundles, c, fp, j)
  {
    hide Selected;
    var c := w.catalog(digest);
    SelectedByReceipt(w, d, digest, fp, j);
    forall l | 0 <= l < |c.wheels| && l != j ensures Read(d.bundles, c, fp, c.wheels[l]) != Mine {
      if Read(d.bundles, c, fp, c.wheels[l]) == Mine { SelectedByReceipt(w, d, digest, fp, l); }
    }
  }

  lemma SelectedByReceipt(w: World, d: Disk, digest: Digest, fp: Fingerprint, j: int)
    requires Coherent(w) && Inv(w, d)
    requires var c := w.catalog(digest); 0 <= j < |c.wheels| && Read(d.bundles, c, fp, c.wheels[j]) == Mine
    ensures var c := w.catalog(digest);
      && var wheel := c.wheels[j];
         var pin := Pin(wheel.key, digest);
      && Selected(c, w.tags(fp)) == Some(wheel) && pin in d.bundles
      && exists p :: Backed(w, d, pin, d.bundles[pin], p) && p.fingerprint == fp
  {
    hide Selected;
    var c := w.catalog(digest);
    var pin := Pin(c.wheels[j].key, digest);
    assert Fits(w, d, pin, d.bundles[pin]);
    var p :| Backed(w, d, pin, d.bundles[pin], p);
    var wheel := Selected(c, w.tags(p.fingerprint)).value;
    assert wheel in c.wheels by { SelectedIsOne(c, w.tags(p.fingerprint)); }
    var l :| 0 <= l < |c.wheels| && c.wheels[l] == wheel;
    assert l == j;
  }

  lemma SelectedIsOne(c: Catalog, tags: seq<Tag>)
    ensures Selected(c, tags).Some? ==> Selected(c, tags).value in c.wheels
  {
  }

  /** What locate answers after any history, whichever interpreters installed and whatever was pruned or damaged: it
      finds a bundle exactly when the pin this interpreter selects carries its receipt over an OCP package, and then
      a verified install of this fingerprint published that pin, with this very site unless it was damaged since. */
  lemma LocateAfterAnyHistory(w: World, history: seq<Disk>, digest: Digest, fp: Fingerprint, r: Located)
    requires Coherent(w) && Legal(w, history)
    requires IsAnswer(history[|history| - 1].bundles, w.catalog(digest), fp, r)
    ensures var d, c := history[|history| - 1], w.catalog(digest);
      var wheel := Selected(c, w.tags(fp));
      && (r.Found? <==> wheel.Some? && var pin := Pin(wheel.value.key, digest);
            pin in d.bundles && d.bundles[pin].receipt == ReceiptFor(c, wheel.value, fp) && d.bundles[pin].site.ocp)
      && (r.Found? ==> r.pin == Pin(wheel.value.key, digest))
      && (r.Found? ==> exists p :: Backed(w, d, r.pin, d.bundles[r.pin], p) && p.fingerprint == fp)
      && (r == Refused(ReceiptMismatch) ==> NoneMine(d.bundles, c, fp))
  {
    hide Selected, Inv, ReceiptFor;
    var d, c := history[|history| - 1], w.catalog(digest);
    HistoryKeepsInv(w, history);
    var wheel := Selected(c, w.tags(fp));
    if wheel.Some? && Pin(wheel.value.key, digest) in d.bundles
       && d.bundles[Pin(wheel.value.key, digest)].receipt == ReceiptFor(c, wheel.value, fp) {
      SelectedIsOne(c, w.tags(fp));
      var j :| 0 <= j < |c.wheels| && c.wheels[j] == wheel.value;
      ReadsMine(d, c, fp, j);
      AtMostOneCandidate(w, d, digest, fp, j);
      SelectedByReceipt(w, d, digest, fp, j);
    } else if !NoneMine(d.bundles, c, fp) {
      var j :| 0 <= j < |c.wheels| && Read(d.bundles, c, fp, c.wheels[j]) == Mine;
      AtMostOneCandidate(w, d, digest, fp, j);
      SelectedByReceipt(w, d, digest, fp, j);
      ReadsMine(d, c, fp, j);
    }
  }

  lemma ReadsMine(d: Disk, c: Catalog, fp: Fingerprint, j: int)
    requires 0 <= j < |c.wheels|
    ensures var pin := Pin(c.wheels[j].key, c.digest);
      Read(d.bundles, c, fp, c.wheels[j]) == Mine <==>
        pin in d.bundles && d.bundles[pin].receipt == ReceiptFor(c, c.wheels[j], fp)
  {
  }

  // ----- install -----

  /** How pip's owned tree ended, and what it had written by then. */
  datatype PipEnd =
    | Exited(ok: bool, site: Site)
    | TimedOut(site: Site)       // its end proven
    | Unproven(site: Site)       // a writer may live
    | Unreleased(site: Site)     // its record could not be written: never released, its end proven

  /** The records each directory holds, and what the process oracles answer when it is judged. */
  datatype Judge = Judge(
    posix: bool, records: Spot -> StagingOwnership.Records, oracles: Spot -> StagingOwnership.Oracles)

  /** _keeps: a writer of this staging may live. */
  predicate Keeps(judge: Judge, s: Spot) {
    StagingOwnership.MayLive(judge.records(s), judge.posix, judge.oracles(s)).Some?
  }

  method JudgeStaging(judge: Judge, s: Spot) returns (kept: bool)
    ensures kept == Keeps(judge, s)
  {
    var why, _ := StagingOwnership.WriterMayLive(judge.records(s), judge.posix, judge.oracles(s));
    kept := why.Some?;
  }

  /** Every way one install can go: what the OS and the processes answer, and the fresh names uuid4 gives. */
  datatype Course = Course(
    locked: bool, judge: Judge, left: map<Spot, Tree>, accepts: bool, name: nat, aside: nat, made: bool,
    recorded: bool, pip: PipEnd, smoked: bool, written: bool, moves: bool, publishes: bool, restores: bool)

  datatype Failure =
    | Unsupported | CandidatePin | PathTooLong | NoLock | NoStaging | RecordUnwritable | PipTimeout | TreeUnproven
    | PipFailed | VerifyFailed | SmokeFailed | NotWritten | BundleInUse | RenameFailed

  datatype Result = Installed(pin: Pin) | Failed(why: Failure)

  ghost predicate Verified(w: World, c: Catalog, wheel: Wheel, fp: Fingerprint, tree: Tree) {
    tree.receipt == ReceiptFor(c, wheel, fp) && w.clean(tree.site, wheel.file) && tree.site.ocp
  }

  /** Wherever an install of target stops: the pin holds what it held, or a verified bundle with its receipt, or
      nothing, and then what it held is still there, set aside. Other pins and other platforms' stagings are as
      before. */
  ghost predicate SafePoint(w: World, before: Disk, now: Disk, target: Pin, wheel: Wheel, fp: Fingerprint,
                            aside: Spot) {
    && now.bundles - {target} == before.bundles - {target}
    && (target in now.bundles ==>
          || (target in before.bundles && now.bundles[target] == before.bundles[target])
          || Verified(w, w.catalog(target.digest), wheel, fp, now.bundles[target]))
    && (target !in now.bundles && target in before.bundles ==>
          aside in now.spots && now.spots[aside] == before.bundles[target])
    && SameElsewhere(before.spots, now.spots, target.key)
  }

  ghost predicate SameElsewhere(before: map<Spot, Tree>, now: map<Spot, Tree>, key: Key) {
    forall s: Spot | s.key != key :: (s in now <==> s in before) && (s in now ==> now[s] == before[s])
  }

  ghost predicate AllSafe(w: World, before: Disk, points: seq<Disk>, target: Pin, wheel: Wheel, fp: Fingerprint,
                          aside: Spot) {
    forall i | 0 <= i < |points| :: SafePoint(w, before, points[i], target, wheel, fp, aside)
  }

  lemma SafeTogether(w: World, before: Disk, p: seq<Disk>, q: seq<Disk>, target: Pin, wheel: Wheel, fp: Fingerprint,
                     aside: Spot)
    requires AllSafe(w, before, p, target, wheel, fp, aside) && AllSafe(w, before, q, target, wheel, fp, aside)
    ensures AllSafe(w, before, p + q, target, wheel, fp, aside)
  {
    hide SafePoint;
    assert forall i | |p| <= i < |p + q| :: (p + q)[i] == q[i - |p|];
  }

  /** Where only stagings of one key change. */
  ghost predicate Quiet(before: Disk, points: seq<Disk>, key: Key) {
    forall i | 0 <= i < |points| ::
      points[i].bundles == before.bundles && SameElsewhere(before.spots, points[i].spots, key)
  }

  lemma QuietTogether(before: Disk, p: seq<Disk>, q: seq<Disk>, key: Key)
    requires Quiet(before, p, key) && Quiet(before, q, key)
    ensures Quiet(before, p + q, key)
  {
    hide SameElsewhere;
    assert forall i | |p| <= i < |p + q| :: (p + q)[i] == q[i - |p|];
  }

  lemma QuietIsSafe(w: World, before: Disk, points: seq<Disk>, target: Pin, wheel: Wheel, fp: Fingerprint, aside: Spot)
    requires Quiet(before, points, target.key)
    ensures AllSafe(w, before, points, target, wheel, fp, aside)
  {
    hide SameElsewhere;
  }

  lemma StillFits(w: World, history: seq<Disk>, d: Disk, e: Disk, pin: Pin)
    requires Legal(w, history) && history[|history| - 1] == d && pin in d.bundles
    requires e.published == d.published && e.spoiled == d.spoiled
    ensures Fits(w, e, pin, d.bundles[pin])
  {
    HistoryKeepsInv(w, history);
    FitsStill(w, d, e, pin, d.bundles[pin]);
  }

  lemma SameTransitive(a: map<Spot, Tree>, b: map<Spot, Tree>, c: map<Spot, Tree>, key: Key)
    requires SameElsewhere(a, b, key) && SameElsewhere(b, c, key)
    ensures SameElsewhere(a, c, key)
  {
  }

  lemma SameBut(a: map<Spot, Tree>, s: Spot, x: Tree)
    ensures SameElsewhere(a, a, s.key) && SameElsewhere(a, a - {s}, s.key) && SameElsewhere(a, a[s := x], s.key)
  {
  }

  lemma SameAfterMove(a: map<Spot, Tree>, b: map<Spot, Tree>, staging: Spot, aside: Spot)
    requires staging.key == aside.key && forall s | s != staging && s != aside ::
      (s in b <==> s in a) && (s in b ==> b[s] == a[s])
    ensures SameElsewhere(a, b, aside.key)
  {
  }

  lemma SameButOne(a: map<Spot, Tree>, b: map<Spot, Tree>, s: Spot)
    requires b - {s} == a - {s}
    ensures SameElsewhere(a, b, s.key)
    ensures forall x | x != s && x in a :: x in b && b[x] == a[x]
  {
    assert forall x | x != s :: (x in b <==> x in b - {s}) && (x in a <==> x in a - {s});
    assert forall x | x != s && x in a :: (a - {s})[x] == a[x] && (b - {s})[x] == b[x];
  }

  lemma NothingIsQuiet(before: Disk, key: Key)
    ensures Quiet(before, [], key)
  {
  }

  lemma OnePointIsQuiet(before: Disk, mid: Disk, key: Key)
    requires mid.bundles == before.bundles && SameElsewhere(before.spots, mid.spots, key)
    ensures Quiet(before, [mid], key)
  {
  }

  lemma OneStagingIsQuiet(before: Disk, mid: Disk, s: Spot)
    requires mid.bundles == before.bundles && mid.spots - {s} == before.spots - {s}
    ensures Quiet(before, [mid], s.key)
  {
    SameButOne(before.spots, mid.spots, s);
  }

  lemma QuietSince(before: Disk, mid: Disk, points: seq<Disk>, key: Key)
    requires mid.bundles == before.bundles && SameElsewhere(before.spots, mid.spots, key) && Quiet(mid, points, key)
    ensures Quiet(before, points, key)
  {
    hide SameElsewhere;
    forall i | 0 <= i < |points| ensures SameElsewhere(before.spots, points[i].spots, key) {
      SameTransitive(before.spots, mid.spots, points[i].spots, key);
    }
  }

  lemma SafePointSince(w: World, before: Disk, mid: Disk, now: Disk, target: Pin, wheel: Wheel, fp: Fingerprint,
                       aside: Spot)
    requires mid.bundles == before.bundles && SameElsewhere(before.spots, mid.spots, target.key)
    requires SafePoint(w, mid, now, target, wheel, fp, aside)
    ensures SafePoint(w, before, now, target, wheel, fp, aside)
  {
    hide Verified;
    SameTransitive(before.spots, mid.spots, now.spots, target.key);
  }

  lemma NothingIsSafe(w: World, before: Disk, target: Pin, wheel: Wheel, fp: Fingerprint, aside: Spot)
    ensures AllSafe(w, before, [], target, wheel, fp, aside)
  {
  }

  lemma SafeOneMore(w: World, before: Disk, p: seq<Disk>, d: Disk, target: Pin, wheel: Wheel, fp: Fingerprint,
                    aside: Spot)
    requires AllSafe(w, before, p, target, wheel, fp, aside) && SafePoint(w, before, d, target, wheel, fp, aside)
    ensures AllSafe(w, before, p + [d], target, wheel, fp, aside)
  {
    hide SafePoint;
  }

  /** The three disks an install's renames pass through. */
  lemma RenamesAreSafe(w: World, before: Disk, now: Disk, target: Pin, wheel: Wheel, fp: Fingerprint, aside: Spot)
    requires SameElsewhere(before.spots, now.spots, target.key)
    requires || now.bundles == before.bundles
             || (target in before.bundles && now.bundles == before.bundles - {target}
                 && aside in now.spots && now.spots[aside] == before.bundles[target])
             || (target in now.bundles && now.bundles == before.bundles[target := now.bundles[target]]
                 && Verified(w, w.catalog(target.digest), wheel, fp, now.bundles[target]))
    ensures SafePoint(w, before, now, target, wheel, fp, aside)
  {
    hide Verified;
  }

  /** What is safe from the disk a quiet stretch led to is safe from the disk it began with. */
  lemma SafeSince(w: World, before: Disk, mid: Disk, points: seq<Disk>, target: Pin, wheel: Wheel, fp: Fingerprint,
                  aside: Spot)
    requires mid.bundles == before.bundles && SameElsewhere(before.spots, mid.spots, target.key)
    requires AllSafe(w, mid, points, target, wheel, fp, aside)
    ensures AllSafe(w, before, points, target, wheel, fp, aside)
  {
    hide SafePoint, SameElsewhere;
    forall i | 0 <= i < |points| ensures SafePoint(w, before, points[i], target, wheel, fp, aside) {
      SafePointSince(w, before, mid, points[i], target, wheel, fp, aside);
    }
  }

  /** The bundle under this pin is the one locate answers, and passes the full verify and the smoke. */
  ghost predicate Intact(w: World, bundles: map<Pin, Tree>, digest: Digest, wheel: Wheel, fp: Fingerprint, o: Course) {
    var target := Pin(wheel.key, digest);
    && target in bundles && IsAnswer(bundles, w.catalog(digest), fp, Found(target))
    && w.clean(bundles[target].site, wheel.file) && o.accepts
  }

  /** What stops an install inside its own staging, if anything. */
  function Hindrance(w: World, wheel: Wheel, o: Course): (r: Option<Failure>)
    ensures r.Some? ==> !r.value.NoStaging? && !r.value.BundleInUse? && !r.value.RenameFailed?
  {
    if !o.recorded then Some(RecordUnwritable)
    else
      match o.pip
      case TimedOut(_) => Some(PipTimeout)
      case Unproven(_) => Some(TreeUnproven)
      case Unreleased(_) => Some(RecordUnwritable)
      case Exited(ok, site) =>
        if !ok then Some(PipFailed)
        else if !w.clean(site, wheel.file) then Some(VerifyFailed)
        else if !o.smoked || !site.ocp then Some(SmokeFailed)
        else if !o.written then Some(NotWritten)
        else None
  }

  /** What stops the renames, if anything: names are those taken before them. */
  function Obstacle(bundles: set<Pin>, names: set<Spot>, target: Pin, o: Course): (r: Option<Failure>)
    ensures r.Some? ==> r.value.BundleInUse? || r.value.RenameFailed?
  {
    if target in bundles && (!o.moves || Replaced(target.key, o.aside) in names) then Some(BundleInUse)
    else if !o.publishes then Some(RenameFailed)
    else None
  }

  /** What a fresh attempt answers, over the bundles and the stagings that are there. */
  function Answer(w: World, bundles: set<Pin>, names: set<Spot>, digest: Digest, wheel: Wheel, o: Course): Result {
    if !o.made || Own(wheel.key, o.name) in names then Failed(NoStaging)
    else if Hindrance(w, wheel, o).Some? then Failed(Hindrance(w, wheel, o).value)
    else
      match Obstacle(bundles, names, Pin(wheel.key, digest), o)
      case Some(why) => Failed(why)
      case None => Installed(Pin(wheel.key, digest))
  }

  lemma ObstacleStill(bundles: set<Pin>, was: map<Spot, Tree>, now: map<Spot, Tree>, staging: Spot, target: Pin,
                      o: Course)
    requires staging.Own? && now - {staging} == was - {staging}
    ensures Obstacle(bundles, now.Keys, target, o) == Obstacle(bundles, was.Keys, target, o)
  {
    OnlyOneSpot(was, now, staging);
  }

  /** The names an install's reclaim leaves taken. */
  ghost function Reclaimed(names: set<Spot>, key: Key, o: Course): set<Spot> {
    set s | s in names && (s.key != key || s.Trash? || Keeps(o.judge, s) || s in o.left)
  }

  lemma NamesLeft(was: map<Spot, Tree>, now: map<Spot, Tree>, key: Key, o: Course)
    requires forall s :: s in now <==> s in was && (s.key != key || s.Trash? || Keeps(o.judge, s) || s in o.left)
    ensures now.Keys == Reclaimed(was.Keys, key, o)
  {
    hide Keeps;
  }

  /** Every step of an attempt goes well. */
  ghost predicate GoesWell(w: World, bundles: set<Pin>, names: set<Spot>, digest: Digest, wheel: Wheel, o: Course) {
    && o.made && Own(wheel.key, o.name) !in names
    && o.recorded && o.pip.Exited? && o.pip.ok && w.clean(o.pip.site, wheel.file) && o.pip.site.ocp
    && o.smoked && o.written && o.publishes
    && (Pin(wheel.key, digest) in bundles ==> o.moves && Replaced(wheel.key, o.aside) !in names)
  }

  /** An attempt that has its staging. */
  ghost predicate Begun(names: set<Spot>, wheel: Wheel, o: Course) { o.made && Own(wheel.key, o.name) !in names }

  /** pip came to an end in a recorded attempt, with this verdict and this site. */
  ghost predicate Ended(names: set<Spot>, wheel: Wheel, o: Course, ok: bool) {
    Begun(names, wheel, o) && o.recorded && o.pip.Exited? && o.pip.ok == ok
  }

  ghost predicate Checked(w: World, names: set<Spot>, wheel: Wheel, o: Course) {
    Ended(names, wheel, o, true) && w.clean(o.pip.site, wheel.file)
  }

  /** The verified replacement is ready, with its receipt. */
  ghost predicate Filled(w: World, names: set<Spot>, wheel: Wheel, o: Course) {
    Checked(w, names, wheel, o) && o.smoked && o.pip.site.ocp && o.written
  }

  /** What an attempt answers, cause by cause: it succeeds if and only if every step of it goes well, and each failure
      is answered if and only if its own step failed after all before it went well. */
  lemma SucceedsExactly(w: World, bundles: set<Pin>, names: set<Spot>, digest: Digest, wheel: Wheel, o: Course)
    ensures var r, target := Answer(w, bundles, names, digest, wheel, o), Pin(wheel.key, digest);
      var inTheWay := target in bundles && (!o.moves || Replaced(wheel.key, o.aside) in names);
      && (r == Installed(target) <==> GoesWell(w, bundles, names, digest, wheel, o))
      && (r == Failed(NoStaging) <==> !o.made || Own(wheel.key, o.name) in names)
      && (r == Failed(RecordUnwritable) <==> Begun(names, wheel, o) && (!o.recorded || o.pip.Unreleased?))
      && (r == Failed(PipTimeout) <==> Begun(names, wheel, o) && o.recorded && o.pip.TimedOut?)
      && (r == Failed(TreeUnproven) <==> Begun(names, wheel, o) && o.recorded && o.pip.Unproven?)
      && (r == Failed(PipFailed) <==> Ended(names, wheel, o, false))
      && (r == Failed(VerifyFailed) <==> Ended(names, wheel, o, true) && !w.clean(o.pip.site, wheel.file))
      && (r == Failed(SmokeFailed) <==> Checked(w, names, wheel, o) && !(o.smoked && o.pip.site.ocp))
      && (r == Failed(NotWritten) <==> Checked(w, names, wheel, o) && o.smoked && o.pip.site.ocp && !o.written)
      && (r == Failed(BundleInUse) <==> Filled(w, names, wheel, o) && inTheWay)
      && (r == Failed(RenameFailed) <==> Filled(w, names, wheel, o) && !inTheWay && !o.publishes)
  {
  }

  /** What a repair had set aside is gone, unless the OS would not remove it. */
  ghost predicate Cleared(spots: map<Spot, Tree>, key: Key, o: Course) {
    Replaced(key, o.aside) in spots <==> Replaced(key, o.aside) in o.left
  }

  /** How an install that held the lock left the disk. */
  ghost predicate Outcome(w: World, before: map<Pin, Tree>, bundles: map<Pin, Tree>, spots: map<Spot, Tree>,
                          digest: Digest, wheel: Wheel, fp: Fingerprint, o: Course, r: Result)
  {
    var target := Pin(wheel.key, digest);
    && bundles - {target} == before - {target}
    && (match r
        case Installed(pin) =>
          && pin == target && target in bundles && Verified(w, w.catalog(digest), wheel, fp, bundles[target])
          && IsAnswer(bundles, w.catalog(digest), fp, Found(target))
        case Failed(why) =>
          if why.RenameFailed? && !o.restores && target in before then
            && bundles == before - {target}
            && Replaced(wheel.key, o.aside) in spots && spots[Replaced(wheel.key, o.aside)] == before[target]
          else bundles == before)
    && (r == Failed(TreeUnproven) ==> Own(wheel.key, o.name) in spots)
    && (r.Failed? && !r.why.TreeUnproven? && !r.why.NoStaging? ==>
          (Own(wheel.key, o.name) in spots <==> Own(wheel.key, o.name) in o.left))
  }

  lemma Arriving(w: World, d: Disk, target: Pin, staging: Spot, wheel: Wheel, fp: Fingerprint)
    requires Selected(w.catalog(target.digest), w.tags(fp)) == Some(wheel) && wheel.key == target.key
    requires target !in d.bundles && staging in d.spots
    requires Verified(w, w.catalog(target.digest), wheel, fp, d.spots[staging])
    ensures Enabled(w, d, Publish(target, staging, fp))
  {
  }

  lemma AnswerIsOne(b: map<Pin, Tree>, c: Catalog, fp: Fingerprint, r: Located, s: Located)
    requires IsAnswer(b, c, fp, r) && IsAnswer(b, c, fp, s)
    ensures r == s
  {
    hide Read;
  }

  /** A verified bundle under its pin is what locate answers. */
  lemma VerifiedAnswers(w: World, history: seq<Disk>, digest: Digest, wheel: Wheel, fp: Fingerprint)
    requires Coherent(w) && Legal(w, history) && Selected(w.catalog(digest), w.tags(fp)) == Some(wheel)
    requires var d := history[|history| - 1]; var target := Pin(wheel.key, digest);
      target in d.bundles && Verified(w, w.catalog(digest), wheel, fp, d.bundles[target])
    ensures IsAnswer(history[|history| - 1].bundles, w.catalog(digest), fp, Found(Pin(wheel.key, digest)))
  {
    hide Selected, Inv;
    var d, c := history[|history| - 1], w.catalog(digest);
    HistoryKeepsInv(w, history);
    SelectedIsOne(c, w.tags(fp));
    var j :| 0 <= j < |c.wheels| && c.wheels[j] == wheel;
    ReadsMine(d, c, fp, j);
    AtMostOneCandidate(w, d, digest, fp, j);
  }

  lemma FoundIsVerified(w: World, history: seq<Disk>, digest: Digest, wheel: Wheel, fp: Fingerprint)
    requires Coherent(w) && Legal(w, history) && Selected(w.catalog(digest), w.tags(fp)) == Some(wheel)
    requires var d := history[|history| - 1]; var target := Pin(wheel.key, digest);
      && IsAnswer(d.bundles, w.catalog(digest), fp, Found(target))
    ensures var d := history[|history| - 1]; var target := Pin(wheel.key, digest);
      && target in d.bundles && d.bundles[target].site.ocp
      && d.bundles[target].receipt == ReceiptFor(w.catalog(digest), wheel, fp)
  {
    hide Selected, Inv, IsAnswer, ReceiptFor;
    LocateAfterAnyHistory(w, history, digest, fp, Found(Pin(wheel.key, digest)));
  }

  // ----- prune -----

  datatype Item = Bundle(pin: Pin) | Place(spot: Spot)

  datatype Reason = Rollback | InUse | RemoveFailed | WriterMayLive | Busy

  datatype Fate = Removed | Kept(why: Reason)

  /** What the OS and the process oracles answer during one prune, and the names uuid4 gives. */
  datatype Sweep = Sweep(busy: set<Key>, unmovable: set<Pin>, left: map<Spot, Tree>, judge: Judge,
                         trash: Pin -> nat)

  datatype Tally = Tally(removed: nat, kept: map<Reason, nat>)

  function Times(t: Tally, fate: Fate): nat {
    if fate.Removed? then t.removed else if fate.why in t.kept then t.kept[fate.why] else 0
  }

  /** keep(reason, count) and removed += count. */
  function Count(t: Tally, fate: Fate, n: nat): Tally {
    if n == 0 then t
    else if fate.Removed? then t.(removed := t.removed + n)
    else t.(kept := t.kept[fate.why := Times(t, fate) + n])
  }

  function Those(fates: map<Item, Fate>, fate: Fate): set<Item> {
    set i | i in fates && fates[i] == fate
  }

  /** Every item judged is counted once, under its fate. */
  ghost predicate Agrees(t: Tally, fates: map<Item, Fate>) {
    forall fate :: Times(t, fate) == |Those(fates, fate)|
  }

  function All(items: set<Item>, fate: Fate): map<Item, Fate> {
    map i | i in items :: fate
  }

  lemma ThoseGrow(fates: map<Item, Fate>, items: set<Item>, fate: Fate, other: Fate)
    requires items !! fates.Keys
    ensures |Those(fates + All(items, fate), other)| == |Those(fates, other)| + if other == fate then |items| else 0
  {
    if other == fate {
      assert Those(fates + All(items, fate), other) == Those(fates, other) + items;
    } else {
      assert Those(fates + All(items, fate), other) == Those(fates, other);
    }
  }

  lemma CountAgrees(t: Tally, fates: map<Item, Fate>, items: set<Item>, fate: Fate)
    requires Agrees(t, fates) && items !! fates.Keys
    ensures Agrees(Count(t, fate, |items|), fates + All(items, fate))
  {
    hide Those, All;
    forall other ensures Times(Count(t, fate, |items|), other) == |Those(fates + All(items, fate), other)| {
      assert Times(t, other) == |Those(fates, other)|;
      ThoseGrow(fates, items, fate, other);
    }
  }

  /** What disposing of one item may change. */
  ghost predicate Touches(before: Disk, now: Disk, item: Item, o: Sweep) {
    match item
    case Bundle(pin) =>
      && now.bundles - {pin} == before.bundles - {pin} && (pin in now.bundles ==> now.bundles == before.bundles)
      && var aside := Trash(pin.key, o.trash(pin));
         now.spots - {aside} == before.spots - {aside} && (aside in before.spots ==> now.spots == before.spots)
    case Place(s) => now.bundles == before.bundles && now.spots - {s} == before.spots - {s}
  }

  /** The name is one that a bundle among these was set aside under, if it was. */
  ghost predicate NamedByAside(pins: set<Pin>, s: Spot, o: Sweep) {
    exists pin :: pin in pins && s == Trash(pin.key, o.trash(pin))
  }

  /** The rollback does not keep the bundle, and its key's lock was free. */
  predicate Tried(pin: Pin, keep: set<Digest>, o: Sweep) { pin.digest !in keep && pin.key !in o.busy }

  /** The name the bundle would be set aside under was there already, or was given to another one. */
  ghost predicate NameTaken(before: Disk, pin: Pin, o: Sweep) {
    var aside := Trash(pin.key, o.trash(pin));
    aside in before.spots || NamedByAside(before.bundles.Keys - {pin}, aside, o)
  }

  /** The place is under a free lock, and no writer of it may live. */
  predicate Judged(s: Spot, o: Sweep) { s.key !in o.busy && (s.Trash? || !Keeps(o.judge, s)) }

  /** Every place on the disk was there before, or is a judged bundle set aside. */
  ghost predicate Accounted(before: Disk, now: Disk, fates: map<Item, Fate>, o: Sweep) {
    forall s | s in now.spots && s !in before.spots ::
      exists pin :: pin in before.bundles && Bundle(pin) in fates && s == Trash(pin.key, o.trash(pin))
  }

  lemma AccountedStill(before: Disk, mid: Disk, now: Disk, fates: map<Item, Fate>, more: map<Item, Fate>, item: Item,
                       o: Sweep)
    requires Accounted(before, mid, fates, o) && Touches(mid, now, item, o) && item in more && fates.Keys <= more.Keys
    requires match item case Bundle(pin) => pin in before.bundles case Place(s) => s in mid.spots
    ensures Accounted(before, now, more, o)
  {
    forall s | s in now.spots && s !in before.spots
      ensures exists pin :: pin in before.bundles && Bundle(pin) in more && s == Trash(pin.key, o.trash(pin))
    {
      match item
      case Bundle(pin) => OnlyOneSpot(mid.spots, now.spots, Trash(pin.key, o.trash(pin)));
      case Place(x) => OnlyOneSpot(mid.spots, now.spots, x);
      if s in mid.spots {
        var pin :| pin in before.bundles && Bundle(pin) in fates && s == Trash(pin.key, o.trash(pin));
        assert Bundle(pin) in more;
      }
    }
  }

  /** What a fate says of the disk: before is the disk the prune began with. */
  ghost predicate Meant(before: Disk, now: Disk, item: Item, fate: Fate, keep: set<Digest>, o: Sweep) {
    match (item, fate)
    case (Bundle(pin), Removed) =>
      && Tried(pin, keep, o) && pin !in o.unmovable && pin !in now.bundles
      && var aside := Trash(pin.key, o.trash(pin));
         aside !in o.left && (aside !in now.spots || NamedByAside(before.bundles.Keys - {pin}, aside, o))
    case (Bundle(pin), Kept(RemoveFailed)) =>
      && Tried(pin, keep, o) && pin !in o.unmovable && pin !in now.bundles
      && var aside := Trash(pin.key, o.trash(pin)); aside in o.left && aside in now.spots
    case (Bundle(pin), Kept(InUse)) =>
      && Tried(pin, keep, o) && pin in now.bundles
      && (pin in o.unmovable || NameTaken(before, pin, o))
    case (Bundle(pin), Kept(Rollback)) => pin in now.bundles && pin.digest in keep
    case (Bundle(pin), Kept(Busy)) => pin in now.bundles && pin.digest !in keep && pin.key in o.busy
    case (Place(s), Removed) =>
      Judged(s, o) && s !in o.left && (s !in now.spots || NamedByAside(before.bundles.Keys, s, o))
    case (Place(s), Kept(RemoveFailed)) => Judged(s, o) && s in o.left && s in now.spots
    case (Place(s), Kept(WriterMayLive)) =>
      && s.key !in o.busy && !s.Trash? && Keeps(o.judge, s)
      && s in before.spots && s in now.spots && now.spots[s] == before.spots[s]
    case (_, _) => false
  }

  ghost predicate AllMeant(before: Disk, now: Disk, fates: map<Item, Fate>, keep: set<Digest>, o: Sweep) {
    forall item | item in fates :: Meant(before, now, item, fates[item], keep, o)
  }

  /** The trash a failed removal left is not the place disposed of next. */
  ghost predicate Apart(fates: map<Item, Fate>, item: Item, o: Sweep) {
    item.Place? ==> forall pin | Bundle(pin) in fates && fates[Bundle(pin)] == Kept(RemoveFailed) ::
      item.spot != Trash(pin.key, o.trash(pin))
  }

  /** Disposing of one more item leaves what the others' fates say. */
  lemma OthersStillMeant(before: Disk, mid: Disk, now: Disk, fates: map<Item, Fate>, item: Item, keep: set<Digest>,
                         o: Sweep)
    requires AllMeant(before, mid, fates, keep, o) && item !in fates && Touches(mid, now, item, o)
    requires Apart(fates, item, o)
    requires match item case Bundle(pin) => pin in before.bundles case Place(s) => s in mid.spots
    ensures AllMeant(before, now, fates, keep, o)
  {
    forall i | i in fates ensures Meant(before, now, i, fates[i], keep, o) {
      assert Meant(before, mid, i, fates[i], keep, o);
      OneStillMeant(before, mid, now, i, fates[i], item, keep, o);
    }
  }

  lemma OneStillMeant(before: Disk, mid: Disk, now: Disk, i: Item, fate: Fate, item: Item, keep: set<Digest>, o: Sweep)
    requires Meant(before, mid, i, fate, keep, o) && i != item && Touches(mid, now, item, o)
    requires item.Place? && i.Bundle? && fate == Kept(RemoveFailed) ==> item.spot != Trash(i.pin.key, o.trash(i.pin))
    requires match item case Bundle(pin) => pin in before.bundles case Place(s) => s in mid.spots
    ensures Meant(before, now, i, fate, keep, o)
  {
    match item
    case Bundle(pin) =>
      OnlyOnePin(mid.bundles, now.bundles, pin);
      var aside := Trash(pin.key, o.trash(pin));
      OnlyOneSpot(mid.spots, now.spots, aside);
    case Place(s) => OnlyOneSpot(mid.spots, now.spots, s);
  }

  lemma OnlyOnePin(a: map<Pin, Tree>, b: map<Pin, Tree>, pin: Pin)
    requires b - {pin} == a - {pin}
    ensures forall x | x != pin :: (x in b <==> x in a) && (x in a ==> b[x] == a[x])
  {
    assert forall x | x != pin :: (x in b <==> x in b - {pin}) && (x in a <==> x in a - {pin});
    assert forall x | x != pin && x in a :: (a - {pin})[x] == a[x];
    assert forall x | x != pin && x in b :: (b - {pin})[x] == b[x];
  }

  lemma OnlyOneSpot(a: map<Spot, Tree>, b: map<Spot, Tree>, s: Spot)
    requires b - {s} == a - {s}
    ensures forall x | x != s :: (x in b <==> x in a) && (x in a ==> b[x] == a[x])
  {
    assert forall x | x != s :: (x in b <==> x in b - {s}) && (x in a <==> x in a - {s});
    assert forall x | x != s && x in a :: (a - {s})[x] == a[x];
    assert forall x | x != s && x in b :: (b - {s})[x] == b[x];
  }

  // ----- removed counts what is really gone -----

  /** uuid4's names: new on this disk, and no two of one key the same. */
  ghost predicate FreshNames(before: Disk, o: Sweep) {
    && (forall pin | pin in before.bundles :: Trash(pin.key, o.trash(pin)) !in before.spots)
    && (forall p, q | p in before.bundles && q in before.bundles && p != q && p.key == q.key ::
          o.trash(p) != o.trash(q))
  }

  /** The item's content is nowhere on the disk, under its name or set aside. */
  ghost predicate Gone(now: Disk, item: Item, o: Sweep) {
    match item
    case Bundle(pin) => pin !in now.bundles && Trash(pin.key, o.trash(pin)) !in now.spots
    case Place(s) => s !in now.spots
  }

  ghost function AllGone(now: Disk, f: map<Item, Fate>, o: Sweep): set<Item> { set i | i in f && Gone(now, i, o) }

  lemma RemovedMeansGone(before: Disk, now: Disk, item: Item, fate: Fate, keep: set<Digest>, o: Sweep)
    requires Meant(before, now, item, fate, keep, o) && FreshNames(before, o)
    requires match item case Bundle(pin) => pin in before.bundles case Place(s) => s in before.spots
    ensures fate.Removed? <==> Gone(now, item, o)
  {
  }

  /** Of the items judged, exactly those counted as removed are gone, a bundle's trash included. */
  lemma RemovedCountsTheGone(before: Disk, now: Disk, t: Tally, f: map<Item, Fate>, job: Job)
    requires Going(before, now, t, f, job) && JudgedKeys(before, f, job.keys, job) && FreshNames(before, job.o)
    ensures forall i | i in f :: f[i].Removed? <==> Gone(now, i, job.o)
    ensures t.removed == |AllGone(now, f, job.o)|
  {
    hide Meant, PruneSafe, Gone, FreshNames;
    forall i | i in f ensures f[i].Removed? <==> Gone(now, i, job.o) {
      assert i in Examined(before, KeyOf(i), job);
      RemovedMeansGone(before, now, i, f[i], job.keep, job.o);
    }
    assert Those(f, Removed) == AllGone(now, f, job.o);
    assert Times(t, Removed) == t.removed;
  }

  /** What happens to an item when names are fresh: the first thing that keeps it, in the order of the source. */
  function FateOf(item: Item, keep: set<Digest>, o: Sweep): Fate {
    match item
    case Bundle(pin) =>
      if pin.digest in keep then Kept(Rollback)
      else if pin.key in o.busy then Kept(Busy)
      else if pin in o.unmovable then Kept(InUse)
      else if Trash(pin.key, o.trash(pin)) in o.left then Kept(RemoveFailed)
      else Removed
    case Place(s) =>
      if !s.Trash? && Keeps(o.judge, s) then Kept(WriterMayLive)
      else if s in o.left then Kept(RemoveFailed)
      else Removed
  }

  lemma OneFate(before: Disk, now: Disk, item: Item, fate: Fate, keep: set<Digest>, o: Sweep)
    requires Meant(before, now, item, fate, keep, o) && FreshNames(before, o)
    requires item.Bundle? ==> item.pin in before.bundles
    ensures fate == FateOf(item, keep, o)
  {
  }

  /** Every fate is determined: nothing is kept that could go, and the counts are those of the causes. */
  lemma FatesAreDetermined(before: Disk, now: Disk, t: Tally, f: map<Item, Fate>, job: Job)
    requires Going(before, now, t, f, job) && JudgedKeys(before, f, job.keys, job) && FreshNames(before, job.o)
    ensures forall i | i in f :: f[i] == FateOf(i, job.keep, job.o)
    ensures forall fate :: Times(t, fate) == |set i | i in f && FateOf(i, job.keep, job.o) == fate|
  {
    hide Meant, PruneSafe, FateOf, FreshNames, Accounted, Times;
    forall i | i in f ensures f[i] == FateOf(i, job.keep, job.o) {
      assert i in Examined(before, KeyOf(i), job);
      OneFate(before, now, i, f[i], job.keep, job.o);
    }
    forall fate ensures Times(t, fate) == |set i | i in f && FateOf(i, job.keep, job.o) == fate| {
      assert Those(f, fate) == set i | i in f && FateOf(i, job.keep, job.o) == fate;
    }
  }

  /** What one prune works on: the keys it visits, the current bundle, and the digests it was told to keep. */
  datatype Job = Job(keys: set<Key>, current: Pin, keep: set<Digest>, o: Sweep)

  predicate Spared(pin: Pin, job: Job) {
    pin == job.current || pin.digest in job.keep || pin.key !in job.keys || pin.key in job.o.busy
    || pin in job.o.unmovable
  }

  predicate Guarded(s: Spot, job: Job) {
    s.key !in job.keys || s.key in job.o.busy || (!s.Trash? && Keeps(job.o.judge, s))
  }

  /** Wherever a prune stops: no bundle is new or changed, and what is spared or guarded is still there. */
  ghost predicate PruneSafe(before: Disk, now: Disk, job: Job) {
    && (forall pin | pin in now.bundles :: pin in before.bundles && now.bundles[pin] == before.bundles[pin])
    && (forall pin | pin in before.bundles && Spared(pin, job) :: pin in now.bundles)
    && (forall s | s in before.spots && Guarded(s, job) :: s in now.spots && now.spots[s] == before.spots[s])
  }

  ghost predicate AllPruneSafe(before: Disk, points: seq<Disk>, job: Job) {
    forall i | 0 <= i < |points| :: PruneSafe(before, points[i], job)
  }

  lemma PruneSafeTogether(before: Disk, p: seq<Disk>, q: seq<Disk>, job: Job)
    requires AllPruneSafe(before, p, job) && AllPruneSafe(before, q, job)
    ensures AllPruneSafe(before, p + q, job)
  {
    hide PruneSafe;
    assert forall i | |p| <= i < |p + q| :: (p + q)[i] == q[i - |p|];
  }

  predicate Disposable(item: Item, job: Job) {
    match item
    case Bundle(pin) => pin != job.current && pin.digest !in job.keep && pin.key in job.keys && pin.key !in job.o.busy
    case Place(s) => s.key in job.keys && s.key !in job.o.busy
  }

  lemma TouchIsSafe(before: Disk, mid: Disk, now: Disk, item: Item, job: Job)
    requires PruneSafe(before, mid, job) && Touches(mid, now, item, job.o) && Disposable(item, job)
    requires item.Bundle? && item.pin in job.o.unmovable ==> now == mid
    requires item.Place? && Guarded(item.spot, job) ==> now == mid
    ensures PruneSafe(before, now, job)
  {
    match item
    case Bundle(pin) =>
      OnlyOnePin(mid.bundles, now.bundles, pin);
      OnlyOneSpot(mid.spots, now.spots, Trash(pin.key, job.o.trash(pin)));
    case Place(s) => OnlyOneSpot(mid.spots, now.spots, s);
  }

  ghost predicate Going(before: Disk, now: Disk, t: Tally, fates: map<Item, Fate>, job: Job) {
    && Agrees(t, fates) && AllMeant(before, now, fates, job.keep, job.o) && PruneSafe(before, now, job)
    && Accounted(before, now, fates, job.o)
  }

  lemma OneMoreFate(before: Disk, mid: Disk, now: Disk, t: Tally, fates: map<Item, Fate>, job: Job, item: Item,
                    fate: Fate)
    requires Going(before, mid, t, fates, job) && item !in fates && Touches(mid, now, item, job.o)
      && Disposable(item, job)
    requires Apart(fates, item, job.o)
    requires match item case Bundle(pin) => pin in before.bundles case Place(s) => s in mid.spots
    requires item.Bundle? && item.pin in job.o.unmovable ==> now == mid
    requires item.Place? && Guarded(item.spot, job) ==> now == mid
    requires Meant(before, now, item, fate, job.keep, job.o)
    ensures Going(before, now, Count(t, fate, 1), fates[item := fate], job)
  {
    hide Touches, Meant, PruneSafe, Those, Disposable, Guarded, Accounted;
    AccountedStill(before, mid, now, fates, fates[item := fate], item, job.o);
    OthersStillMeant(before, mid, now, fates, item, job.keep, job.o);
    TouchIsSafe(before, mid, now, item, job);
    CountAgrees(t, fates, {item}, fate);
    assert fates + All({item}, fate) == fates[item := fate];
  }

  ghost function PlacesOf(spots: set<Spot>): set<Item> { set s | s in spots :: Place(s) }

  lemma PlacesOneMore(spots: set<Spot>, s: Spot)
    ensures PlacesOf(spots + {s}) == PlacesOf(spots) + {Place(s)}
    ensures Place(s) in PlacesOf(spots) <==> s in spots
  {
  }

  lemma Longer(history: seq<Disk>, p: seq<Disk>, q: seq<Disk>)
    ensures history + p + q == history + (p + q)
  {
  }

  lemma NoPoints(before: Disk, job: Job)
    ensures AllPruneSafe(before, [], job) && PlacesOf({}) == {}
  {
  }

  ghost predicate PlacesReady(before: map<Spot, Tree>, spots: map<Spot, Tree>, places: set<Spot>, f: map<Item, Fate>,
                              job: Job) {
    forall s | s in places ::
      && s in spots && s in before && spots[s] == before[s]
      && Place(s) !in f && Disposable(Place(s), job) && Apart(f, Place(s), job.o)
  }

  /** Of the places, just these were judged, and only they changed. */
  ghost predicate PlacesSwept(was: map<Spot, Tree>, spots: map<Spot, Tree>, f0: map<Item, Fate>, f: map<Item, Fate>,
                              done: set<Spot>)
  {
    && f.Keys == f0.Keys + PlacesOf(done)
    && (forall i | i in f0 :: i in f && f[i] == f0[i])
    && (forall s | s !in done :: (s in spots <==> s in was) && (s in spots ==> spots[s] == was[s]))
  }

  lemma NoPlaces(spots: map<Spot, Tree>, f: map<Item, Fate>)
    ensures PlacesSwept(spots, spots, f, f, {})
  {
    assert PlacesOf({}) == {};
  }

  lemma NextPlace(before: map<Spot, Tree>, was: map<Spot, Tree>, spots: map<Spot, Tree>, places: set<Spot>,
                  done: set<Spot>, f0: map<Item, Fate>, f: map<Item, Fate>, s: Spot, job: Job)
    requires PlacesReady(before, was, places, f0, job) && PlacesSwept(was, spots, f0, f, done)
    requires s in places && s !in done
    ensures s in spots && s in before && spots[s] == before[s]
    ensures Place(s) !in f && Disposable(Place(s), job) && Apart(f, Place(s), job.o)
  {
    assert Place(s) !in f0 && Apart(f0, Place(s), job.o);
    forall pin | Bundle(pin) in f && f[Bundle(pin)] == Kept(RemoveFailed)
      ensures s != Trash(pin.key, job.o.trash(pin))
    {
      assert Bundle(pin) in f0;
    }
  }

  lemma PlaceSwept(was: map<Spot, Tree>, mid: map<Spot, Tree>, spots: map<Spot, Tree>, f0: map<Item, Fate>,
                   g: map<Item, Fate>, f: map<Item, Fate>, done: set<Spot>, s: Spot)
    requires PlacesSwept(was, mid, f0, g, done) && PlacesSwept(mid, spots, g, f, {s})
    ensures PlacesSwept(was, spots, f0, f, done + {s})
  {
    PlacesOneMore(done, s);
    assert PlacesOf({s}) == {Place(s)};
  }

  /** What became of one bundle, and why. */
  ghost predicate Disposed(was: Disk, now: Disk, pin: Pin, fate: Fate, o: Sweep) {
    var aside := Trash(pin.key, o.trash(pin));
    if pin in o.unmovable || aside in was.spots then fate == Kept(InUse) && now == was
    else
      && pin !in now.bundles
      && if aside in o.left then fate == Kept(RemoveFailed) && aside in now.spots
         else fate == Removed && aside !in now.spots
  }

  lemma BundleMeant(before: Disk, mid: Disk, now: Disk, fates: map<Item, Fate>, pin: Pin, fate: Fate, job: Job)
    requires Accounted(before, mid, fates, job.o) && Bundle(pin) !in fates && pin in mid.bundles
    requires Disposed(mid, now, pin, fate, job.o) && Tried(pin, job.keep, job.o)
    ensures Meant(before, now, Bundle(pin), fate, job.keep, job.o)
  {
    var aside := Trash(pin.key, job.o.trash(pin));
    if aside in mid.spots && aside !in before.spots {
      var p :| p in before.bundles && Bundle(p) in fates && aside == Trash(p.key, job.o.trash(p));
      assert NamedByAside(before.bundles.Keys - {pin}, aside, job.o);
    }
  }

  lemma PlaceMeant(before: Disk, mid: Disk, now: Disk, s: Spot, fate: Fate, job: Job)
    requires s in mid.spots && s in before.spots && mid.spots[s] == before.spots[s]
      && Touches(mid, now, Place(s), job.o)
    requires fate == if !s.Trash? && Keeps(job.o.judge, s) then Kept(WriterMayLive)
                     else if s in job.o.left then Kept(RemoveFailed) else Removed
    requires fate == Kept(WriterMayLive) ==> now.spots == mid.spots
    requires (fate == Removed <==> s !in now.spots) && s.key !in job.o.busy
    ensures Meant(before, now, Place(s), fate, job.keep, job.o)
  {
  }

  lemma SafeAtTheEnd(before: Disk, now: Disk, t: Tally, f: map<Item, Fate>, points: seq<Disk>, job: Job)
    requires Going(before, now, t, f, job) && (points == [] || points == [now])
    ensures AllPruneSafe(before, points, job)
  {
    hide PruneSafe;
  }

  ghost function BundlesOf(pins: set<Pin>): set<Item> { set pin | pin in pins :: Bundle(pin) }

  ghost predicate BundlesReady(before: Disk, now: Disk, pins: set<Pin>, key: Key, f: map<Item, Fate>, job: Job) {
    forall pin | pin in pins ::
      pin.key == key && pin in now.bundles && pin in before.bundles && Bundle(pin) !in f && Disposable(Bundle(pin), job)
  }

  /** Of the bundles, just these were judged, and only they and the key's trash changed. */
  ghost predicate BundlesSwept(was: Disk, now: Disk, key: Key, f0: map<Item, Fate>, f: map<Item, Fate>,
                               done: set<Pin>) {
    && f.Keys == f0.Keys + BundlesOf(done)
    && (forall i | i in f0 :: i in f && f[i] == f0[i])
    && (forall pin | pin !in done :: (pin in now.bundles <==> pin in was.bundles))
    && (forall s: Spot | !s.Trash? || s.key != key ::
          (s in now.spots <==> s in was.spots) && (s in now.spots ==> now.spots[s] == was.spots[s]))
  }

  lemma NoBundles(now: Disk, key: Key, f: map<Item, Fate>)
    ensures BundlesSwept(now, now, key, f, f, {})
  {
    assert BundlesOf({}) == {};
  }

  lemma NextBundle(before: Disk, was: Disk, now: Disk, pins: set<Pin>, done: set<Pin>, key: Key, f0: map<Item, Fate>,
                   f: map<Item, Fate>, pin: Pin, job: Job)
    requires BundlesReady(before, was, pins, key, f0, job) && BundlesSwept(was, now, key, f0, f, done)
    requires pin in pins && pin !in done
    ensures pin.key == key && pin in now.bundles && pin in before.bundles
    ensures Bundle(pin) !in f && Disposable(Bundle(pin), job)
  {
    assert Bundle(pin) !in f0;
  }

  lemma BundleSwept(was: Disk, mid: Disk, now: Disk, key: Key, f0: map<Item, Fate>, g: map<Item, Fate>,
                    f: map<Item, Fate>, done: set<Pin>, pin: Pin)
    requires BundlesSwept(was, mid, key, f0, g, done) && BundlesSwept(mid, now, key, g, f, {pin})
    ensures BundlesSwept(was, now, key, f0, f, done + {pin})
  {
    assert BundlesOf(done + {pin}) == BundlesOf(done) + BundlesOf({pin});
  }

  lemma TouchSweeps(mid: Disk, now: Disk, pin: Pin, o: Sweep, g: map<Item, Fate>, fate: Fate)
    requires Touches(mid, now, Bundle(pin), o) && Bundle(pin) !in g
    ensures BundlesSwept(mid, now, pin.key, g, g[Bundle(pin) := fate], {pin})
  {
    assert BundlesOf({pin}) == {Bundle(pin)};
    OnlyOnePin(mid.bundles, now.bundles, pin);
    OnlyOneSpot(mid.spots, now.spots, Trash(pin.key, o.trash(pin)));
  }

  ghost function KeySpots(spots: map<Spot, Tree>, key: Key): set<Spot> { set s | s in spots && s.key == key }

  function SpotsOf(spots: map<Spot, Tree>, key: Key, trash: bool): set<Spot> {
    set s | s in spots && s.key == key && s.Trash? == trash
  }

  /** Nothing of this key was judged or changed yet. */
  ghost predicate KeyFresh(before: Disk, now: Disk, key: Key, f: map<Item, Fate>) {
    && (forall pin: Pin | pin.key == key :: (pin in now.bundles <==> pin in before.bundles) && Bundle(pin) !in f)
    && (forall s: Spot | s.key == key ::
          Place(s) !in f && (s in now.spots <==> s in before.spots)
            && (s in now.spots ==> now.spots[s] == before.spots[s]))
  }

  /** Only this key was judged and changed. */
  ghost predicate OnlyKey(was: Disk, now: Disk, key: Key, f0: map<Item, Fate>, f: map<Item, Fate>) {
    && (forall i | i in f0 :: i in f && f[i] == f0[i])
    && (forall i | i in f && i !in f0 :: match i case Bundle(pin) => pin.key == key case Place(s) => s.key == key)
    && (forall pin: Pin | pin.key != key :: pin in now.bundles <==> pin in was.bundles)
    && (forall s: Spot | s.key != key ::
          (s in now.spots <==> s in was.spots) && (s in now.spots ==> now.spots[s] == was.spots[s]))
  }

  lemma TrashReady(before: Disk, now: Disk, key: Key, f: map<Item, Fate>, job: Job)
    requires key in job.keys && key !in job.o.busy
    requires forall s: Spot | s.key == key ::
      Place(s) !in f && (s in now.spots <==> s in before.spots) && (s in now.spots ==> now.spots[s] == before.spots[s])
    requires forall pin | Bundle(pin) in f && f[Bundle(pin)] == Kept(RemoveFailed) :: pin.key != key
    ensures PlacesReady(before.spots, now.spots, SpotsOf(now.spots, key, true), f, job)
  {
  }

  lemma AfterTrash(before: Disk, was: Disk, now: Disk, pins: set<Pin>, key: Key, f0: map<Item, Fate>,
                   f: map<Item, Fate>, places: set<Spot>, job: Job)
    requires PlacesSwept(was.spots, now.spots, f0, f, places) && now.bundles == was.bundles
    requires BundlesReady(before, was, pins, key, f0, job)
    ensures BundlesReady(before, now, pins, key, f, job)
  {
  }

  lemma StagingsReady(before: Disk, was: Disk, mid: Disk, now: Disk, key: Key, f0: map<Item, Fate>, f1: map<Item, Fate>,
                      f2: map<Item, Fate>, pins: set<Pin>, job: Job)
    requires key in job.keys && key !in job.o.busy
    requires forall s: Spot | s.key == key ::
      Place(s) !in f0 && (s in was.spots <==> s in before.spots) && (s in was.spots ==> was.spots[s] == before.spots[s])
    requires PlacesSwept(was.spots, mid.spots, f0, f1, SpotsOf(was.spots, key, true))
    requires BundlesSwept(mid, now, key, f1, f2, pins)
    ensures SpotsOf(now.spots, key, false) == SpotsOf(before.spots, key, false)
    ensures PlacesReady(before.spots, now.spots, SpotsOf(now.spots, key, false), f2, job)
  {
    assert forall s: Spot | s.key == key && !s.Trash? ::
      (s in now.spots <==> s in before.spots) && (s in now.spots ==> now.spots[s] == before.spots[s]);
    forall s | s in SpotsOf(now.spots, key, false) ensures Place(s) !in f2 && Apart(f2, Place(s), job.o) {
      assert Place(s) !in f0 && Place(s) !in PlacesOf(SpotsOf(was.spots, key, true)) && Place(s) !in BundlesOf(pins);
    }
  }

  lemma TrashAndStagings(spots: map<Spot, Tree>, key: Key)
    ensures PlacesOf(KeySpots(spots, key)) ==
      PlacesOf(SpotsOf(spots, key, true)) + PlacesOf(SpotsOf(spots, key, false))
  {
    assert KeySpots(spots, key) == SpotsOf(spots, key, true) + SpotsOf(spots, key, false);
  }

  lemma OfOneKey(spots: map<Spot, Tree>, key: Key, pins: set<Pin>)
    requires forall pin | pin in pins :: pin.key == key
    ensures forall i | i in PlacesOf(KeySpots(spots, key)) :: i.Place? && i.spot.key == key
    ensures forall i | i in BundlesOf(pins) :: i.Bundle? && i.pin.key == key
  {
  }

  lemma FatesSwept(was: Disk, mid: Disk, mid2: Disk, now: Disk, key: Key, f0: map<Item, Fate>, f1: map<Item, Fate>,
                 f2: map<Item, Fate>, f: map<Item, Fate>, pins: set<Pin>)
    requires PlacesSwept(was.spots, mid.spots, f0, f1, SpotsOf(was.spots, key, true)) && mid.bundles == was.bundles
    requires BundlesSwept(mid, mid2, key, f1, f2, pins) && (forall pin | pin in pins :: pin.key == key)
    requires SpotsOf(mid2.spots, key, false) == SpotsOf(was.spots, key, false)
    requires PlacesSwept(mid2.spots, now.spots, f2, f, SpotsOf(mid2.spots, key, false)) && now.bundles == mid2.bundles
    ensures f.Keys == f0.Keys + BundlesOf(pins) + PlacesOf(KeySpots(was.spots, key))
    ensures forall i | i in f0 :: i in f && f[i] == f0[i]
  {
    hide PlacesOf, BundlesOf, SpotsOf;
    TrashAndStagings(was.spots, key);
  }

  lemma DiskSwept(was: Disk, mid: Disk, mid2: Disk, now: Disk, key: Key, f0: map<Item, Fate>, f1: map<Item, Fate>,
                 f2: map<Item, Fate>, f: map<Item, Fate>, pins: set<Pin>)
    requires PlacesSwept(was.spots, mid.spots, f0, f1, SpotsOf(was.spots, key, true)) && mid.bundles == was.bundles
    requires BundlesSwept(mid, mid2, key, f1, f2, pins) && (forall pin | pin in pins :: pin.key == key)
    requires SpotsOf(mid2.spots, key, false) == SpotsOf(was.spots, key, false)
    requires PlacesSwept(mid2.spots, now.spots, f2, f, SpotsOf(mid2.spots, key, false)) && now.bundles == mid2.bundles
    ensures forall pin: Pin | pin.key != key :: pin in now.bundles <==> pin in was.bundles
    ensures forall s: Spot | s.key != key ::
      (s in now.spots <==> s in was.spots) && (s in now.spots ==> now.spots[s] == was.spots[s])
  {
    hide PlacesOf, BundlesOf;
  }

  lemma KeySwept(was: Disk, mid: Disk, mid2: Disk, now: Disk, key: Key, f0: map<Item, Fate>, f1: map<Item, Fate>,
                 f2: map<Item, Fate>, f: map<Item, Fate>, pins: set<Pin>)
    requires PlacesSwept(was.spots, mid.spots, f0, f1, SpotsOf(was.spots, key, true)) && mid.bundles == was.bundles
    requires BundlesSwept(mid, mid2, key, f1, f2, pins) && (forall pin | pin in pins :: pin.key == key)
    requires SpotsOf(mid2.spots, key, false) == SpotsOf(was.spots, key, false)
    requires PlacesSwept(mid2.spots, now.spots, f2, f, SpotsOf(mid2.spots, key, false)) && now.bundles == mid2.bundles
    ensures OnlyKey(was, now, key, f0, f)
    ensures f.Keys == f0.Keys + BundlesOf(pins) + PlacesOf(KeySpots(was.spots, key))
  {
    hide PlacesOf, BundlesOf, SpotsOf, KeySpots, PlacesSwept, BundlesSwept;
    FatesSwept(was, mid, mid2, now, key, f0, f1, f2, f, pins);
    DiskSwept(was, mid, mid2, now, key, f0, f1, f2, f, pins);
    OfOneKey(was.spots, key, pins);
  }

  lemma BundlesCount(pins: set<Pin>)
    ensures |BundlesOf(pins)| == |pins|
  {
    if pins == {} {
      assert BundlesOf(pins) == {};
    } else {
      var pin :| pin in pins;
      BundlesCount(pins - {pin});
      assert BundlesOf(pins) == BundlesOf(pins - {pin}) + {Bundle(pin)};
    }
  }

  /** A whole set of candidates kept for one reason. */
  lemma KeptTogether(before: Disk, now: Disk, t: Tally, f: map<Item, Fate>, job: Job, pins: set<Pin>, why: Reason)
    requires Going(before, now, t, f, job) && BundlesOf(pins) !! f.Keys
    requires forall pin | pin in pins :: Meant(before, now, Bundle(pin), Kept(why), job.keep, job.o)
    ensures Going(before, now, Count(t, Kept(why), |pins|), f + All(BundlesOf(pins), Kept(why)), job)
  {
    hide Meant, Agrees, PruneSafe;
    BundlesCount(pins);
    CountAgrees(t, f, BundlesOf(pins), Kept(why));
  }

  function OldPins(bundles: map<Pin, Tree>, key: Key, current: Pin): set<Pin> {
    set pin | pin in bundles && pin.key == key && pin != current
  }

  /** What a prune examines of one key: every other bundle, and under the key's lock its trash and its stagings. */
  ghost function Examined(before: Disk, key: Key, job: Job): set<Item> {
    BundlesOf(OldPins(before.bundles, key, job.current))
    + if key in job.o.busy then {} else PlacesOf(KeySpots(before.spots, key))
  }

  function KeyOf(i: Item): Key { match i case Bundle(pin) => pin.key case Place(s) => s.key }

  ghost predicate JudgedKeys(before: Disk, f: map<Item, Fate>, done: set<Key>, job: Job) {
    forall i :: i in f <==> KeyOf(i) in done && i in Examined(before, KeyOf(i), job)
  }

  lemma ExaminedIsOfKey(before: Disk, key: Key, job: Job)
    ensures forall i | i in Examined(before, key, job) :: KeyOf(i) == key
  {
  }

  lemma JudgedOneMore(before: Disk, f0: map<Item, Fate>, f: map<Item, Fate>, done: set<Key>, key: Key, job: Job)
    requires JudgedKeys(before, f0, done, job) && key !in done && f.Keys == f0.Keys + Examined(before, key, job)
    ensures JudgedKeys(before, f, done + {key}, job)
  {
    hide Examined, KeyOf;
    ExaminedIsOfKey(before, key, job);
    assert forall i :: i in f <==> i in f0 || i in Examined(before, key, job);
  }

  ghost predicate KeysFresh(before: Disk, now: Disk, keys: set<Key>, f: map<Item, Fate>) {
    forall key | key in keys :: KeyFresh(before, now, key, f)
  }

  lemma OthersFresh(before: Disk, was: Disk, now: Disk, keys: set<Key>, key: Key, f0: map<Item, Fate>,
                    f: map<Item, Fate>)
    requires KeysFresh(before, was, keys, f0) && OnlyKey(was, now, key, f0, f)
    ensures KeysFresh(before, now, keys - {key}, f)
  {
    forall other | other in keys - {key} ensures KeyFresh(before, now, other, f) {
      OtherFresh(before, was, now, other, key, f0, f);
    }
  }

  lemma OtherFresh(before: Disk, was: Disk, now: Disk, other: Key, key: Key, f0: map<Item, Fate>, f: map<Item, Fate>)
    requires KeyFresh(before, was, other, f0) && OnlyKey(was, now, key, f0, f) && other != key
    ensures KeyFresh(before, now, other, f)
  {
    assert forall pin: Pin | pin.key == other :: Bundle(pin) !in f;
    assert forall s: Spot | s.key == other :: Place(s) !in f;
  }

  /** The current bundle stays the one located: a prune takes away no receipt of it and adds none. */
  lemma StillAnswers(before: Disk, now: Disk, c: Catalog, fp: Fingerprint, job: Job)
    requires PruneSafe(before, now, job) && IsAnswer(before.bundles, c, fp, Found(job.current))
    ensures IsAnswer(now.bundles, c, fp, Found(job.current))
  {
    hide ReceiptFor;
    assert !NoneMine(before.bundles, c, fp);
    assert exists j :: OnlyMine(before.bundles, c, fp, j);
    var j :| OnlyMine(before.bundles, c, fp, j);
    assert Pin(c.wheels[j].key, c.digest) == job.current;
    assert OnlyMine(now.bundles, c, fp, j);
  }

  lemma FreshKey(before: Disk, now: Disk, key: Key, f: map<Item, Fate>, job: Job)
    requires KeyFresh(before, now, key, f)
    ensures OldPins(now.bundles, key, job.current) == OldPins(before.bundles, key, job.current)
    ensures KeySpots(now.spots, key) == KeySpots(before.spots, key)
    ensures BundlesOf(OldPins(now.bundles, key, job.current)) !! f.Keys
  {
  }

  lemma BundlesSplit(p: set<Pin>, q: set<Pin>)
    requires p !! q
    ensures BundlesOf(p + q) == BundlesOf(p) + BundlesOf(q) && BundlesOf(p) !! BundlesOf(q)
  {
  }

  /** The candidates of a fresh key, split in those the rollback keeps, which are counted, and the rest. */
  ghost predicate KeySplit(before: Disk, now: Disk, key: Key, f0: map<Item, Fate>, f: map<Item, Fate>, kept: set<Pin>,
                           rest: set<Pin>, job: Job)
  {
    && KeyFresh(before, now, key, f0) && key in job.keys
    && f == f0 + All(BundlesOf(kept), Kept(Rollback))
    && kept !! rest && kept + rest == OldPins(now.bundles, key, job.current)
    && (forall pin | pin in kept :: pin.digest in job.keep)
    && (forall pin | pin in rest :: pin.digest !in job.keep)
  }

  /** The candidates the rollback keeps are counted first. */
  lemma RollbackKept(before: Disk, now: Disk, t: Tally, f: map<Item, Fate>, job: Job, key: Key, kept: set<Pin>)
    requires Going(before, now, t, f, job) && KeyFresh(before, now, key, f)
    requires kept <= OldPins(now.bundles, key, job.current) && forall pin | pin in kept :: pin.digest in job.keep
    ensures Going(before, now, Count(t, Kept(Rollback), |kept|), f + All(BundlesOf(kept), Kept(Rollback)), job)
  {
    hide Going, Count;
    KeptTogether(before, now, t, f, job, kept, Rollback);
  }

  lemma BusyKept(before: Disk, now: Disk, t: Tally, f0: map<Item, Fate>, f: map<Item, Fate>, job: Job, key: Key,
                 kept: set<Pin>, rest: set<Pin>)
    requires Going(before, now, t, f, job) && KeySplit(before, now, key, f0, f, kept, rest, job) && key in job.o.busy
    ensures Going(before, now, Count(t, Kept(Busy), |rest|), f + All(BundlesOf(rest), Kept(Busy)), job)
  {
    hide Going, Count;
    BundlesSplit(kept, rest);
    KeptTogether(before, now, t, f, job, rest, Busy);
  }

  lemma SweepReady(before: Disk, now: Disk, f0: map<Item, Fate>, f: map<Item, Fate>, job: Job, key: Key, kept: set<Pin>,
                   rest: set<Pin>)
    requires KeySplit(before, now, key, f0, f, kept, rest, job) && key !in job.o.busy
    ensures BundlesReady(before, now, rest, key, f, job)
    ensures forall s: Spot | s.key == key ::
      Place(s) !in f && (s in now.spots <==> s in before.spots) && (s in now.spots ==> now.spots[s] == before.spots[s])
    ensures forall pin | Bundle(pin) in f && f[Bundle(pin)] == Kept(RemoveFailed) :: pin.key != key
  {
    BundlesSplit(kept, rest);
  }

  lemma OnlyKeyStill(was: Disk, now: Disk, key: Key, f0: map<Item, Fate>, f1: map<Item, Fate>, f: map<Item, Fate>)
    requires OnlyKey(was, was, key, f0, f1) && OnlyKey(was, now, key, f1, f)
    ensures OnlyKey(was, now, key, f0, f)
  {
  }

  lemma KeyDone(before: Disk, was: Disk, now: Disk, f0: map<Item, Fate>, f1: map<Item, Fate>, f: map<Item, Fate>,
                job: Job, key: Key, kept: set<Pin>, rest: set<Pin>, places: set<Item>)
    requires KeySplit(before, was, key, f0, f1, kept, rest, job) && OnlyKey(was, now, key, f1, f)
    requires f.Keys == f1.Keys + BundlesOf(rest) + places
    requires places == if key in job.o.busy then {} else PlacesOf(KeySpots(was.spots, key))
    ensures OnlyKey(was, now, key, f0, f) && f.Keys == f0.Keys + Examined(before, key, job)
  {
    hide PlacesOf, KeySpots, BundlesOf, KeyFresh, OnlyKey;
    FreshKey(before, was, key, f0, job);
    BundlesSplit(kept, rest);
    OnlyCounted(was, key, f0, kept, Kept(Rollback));
    OnlyKeyStill(was, now, key, f0, f1, f);
  }

  lemma RestCounted(before: Disk, now: Disk, key: Key, f0: map<Item, Fate>, f: map<Item, Fate>, kept: set<Pin>,
                    rest: set<Pin>, job: Job, fate: Fate)
    requires KeySplit(before, now, key, f0, f, kept, rest, job)
    ensures var g := f + All(BundlesOf(rest), fate);
      OnlyKey(now, now, key, f, g) && g.Keys == f.Keys + BundlesOf(rest)
  {
    hide OnlyKey;
    BundlesSplit(kept, rest);
    OnlyCounted(now, key, f, rest, fate);
  }

  lemma OnlyCounted(now: Disk, key: Key, f: map<Item, Fate>, rest: set<Pin>, fate: Fate)
    requires BundlesOf(rest) !! f.Keys && forall pin | pin in rest :: pin.key == key
    ensures OnlyKey(now, now, key, f, f + All(BundlesOf(rest), fate))
  {
  }

  lemma OneFresh(before: Disk, now: Disk, keys: set<Key>, f: map<Item, Fate>, key: Key)
    requires KeysFresh(before, now, keys, f) && key in keys
    ensures KeyFresh(before, now, key, f)
  {
  }

  lemma GoingIsSafe(before: Disk, now: Disk, t: Tally, f: map<Item, Fate>, job: Job)
    requires Going(before, now, t, f, job)
    ensures PruneSafe(before, now, job)
  {
  }

  /** The key is another one of the current bundle's platform, and it has a directory. */
  ghost predicate InFamily(w: World, d: Disk, bare: set<Key>, key: Key, current: Key) {
    HasDirectory(d, bare, key) && w.platform(key) == w.platform(current)
  }

  /** Beside the stagings there is a directory of this key: it holds a bundle or trash, or it is bare. */
  ghost predicate HasDirectory(d: Disk, bare: set<Key>, key: Key) {
    || key in bare
    || (exists pin :: pin in d.bundles && pin.key == key)
    || (exists s :: s in d.spots && s.Trash? && s.key == key)
  }

  lemma NothingJudged(before: Disk, job: Job)
    ensures Going(before, before, Tally(0, map[]), map[], job) && KeysFresh(before, before, job.keys, map[])
    ensures JudgedKeys(before, map[], {}, job)
  {
    forall fate ensures Times(Tally(0, map[]), fate) == |Those(map[], fate)| {
      assert Those(map[], fate) == {};
    }
  }

  // ----- no writer loses its staging -----

  /** The staging has come to its records by this run, and what the oracles answer about it is true. */
  ghost predicate RanSo(judge: Judge, s: Spot, run: seq<StagingOwnership.Event>) {
    var start := StagingOwnership.Start(judge.posix);
    var st := StagingOwnership.After(start, run);
    && StagingOwnership.Possible(start, run) && judge.records(s) == st.files
    && StagingOwnership.Enabled(st, StagingOwnership.Judges(judge.oracles(s)))
  }

  /** Of the stagings there were, those judged to have a writer are as they were. */
  ghost predicate Spares(before: map<Spot, Tree>, now: map<Spot, Tree>, judge: Judge) {
    forall s | s in before && !s.Trash? && Keeps(judge, s) :: s in now && now[s] == before[s]
  }

  lemma PruneSpares(before: Disk, now: Disk, job: Job)
    requires PruneSafe(before, now, job)
    ensures Spares(before.spots, now.spots, job.o.judge)
  {
    hide Keeps;
  }

  ghost predicate AllSpare(before: map<Spot, Tree>, points: seq<Disk>, judge: Judge) {
    forall i | 0 <= i < |points| :: Spares(before, points[i].spots, judge)
  }

  lemma NothingSpared(before: map<Spot, Tree>, judge: Judge)
    ensures AllSpare(before, [], judge)
  {
  }

  lemma SparesOneMore(before: map<Spot, Tree>, points: seq<Disk>, d: Disk, judge: Judge)
    requires AllSpare(before, points, judge)
    requires forall s | s in before && (s.Trash? || Keeps(judge, s)) :: s in d.spots && d.spots[s] == before[s]
    ensures AllSpare(before, points + [d], judge)
  {
    hide Keeps;
  }

  /** Whatever run led to a staging's records, and wherever a reclaim or a prune stops: when the oracles' positive
      answers are true, a staging it changed or removed has no writer that lives, then or in whatever follows. */
  lemma NoWriterLosesItsStaging(before: map<Spot, Tree>, now: map<Spot, Tree>, judge: Judge, s: Spot,
                                run: seq<StagingOwnership.Event>, after: seq<StagingOwnership.Event>)
    requires Spares(before, now, judge) && s in before && !s.Trash? && !(s in now && now[s] == before[s])
    requires RanSo(judge, s, run)
    requires var st := StagingOwnership.After(StagingOwnership.Start(judge.posix), run);
      StagingOwnership.Possible(StagingOwnership.Step(st, StagingOwnership.Judges(judge.oracles(s))), after)
    ensures var st := StagingOwnership.After(StagingOwnership.Start(judge.posix), run);
      && !StagingOwnership.WriterLives(st)
      && !StagingOwnership.WriterLives(
            StagingOwnership.After(StagingOwnership.Step(st, StagingOwnership.Judges(judge.oracles(s))), after))
  {
    StagingOwnership.JudgedGoneIsOver(judge.posix, run, judge.oracles(s), after);
  }

  datatype PruneResult = Pruned(tally: Tally) | NotPruned(why: Refusal)

  class AppDir {
    const w: World
    var bundles: map<Pin, Tree>
    var spots: map<Spot, Tree>
    ghost var published: set<Publication>
    ghost var spoiled: set<Pin>
    ghost var history: seq<Disk>

    ghost function Contents(): Disk
      reads this
    {
      Disk(bundles, spots, published, spoiled)
    }

    ghost predicate Valid()
      reads this
    {
      Coherent(w) && Legal(w, history) && history[|history| - 1] == Contents()
    }

    constructor (w: World)
      requires Coherent(w)
      ensures Valid() && Contents() == EMPTY && this.w == w
    {
      this.w := w;
      bundles, spots, published, spoiled, history := map[], map[], {}, {}, [EMPTY];
    }

    ghost method Note(s: Step)
      requires Coherent(w) && Legal(w, history) && Enabled(w, history[|history| - 1], s)
      requires Contents() == Next(w, history[|history| - 1], s)
      modifies this`history
      ensures Valid() && history == old(history) + [Contents()]
    {
      assert Follows(w, history[|history| - 1], Contents());
      ghost var longer := history + [Contents()];
      assert longer[..|longer| - 1] == history;
      history := longer;
    }

    /** mkdir, writes into a staging, and the removals below: no bundle's name is touched. */
    method Rewrite(now: map<Spot, Tree>)
      requires Valid()
      modifies this`spots, this`history
      ensures Valid() && spots == now && history == old(history) + [Contents()]
    {
      hide Legal, Coherent;
      spots := now;
      Note(Elsewhere(now));
    }

    /** shutil.rmtree of one staging: it may leave a part. */
    method Remove(spot: Spot, left: map<Spot, Tree>)
      requires Valid()
      modifies this`spots, this`history
      ensures Valid() && history == old(history) + [Contents()]
      ensures spots == if spot in left then old(spots)[spot := left[spot]] else old(spots) - {spot}
    {
      Rewrite(if spot in left then spots[spot := left[spot]] else spots - {spot});
    }

    /** os.replace of a bundle to a place no directory has. */
    method Leave(pin: Pin, to: Spot)
      requires Valid() && pin in bundles && to !in spots
      modifies this`bundles, this`spots, this`history
      ensures Valid() && history == old(history) + [Contents()]
      ensures bundles == old(bundles) - {pin} && spots == old(spots)[to := old(bundles)[pin]]
    {
      hide Legal, Coherent;
      bundles, spots := bundles - {pin}, spots[to := bundles[pin]];
      Note(TakeAway(pin, to));
    }

    /** os.replace of a bundle set aside back to its name. */
    method Return(pin: Pin, from: Spot)
      requires Valid() && pin !in bundles && from in spots && Fits(w, Contents(), pin, spots[from])
      modifies this`bundles, this`spots, this`history
      ensures Valid() && history == old(history) + [Contents()]
      ensures bundles == old(bundles)[pin := old(spots)[from]] && spots == old(spots) - {from}
    {
      hide Legal, Coherent, Fits;
      bundles, spots := bundles[pin := spots[from]], spots - {from};
      Note(PutBack(pin, from));
    }

    /** os.replace of a staging to its pin's free name. */
    method Arrive(pin: Pin, from: Spot, fp: Fingerprint)
      requires Valid() && Enabled(w, Contents(), Publish(pin, from, fp))
      modifies this`bundles, this`spots, this`history, this`published, this`spoiled
      ensures Valid() && history == old(history) + [Contents()]
      ensures bundles == old(bundles)[pin := old(spots)[from]] && spots == old(spots) - {from}
      ensures published == old(published) + {Publication(pin, fp, old(spots)[from].site)}
      ensures spoiled == old(spoiled) - {pin}
    {
      hide Legal, Coherent, Selected, ReceiptFor;
      published, spoiled := published + {Publication(pin, fp, spots[from].site)}, spoiled - {pin};
      bundles, spots := bundles[pin := spots[from]], spots - {from};
      Note(Publish(pin, from, fp));
    }

    /** A directory of .staging/<key> is a dead run's unless a writer of it may live. */
    method Reclaim(key: Key, judge: Judge, left: map<Spot, Tree>) returns (ghost points: seq<Disk>)
      requires Valid()
      modifies this`spots, this`history
      ensures Valid() && history == old(history) + points && Quiet(old(Contents()), points, key)
      ensures SameElsewhere(old(spots), spots, key)
      ensures forall s :: s in spots <==>
        s in old(spots) && (s.key != key || s.Trash? || Keeps(judge, s) || s in left)
      ensures forall s | s in old(spots) && (s.Trash? || Keeps(judge, s)) :: s in spots && spots[s] == old(spots)[s]
      ensures AllSpare(old(spots), points, judge)
    {
      hide Legal, Coherent, Keeps, AllSpare;
      points := [];
      NothingSpared(spots, judge);
      var rest := set s | s in spots && s.key == key && !s.Trash?;
      while rest != {}
        invariant Valid() && history == old(history) + points && Quiet(old(Contents()), points, key)
        invariant SameElsewhere(old(spots), spots, key)
        invariant forall s | s in rest :: s in spots && s.key == key && !s.Trash?
        invariant forall s :: s in spots <==>
          s in old(spots) && (s.key != key || s.Trash? || s in rest || Keeps(judge, s) || s in left)
        invariant forall s | s in old(spots) && (s.Trash? || Keeps(judge, s)) :: s in spots && spots[s] == old(spots)[s]
        invariant AllSpare(old(spots), points, judge)
        decreases |rest|
        modifies this`spots, this`history
      {
        var path :| path in rest;
        rest := rest - {path};
        var kept := JudgeStaging(judge, path);
        if !kept {
          Remove(path, left);
          QuietTogether(old(Contents()), points, [Contents()], key);
          SparesOneMore(old(spots), points, Contents(), judge);
          points := points + [Contents()];
        }
      }
    }

    /** From the owner's record to the receipt: everything an install does inside its own staging. */
    method Fill(staging: Spot, wheel: Wheel, c: Catalog, fp: Fingerprint, o: Course)
      returns (why: Option<Failure>, ghost points: seq<Disk>)
      requires Valid() && staging in spots
      modifies this`spots, this`history
      ensures Valid() && history == old(history) + points && Quiet(old(Contents()), points, staging.key)
      ensures staging in spots && spots - {staging} == old(spots) - {staging}
      ensures why == Hindrance(w, wheel, o)
      ensures why.None? ==> Verified(w, c, wheel, fp, spots[staging])
    {
      hide Legal, Coherent, Quiet, ReceiptFor, SameElsewhere;
      ghost var before := Contents();
      NothingIsQuiet(before, staging.key);
      points := [];
      if !o.recorded { return Some(RecordUnwritable), points; }
      Rewrite(spots[staging := Tree(Absent, o.pip.site)]);
      OneStagingIsQuiet(before, Contents(), staging);
      points := [Contents()];
      match o.pip {
        case TimedOut(_) => return Some(PipTimeout), points;
        case Unproven(_) => return Some(TreeUnproven), points;
        case Unreleased(_) => return Some(RecordUnwritable), points;
        case Exited(ok, site) =>
          if !ok { return Some(PipFailed), points; }
          if !w.clean(site, wheel.file) { return Some(VerifyFailed), points; }
          if !(o.smoked && site.ocp) { return Some(SmokeFailed), points; }
          if !o.written {
            Rewrite(spots[staging := Tree(Unreadable, site)]);
            OneStagingIsQuiet(before, Contents(), staging);
            QuietTogether(before, points, [Contents()], staging.key);
            return Some(NotWritten), points + [Contents()];
          }
          Rewrite(spots[staging := Tree(ReceiptFor(c, wheel, fp), site)]);
          OneStagingIsQuiet(before, Contents(), staging);
          QuietTogether(before, points, [Contents()], staging.key);
          return None, points + [Contents()];
      }
    }

    /** The renames: a bundle in the way is set aside, the staging takes its name, and what was set aside goes. */
    method Swap(target: Pin, staging: Spot, wheel: Wheel, fp: Fingerprint, o: Course)
      returns (r: Result, ghost points: seq<Disk>)
      requires Valid() && staging.Own? && staging in spots && staging.key == target.key == wheel.key
      requires Selected(w.catalog(target.digest), w.tags(fp)) == Some(wheel)
      requires Verified(w, w.catalog(target.digest), wheel, fp, spots[staging])
      modifies this
      ensures Valid() && history == old(history) + points
      ensures AllSafe(w, old(Contents()), points, target, wheel, fp, Replaced(target.key, o.aside))
      ensures SafePoint(w, old(Contents()), Contents(), target, wheel, fp, Replaced(target.key, o.aside))
      ensures forall s | s in old(spots) && s != staging :: s in spots && spots[s] == old(spots)[s]
      ensures SameElsewhere(old(spots), spots, target.key)
      ensures r == match Obstacle(old(bundles).Keys, old(spots).Keys, target, o)
        case Some(why) => Failed(why)
        case None => Installed(target)
      ensures match r
        case Installed(_) =>
          && bundles == old(bundles)[target := old(spots)[staging]] && staging !in spots
          && var aside := Replaced(target.key, o.aside);
             target in old(bundles) ==> (aside in spots <==> aside in o.left)
        case Failed(why) =>
          && staging in spots
          && if why.RenameFailed? && !o.restores && target in old(bundles) then
               && bundles == old(bundles) - {target}
               && var aside := Replaced(target.key, o.aside);
                  aside in spots && spots[aside] == old(bundles)[target]
             else bundles == old(bundles)
    {
      hide Legal, Coherent, Selected, ReceiptFor, Verified, AllSafe, SafePoint, SameElsewhere;
      ghost var before := Contents();
      var aside := Replaced(target.key, o.aside);
      var inTheWay := target in bundles;
      points := [];
      NothingIsSafe(w, before, target, wheel, fp, aside);
      SameBut(spots, staging, spots[staging]);
      if inTheWay {
        if !o.moves || aside in spots {
          RenamesAreSafe(w, before, Contents(), target, wheel, fp, aside);
          return Failed(BundleInUse), points;
        }
        SameBut(spots, aside, bundles[target]);
        Leave(target, aside);
        RenamesAreSafe(w, before, Contents(), target, wheel, fp, aside);
        SafeOneMore(w, before, points, Contents(), target, wheel, fp, aside);
        points := points + [Contents()];
      }
      if !o.publishes {
        r := Failed(RenameFailed);
        RenamesAreSafe(w, before, Contents(), target, wheel, fp, aside);
        if inTheWay && o.restores {
          StillFits(w, old(history), before, Contents(), target);
          Restore(before, target, aside, wheel, fp);
          SafeOneMore(w, before, points, Contents(), target, wheel, fp, aside);
          points := points + [Contents()];
        }
      } else {
        ghost var more := Finish(before, target, staging, aside, wheel, fp, o.left, inTheWay);
        SafeTogether(w, before, points, more, target, wheel, fp, aside);
        points := points + more;
        r := Installed(target);
      }
    }

    method Restore(ghost before: Disk, target: Pin, aside: Spot, wheel: Wheel, fp: Fingerprint)
      requires Valid() && aside.key == target.key && target in before.bundles && aside !in before.spots
      requires bundles == before.bundles - {target} && spots == before.spots[aside := before.bundles[target]]
      requires Fits(w, Contents(), target, spots[aside])
      modifies this`bundles, this`spots, this`history
      ensures Valid() && history == old(history) + [Contents()]
      ensures SafePoint(w, before, Contents(), target, wheel, fp, aside)
      ensures bundles == before.bundles && spots == before.spots
    {
      hide Legal, Coherent, SafePoint, SameElsewhere, Fits;
      Return(target, aside);
      assert bundles == before.bundles && spots == before.spots;
      SameBut(spots, aside, before.bundles[target]);
      RenamesAreSafe(w, before, Contents(), target, wheel, fp, aside);
    }

    method Finish(ghost before: Disk, target: Pin, staging: Spot, aside: Spot, wheel: Wheel, fp: Fingerprint,
                  left: map<Spot, Tree>, inTheWay: bool) returns (ghost points: seq<Disk>)
      requires Valid() && staging.key == aside.key == target.key == wheel.key && staging != aside
      requires Selected(w.catalog(target.digest), w.tags(fp)) == Some(wheel)
      requires staging in before.spots && Verified(w, w.catalog(target.digest), wheel, fp, before.spots[staging])
      requires target !in bundles && bundles == before.bundles - {target}
      requires inTheWay ==> target in before.bundles && aside !in before.spots
      requires spots == if inTheWay then before.spots[aside := before.bundles[target]] else before.spots
      modifies this
      ensures Valid() && history == old(history) + points
      ensures AllSafe(w, before, points, target, wheel, fp, aside)
      ensures SafePoint(w, before, Contents(), target, wheel, fp, aside)
      ensures bundles == before.bundles[target := before.spots[staging]] && staging !in spots
      ensures SameElsewhere(before.spots, spots, target.key)
      ensures forall s | s in before.spots && s != staging :: s in spots && spots[s] == before.spots[s]
      ensures inTheWay ==> (aside in spots <==> aside in left)
    {
      hide Legal, Coherent, Selected, AllSafe, SafePoint, SameElsewhere, Verified;
      NothingIsSafe(w, before, target, wheel, fp, aside);
      Arriving(w, Contents(), target, staging, wheel, fp);
      Arrive(target, staging, fp);
      assert bundles == before.bundles[target := before.spots[staging]];
      SameAfterMove(before.spots, spots, staging, aside);
      RenamesAreSafe(w, before, Contents(), target, wheel, fp, aside);
      SafeOneMore(w, before, [], Contents(), target, wheel, fp, aside);
      points := [] + [Contents()];
      if inTheWay {
        Remove(aside, left);
        SameAfterMove(before.spots, spots, staging, aside);
        RenamesAreSafe(w, before, Contents(), target, wheel, fp, aside);
        SafeOneMore(w, before, points, Contents(), target, wheel, fp, aside);
        points := points + [Contents()];
      }
    }

    /** The new staging, and all that goes into it. */
    method Prepare(digest: Digest, wheel: Wheel, fp: Fingerprint, o: Course)
      returns (why: Option<Failure>, ghost points: seq<Disk>)
      requires Valid()
      modifies this`spots, this`history
      ensures Valid() && history == old(history) + points && Quiet(old(Contents()), points, wheel.key)
      ensures SameElsewhere(old(spots), spots, wheel.key)
      ensures var staging := Own(wheel.key, o.name);
        && (forall s | s != staging && s in old(spots) :: s in spots && spots[s] == old(spots)[s])
        && why == (if !o.made || staging in old(spots) then Some(NoStaging) else Hindrance(w, wheel, o))
        && (if why == Some(NoStaging) then spots == old(spots) else staging in spots)
        && spots - {staging} == old(spots) - {staging}
        && (why.None? ==> Verified(w, w.catalog(digest), wheel, fp, spots[staging]))
    {
      hide Legal, Coherent, ReceiptFor, Verified, Quiet, SameElsewhere;
      var staging := Own(wheel.key, o.name);
      ghost var before := Contents();
      SameBut(spots, staging, Tree(Absent, Site(false, 0)));
      NothingIsQuiet(before, wheel.key);
      if !o.made || staging in spots { return Some(NoStaging), []; }
      Rewrite(spots[staging := Tree(Absent, Site(false, 0))]);
      ghost var mid := Contents();
      OnePointIsQuiet(before, mid, wheel.key);
      ghost var filling;
      why, filling := Fill(staging, wheel, w.catalog(digest), fp, o);
      SameButOne(before.spots, spots, staging);
      QuietSince(before, mid, filling, wheel.key);
      QuietTogether(before, [mid], filling, wheel.key);
      points := [mid] + filling;
    }

    /** The finally block's removal. */
    method Drop(ghost before: Disk, target: Pin, staging: Spot, aside: Spot, wheel: Wheel, fp: Fingerprint,
                left: map<Spot, Tree>)
      requires Valid() && staging.key == target.key && staging != aside
      requires SafePoint(w, before, Contents(), target, wheel, fp, aside)
      modifies this`spots, this`history
      ensures Valid() && history == old(history) + [Contents()]
      ensures SafePoint(w, before, Contents(), target, wheel, fp, aside)
      ensures forall s | s != staging && s in old(spots) :: s in spots && spots[s] == old(spots)[s]
      ensures staging in spots <==> staging in left
    {
      hide Legal, Coherent, Verified, SameElsewhere;
      ghost var was := spots;
      Remove(staging, left);
      SameButOne(was, spots, staging);
      SameTransitive(before.spots, was, spots, target.key);
    }

    /** From the new staging on. */
    method Attempt(digest: Digest, wheel: Wheel, fp: Fingerprint, o: Course)
      returns (r: Result, ghost points: seq<Disk>)
      requires Valid() && Selected(w.catalog(digest), w.tags(fp)) == Some(wheel)
      modifies this
      ensures Valid() && history == old(history) + points
      ensures AllSafe(w, old(Contents()), points, Pin(wheel.key, digest), wheel, fp, Replaced(wheel.key, o.aside))
      ensures r == Answer(w, old(bundles).Keys, old(spots).Keys, digest, wheel, o)
      ensures r.Installed? && Pin(wheel.key, digest) in old(bundles) ==> Cleared(spots, wheel.key, o)
      ensures Outcome(w, old(bundles), bundles, spots, digest, wheel, fp, o, r)
      ensures forall s | s in old(spots) :: s in spots && spots[s] == old(spots)[s]
    {
      hide Legal, Coherent, Selected, ReceiptFor, Verified, AllSafe, Quiet, SafePoint, SameElsewhere, IsAnswer,
        Hindrance, Obstacle;
      var target, staging, aside := Pin(wheel.key, digest), Own(wheel.key, o.name), Replaced(wheel.key, o.aside);
      ghost var before := Contents();
      var why, preparing := Prepare(digest, wheel, fp, o);
      points := preparing;
      QuietIsSafe(w, before, points, target, wheel, fp, aside);
      if why == Some(NoStaging) { return Failed(NoStaging), points; }
      ghost var mid := Contents();
      ObstacleStill(before.bundles.Keys, before.spots, spots, staging, target, o);
      if why.Some? {
        r := Failed(why.value);
        RenamesAreSafe(w, before, mid, target, wheel, fp, aside);
      } else {
        ghost var placing;
        r, placing := Swap(target, staging, wheel, fp, o);
        SafeSince(w, before, mid, placing, target, wheel, fp, aside);
        SafePointSince(w, before, mid, Contents(), target, wheel, fp, aside);
        SafeTogether(w, before, points, placing, target, wheel, fp, aside);
        points := points + placing;
        if r.Installed? { VerifiedAnswers(w, history, digest, wheel, fp); }
      }
      if why != Some(TreeUnproven) && staging in spots {
        Drop(before, target, staging, aside, wheel, fp, o.left);
        SafeOneMore(w, before, points, Contents(), target, wheel, fp, aside);
        points := points + [Contents()];
      }
    }

    /** An install that holds its platform's lock. */
    method Locked(digest: Digest, wheel: Wheel, fp: Fingerprint, o: Course) returns (r: Result, ghost points: seq<Disk>)
      requires Valid() && Selected(w.catalog(digest), w.tags(fp)) == Some(wheel)
      modifies this
      ensures Valid() && history == old(history) + points
      ensures AllSafe(w, old(Contents()), points, Pin(wheel.key, digest), wheel, fp, Replaced(wheel.key, o.aside))
      ensures Outcome(w, old(bundles), bundles, spots, digest, wheel, fp, o, r)
      ensures r == if Intact(w, old(bundles), digest, wheel, fp, o) then Installed(Pin(wheel.key, digest))
        else Answer(w, old(bundles).Keys, Reclaimed(old(spots).Keys, wheel.key, o), digest, wheel, o)
      ensures || Intact(w, old(bundles), digest, wheel, fp, o)
              || (r.Installed? && Pin(wheel.key, digest) in old(bundles) ==> Cleared(spots, wheel.key, o))
      ensures Intact(w, old(bundles), digest, wheel, fp, o) ==> Quiet(old(Contents()), points, wheel.key)
      ensures forall s | s in old(spots) && Keeps(o.judge, s) :: s in spots && spots[s] == old(spots)[s]
    {
      hide Legal, Coherent, Selected, ReceiptFor, AllSafe, Quiet, SafePoint, SameElsewhere, IsAnswer, Keeps, Reclaimed,
        Answer, AllSpare;
      var c := w.catalog(digest);
      var target := Pin(wheel.key, digest);
      ghost var aside := Replaced(wheel.key, o.aside);
      ghost var before := Contents();
      points := Reclaim(wheel.key, o.judge, o.left);
      ghost var mid := Contents();
      assert bundles == before.bundles;
      NamesLeft(before.spots, spots, wheel.key, o);
      QuietIsSafe(w, before, points, target, wheel, fp, aside);
      if target in bundles {
        var located := Locate(bundles, Some(c), fp);
        if Intact(w, bundles, digest, wheel, fp, o) { AnswerIsOne(bundles, c, fp, located, Found(target)); }
        if located == Found(target) && w.clean(bundles[target].site, wheel.file) && o.accepts {
          FoundIsVerified(w, history, digest, wheel, fp);
          return Installed(target), points;
        }
      }
      ghost var attempting;
      r, attempting := Attempt(digest, wheel, fp, o);
      SafeSince(w, before, mid, attempting, target, wheel, fp, aside);
      SafeTogether(w, before, points, attempting, target, wheel, fp, aside);
      points := points + attempting;
    }

    /** One install, by the interpreter of this fingerprint, of the bundle it selects from this digest's catalog. */
    method Install(digest: Digest, fp: Fingerprint, allowCandidate: bool, pathFits: bool, o: Course)
      returns (r: Result, ghost points: seq<Disk>)
      requires Valid()
      modifies this
      ensures Valid() && history == old(history) + points
      ensures var c := w.catalog(digest); var sel := Selected(c, w.tags(fp));
        if sel.None? || (!c.release && !allowCandidate) || !pathFits || !o.locked then
          && Contents() == old(Contents()) && points == []
          && r == Failed(if sel.None? then Unsupported else if !c.release && !allowCandidate then CandidatePin
                         else if !pathFits then PathTooLong else NoLock)
        else
          var wheel := sel.value;
          && AllSafe(w, old(Contents()), points, Pin(wheel.key, digest), wheel, fp, Replaced(wheel.key, o.aside))
          && Outcome(w, old(bundles), bundles, spots, digest, wheel, fp, o, r)
          && (Intact(w, old(bundles), digest, wheel, fp, o) ==> Quiet(old(Contents()), points, wheel.key))
          && (|| Intact(w, old(bundles), digest, wheel, fp, o)
              || (r.Installed? && Pin(wheel.key, digest) in old(bundles) ==> Cleared(spots, wheel.key, o)))
          && r == if Intact(w, old(bundles), digest, wheel, fp, o) then Installed(Pin(wheel.key, digest))
             else Answer(w, old(bundles).Keys, Reclaimed(old(spots).Keys, wheel.key, o), digest, wheel, o)
      ensures forall s | s in old(spots) && Keeps(o.judge, s) :: s in spots && spots[s] == old(spots)[s]
    {
      hide Legal, Coherent, Selected, AllSafe, Quiet, Outcome, Intact;
      var c := w.catalog(digest);
      var sel := Select(c, w.tags(fp));
      if sel.None? { return Failed(Unsupported), []; }
      if !c.release && !allowCandidate { return Failed(CandidatePin), []; }
      if !pathFits { return Failed(PathTooLong), []; }
      if !o.locked { return Failed(NoLock), []; }
      r, points := Locked(digest, sel.value, fp, o);
    }

    /** One directory of trash or of stagings: it goes, whole or in part, or a writer of it keeps it. */
    method DisposeOfPlace(s: Spot, o: Sweep) returns (fate: Fate)
      requires Valid() && s in spots
      modifies this`spots, this`history
      ensures Valid() && (history == old(history) || history == old(history) + [Contents()])
      ensures Touches(old(Contents()), Contents(), Place(s), o)
      ensures fate == if !s.Trash? && Keeps(o.judge, s) then Kept(WriterMayLive)
                      else if s in o.left then Kept(RemoveFailed) else Removed
      ensures fate == Kept(WriterMayLive) ==> spots == old(spots)
      ensures fate == Removed <==> s !in spots
    {
      hide Legal, Coherent;
      if !s.Trash? {
        var kept := JudgeStaging(o.judge, s);
        if kept { return Kept(WriterMayLive); }
      }
      Remove(s, o.left);
      fate := if s in o.left then Kept(RemoveFailed) else Removed;
    }

    /** One old bundle: set aside, when the OS will move it, and then removed. */
    method DisposeOfBundle(pin: Pin, o: Sweep) returns (fate: Fate, ghost points: seq<Disk>)
      requires Valid() && pin in bundles
      modifies this`bundles, this`spots, this`history
      ensures Valid() && history == old(history) + points
      ensures Touches(old(Contents()), Contents(), Bundle(pin), o)
      ensures forall i | 0 <= i < |points| :: Touches(old(Contents()), points[i], Bundle(pin), o)
      ensures pin in o.unmovable ==> Contents() == old(Contents()) && points == []
      ensures Disposed(old(Contents()), Contents(), pin, fate, o)
    {
      hide Legal, Coherent;
      var aside := Trash(pin.key, o.trash(pin));
      if pin in o.unmovable || aside in spots { return Kept(InUse), []; }
      Leave(pin, aside);
      points := [Contents()];
      Remove(aside, o.left);
      points := points + [Contents()];
      fate := if aside in o.left then Kept(RemoveFailed) else Removed;
    }

    method OnePlace(ghost before: Disk, s: Spot, job: Job, t0: Tally, ghost f0: map<Item, Fate>)
      returns (t: Tally, ghost f: map<Item, Fate>, ghost points: seq<Disk>)
      requires Valid() && Going(before, Contents(), t0, f0, job)
      requires s in spots && s in before.spots && spots[s] == before.spots[s]
      requires Place(s) !in f0 && Disposable(Place(s), job) && Apart(f0, Place(s), job.o)
      modifies this`spots, this`history
      ensures Valid() && history == old(history) + points && AllPruneSafe(before, points, job)
      ensures Going(before, Contents(), t, f, job)
      ensures PlacesSwept(old(spots), spots, f0, f, {s})
    {
      hide Legal, Coherent, Going, Apart;
      ghost var mid := Contents();
      var fate := DisposeOfPlace(s, job.o);
      PlaceMeant(before, mid, Contents(), s, fate, job);
      OneMoreFate(before, mid, Contents(), t0, f0, job, Place(s), fate);
      OnlyOneSpot(mid.spots, spots, s);
      t, f := Count(t0, fate, 1), f0[Place(s) := fate];
      assert PlacesOf({s}) == {Place(s)};
      points := history[|old(history)|..];
      SafeAtTheEnd(before, Contents(), t, f, points, job);
    }

    /** A loop over directories of trash or of stagings. */
    method SweepPlaces(ghost before: Disk, places: set<Spot>, job: Job, t0: Tally, ghost f0: map<Item, Fate>)
      returns (t: Tally, ghost f: map<Item, Fate>, ghost points: seq<Disk>)
      requires Valid() && Going(before, Contents(), t0, f0, job) && PlacesReady(before.spots, spots, places, f0, job)
      modifies this`spots, this`history
      ensures Valid() && history == old(history) + points && AllPruneSafe(before, points, job)
      ensures Going(before, Contents(), t, f, job)
      ensures PlacesSwept(old(spots), spots, f0, f, places)
    {
      hide Valid, Going, Apart, Disposable, AllPruneSafe, PlacesReady, PlacesSwept;
      t, f, points := t0, f0, [];
      NoPoints(before, job);
      ghost var start := spots;
      NoPlaces(start, f0);
      var rest := places;
      ghost var done := {};
      while rest != {}
        invariant rest !! done && rest + done == places
        invariant Valid() && history == old(history) + points && AllPruneSafe(before, points, job)
        invariant Going(before, Contents(), t, f, job)
        invariant PlacesSwept(start, spots, f0, f, done)
        decreases |rest|
        modifies this`spots, this`history
      {
        var s :| s in rest;
        NextPlace(before.spots, start, spots, places, done, f0, f, s, job);
        ghost var more, was, g := [], spots, f;
        t, f, more := OnePlace(before, s, job, t, f);
        PruneSafeTogether(before, points, more, job);
        Longer(old(history), points, more);
        points := points + more;
        PlaceSwept(start, was, spots, f0, g, f, done, s);
        rest, done := rest - {s}, done + {s};
      }
    }

    method OneBundle(ghost before: Disk, pin: Pin, job: Job, t0: Tally, ghost f0: map<Item, Fate>)
      returns (t: Tally, ghost f: map<Item, Fate>, ghost points: seq<Disk>)
      requires Valid() && Going(before, Contents(), t0, f0, job)
      requires pin in bundles && pin in before.bundles && Bundle(pin) !in f0 && Disposable(Bundle(pin), job)
      modifies this`bundles, this`spots, this`history
      ensures Valid() && history == old(history) + points && AllPruneSafe(before, points, job)
      ensures Going(before, Contents(), t, f, job)
      ensures BundlesSwept(old(Contents()), Contents(), pin.key, f0, f, {pin})
    {
      hide Legal, Coherent, Agrees, AllMeant, PruneSafe, Touches;
      ghost var mid := Contents();
      var fate;
      fate, points := DisposeOfBundle(pin, job.o);
      forall i | 0 <= i < |points| ensures PruneSafe(before, points[i], job) {
        TouchIsSafe(before, mid, points[i], Bundle(pin), job);
      }
      BundleMeant(before, mid, Contents(), f0, pin, fate, job);
      OneMoreFate(before, mid, Contents(), t0, f0, job, Bundle(pin), fate);
      TouchSweeps(mid, Contents(), pin, job.o, f0, fate);
      t, f := Count(t0, fate, 1), f0[Bundle(pin) := fate];
    }

    /** The loop over the old bundles of one key. */
    method SweepBundles(ghost before: Disk, pins: set<Pin>, ghost key: Key, job: Job, t0: Tally,
                        ghost f0: map<Item, Fate>)
      returns (t: Tally, ghost f: map<Item, Fate>, ghost points: seq<Disk>)
      requires Valid() && Going(before, Contents(), t0, f0, job) && BundlesReady(before, Contents(), pins, key, f0, job)
      modifies this`bundles, this`spots, this`history
      ensures Valid() && history == old(history) + points && AllPruneSafe(before, points, job)
      ensures Going(before, Contents(), t, f, job)
      ensures BundlesSwept(old(Contents()), Contents(), key, f0, f, pins)
    {
      hide Valid, Going, Disposable, AllPruneSafe, BundlesReady, BundlesSwept;
      t, f, points := t0, f0, [];
      NoPoints(before, job);
      NoBundles(Contents(), key, f0);
      var rest := pins;
      ghost var done := {};
      while rest != {}
        invariant rest !! done && rest + done == pins
        invariant Valid() && history == old(history) + points && AllPruneSafe(before, points, job)
        invariant Going(before, Contents(), t, f, job)
        invariant BundlesSwept(old(Contents()), Contents(), key, f0, f, done)
        decreases |rest|
        modifies this`bundles, this`spots, this`history
      {
        var pin :| pin in rest;
        NextBundle(before, old(Contents()), Contents(), pins, done, key, f0, f, pin, job);
        ghost var more, mid, g := [], Contents(), f;
        t, f, more := OneBundle(before, pin, job, t, f);
        PruneSafeTogether(before, points, more, job);
        Longer(old(history), points, more);
        points := points + more;
        BundleSwept(old(Contents()), mid, Contents(), key, f0, g, f, done, pin);
        rest, done := rest - {pin}, done + {pin};
      }
    }

    /** Under a key's lock: its trash, its old bundles, its stagings. */
    method SweepKey(ghost before: Disk, key: Key, ghost kept: set<Pin>, pins: set<Pin>, job: Job, t0: Tally,
                    ghost fates: map<Item, Fate>, ghost f0: map<Item, Fate>)
      returns (t: Tally, ghost f: map<Item, Fate>, ghost points: seq<Disk>)
      requires Valid() && Going(before, Contents(), t0, f0, job)
      requires KeySplit(before, Contents(), key, fates, f0, kept, pins, job) && key !in job.o.busy
      modifies this`bundles, this`spots, this`history
      ensures Valid() && history == old(history) + points && AllPruneSafe(before, points, job)
      ensures Going(before, Contents(), t, f, job) && OnlyKey(old(Contents()), Contents(), key, f0, f)
      ensures f.Keys == f0.Keys + BundlesOf(pins) + PlacesOf(KeySpots(old(spots), key))
    {
      hide Valid, Going, AllPruneSafe, PlacesReady, PlacesSwept, BundlesReady, BundlesSwept, PlacesOf, BundlesOf,
        OnlyKey;
      ghost var was := Contents();
      SweepReady(before, was, fates, f0, job, key, kept, pins);
      TrashReady(before, was, key, f0, job);
      ghost var f1, f2, p1, p2, p3;
      t, f1, p1 := SweepPlaces(before, SpotsOf(spots, key, true), job, t0, f0);
      ghost var mid := Contents();
      AfterTrash(before, was, mid, pins, key, f0, f1, SpotsOf(was.spots, key, true), job);
      t, f2, p2 := SweepBundles(before, pins, key, job, t, f1);
      ghost var mid2 := Contents();
      StagingsReady(before, was, mid, mid2, key, f0, f1, f2, pins, job);
      t, f, p3 := SweepPlaces(before, SpotsOf(spots, key, false), job, t, f2);
      KeySwept(was, mid, mid2, Contents(), key, f0, f1, f2, f, pins);
      PruneSafeTogether(before, p1, p2, job);
      PruneSafeTogether(before, p1 + p2, p3, job);
      Longer(old(history), p1, p2);
      Longer(old(history), p1 + p2, p3);
      points := p1 + p2 + p3;
    }

    method Visit(ghost before: Disk, key: Key, ghost kept: set<Pin>, rest: set<Pin>, job: Job, t0: Tally,
                 ghost f0: map<Item, Fate>, ghost f1: map<Item, Fate>)
      returns (t: Tally, ghost f: map<Item, Fate>, ghost points: seq<Disk>)
      requires Valid() && Going(before, Contents(), t0, f1, job)
      requires KeySplit(before, Contents(), key, f0, f1, kept, rest, job)
      modifies this`bundles, this`spots, this`history
      ensures Valid() && history == old(history) + points && AllPruneSafe(before, points, job)
      ensures Going(before, Contents(), t, f, job) && OnlyKey(old(Contents()), Contents(), key, f0, f)
      ensures f.Keys == f0.Keys + Examined(before, key, job)
    {
      hide Valid, Going, AllPruneSafe, BundlesOf, PlacesOf, KeySpots, KeySplit, Count, OnlyKey, Examined, All;
      ghost var was := Contents();
      if key in job.o.busy {
        BusyKept(before, was, t0, f0, f1, job, key, kept, rest);
        RestCounted(before, was, key, f0, f1, kept, rest, job, Kept(Busy));
        NoPoints(before, job);
        t, f, points := Count(t0, Kept(Busy), |rest|), f1 + All(BundlesOf(rest), Kept(Busy)), [];
        KeyDone(before, was, was, f0, f1, f, job, key, kept, rest, {});
      } else {
        t, f, points := SweepKey(before, key, kept, rest, job, t0, f0, f1);
        KeyDone(before, was, Contents(), f0, f1, f, job, key, kept, rest, PlacesOf(KeySpots(was.spots, key)));
      }
    }

    /** One key: what the rollback keeps is counted, and the rest is swept under the key's lock, or kept when busy. */
    method PruneKey(ghost before: Disk, key: Key, job: Job, t0: Tally, ghost f0: map<Item, Fate>)
      returns (t: Tally, ghost f: map<Item, Fate>, ghost points: seq<Disk>)
      requires Valid() && Going(before, Contents(), t0, f0, job) && KeyFresh(before, Contents(), key, f0)
        && key in job.keys
      modifies this`bundles, this`spots, this`history
      ensures Valid() && history == old(history) + points && AllPruneSafe(before, points, job)
      ensures Going(before, Contents(), t, f, job) && OnlyKey(old(Contents()), Contents(), key, f0, f)
      ensures f.Keys == f0.Keys + Examined(before, key, job)
    {
      hide Valid, Going, AllPruneSafe, BundlesOf, PlacesOf, KeySpots, KeyFresh, Count, OnlyKey, Examined, All;
      ghost var was := Contents();
      var candidates := OldPins(bundles, key, job.current);
      var kept := set pin | pin in candidates && pin.digest in job.keep;
      t := Count(t0, Kept(Rollback), |kept|);
      ghost var f1 := f0 + All(BundlesOf(kept), Kept(Rollback));
      RollbackKept(before, was, t0, f0, job, key, kept);
      var rest := candidates - kept;
      assert KeySplit(before, was, key, f0, f1, kept, rest, job) by { assert kept + rest == candidates; }
      t, f, points := Visit(before, key, kept, rest, job, t, f0, f1);
    }

    /** The loop over the keys, in any order. */
    method PruneKeys(work: Job) returns (t: Tally, ghost f: map<Item, Fate>, ghost points: seq<Disk>)
      requires Valid()
      modifies this`bundles, this`spots, this`history
      ensures Valid() && history == old(history) + points && AllPruneSafe(old(Contents()), points, work)
      ensures Going(old(Contents()), Contents(), t, f, work) && JudgedKeys(old(Contents()), f, work.keys, work)
    {
      hide Valid, Going, AllPruneSafe, KeyFresh, OnlyKey, Examined, JudgedKeys, KeysFresh;
      ghost var before := Contents();
      t, f, points := Tally(0, map[]), map[], [];
      NoPoints(before, work);
      NothingJudged(before, work);
      var rest := work.keys;
      ghost var done := {};
      while rest != {}
        invariant rest !! done && rest + done == work.keys
        invariant Valid() && history == old(history) + points && AllPruneSafe(before, points, work)
        invariant Going(before, Contents(), t, f, work) && KeysFresh(before, Contents(), rest, f)
        invariant JudgedKeys(before, f, done, work)
        decreases |rest|
        modifies this`bundles, this`spots, this`history
      {
        var key :| key in rest;
        OneFresh(before, Contents(), rest, f, key);
        ghost var was, g, more := Contents(), f, [];
        t, f, more := PruneKey(before, key, work, t, f);
        PruneSafeTogether(before, points, more, work);
        Longer(old(history), points, more);
        points := points + more;
        OthersFresh(before, was, Contents(), rest, key, g, f);
        JudgedOneMore(before, g, f, done, key, work);
        rest, done := rest - {key}, done + {key};
      }
    }

    /** One prune by the interpreter of this fingerprint; the keys of its platform's other ABIs join when asked, each by
        its directory. */
    method Prune(catalog: Option<Catalog>, fp: Fingerprint, otherKeys: bool, bare: set<Key>, keep: set<Digest>,
                 o: Sweep)
      returns (r: PruneResult, ghost job: Job, ghost f: map<Item, Fate>, ghost points: seq<Disk>)
      requires Valid()
      modifies this`bundles, this`spots, this`history
      ensures Valid() && history == old(history) + points && AllPruneSafe(old(Contents()), points, job)
      ensures r.NotPruned? ==>
        && Contents() == old(Contents()) && points == []
        && if catalog.None? then r.why == CatalogInvalid
           else IsAnswer(old(bundles), catalog.value, fp, Refused(r.why))
      ensures r.Pruned? ==>
        && catalog.Some? && IsAnswer(old(bundles), catalog.value, fp, Found(job.current))
        && IsAnswer(bundles, catalog.value, fp, Found(job.current))
        && job.keep == keep && job.o == o
        && (forall key :: key in job.keys <==>
              key == job.current.key || (otherKeys && InFamily(w, old(Contents()), bare, key, job.current.key)))
        && Going(old(Contents()), Contents(), r.tally, f, job) && JudgedKeys(old(Contents()), f, job.keys, job)
        && (FreshNames(old(Contents()), o) ==>
              && r.tally.removed == |AllGone(Contents(), f, o)|
              && forall i | i in f :: f[i] == FateOf(i, keep, o))
    {
      hide Valid, Going, AllPruneSafe, PruneSafe, JudgedKeys, IsAnswer, FreshNames, AllGone, FateOf;
      ghost var before := Contents();
      var located := Locate(bundles, catalog, fp);
      if located.Refused? {
        job := Job({}, Pin(0, 0), keep, o);
        NoPoints(before, job);
        return NotPruned(located.why), job, map[], [];
      }
      var current := located.pin;
      var all := (set pin | pin in bundles :: pin.key) + (set s | s in spots && s.Trash? :: s.key) + bare;
      var others := set key | key in all && w.platform(key) == w.platform(current.key);
      var keys := if otherKeys then {current.key} + others else {current.key};
      var work := Job(keys, current, keep, o);
      job := work;
      var t;
      t, f, points := PruneKeys(work);
      GoingIsSafe(before, Contents(), t, f, job);
      StillAnswers(before, Contents(), catalog.value, fp, job);
      if FreshNames(before, o) {
        RemovedCountsTheGone(before, Contents(), t, f, job);
        FatesAreDetermined(before, Contents(), t, f, job);
      }
      r := Pruned(t);
    }
  }
}

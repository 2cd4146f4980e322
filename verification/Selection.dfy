/** backend/app/part_render.py: which objects of a plate are rendered under the cap, what Node is asked for, and how its
    answer becomes one instance per object. backend/app/services/part_render_node.py: the check of that answer.

    A name is its key's rank in key order: the canonical spelling itself is not part of this model. */
module Selection {
  import opened Options
  import opened Sorting

  type Id = nat
  type Name = nat
  type Png = seq<int>

  const MODEL_PROBE_ID: Id := 0xFFFFFFFF

  // ----- select_instances -----

  function Ids(objects: map<Id, Name>, name: Name): set<Id> {
    set id | id in objects && objects[id] == name
  }

  function Names(objects: map<Id, Name>, ids: set<Id>): set<Name>
    requires ids <= objects.Keys
  {
    set id | id in ids :: objects[id]
  }

  /** id is the smallest of its name. */
  predicate First(objects: map<Id, Name>, id: Id)
    requires id in objects
  {
    IsLeast(Ids(objects, objects[id]), id)
  }

  function Smaller(a: nat, b: nat): nat { if a < b then a else b }

  ghost predicate Partition(objects: map<Id, Name>, selected: seq<Id>, skipped: seq<Id>) {
    && Increasing(selected) && Increasing(skipped)
    && Elements(selected) + Elements(skipped) == objects.Keys
    && Elements(selected) !! Elements(skipped)
  }

  /** As many names as the cap allows, the first in key order, each with its smallest id. */
  ghost predicate CoversNames(objects: map<Id, Name>, cap: nat, ids: set<Id>)
    requires ids <= objects.Keys
  {
    var covered := Names(objects, ids);
    && |covered| == Smaller(cap, |objects.Values|)
    && Leading(covered, objects.Values)
    && (forall k | k in covered :: exists id :: id in ids && objects[id] == k && First(objects, id))
  }

  ghost predicate Leading(some: set<nat>, all: set<nat>) {
    forall k, l | k in some && l in all && l !in some :: k < l
  }

  /** ... and then the rest by id. */
  ghost predicate WellChosen(objects: map<Id, Name>, cap: nat, selected: set<Id>)
    requires selected <= objects.Keys
  {
    && |selected| == Smaller(cap, |objects|)
    && CoversNames(objects, cap, selected)
    && (forall x, y | x in selected && y in objects && y !in selected :: First(objects, x) || x < y)
  }

  lemma LeastIsFirst(objects: map<Id, Name>, k: Name)
    requires k in objects.Values
    ensures Ids(objects, k) != {}
    ensures var id := Least(Ids(objects, k)); id in objects && objects[id] == k && First(objects, id)
  {
    var id :| id in objects && objects[id] == k;
    assert id in Ids(objects, k);
  }

  /** What the first loop has chosen: the smallest id of each of the first names. */
  ghost predicate FirstsOf(objects: map<Id, Name>, keys: seq<Name>, chosen: seq<Id>) {
    && |chosen| <= |keys|
    && (forall j | 0 <= j < |chosen| ::
          chosen[j] in objects && objects[chosen[j]] == keys[j] && First(objects, chosen[j]))
  }

  lemma SnocElements(s: seq<nat>, x: nat)
    ensures Elements(s + [x]) == Elements(s) + {x}
  {
  }

  lemma {:induction false} FirstsAreDistinct(objects: map<Id, Name>, names: seq<Name>, chosen: seq<Id>)
    requires FirstsOf(objects, names, chosen) && |names| == |chosen| && Increasing(names)
    ensures |Elements(chosen)| == |chosen| && Elements(chosen) <= objects.Keys
    ensures Names(objects, Elements(chosen)) == Elements(names)
  {
    hide First, Names, Elements;
    if chosen == [] {
      NoNames(objects);
    } else {
      var n := |chosen| - 1;
      FrontIsOther(names);
      assert FirstsOf(objects, names[..n], chosen[..n]);
      FirstsAreDistinct(objects, names[..n], chosen[..n]);
      OneMoreName(objects, Elements(chosen[..n]), chosen[n]);
      SnocElements(chosen[..n], chosen[n]);
      SnocElements(names[..n], names[n]);
      assert chosen == chosen[..n] + [chosen[n]] && names == names[..n] + [names[n]];
    }
  }

  lemma NoNames(objects: map<Id, Name>)
    ensures Elements([]) == {} && Names(objects, {}) == {}
  {
  }

  lemma FrontIsOther(s: seq<nat>)
    requires Increasing(s) && s != []
    ensures Increasing(s[..|s| - 1]) && s[|s| - 1] !in Elements(s[..|s| - 1])
  {
  }

  lemma OneMoreName(objects: map<Id, Name>, ids: set<Id>, id: Id)
    requires ids <= objects.Keys && id in objects
    ensures Names(objects, ids + {id}) == Names(objects, ids) + {objects[id]}
    ensures objects[id] !in Names(objects, ids) ==> |ids + {id}| == |ids| + 1
  {
  }

  lemma PrefixLeads(keys: seq<Name>, all: set<Name>, n: nat)
    requires Increasing(keys) && Elements(keys) == all && n <= |keys|
    ensures |Elements(keys[..n])| == n && Leading(Elements(keys[..n]), all)
    ensures Elements(keys[..n]) <= all && (n == |keys| ==> Elements(keys[..n]) == all)
  {
    DistinctCount(keys[..n]);
    forall k, l | k in keys[..n] && l in all && l !in keys[..n]
      ensures k < l
    {
      assert l in keys;
      var j :| 0 <= j < |keys| && keys[j] == l;
    }
    if n == |keys| { assert keys[..n] == keys; }
  }

  /** The names chosen cover as many as the cap can, and the first loop stops exactly when it can. */
  lemma FirstsCover(objects: map<Id, Name>, keys: seq<Name>, chosen: seq<Id>, cap: nat)
    requires Increasing(keys) && Elements(keys) == objects.Values && |keys| == |objects.Values|
    requires FirstsOf(objects, keys, chosen) && |chosen| == Smaller(cap, |keys|)
    ensures Elements(chosen) <= objects.Keys && |Elements(chosen)| == |chosen|
    ensures CoversNames(objects, cap, Elements(chosen))
    ensures forall x | x in Elements(chosen) :: First(objects, x)
    ensures |chosen| < cap ==> Names(objects, Elements(chosen)) == objects.Values
  {
    hide First, Increasing, Names, Leading;
    FirstsAreDistinct(objects, keys[..|chosen|], chosen) by { PrefixIncreases(keys, |chosen|); }
    PrefixLeads(keys, objects.Values, |chosen|);
    forall k | k in keys[..|chosen|]
      ensures exists id :: id in Elements(chosen) && objects[id] == k && First(objects, id)
    {
      var i :| 0 <= i < |chosen| && keys[i] == k;
      assert chosen[i] in Elements(chosen);
    }
  }

  lemma NamesGrow(objects: map<Id, Name>, some: set<Id>, all: set<Id>)
    requires some <= all <= objects.Keys
    ensures Names(objects, some) <= Names(objects, all) <= objects.Values
  {
  }

  lemma NoneChosen(objects: map<Id, Name>, keys: seq<Name>)
    ensures FirstsOf(objects, keys, [])
  {
  }

  lemma AnotherFirst(objects: map<Id, Name>, keys: seq<Name>, chosen: seq<Id>)
    requires FirstsOf(objects, keys, chosen) && |chosen| < |keys| && Elements(keys) == objects.Values
    ensures Ids(objects, keys[|chosen|]) != {}
    ensures FirstsOf(objects, keys, chosen + [Least(Ids(objects, keys[|chosen|]))])
  {
    assert keys[|chosen|] in Elements(keys);
    LeastIsFirst(objects, keys[|chosen|]);
  }

  method SelectInstances(objects: map<Id, Name>, cap: nat) returns (selected: seq<Id>, skipped: seq<Id>)
    ensures Partition(objects, selected, skipped)
    ensures WellChosen(objects, cap, Elements(selected))
    ensures |selected| == Smaller(cap, |objects|)
  {
    hide WellChosen, CoversNames, Names, Least, Increasing, First, FirstsOf, Elements;
    var keys := Sorted(objects.Values);
    var chosen: seq<Id> := [];
    assert FirstsOf(objects, keys, chosen) by { NoneChosen(objects, keys); }
    var i := 0;
    while i < |keys| && |chosen| != cap
      invariant i == |chosen| <= |keys| && i <= cap
      invariant FirstsOf(objects, keys, chosen)
    {
      AnotherFirst(objects, keys, chosen);
      chosen := chosen + [Least(Ids(objects, keys[i]))];
      i := i + 1;
    }
    FirstsCover(objects, keys, chosen, cap);
    var rest := Sorted(objects.Keys - Elements(chosen));
    var more := Smaller(cap - |chosen|, |rest|);
    TopUp(objects, cap, Elements(chosen), rest, more);
    JoinElements(chosen, rest[..more]);
    chosen := chosen + rest[..more];
    selected, skipped := Sorted(Elements(chosen)), Sorted(objects.Keys - Elements(chosen));
  }

  lemma PrefixIncreases(s: seq<nat>, n: nat)
    requires Increasing(s) && n <= |s|
    ensures Increasing(s[..n])
  {
  }

  lemma PrefixSplits(s: seq<nat>, n: nat)
    requires Increasing(s) && n <= |s|
    ensures |Elements(s[..n])| == n && Elements(s[..n]) <= Elements(s)
    ensures Leading(Elements(s[..n]), Elements(s))
  {
    PrefixLeads(s, Elements(s), n);
  }

  /** Filling up with the first of the rest keeps the names covered. */
  lemma TopUp(objects: map<Id, Name>, cap: nat, firsts: set<Id>, rest: seq<Id>, more: nat)
    requires firsts <= objects.Keys && |firsts| <= cap && CoversNames(objects, cap, firsts)
    requires forall x | x in firsts :: First(objects, x)
    requires |firsts| < cap ==> Names(objects, firsts) == objects.Values
    requires Increasing(rest) && Elements(rest) == objects.Keys - firsts && more == Smaller(cap - |firsts|, |rest|)
    ensures var all := firsts + Elements(rest[..more]);
      all <= objects.Keys && WellChosen(objects, cap, all) && |all| == Smaller(cap, |objects|)
  {
    hide First, Increasing, Names;
    var added := Elements(rest[..more]);
    var all := firsts + added;
    PrefixSplits(rest, more);
    PrefixSplits(rest, |rest|);
    assert rest[..|rest|] == rest;
    assert |objects.Keys - firsts| == |objects| - |firsts|;
    assert |all| == |firsts| + |added|;
    NamesGrow(objects, firsts, all);
    if more == 0 { assert all == firsts; }
    assert Names(objects, all) == Names(objects, firsts);
  }

  lemma {:induction false} NamesAreNoMore(objects: map<Id, Name>, ids: set<Id>)
    requires ids <= objects.Keys
    ensures |Names(objects, ids)| <= |ids|
    decreases |ids|
  {
    if ids == {} {
      assert Names(objects, ids) == {};
    } else {
      var x :| x in ids;
      NamesAreNoMore(objects, ids - {x});
      assert Names(objects, ids) == Names(objects, ids - {x}) + {objects[x]};
    }
  }

  /** No choice of at most cap ids covers more names than the one made. */
  lemma CoversTheMost(objects: map<Id, Name>, cap: nat, selected: set<Id>, other: set<Id>)
    requires selected <= objects.Keys && WellChosen(objects, cap, selected)
    requires other <= objects.Keys && |other| <= cap
    ensures |Names(objects, other)| <= |Names(objects, selected)|
  {
    NamesAreNoMore(objects, other);
    SubsetSize(Names(objects, other), objects.Values);
  }

  /** The rules leave one choice. */
  lemma OneChoice(objects: map<Id, Name>, cap: nat, s: set<Id>, t: set<Id>)
    requires s <= objects.Keys && WellChosen(objects, cap, s)
    requires t <= objects.Keys && WellChosen(objects, cap, t)
    ensures s == t
  {
    SameNames(objects, cap, s, t);
    if s != t {
      if s <= t { SubsetSize(s, t); }
      if t <= s { SubsetSize(t, s); }
      var x :| x in s && x !in t;
      var y :| y in t && y !in s;
      FirstIsInBoth(objects, cap, s, t, x);
      FirstIsInBoth(objects, cap, t, s, y);
    }
  }

  lemma SameNames(objects: map<Id, Name>, cap: nat, s: set<Id>, t: set<Id>)
    requires s <= objects.Keys && WellChosen(objects, cap, s)
    requires t <= objects.Keys && WellChosen(objects, cap, t)
    ensures Names(objects, s) == Names(objects, t)
  {
    var a, b := Names(objects, s), Names(objects, t);
    NamesGrow(objects, s, objects.Keys);
    NamesGrow(objects, t, objects.Keys);
    if a <= b {
      SubsetSize(a, b);
    } else if b <= a {
      SubsetSize(b, a);
    } else {
      assert false;
    }
  }

  lemma FirstIsInBoth(objects: map<Id, Name>, cap: nat, s: set<Id>, t: set<Id>, x: Id)
    requires s <= objects.Keys && t <= objects.Keys && WellChosen(objects, cap, t)
    requires Names(objects, s) == Names(objects, t) && x in s && x !in t
    ensures !First(objects, x)
  {
    var k := objects[x];
    assert k in Names(objects, s);
    assert Least(Ids(objects, k)) in t;
  }

  // ----- job_for, and the check of Node's answer -----

  datatype Mode = ToolpathMode | ModelMode

  datatype JobObject = JobObject(id: Id, mode: Mode)

  datatype NodeReason = EmptySelection | ModelUnproven | EmptyRender | OtherReason

  datatype Claim = Rendered(mode: Mode) | Unrendered(reason: NodeReason) | UnknownMethod

  /** One object of Node's manifest; digest stands for the byte count, the hash and the sizes it names. */
  datatype Entry = Entry(id: Id, claim: Claim, tools: seq<int>, digest: int)

  /** pair gives every id its mask cut from the top image; modelBox tells that the plate's bounding box was found. */
  datatype Plan = Plan(objects: map<Id, Name>, selected: seq<Id>, skipped: seq<Id>, pair: Option<map<Id, Png>>,
                       modelBox: bool)

  ghost predicate Planned(plan: Plan) {
    Partition(plan.objects, plan.selected, plan.skipped)
  }

  predicate Probes(plan: Plan) {
    plan.modelBox && |plan.objects| == 1 && MODEL_PROBE_ID !in plan.objects
  }

  function JobFor(plan: Plan): seq<JobObject> {
    seq(|plan.selected|, i requires 0 <= i < |plan.selected| => JobObject(plan.selected[i], ToolpathMode))
    + if Probes(plan) then [JobObject(MODEL_PROBE_ID, ModelMode)] else []
  }

  /** The dictionary the check makes of a job. */
  function Wanted(job: seq<JobObject>): map<Id, Mode> {
    if job == [] then map[] else
      var o := job[|job| - 1];
      Wanted(job[..|job| - 1])[o.id := o.mode]
  }

  lemma {:induction false} WantedHolds(job: seq<JobObject>)
    requires forall i, j | 0 <= i < j < |job| :: job[i].id != job[j].id
    ensures forall o | o in job :: o.id in Wanted(job) && Wanted(job)[o.id] == o.mode
    ensures forall id | id in Wanted(job) :: JobObject(id, Wanted(job)[id]) in job
  {
    if job != [] {
      var n := |job| - 1;
      WantedHolds(job[..n]);
      assert job == job[..n] + [job[n]];
    }
  }

  lemma JobIdsDiffer(plan: Plan)
    requires Planned(plan)
    ensures var job := JobFor(plan); forall i, j | 0 <= i < j < |job| :: job[i].id != job[j].id
  {
    assert forall i | 0 <= i < |plan.selected| :: plan.selected[i] in Elements(plan.selected);
  }

  /** The job asks a toolpath of every selected id, and besides it at most the probe. */
  lemma JobAsks(plan: Plan)
    requires Planned(plan)
    ensures var w := Wanted(JobFor(plan));
      && (forall id :: id in w <==>
            || id in plan.selected
            || (id == 0xFFFF_FFFF && plan.modelBox && |plan.objects| == 1 && id !in plan.objects))
      && (forall id | id in w :: w[id] == if id in plan.objects then ToolpathMode else ModelMode)
  {
    hide Wanted, Increasing;
    var job := JobFor(plan);
    JobIdsDiffer(plan);
    assert forall id | id in plan.selected :: id in Elements(plan.selected);
    WantedHolds(job);
    forall id | id in plan.selected ensures JobObject(id, ToolpathMode) in job {
      var i :| 0 <= i < |plan.selected| && plan.selected[i] == id;
      assert job[i] == JobObject(id, ToolpathMode);
    }
    if Probes(plan) {
      assert job[|plan.selected|] == JobObject(MODEL_PROBE_ID, ModelMode);
    }
  }

  predicate Proper(e: Entry, pngs: map<Id, Png>, wanted: map<Id, Mode>, digest: Png -> int) {
    && e.id in wanted
    && match e.claim
       case Unrendered(reason) => !reason.OtherReason? && e.id !in pngs
       case Rendered(mode) => mode == wanted[e.id] && e.id in pngs && e.digest == digest(pngs[e.id])
       case UnknownMethod => false
  }

  /** The manifest answers exactly the job, and every rendered entry has exactly its PNG. */
  ghost predicate Answers(entries: seq<Entry>, pngs: map<Id, Png>, wanted: map<Id, Mode>, digest: Png -> int) {
    && (forall i, j | 0 <= i < j < |entries| :: entries[i].id != entries[j].id)
    && (forall e | e in entries :: Proper(e, pngs, wanted, digest))
    && (forall id | id in wanted :: exists e :: e in entries && e.id == id)
    && (forall id | id in pngs :: exists e :: e in entries && e.id == id && e.claim.Rendered?)
  }

  /** What an answer that passes looks like: one entry for every id the job asks and no other; a rendered entry is in
      the mode asked for and comes with the very PNG it describes; any other gives one of the three known reasons and
      no PNG; and no PNG is there besides. */
  lemma AnswersExactly(entries: seq<Entry>, pngs: map<Id, Png>, wanted: map<Id, Mode>, digest: Png -> int)
    ensures Answers(entries, pngs, wanted, digest) <==>
      && (forall i, j | 0 <= i < j < |entries| :: entries[i].id != entries[j].id)
      && (forall id :: id in wanted <==> exists e :: e in entries && e.id == id)
      && (forall e | e in entries && e.claim.Rendered? ::
            e.id in wanted && e.claim.mode == wanted[e.id] && e.id in pngs && e.digest == digest(pngs[e.id]))
      && (forall e | e in entries && !e.claim.Rendered? ::
            && e.id !in pngs
            && (e.claim == Unrendered(EmptySelection) || e.claim == Unrendered(ModelUnproven)
                || e.claim == Unrendered(EmptyRender)))
      && (forall id | id in pngs :: exists e :: e in entries && e.id == id && e.claim.Rendered?)
  {
    assert forall e | e in entries && Proper(e, pngs, wanted, digest) :: e.id in wanted;
  }

  function IdsOf(entries: seq<Entry>): set<Id> { set e | e in entries :: e.id }

  function RenderedIds(entries: seq<Entry>): set<Id> { set e | e in entries && e.claim.Rendered? :: e.id }

  lemma AnotherEntry(entries: seq<Entry>, i: nat)
    requires i < |entries|
    ensures IdsOf(entries[..i + 1]) == IdsOf(entries[..i]) + {entries[i].id}
    ensures RenderedIds(entries[..i + 1]) ==
      RenderedIds(entries[..i]) + if entries[i].claim.Rendered? then {entries[i].id} else {}
  {
    assert entries[..i + 1] == entries[..i] + [entries[i]];
  }

  ghost predicate CheckedSoFar(entries: seq<Entry>, i: nat, pngs: map<Id, Png>, wanted: map<Id, Mode>,
                               digest: Png -> int)
    requires i <= |entries|
  {
    && (forall k, l | 0 <= k < l < i :: entries[k].id != entries[l].id)
    && (forall k | 0 <= k < i :: Proper(entries[k], pngs, wanted, digest))
  }

  method CheckManifest(entries: seq<Entry>, pngs: map<Id, Png>, job: seq<JobObject>, digest: Png -> int)
    returns (ok: bool)
    ensures ok <==> Answers(entries, pngs, Wanted(job), digest)
  {
    var wanted := Wanted(job);
    var seen: set<Id>, rendered: set<Id> := {}, {};
    var i := 0;
    while i < |entries|
      invariant 0 <= i <= |entries|
      invariant CheckedSoFar(entries, i, pngs, wanted, digest)
      invariant seen == IdsOf(entries[..i]) && rendered == RenderedIds(entries[..i])
    {
      hide Wanted;
      var e := entries[i];
      AnotherEntry(entries, i);
      if e.id !in wanted || e.id in seen {
        SeenTwice(entries, i, pngs, wanted, digest);
        return false;
      }
      seen := seen + {e.id};
      if !Proper(e, pngs, wanted, digest) { return false; }
      if e.claim.Rendered? { rendered := rendered + {e.id}; }
      i := i + 1;
    }
    assert entries[..i] == entries;
    ok := seen == wanted.Keys && pngs.Keys == rendered;
    EveryIdAnswered(entries, pngs, wanted, digest);
  }

  lemma SeenTwice(entries: seq<Entry>, i: nat, pngs: map<Id, Png>, wanted: map<Id, Mode>, digest: Png -> int)
    requires i < |entries| && (entries[i].id !in wanted || entries[i].id in IdsOf(entries[..i]))
    ensures !Answers(entries, pngs, wanted, digest)
  {
    assert entries[i] in entries;
    if entries[i].id in wanted {
      var e :| e in entries[..i] && e.id == entries[i].id;
      var k :| 0 <= k < i && entries[k] == e;
      assert entries[k].id == entries[i].id;
    }
  }

  lemma EveryIdAnswered(entries: seq<Entry>, pngs: map<Id, Png>, wanted: map<Id, Mode>, digest: Png -> int)
    requires CheckedSoFar(entries, |entries|, pngs, wanted, digest)
    ensures Answers(entries, pngs, wanted, digest) <==>
      IdsOf(entries) == wanted.Keys && pngs.Keys == RenderedIds(entries)
  {
    assert forall e | e in entries :: e.id in IdsOf(entries) && Proper(e, pngs, wanted, digest);
    if Answers(entries, pngs, wanted, digest) {
      assert IdsOf(entries) <= wanted.Keys;
      assert RenderedIds(entries) <= pngs.Keys;
    }
  }

  // ----- assemble -----

  datatype Method = Toolpath | Model | TopMask | Missing | Skipped

  datatype Reason = OverCap | NoValidPair | EmptyImage | NothingSelected | NoMarkers

  datatype Instance = Instance(id: Id, how: Method, reason: Option<Reason>, master: Option<Png>, tools: seq<int>)

  /** The dictionary of a manifest's entries. */
  function Table(entries: seq<Entry>): map<Id, Entry> {
    if entries == [] then map[] else
      var e := entries[|entries| - 1];
      Table(entries[..|entries| - 1])[e.id := e]
  }

  lemma {:induction false} TableHolds(entries: seq<Entry>)
    requires forall i, j | 0 <= i < j < |entries| :: entries[i].id != entries[j].id
    ensures forall e | e in entries :: e.id in Table(entries) && Table(entries)[e.id] == e
    ensures forall id | id in Table(entries) :: Table(entries)[id] in entries && Table(entries)[id].id == id
  {
    if entries != [] {
      var n := |entries| - 1;
      TableHolds(entries[..n]);
      assert entries == entries[..n] + [entries[n]];
    }
  }

  /** Every rendered entry has its PNG: the lookups below cannot fail. */
  ghost predicate Backed(table: map<Id, Entry>, pngs: map<Id, Png>) {
    forall id | id in table && table[id].claim.Rendered? :: id in pngs
  }

  predicate ProbeStands(plan: Plan, table: map<Id, Entry>, any: bool) {
    && MODEL_PROBE_ID !in plan.objects && MODEL_PROBE_ID in table
    && !any && table[MODEL_PROBE_ID].claim == Rendered(ModelMode)
  }

  function MaskOf(pair: Option<map<Id, Png>>, id: Id): Option<Png> {
    if pair.Some? && id in pair.value && pair.value[id] != [] then Some(pair.value[id]) else None
  }

  function WhyMissing(table: map<Id, Entry>, marked: set<Id>, id: Id): Reason {
    if id !in table then NoValidPair
    else if table[id].claim == Unrendered(EmptyRender) then EmptyImage
    else if id in marked then NothingSelected
    else NoMarkers
  }

  /** The one instance an object gets. */
  function InstanceFor(plan: Plan, table: map<Id, Entry>, pngs: map<Id, Png>, marked: set<Id>, any: bool,
                       id: Id): (x: Instance)
    requires Backed(table, pngs)
    ensures x.id == id
  {
    if id in plan.skipped then Instance(id, Skipped, Some(OverCap), None, [])
    else if id in table && table[id].claim == Rendered(ToolpathMode) then
      Instance(id, Toolpath, None, Some(pngs[id]), table[id].tools)
    else if ProbeStands(plan, table, any) then
      Instance(id, Model, None, Some(pngs[MODEL_PROBE_ID]), table[MODEL_PROBE_ID].tools)
    else
      var mask := MaskOf(plan.pair, id);
      if mask.Some? then Instance(id, TopMask, None, mask, [])
      else Instance(id, Missing, Some(WhyMissing(table, marked, id)), None, [])
  }

  ghost predicate ById(s: seq<Instance>) {
    forall i, j | 0 <= i < j < |s| :: s[i].id < s[j].id
  }

  function InstanceIds(s: seq<Instance>): set<Id> { set x | x in s :: x.id }

  lemma OneMoreInstance(s: seq<Instance>, x: Instance)
    ensures InstanceIds(s + [x]) == InstanceIds(s) + {x.id}
  {
  }

  lemma SnocById(s: seq<Instance>, x: Instance)
    requires ById(s) && forall y | y in s :: y.id < x.id
    ensures ById(s + [x])
  {
  }

  /** x where its id belongs. */
  function Insert(s: seq<Instance>, x: Instance): (r: seq<Instance>)
    requires ById(s) && forall y | y in s :: y.id != x.id
    ensures ById(r) && |r| == |s| + 1
    ensures forall y :: y in r <==> y in s || y == x
  {
    if s == [] || s[|s| - 1].id < x.id then
      assert forall i | 0 <= i < |s| :: s[i].id <= s[|s| - 1].id;
      s + [x]
    else
      var n := |s| - 1;
      assert s == s[..n] + [s[n]];
      var front := Insert(s[..n], x);
      SnocById(front, s[n]);
      front + [s[n]]
  }

  ghost predicate IdsDiffer(s: seq<Instance>) {
    forall i, j | 0 <= i < j < |s| :: s[i].id != s[j].id
  }

  /** Python's sorted by identify_id, of instances that differ in it. */
  function InIdOrder(s: seq<Instance>): (r: seq<Instance>)
    requires IdsDiffer(s)
    ensures ById(r) && |r| == |s|
    ensures forall y :: y in r <==> y in s
  {
    if s == [] then [] else
      var n := |s| - 1;
      assert s == s[..n] + [s[n]];
      Insert(InIdOrder(s[..n]), s[n])
  }

  function TableOf(manifest: Option<seq<Entry>>): map<Id, Entry> {
    if manifest.Some? then Table(manifest.value) else map[]
  }

  function AnyMarker(anyMarker: Option<bool>, marked: set<Id>): bool {
    if anyMarker.Some? then anyMarker.value else marked != {}
  }

  ghost predicate Assembled(plan: Plan, table: map<Id, Entry>, pngs: map<Id, Png>, marked: set<Id>, any: bool,
                            out: seq<Instance>)
    requires Backed(table, pngs)
  {
    forall x | x in out :: x == InstanceFor(plan, table, pngs, marked, any, x.id)
  }

  /** What holds of the instances made so far: one for each id of done. */
  ghost predicate Making(plan: Plan, table: map<Id, Entry>, pngs: map<Id, Png>, marked: set<Id>, any: bool,
                         out: seq<Instance>, done: set<Id>)
    requires Backed(table, pngs)
  {
    IdsDiffer(out) && InstanceIds(out) == done && Assembled(plan, table, pngs, marked, any, out)
  }

  lemma MakeOne(plan: Plan, table: map<Id, Entry>, pngs: map<Id, Png>, marked: set<Id>, any: bool,
                out: seq<Instance>, done: set<Id>, id: Id)
    requires Backed(table, pngs) && Making(plan, table, pngs, marked, any, out, done) && id !in done
    ensures Making(plan, table, pngs, marked, any, out + [InstanceFor(plan, table, pngs, marked, any, id)], done + {id})
  {
    hide InstanceFor;
    OneMoreInstance(out, InstanceFor(plan, table, pngs, marked, any, id));
    assert forall x | x in out :: x.id in InstanceIds(out);
  }

  lemma NextId(s: seq<Id>, i: nat)
    requires Increasing(s) && i < |s|
    ensures s[i] !in Elements(s[..i]) && s[i] in Elements(s)
    ensures Elements(s[..i + 1]) == Elements(s[..i]) + {s[i]}
    ensures Elements(s[..i]) <= Elements(s)
  {
    assert s[..i + 1] == s[..i] + [s[i]];
  }

  lemma NothingMade(plan: Plan, table: map<Id, Entry>, pngs: map<Id, Png>, marked: set<Id>, any: bool)
    requires Backed(table, pngs)
    ensures Making(plan, table, pngs, marked, any, [], {})
  {
  }

  method Assemble(plan: Plan, manifest: Option<seq<Entry>>, pngs: map<Id, Png>, marked: set<Id>,
                  anyMarker: Option<bool>)
    returns (out: seq<Instance>)
    requires Planned(plan) && Backed(TableOf(manifest), pngs)
    ensures ById(out) && InstanceIds(out) == plan.objects.Keys
    ensures Assembled(plan, TableOf(manifest), pngs, marked,
                      anyMarker == Some(true) || (anyMarker.None? && marked != {}), out)
  {
    hide Table, WhyMissing, MaskOf, Making, Increasing, Elements;
    var any := AnyMarker(anyMarker, marked);
    ghost var table := TableOf(manifest);
    var entries := TableOf(manifest);
    var probe: Option<Entry> := None;
    if MODEL_PROBE_ID !in plan.objects && MODEL_PROBE_ID in entries {
      probe := Some(entries[MODEL_PROBE_ID]);
      entries := entries - {MODEL_PROBE_ID};
    }
    NothingMade(plan, table, pngs, marked, any);
    NoElements();
    assert plan.skipped[..0] == [];
    out := [];
    var i := 0;
    while i < |plan.skipped|
      invariant 0 <= i <= |plan.skipped|
      invariant Making(plan, table, pngs, marked, any, out, Elements(plan.skipped[..i]))
    {
      NextId(plan.skipped, i);
      MakeOne(plan, table, pngs, marked, any, out, Elements(plan.skipped[..i]), plan.skipped[i]);
      out := out + [Instance(plan.skipped[i], Skipped, Some(OverCap), None, [])];
      i := i + 1;
    }
    assert plan.skipped[..i] == plan.skipped && plan.selected[..0] == [];
    assert Elements(plan.skipped) + Elements(plan.selected[..0]) == Elements(plan.skipped);
    i := 0;
    while i < |plan.selected|
      invariant 0 <= i <= |plan.selected|
      invariant Making(plan, table, pngs, marked, any, out, Elements(plan.skipped) + Elements(plan.selected[..i]))
    {
      var oid := plan.selected[i];
      NextId(plan.selected, i);
      assert oid !in plan.skipped && oid in plan.objects by { SelectedNotSkipped(plan, oid); }
      ghost var done := Elements(plan.skipped) + Elements(plan.selected[..i]);
      MakeOne(plan, table, pngs, marked, any, out, done, oid);
      assert done + {oid} == Elements(plan.skipped) + Elements(plan.selected[..i + 1]);
      assert (oid in entries) == (oid in table) && (oid in table ==> entries[oid] == table[oid]);
      var made: Instance;
      if oid in entries && entries[oid].claim == Rendered(ToolpathMode) {
        made := Instance(oid, Toolpath, None, Some(pngs[oid]), entries[oid].tools);
      } else if probe.Some? && !any && probe.value.claim == Rendered(ModelMode) {
        made := Instance(oid, Model, None, Some(pngs[MODEL_PROBE_ID]), probe.value.tools);
      } else {
        var reason := WhyMissing(entries, marked, oid);
        assert reason == WhyMissing(table, marked, oid) by { SameReason(entries, table, marked, oid); }
        var master := MaskOf(plan.pair, oid);
        made := if master.Some? then Instance(oid, TopMask, None, master, [])
                else Instance(oid, Missing, Some(reason), None, []);
      }
      out := out + [made];
      i := i + 1;
    }
    assert plan.selected[..i] == plan.selected;
    MadeAll(plan, table, pngs, marked, any, out);
    out := InIdOrder(out);
  }

  lemma NoElements()
    ensures Elements([]) == {}
  {
  }

  lemma SelectedNotSkipped(plan: Plan, id: Id)
    requires Planned(plan) && id in Elements(plan.selected)
    ensures id !in plan.skipped && id in plan.objects && id !in Elements(plan.skipped)
  {
    assert id !in Elements(plan.skipped);
    assert id in Elements(plan.selected) + Elements(plan.skipped);
  }

  lemma SameReason(entries: map<Id, Entry>, table: map<Id, Entry>, marked: set<Id>, id: Id)
    requires (id in entries) == (id in table) && (id in table ==> entries[id] == table[id])
    ensures WhyMissing(entries, marked, id) == WhyMissing(table, marked, id)
  {
  }

  lemma MadeAll(plan: Plan, table: map<Id, Entry>, pngs: map<Id, Png>, marked: set<Id>, any: bool, out: seq<Instance>)
    requires Planned(plan) && Backed(table, pngs)
    requires Making(plan, table, pngs, marked, any, out, Elements(plan.skipped) + Elements(plan.selected))
    ensures IdsDiffer(out) && InstanceIds(out) == plan.objects.Keys && Assembled(plan, table, pngs, marked, any, out)
  {
  }

  /** An answer that passed the check is backed, and on this plate it is the PNGs that say who was rendered. */
  lemma CheckedAnswer(plan: Plan, entries: seq<Entry>, pngs: map<Id, Png>, digest: Png -> int)
    requires Planned(plan) && Answers(entries, pngs, Wanted(JobFor(plan)), digest)
    ensures var table := Table(entries);
      && Backed(table, pngs)
      && table.Keys == Wanted(JobFor(plan)).Keys
      && (forall id | id in table :: table[id].claim != UnknownMethod)
      && (forall id | id in table :: id in pngs <==> table[id].claim.Rendered?)
      && (forall id | id in pngs :: id in table &&
            table[id].claim == Rendered(if id in plan.objects then ToolpathMode else ModelMode))
  {
    hide Wanted, JobFor;
    JobAsks(plan);
    TableHolds(entries);
    var table := Table(entries);
    forall id | id in table
      ensures Proper(table[id], pngs, Wanted(JobFor(plan)), digest) && table[id].id == id
    {
      assert table[id] in entries;
    }
    forall id | id in pngs
      ensures id in table
    {
      var e :| e in entries && e.id == id && e.claim.Rendered?;
    }
  }

  /** What the instances of a checked answer mean. An object has its own PNG exactly when Node rendered it; a model
      stands in exactly on a plate of one object past which no marker went, and then it is the probe's PNG. */
  lemma CheckedInstances(plan: Plan, entries: seq<Entry>, pngs: map<Id, Png>, digest: Png -> int, marked: set<Id>,
                         any: bool, id: Id)
    requires Planned(plan) && Answers(entries, pngs, Wanted(JobFor(plan)), digest) && id in plan.objects
    ensures Backed(Table(entries), pngs)
    ensures var x := InstanceFor(plan, Table(entries), pngs, marked, any, id);
      && (x.how.Skipped? <==> id in plan.skipped)
      && (x.how.Toolpath? <==> id in pngs)
      && (id in pngs ==> x.master == Some(pngs[id]))
      && (id in pngs ==> forall e | e in entries && e.id == id :: x.tools == e.tools)
      && (x.how.Model? <==>
            && id !in plan.skipped && id !in pngs && MODEL_PROBE_ID in pngs && !any
            && plan.modelBox && |plan.objects| == 1 && MODEL_PROBE_ID !in plan.objects)
      && (x.how.Model? ==> plan.objects.Keys == {id} && x.master == Some(pngs[MODEL_PROBE_ID]))
      && (x.how.Model? ==> forall e | e in entries && e.id == MODEL_PROBE_ID :: x.tools == e.tools)
      && (x.how.TopMask? ==> x.master == Some(plan.pair.value[id]))
      && (x.how.TopMask? <==>
            && !x.how.Skipped? && !x.how.Toolpath? && !x.how.Model?
            && plan.pair.Some? && id in plan.pair.value && plan.pair.value[id] != [])
      && (x.how.TopMask? || x.how.Skipped? || x.how.Missing? ==> x.tools == [])
      && (x.reason.Some? <==> x.how.Skipped? || x.how.Missing?)
      && (x.master.None? <==> x.how.Skipped? || x.how.Missing?)
      && (x.how.Skipped? <==> x.reason == Some(OverCap))
      && (x.how.Missing? ==>
            var empty := exists e :: e in entries && e.id == id && e.claim == Unrendered(EmptyRender);
            && (x.reason == Some(EmptyImage) <==> empty)
            && (x.reason == Some(NothingSelected) <==> !empty && id in marked)
            && (x.reason == Some(NoMarkers) <==> !empty && id !in marked))
  {
    hide Table, Wanted, JobFor, Answers;
    CheckedAnswer(plan, entries, pngs, digest);
    JobAsks(plan);
    SelectedOrSkipped(plan, id);
    if Probes(plan) { OnlyOne(plan.objects.Keys, id); }
    AnswersDiffer(entries, pngs, Wanted(JobFor(plan)), digest);
    TableHolds(entries);
  }

  lemma AnswersDiffer(entries: seq<Entry>, pngs: map<Id, Png>, wanted: map<Id, Mode>, digest: Png -> int)
    requires Answers(entries, pngs, wanted, digest)
    ensures forall i, j | 0 <= i < j < |entries| :: entries[i].id != entries[j].id
  {
  }

  lemma SelectedOrSkipped(plan: Plan, id: Id)
    requires Planned(plan) && id in plan.objects
    ensures id in plan.selected <==> id !in plan.skipped
  {
    assert id in Elements(plan.selected) + Elements(plan.skipped);
    if id in plan.selected { SelectedNotSkipped(plan, id); }
  }

  lemma OnlyOne(s: set<Id>, x: Id)
    requires |s| == 1 && x in s
    ensures s == {x}
  {
    SubsetSize({x}, s);
  }

  /** One plate from its objects to its instances; Node's answer is absent when Node did not run to its end. */
  method RenderPlate(objects: map<Id, Name>, cap: nat, modelBox: bool, pair: Option<map<Id, Png>>,
                     answer: Option<(seq<Entry>, map<Id, Png>)>, digest: Png -> int, marked: set<Id>, any: bool)
    returns (out: Option<seq<Instance>>, ghost plan: Plan)
    ensures Planned(plan) && plan.objects == objects && WellChosen(objects, cap, Elements(plan.selected))
    ensures out.None? <==> answer.Some? && !Answers(answer.value.0, answer.value.1, Wanted(JobFor(plan)), digest)
    ensures out.Some? ==> ById(out.value) && InstanceIds(out.value) == objects.Keys
    ensures out.Some? ==> forall x | x in out.value :: x.how.Skipped? <==> x.id !in Elements(plan.selected)
    ensures out.Some? ==> forall x | x in out.value ::
      && (x.how.Toolpath? <==> answer.Some? && x.id in answer.value.1)
      && (x.how.Toolpath? ==> x.master == Some(answer.value.1[x.id]))
      && (x.how.Model? ==> |objects| == 1 && modelBox && !any && answer.Some? && MODEL_PROBE_ID in answer.value.1)
      && (x.reason == Some(NoValidPair) ==> answer.None?)
  {
    hide WellChosen, Partition, InstanceFor, Answers, Wanted, JobFor, Table;
    var selected, skipped := SelectInstances(objects, cap);
    var made := Plan(objects, selected, skipped, pair, modelBox);
    plan := made;
    var manifest: Option<seq<Entry>> := None;
    var pngs: map<Id, Png> := map[];
    if answer.Some? {
      var ok := CheckManifest(answer.value.0, answer.value.1, JobFor(made), digest);
      if !ok { return None, plan; }
      manifest, pngs := Some(answer.value.0), answer.value.1;
      CheckedAnswer(made, manifest.value, pngs, digest);
    }
    var instances := Assemble(made, manifest, pngs, marked, Some(any));
    forall x | x in instances
      ensures x.id in objects && (x.how.Skipped? <==> x.id !in Elements(selected))
      ensures x.how.Toolpath? <==> x.id in pngs
      ensures x.how.Toolpath? ==> x.master == Some(pngs[x.id])
      ensures x.how.Model? ==> |objects| == 1 && modelBox && !any && MODEL_PROBE_ID in pngs
      ensures x.reason == Some(NoValidPair) ==> answer.None?
    {
      assert x.id in InstanceIds(instances);
      SelectedOrSkipped(made, x.id);
      if answer.Some? {
        CheckedInstances(made, manifest.value, pngs, digest, marked, any, x.id);
      } else {
        WithoutNode(made, marked, any, x.id);
      }
    }
    out := Some(instances);
  }

  lemma WithoutNode(plan: Plan, marked: set<Id>, any: bool, id: Id)
    requires Planned(plan) && id in plan.objects
    ensures var x := InstanceFor(plan, map[], map[], marked, any, id);
      && (x.how.Skipped? <==> id in plan.skipped)
      && (id in plan.skipped ==> x == Instance(id, Skipped, Some(OverCap), None, []))
      && (id !in plan.skipped ==>
            x == if plan.pair.Some? && id in plan.pair.value && plan.pair.value[id] != [] then
                   Instance(id, TopMask, None, Some(plan.pair.value[id]), [])
                 else Instance(id, Missing, Some(NoValidPair), None, []))
  {
  }
}

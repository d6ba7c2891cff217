/** Retirement, build records, batches and release imports on the volume. */
module PublisherBatch {
  import opened Common
  import opened Publication
  import opened PublicationTheorems
  import opened PublicationBatch
  import opened FileSystem
  import opened Publisher

  // ----- Retirement -----

  /** `x` is `v` without some files of version `k`. */
  predicate Dropping(v: View, k: Key, x: View) {
    && (forall p | p in x :: p in v && x[p] == v[p])
    && (forall p | p in v && p !in x :: p.InVersion? && p.key == k)
  }

  /** Every view met since is `v` without some files of version `k`. */
  ghost predicate Dropped(before: seq<View>, after: seq<View>, v: View, k: Key) {
    before <= after && forall i | |before| <= i < |after| :: Dropping(v, k, after[i])
  }

  /** `rmtree` of a version, file by file. */
  method RemoveVersion(vol: Volume, k: Key)
    requires vol.Valid()
    modifies vol`names, vol`trace
    ensures vol.Valid() && Dropping(old(vol.Seen()), k, vol.Seen()) && !Occupied(vol.Seen(), k)
    ensures Dropped(old(vol.trace), vol.trace, old(vol.Seen()), k) && SameHidden(old(vol.names), vol.names)
  {
    ghost var v := vol.Seen();
    var todo := set p | p in vol.names && p.InVersion? && p.key == k;
    while todo != {}
      invariant vol.Valid() && Dropping(v, k, vol.Seen()) && Dropped(old(vol.trace), vol.trace, v, k)
      invariant SameHidden(old(vol.names), vol.names)
      invariant todo == set p | p in vol.names && p.InVersion? && p.key == k
      decreases |todo|
    {
      var p :| p in todo;
      vol.Unlink(p);
      todo := todo - {p};
    }
    assert forall p | p in vol.names && p.InVersion? && p.key == k :: p in todo;
  }

  /** What is left to retire among `todo` has not been touched; the rest is as a finished retirement leaves it. */
  ghost predicate Retiring(v: View, w: Sweep, todo: set<Key>, x: View) {
    && Sweeping(v, w, x)
    && (forall k {:trigger Retires(v, w, k)} | Retires(v, w, k) && k !in todo :: !Occupied(x, k))
    && (forall k {:trigger SameVersion(v, x, k)} | k in todo :: SameVersion(v, x, k))
  }

  lemma RetiringEnds(v: View, w: Sweep, x: View)
    requires Retiring(v, w, {}, x)
    ensures x == RetireView(v, w)
  {
    forall p: Path ensures p in x <==> p in RetireView(v, w) {
      if p in v && Swept(v, w, p) {
        assert Retires(v, w, p.key);
        assert p in x ==> Occupied(x, p.key);
      }
    }
  }

  lemma RetiringStep(v: View, w: Sweep, todo: set<Key>, s: View, k: Key, x: View)
    requires Retiring(v, w, todo, s) && k in todo
    requires if Retires(v, w, k) then Dropping(s, k, x) && !Occupied(x, k) else x == s
    ensures Retiring(v, w, todo - {k}, x)
  {
    forall h {:trigger SameVersion(v, x, h)} | h in todo - {k} ensures SameVersion(v, x, h) {
      assert SameVersion(v, s, h);
    }
  }

  /** The kept names collected for the versions looked at so far. */
  ghost predicate Keeping(v: View, w: Sweep, versions: set<Key>, todo: set<Key>, retained: set<string>) {
    retained == set k | k in versions && k !in todo && KeptName(v, w, k) :: k.revision
  }

  predicate KeptName(v: View, w: Sweep, k: Key) {
    MetaAt(v, k).Some? && Owned(MetaAt(v, k).value, w) && k.revision in w.keep
  }

  lemma KeepingStep(v: View, w: Sweep, versions: set<Key>, todo: set<Key>, retained: set<string>, k: Key)
    requires Keeping(v, w, versions, todo, retained) && k in todo && todo <= versions
    ensures Keeping(v, w, versions, todo - {k}, if KeptName(v, w, k) then retained + {k.revision} else retained)
  {
    var now := if KeptName(v, w, k) then retained + {k.revision} else retained;
    forall name ensures name in now <==> exists h :: h in versions && h !in todo - {k} && KeptName(v, w, h) && h.revision == name {
      if name in retained {
        var h :| h in versions && h !in todo && KeptName(v, w, h) && h.revision == name;
        assert h !in todo - {k};
      } else if name in now {
        assert k in versions && k !in todo - {k} && KeptName(v, w, k);
      }
    }
  }

  /** Every view met since belongs to the retirement of `v`. */
  ghost predicate SweptSince(before: seq<View>, after: seq<View>, v: View, w: Sweep) {
    before <= after && forall i | |before| <= i < |after| :: Sweeping(v, w, after[i])
  }

  /** The versions of a component that have a manifest. */
  method ListVersions(vol: Volume, component: string) returns (versions: set<Key>)
    requires vol.Valid()
    ensures forall k | k in versions :: k.component == component && InVersion(k, MANIFEST) in vol.Seen()
    ensures forall p | p in vol.Seen() && p.InVersion? && p.rel == MANIFEST && p.key.component == component :: p.key in versions
  {
    versions := set p | p in vol.names && p.InVersion? && p.rel == MANIFEST && p.key.component == component :: p.key;
  }

  /** One version of the loop: kept, removed, or somebody else's. */
  method RetireVersion(vol: Volume, w: Sweep, k: Key, ghost v: View, ghost todo: set<Key>) returns (kept: bool)
    requires vol.Valid() && Readable(v) && Retiring(v, w, todo, vol.Seen()) && k in todo
    requires k.component == w.component && InVersion(k, MANIFEST) in v
    modifies vol`names, vol`trace
    ensures vol.Valid() && Retiring(v, w, todo - {k}, vol.Seen()) && kept == KeptName(v, w, k)
    ensures SweptSince(old(vol.trace), vol.trace, v, w) && SameHidden(old(vol.names), vol.names)
  {
    ghost var s := vol.Seen();
    assert SameVersion(v, s, k);
    var owned := ReadOwner(vol, k, w, v);
    kept := owned && k.revision in w.keep;
    if owned && !kept {
      RemoveVersion(vol, k);
    }
    RetiringStep(v, w, todo, s, k, vol.Seen());
  }

  lemma SweptSinceTrans(before: seq<View>, middle: seq<View>, after: seq<View>, v: View, w: Sweep)
    requires SweptSince(before, middle, v, w) && SweptSince(middle, after, v, w)
    ensures SweptSince(before, after, v, w)
  {
    forall i | |before| <= i < |after| ensures Sweeping(v, w, after[i]) {
      if i < |middle| { assert after[i] == middle[i]; }
    }
  }

  /** `retire`: what it removes, what it reports, and everything seen meanwhile. */
  method Retire(vol: Volume, w: Sweep) returns (retained: set<string>)
    requires vol.Valid() && Readable(vol.Seen())
    modifies vol`names, vol`trace
    ensures vol.Valid() && vol.Seen() == RetireView(old(vol.Seen()), w)
    ensures retained == Retained(old(vol.Seen()), w)
    ensures SweptSince(old(vol.trace), vol.trace, old(vol.Seen()), w) && SameHidden(old(vol.names), vol.names)
  {
    ghost var v := vol.Seen();
    var versions := ListVersions(vol, w.component);
    var todo := versions;
    retained := {};
    while todo != {}
      invariant todo <= versions && vol.Valid() && Retiring(v, w, todo, vol.Seen()) && Keeping(v, w, versions, todo, retained)
      invariant SweptSince(old(vol.trace), vol.trace, v, w) && SameHidden(old(vol.names), vol.names)
      decreases |todo|
    {
      var k :| k in todo;
      ghost var met := vol.trace;
      var kept := RetireVersion(vol, w, k, v, todo);
      SweptSinceTrans(old(vol.trace), met, vol.trace, v, w);
      KeepingStep(v, w, versions, todo, retained, k);
      if kept { retained := retained + {k.revision}; }
      todo := todo - {k};
    }
    RetiringEnds(v, w, vol.Seen());
  }

  /** The ownership recorded in a version's manifest. */
  method ReadOwner(vol: Volume, k: Key, w: Sweep, ghost v: View) returns (owned: bool)
    requires vol.Valid() && Readable(v) && InVersion(k, MANIFEST) in v && SameVersion(v, vol.Seen(), k)
    ensures MetaAt(v, k).Some? && owned == Owned(MetaAt(v, k).value, w)
  {
    var p := InVersion(k, MANIFEST);
    assert p in vol.Seen();
    owned := Owned(vol.Content(p).content.meta, w);
  }

  // ----- Build records -----

  /** `publish_build`: checked against the published versions, then committed by one rename. */
  method RecordBuild(vol: Volume, b: Build, binding: string) returns (r: Result<string>)
    requires vol.Valid()
    modifies vol
    ensures vol.Valid() && (r, vol.Seen()) == RecordView(old(vol.Seen()), b)
    ensures SameHidden(old(vol.names), vol.names) || Cleared(old(vol.names), vol.names, "builds", "." + binding + ".staging-")
    ensures vol.trace == old(vol.trace) || vol.trace == old(vol.trace) + [vol.Seen()]
  {
    ghost var v := vol.Seen();
    assert vol.IsFile(InBuild(b.id, "build.json")) <==> InBuild(b.id, "build.json") in v;
    if vol.IsFile(InBuild(b.id, "build.json")) { return Ok(b.id); }
    var todo := b.applications.Keys;
    while todo != {}
      invariant todo <= b.applications.Keys
      invariant forall c | c in b.applications && c !in todo :: HasManifest(v, Key(c, b.applications[c]))
      decreases |todo|
    {
      var c :| c in todo;
      var p := InVersion(Key(c, b.applications[c]), MANIFEST);
      assert vol.IsFile(p) <==> p in v;
      if !vol.IsFile(p) { return Err(NoApplication); }
      todo := todo - {c};
    }
    r := CommitBuild(vol, b, binding);
  }

  method CommitBuild(vol: Volume, b: Build, binding: string) returns (r: Result<string>)
    requires vol.Valid()
    modifies vol
    ensures vol.Valid() && Cleared(old(vol.names), vol.names, "builds", "." + binding + ".staging-")
    ensures r == if exists p | p in old(vol.Seen()) :: p.InBuild? && p.build == b.id then Err(NotEmpty) else Ok(b.id)
    ensures vol.Seen() == if r.Err? then old(vol.Seen()) else
              old(vol.Seen())[InBuild(b.id, "inputs.tar.gz") := File(b.archive, READ_ONLY)]
                             [InBuild(b.id, "build.json") := File(BuildRecord(b.applications, b.details, b.url), READ_ONLY)]
    ensures vol.trace == old(vol.trace) || vol.trace == old(vol.trace) + [vol.Seen()]
  {
    vol.ClearTemporary("builds", "." + binding + ".staging-");
    var temp := vol.FreshName("." + binding + ".staging-");
    ghost var names := vol.names;
    vol.CopyFile(b.archive, READ_ONLY, Pending("builds", temp, "inputs.tar.gz"));
    vol.CopyFile(BuildRecord(b.applications, b.details, b.url), READ_ONLY, Pending("builds", temp, "build.json"));
    var ok := vol.MoveBuild("builds", temp, b.id);
    r := if ok then Ok(b.id) else Err(NotEmpty);
    HiddenCleared(names, vol.names, "builds", temp);
    vol.ClearTemporary("builds", temp);
  }

  // ----- Batches -----

  /** What the publisher relies on when it reads a volume it alone writes. */
  predicate Usable(v: View) {
    Readable(v) && NormalModes(v)
  }

  function Versions(v: View): set<Key> {
    set p | p in v && p.InVersion? :: p.key
  }

  lemma StepKeepsUsable(v: View, e: Event)
    requires Usable(v) && EventOk(e)
    ensures Usable(Next(v, e))
  {
    StepKeepsSound(v, e, Versions(v));
  }

  /** One application of a batch: publish, then retire what is no longer kept. */
  method ApplyJob(vol: Volume, j: Job, binding: string, keep: Option<set<string>>) returns (r: Result<Key>)
    requires vol.Valid() && JobOk(j) && Usable(vol.Seen())
    modifies vol
    ensures vol.Valid() && Usable(vol.Seen())
    ensures r == PublishView(old(vol.Seen()), j).0
    ensures var x := PublishView(old(vol.Seen()), j).1;
            vol.Seen() == if r.Ok? then RetireAfter(x, j, binding, keep, r.value) else x
    ensures old(vol.trace) <= vol.trace
    ensures forall i | |old(vol.trace)| <= i < |vol.trace| :: DuringJob(old(vol.Seen()), j, binding, keep, vol.trace[i])
  {
    ghost var v := vol.Seen();
    r := Publisher.Publish(vol, j);
    StepKeepsUsable(v, Event.Publish(j));
    ghost var x := vol.Seen();
    if r.Ok? && keep.Some? {
      var w := SweepFor(j, binding, keep.value, r.value);
      var retained := Retire(vol, w);
      StepKeepsUsable(x, Event.Retire(w));
    }
  }

  /** Everything seen while one application is handled. */
  predicate DuringJob(v: View, j: Job, binding: string, keep: Option<set<string>>, x: View) {
    var (r, y) := PublishView(v, j);
    Stage(v, j, x) || (r.Ok? && keep.Some? && Sweeping(y, SweepFor(j, binding, keep.value, r.value), x))
  }

  /** After `i` applications the loop from view `s` is the rest of the loop from view `v`. */
  predicate Going(v: View, b: Batch, i: nat, revisions: map<string, string>, s: View) {
    && i <= |b.jobs|
    && var (rest, end) := ApplyJobs(s, b.jobs[i..], b.binding, b.keep);
       ApplyJobs(v, b.jobs, b.binding, b.keep) == (if rest.Err? then rest else Ok(revisions + rest.value), end)
  }

  /** Whatever is met in the rest of the loop from `s` is met in the loop from `v`. */
  ghost predicate Within(v: View, b: Batch, i: nat, s: View) {
    && i <= |b.jobs|
    && forall y {:trigger DuringJobs(s, b.jobs[i..], b.binding, b.keep, y)} ::
         DuringJobs(s, b.jobs[i..], b.binding, b.keep, y) ==> DuringJobs(v, b.jobs, b.binding, b.keep, y)
  }

  lemma GoingStarts(v: View, b: Batch)
    ensures Going(v, b, 0, map[], v) && Within(v, b, 0, v)
  {
    assert b.jobs[0..] == b.jobs;
    var r := ApplyJobs(v, b.jobs, b.binding, b.keep).0;
    assert r.Ok? ==> map[] + r.value == r.value;
  }

  lemma GoingEnds(v: View, b: Batch, revisions: map<string, string>, s: View)
    requires Going(v, b, |b.jobs|, revisions, s)
    ensures ApplyJobs(v, b.jobs, b.binding, b.keep) == (Ok(revisions), s)
  {
    assert b.jobs[|b.jobs|..] == [] && revisions + map[] == revisions;
  }

  lemma AddFirst(revisions: map<string, string>, name: string, revision: string, rest: map<string, string>)
    ensures revisions + (map[name := revision] + rest) == revisions[name := revision] + rest
  {
  }

  /** One turn of the loop, whether it succeeds or fails. */
  lemma GoingStep(v: View, b: Batch, i: nat, revisions: map<string, string>, s: View, r: Result<Key>, x: View)
    requires Going(v, b, i, revisions, s) && i < |b.jobs| && (r, x) == PublishView(s, b.jobs[i])
    ensures r.Ok? ==> Going(v, b, i + 1, revisions[b.jobs[i].dest.component := r.value.revision],
                            RetireAfter(x, b.jobs[i], b.binding, b.keep, r.value))
    ensures r.Err? ==> ApplyJobs(v, b.jobs, b.binding, b.keep) == (Err(r.error), x)
  {
    var jobs := b.jobs[i..];
    assert jobs[0] == b.jobs[i] && jobs[1..] == b.jobs[i + 1..];
    if r.Ok? {
      var rest := ApplyJobs(RetireAfter(x, b.jobs[i], b.binding, b.keep, r.value), jobs[1..], b.binding, b.keep).0;
      if rest.Ok? { AddFirst(revisions, b.jobs[i].dest.component, r.value.revision, rest.value); }
    }
  }

  lemma DuringUnfolds(s: View, jobs: seq<Job>, binding: string, keep: Option<set<string>>, y: View)
    requires jobs != []
    ensures DuringJob(s, jobs[0], binding, keep, y) ==> DuringJobs(s, jobs, binding, keep, y)
    ensures var (r, x) := PublishView(s, jobs[0]);
            r.Ok? && DuringJobs(RetireAfter(x, jobs[0], binding, keep, r.value), jobs[1..], binding, keep, y) ==>
              DuringJobs(s, jobs, binding, keep, y)
  {
  }

  lemma WithinStep(v: View, b: Batch, i: nat, s: View, j: Job, r: Result<Key>, x: View)
    requires Within(v, b, i, s) && i < |b.jobs| && j == b.jobs[i] && (r, x) == PublishView(s, j)
    ensures r.Ok? ==> Within(v, b, i + 1, RetireAfter(x, j, b.binding, b.keep, r.value))
    ensures forall y {:trigger DuringJob(s, j, b.binding, b.keep, y)} ::
              DuringJob(s, j, b.binding, b.keep, y) ==> DuringJobs(v, b.jobs, b.binding, b.keep, y)
  {
    var jobs := b.jobs[i..];
    assert jobs[0] == j && jobs[1..] == b.jobs[i + 1..];
    if r.Ok? {
      var next := RetireAfter(x, j, b.binding, b.keep, r.value);
      forall y | DuringJobs(next, b.jobs[i + 1..], b.binding, b.keep, y) ensures DuringJobs(v, b.jobs, b.binding, b.keep, y) {
        DuringUnfolds(s, jobs, b.binding, b.keep, y);
      }
    }
    forall y | DuringJob(s, j, b.binding, b.keep, y) ensures DuringJobs(v, b.jobs, b.binding, b.keep, y) {
      DuringUnfolds(s, jobs, b.binding, b.keep, y);
    }
  }

  ghost predicate BatchMet(before: seq<View>, after: seq<View>, v: View, b: Batch) {
    before <= after && forall i | |before| <= i < |after| :: DuringBatch(v, b, after[i])
  }

  lemma BatchMetStep(before: seq<View>, middle: seq<View>, after: seq<View>, v: View, b: Batch, s: View, j: Job)
    requires BatchMet(before, middle, v, b) && middle <= after
    requires forall i | |middle| <= i < |after| :: DuringJob(s, j, b.binding, b.keep, after[i])
    requires forall y {:trigger DuringJob(s, j, b.binding, b.keep, y)} ::
               DuringJob(s, j, b.binding, b.keep, y) ==> DuringJobs(v, b.jobs, b.binding, b.keep, y)
    ensures BatchMet(before, after, v, b)
  {
    forall i | |before| <= i < |after| ensures DuringBatch(v, b, after[i]) {
      if i < |middle| { assert after[i] == middle[i]; } else { assert DuringJob(s, j, b.binding, b.keep, after[i]); }
    }
  }

  /** The application loop of `publish_batch`. */
  method ApplyAll(vol: Volume, b: Batch) returns (r: Result<map<string, string>>)
    requires vol.Valid() && Usable(vol.Seen()) && forall i | 0 <= i < |b.jobs| :: JobOk(b.jobs[i])
    modifies vol
    ensures vol.Valid() && (r, vol.Seen()) == ApplyJobs(old(vol.Seen()), b.jobs, b.binding, b.keep)
    ensures BatchMet(old(vol.trace), vol.trace, old(vol.Seen()), b)
  {
    ghost var v := vol.Seen();
    var revisions: map<string, string> := map[];
    GoingStarts(v, b);
    r := Ok(revisions);
    var i := 0;
    while r.Ok? && i < |b.jobs|
      invariant i <= |b.jobs| && vol.Valid() && Usable(vol.Seen()) && BatchMet(old(vol.trace), vol.trace, v, b)
      invariant if r.Ok? then r.value == revisions && Going(v, b, i, revisions, vol.Seen()) && Within(v, b, i, vol.Seen())
                else (r, vol.Seen()) == ApplyJobs(v, b.jobs, b.binding, b.keep)
      decreases |b.jobs| - i, if r.Ok? then 1 else 0
    {
      ghost var s, met := vol.Seen(), vol.trace;
      ghost var (published, x) := PublishView(s, b.jobs[i]);
      GoingStep(v, b, i, revisions, s, published, x);
      WithinStep(v, b, i, s, b.jobs[i], published, x);
      var done := ApplyJob(vol, b.jobs[i], b.binding, b.keep);
      BatchMetStep(old(vol.trace), met, vol.trace, v, b, s, b.jobs[i]);
      if done.Err? {
        r := Err(done.error);
      } else {
        revisions := revisions[b.jobs[i].dest.component := done.value.revision];
        r := Ok(revisions);
        i := i + 1;
      }
    }
    if r.Ok? { GoingEnds(v, b, revisions, vol.Seen()); }
  }

  /** `publish_batch`: revisions, final view, and every view a reader meets on the way. */
  method PublishBatch(vol: Volume, b: Batch) returns (r: Result<map<string, string>>)
    requires vol.Valid() && Usable(vol.Seen()) && forall i | 0 <= i < |b.jobs| :: JobOk(b.jobs[i])
    modifies vol
    ensures vol.Valid() && (r, vol.Seen()) == BatchView(old(vol.Seen()), b)
    ensures BatchMet(old(vol.trace), vol.trace, old(vol.Seen()), b)
  {
    r := ApplyAll(vol, b);
    if r.Ok? && b.record.Some? {
      var recorded := RecordBuild(vol, b.record.value.(applications := r.value), b.binding);
      if recorded.Err? { r := Err(recorded.error); }
    }
  }

  lemma {:induction false} LoopViewsAreUsable(v: View, jobs: seq<Job>, binding: string, keep: Option<set<string>>, x: View)
    requires Usable(v) && (forall i | 0 <= i < |jobs| :: JobOk(jobs[i])) && DuringJobs(v, jobs, binding, keep, x)
    ensures Usable(x)
    decreases |jobs|
  {
    if jobs != [] {
      var (r, y) := PublishView(v, jobs[0]);
      StepKeepsUsable(v, Event.Publish(jobs[0]));
      if Stage(v, jobs[0], x) {
        StepKeepsUsable(v, PublishDies(jobs[0], x));
      } else {
        var w := SweepFor(jobs[0], binding, if keep.Some? then keep.value else {}, r.value);
        if keep.Some? && Sweeping(y, w, x) {
          StepKeepsUsable(y, RetireDies(w, x));
        } else {
          if keep.Some? { StepKeepsUsable(y, Event.Retire(w)); }
          LoopViewsAreUsable(RetireAfter(y, jobs[0], binding, keep, r.value), jobs[1..], binding, keep, x);
        }
      }
    }
  }

  /** A batch can be run again on whatever view it leaves behind. */
  lemma CrashViewsAreUsable(v: View, b: Batch, x: View)
    requires Usable(v) && (forall i | 0 <= i < |b.jobs| :: JobOk(b.jobs[i])) && DuringBatch(v, b, x)
    ensures Usable(x)
  {
    if DuringJobs(v, b.jobs, b.binding, b.keep, x) {
      LoopViewsAreUsable(v, b.jobs, b.binding, b.keep, x);
    } else {
      var (r, y) := ApplyJobs(v, b.jobs, b.binding, b.keep);
      ApplyIsDuring(v, b.jobs, b.binding, b.keep);
      LoopViewsAreUsable(v, b.jobs, b.binding, b.keep, y);
      if r.Ok? && b.record.Some? { StepKeepsUsable(y, Record(b.record.value.(applications := r.value))); }
    }
  }

  // ----- Release import -----

  const COMPONENTS: seq<string> := ["control-plane", "frontend", "model-server"]

  /** One release to import: the downloaded payload and the retained versions read under the release Job. */
  datatype Release = Release(payload: map<string, Export>, revision: string, binding: string, previous: map<string, string>,
                             keep: Option<set<string>>)

  function ReleaseJob(rel: Release, c: string): Job {
    Job(if c in rel.payload then rel.payload[c] else Missing, Key(c, rel.revision), rel.binding,
        if c in rel.previous then Some(rel.previous[c]) else None, true, false, None, None, None, None, None, None, "")
  }

  function ReleaseSweep(rel: Release, c: string, keep: set<string>): Sweep {
    Sweep(c, rel.binding, keep + {rel.revision}, true)
  }

  /** The import as a run: publish every component, which does nothing for one already there, then retire. */
  function Imports(rel: Release, n: nat): seq<Event>
    requires n <= |COMPONENTS|
  {
    seq(n, i requires 0 <= i < n => Event.Publish(ReleaseJob(rel, COMPONENTS[i])))
  }

  function Sweeps(rel: Release, keep: set<string>, n: nat): seq<Event>
    requires n <= |COMPONENTS|
  {
    seq(n, i requires 0 <= i < n => Event.Retire(ReleaseSweep(rel, COMPONENTS[i], keep)))
  }

  lemma {:induction false} RunSnoc(v: View, events: seq<Event>, e: Event)
    ensures Run(v, events + [e]) == Next(Run(v, events), e)
    decreases |events|
  {
    if events == [] {
      assert (events + [e])[1..] == [];
    } else {
      assert (events + [e])[1..] == events[1..] + [e];
      RunSnoc(Next(v, events[0]), events[1..], e);
    }
  }

  lemma ImportsSnoc(v: View, rel: Release, i: nat)
    requires i < |COMPONENTS|
    ensures Run(v, Imports(rel, i + 1)) == Next(Run(v, Imports(rel, i)), Event.Publish(ReleaseJob(rel, COMPONENTS[i])))
  {
    var e := Event.Publish(ReleaseJob(rel, COMPONENTS[i]));
    RunSnoc(v, Imports(rel, i), e);
    assert Imports(rel, i + 1) == Imports(rel, i) + [e];
  }

  /** One component of a release: published if its revision is missing. */
  method ImportComponent(vol: Volume, j: Job) returns (ok: bool)
    requires vol.Valid() && Usable(vol.Seen()) && JobOk(j) && !j.reusePrevious
    modifies vol
    ensures vol.Valid() && Usable(vol.Seen()) && vol.Seen() == Next(old(vol.Seen()), Event.Publish(j))
    ensures ok ==> HasManifest(vol.Seen(), j.dest)
    ensures forall k :: HasManifest(old(vol.Seen()), k) ==> HasManifest(vol.Seen(), k)
    ensures old(vol.trace) <= vol.trace && (j.releaseOwned ==> SameHidden(old(vol.names), vol.names))
    ensures forall i | |old(vol.trace)| <= i < |vol.trace| :: Stage(old(vol.Seen()), j, vol.trace[i])
  {
    ghost var s := vol.Seen();
    ok := true;
    assert vol.IsFile(InVersion(j.dest, MANIFEST)) <==> InVersion(j.dest, MANIFEST) in s;
    if !vol.IsFile(InVersion(j.dest, MANIFEST)) {
      var done := Publisher.Publish(vol, j);
      ok := done.Ok?;
    }
    ImportStep(s, j, vol.Seen());
    StepKeepsUsable(s, Event.Publish(j));
  }

  /** A release publication never reuses: it builds its destination, and keeps every manifest there is. */
  lemma ImportStep(s: View, j: Job, x: View)
    requires !j.reusePrevious && x == PublishView(s, j).1
    ensures PublishView(s, j).0.Ok? ==> HasManifest(x, j.dest)
    ensures forall k :: HasManifest(s, k) ==> HasManifest(x, k)
  {
    forall k | HasManifest(s, k) ensures HasManifest(x, k) {
      assert InVersion(k, MANIFEST) in s;
      PublishFrame(s, j, x, k);
    }
  }

  /** The first `n` components of the release are imported. */
  predicate Imported(rel: Release, n: nat, s: View)
    requires n <= |COMPONENTS|
  {
    forall h | 0 <= h < n :: HasManifest(s, Key(COMPONENTS[h], rel.revision))
  }

  lemma ImportedStep(rel: Release, n: nat, s: View, x: View)
    requires n < |COMPONENTS| && Imported(rel, n, s) && HasManifest(x, ReleaseJob(rel, COMPONENTS[n]).dest)
    requires forall k :: HasManifest(s, k) ==> HasManifest(x, k)
    ensures Imported(rel, n + 1, x)
  {
  }

  /** A view met while component number `h` is published, or while its old versions are retired. */
  predicate DuringImport(v: View, rel: Release, h: nat, x: View)
    requires h < |COMPONENTS|
  {
    || Stage(Run(v, Imports(rel, h)), ReleaseJob(rel, COMPONENTS[h]), x)
    || (rel.keep.Some? && Sweeping(Run(Run(v, Imports(rel, |COMPONENTS|)), Sweeps(rel, rel.keep.value, h)),
                                   ReleaseSweep(rel, COMPONENTS[h], rel.keep.value), x))
  }

  predicate InImport(v: View, rel: Release, x: View) {
    exists h | 0 <= h < |COMPONENTS| :: DuringImport(v, rel, h, x)
  }

  /** Every view met since is one of the import's. */
  ghost predicate ImportMet(before: seq<View>, after: seq<View>, v: View, rel: Release) {
    before <= after && forall i | |before| <= i < |after| :: InImport(v, rel, after[i])
  }

  lemma ImportMetStep(before: seq<View>, middle: seq<View>, after: seq<View>, v: View, rel: Release, h: nat)
    requires ImportMet(before, middle, v, rel) && middle <= after && h < |COMPONENTS|
    requires forall i | |middle| <= i < |after| :: DuringImport(v, rel, h, after[i])
    ensures ImportMet(before, after, v, rel)
  {
    forall i | |before| <= i < |after| ensures InImport(v, rel, after[i]) {
      if i < |middle| { assert after[i] == middle[i]; } else { assert DuringImport(v, rel, h, after[i]); }
    }
  }

  lemma ImportMetSweep(before: seq<View>, middle: seq<View>, after: seq<View>, v: View, rel: Release, h: nat, s: View)
    requires ImportMet(before, middle, v, rel) && h < |COMPONENTS| && rel.keep.Some?
    requires s == Run(Run(v, Imports(rel, |COMPONENTS|)), Sweeps(rel, rel.keep.value, h))
    requires SweptSince(middle, after, s, ReleaseSweep(rel, COMPONENTS[h], rel.keep.value))
    ensures ImportMet(before, after, v, rel)
  {
    ImportMetStep(before, middle, after, v, rel, h);
  }

  /** An import can be run again on whatever view it leaves behind. */
  lemma ImportViewsAreUsable(v: View, rel: Release, x: View)
    requires Usable(v) && InImport(v, rel, x) && forall i | 0 <= i < |COMPONENTS| :: JobOk(ReleaseJob(rel, COMPONENTS[i]))
    ensures Usable(x)
  {
    var h :| 0 <= h < |COMPONENTS| && DuringImport(v, rel, h, x);
    var s := Run(v, Imports(rel, h));
    RunKeepsUsable(v, Imports(rel, h));
    if Stage(s, ReleaseJob(rel, COMPONENTS[h]), x) {
      StepKeepsUsable(s, PublishDies(ReleaseJob(rel, COMPONENTS[h]), x));
    } else {
      var y := Run(v, Imports(rel, |COMPONENTS|));
      RunKeepsUsable(v, Imports(rel, |COMPONENTS|));
      RunKeepsUsable(y, Sweeps(rel, rel.keep.value, h));
      StepKeepsUsable(Run(y, Sweeps(rel, rel.keep.value, h)), RetireDies(ReleaseSweep(rel, COMPONENTS[h], rel.keep.value), x));
    }
  }

  lemma {:induction false} RunKeepsUsable(v: View, events: seq<Event>)
    requires Usable(v) && forall i | 0 <= i < |events| :: EventOk(events[i])
    ensures Usable(Run(v, events))
    decreases |events|
  {
    if events != [] {
      StepKeepsUsable(v, events[0]);
      RunKeepsUsable(Next(v, events[0]), events[1..]);
    }
  }

  /** Every component of the release, until one fails. */
  method ImportComponents(vol: Volume, rel: Release) returns (ok: bool, n: nat)
    requires vol.Valid() && Usable(vol.Seen()) && forall i | 0 <= i < |COMPONENTS| :: JobOk(ReleaseJob(rel, COMPONENTS[i]))
    modifies vol
    ensures vol.Valid() && Usable(vol.Seen()) && n <= |COMPONENTS| && vol.Seen() == Run(old(vol.Seen()), Imports(rel, n))
    ensures ok ==> n == |COMPONENTS| && Imported(rel, n, vol.Seen())
    ensures ImportMet(old(vol.trace), vol.trace, old(vol.Seen()), rel) && SameHidden(old(vol.names), vol.names)
  {
    ghost var v := vol.Seen();
    ok, n := true, 0;
    while ok && n < |COMPONENTS|
      invariant n <= |COMPONENTS| && vol.Valid() && Usable(vol.Seen()) && vol.Seen() == Run(v, Imports(rel, n))
      invariant ok ==> Imported(rel, n, vol.Seen())
      invariant ImportMet(old(vol.trace), vol.trace, v, rel) && SameHidden(old(vol.names), vol.names)
    {
      ghost var s, met := vol.Seen(), vol.trace;
      ImportsSnoc(v, rel, n);
      ok := ImportComponent(vol, ReleaseJob(rel, COMPONENTS[n]));
      ImportMetStep(old(vol.trace), met, vol.trace, v, rel, n);
      if ok { ImportedStep(rel, n, s, vol.Seen()); }
      n := n + 1;
    }
  }

  lemma SweepsSnoc(v: View, rel: Release, keep: set<string>, i: nat)
    requires i < |COMPONENTS|
    ensures Run(v, Sweeps(rel, keep, i + 1)) == RetireView(Run(v, Sweeps(rel, keep, i)), ReleaseSweep(rel, COMPONENTS[i], keep))
  {
    var e := Event.Retire(ReleaseSweep(rel, COMPONENTS[i], keep));
    RunSnoc(v, Sweeps(rel, keep, i), e);
    assert Sweeps(rel, keep, i + 1) == Sweeps(rel, keep, i) + [e];
  }

  /** One component's turn of the retirement. */
  method RetireRelease(vol: Volume, rel: Release, i: nat, ghost u: View, ghost before: seq<View>)
    requires vol.Valid() && Usable(vol.Seen()) && i < |COMPONENTS| && rel.keep.Some? && ImportMet(before, vol.trace, u, rel)
    requires vol.Seen() == Run(Run(u, Imports(rel, |COMPONENTS|)), Sweeps(rel, rel.keep.value, i))
    modifies vol`names, vol`trace
    ensures vol.Valid() && Usable(vol.Seen()) && ImportMet(before, vol.trace, u, rel)
    ensures vol.Seen() == RetireView(old(vol.Seen()), ReleaseSweep(rel, COMPONENTS[i], rel.keep.value))
    ensures SameHidden(old(vol.names), vol.names)
  {
    ghost var s, met := vol.Seen(), vol.trace;
    var w := ReleaseSweep(rel, COMPONENTS[i], rel.keep.value);
    StepKeepsUsable(s, Event.Retire(w));
    var retained := Retire(vol, w);
    ImportMetSweep(before, met, vol.trace, u, rel, i, s);
  }

  /** Retirement after an import: release-owned versions that are neither retained nor the new revision. */
  method RetireReleases(vol: Volume, rel: Release, ghost u: View)
    requires vol.Valid() && Usable(vol.Seen()) && rel.keep.Some? && vol.Seen() == Run(u, Imports(rel, |COMPONENTS|))
    modifies vol`names, vol`trace
    ensures vol.Valid() && Usable(vol.Seen()) && vol.Seen() == Run(old(vol.Seen()), Sweeps(rel, rel.keep.value, |COMPONENTS|))
    ensures ImportMet(old(vol.trace), vol.trace, u, rel) && SameHidden(old(vol.names), vol.names)
  {
    ghost var v := vol.Seen();
    var i := 0;
    while i < |COMPONENTS|
      invariant i <= |COMPONENTS| && vol.Valid() && Usable(vol.Seen())
      invariant vol.Seen() == Run(v, Sweeps(rel, rel.keep.value, i)) && ImportMet(old(vol.trace), vol.trace, u, rel)
      invariant SameHidden(old(vol.names), vol.names)
    {
      SweepsSnoc(v, rel, rel.keep.value, i);
      RetireRelease(vol, rel, i, u, old(vol.trace));
      i := i + 1;
    }
  }

  /** The new revision and every retained one are spared. */
  lemma {:induction false} SweepsSpare(v: View, rel: Release, keep: set<string>, n: nat, k: Key)
    requires n <= |COMPONENTS| && Occupied(v, k) && (k.revision in keep || k.revision == rel.revision)
    ensures SameVersion(v, Run(v, Sweeps(rel, keep, n)), k) && Occupied(Run(v, Sweeps(rel, keep, n)), k)
    decreases n
  {
    if n > 0 {
      SweepsSpare(v, rel, keep, n - 1, k);
      SweepsSnoc(v, rel, keep, n - 1);
      RetiredVersion(Run(v, Sweeps(rel, keep, n - 1)), ReleaseSweep(rel, COMPONENTS[n - 1], keep), k);
    }
  }

  lemma SweepsKeepImported(rel: Release, keep: set<string>, s: View)
    requires Imported(rel, |COMPONENTS|, s)
    ensures Imported(rel, |COMPONENTS|, Run(s, Sweeps(rel, keep, |COMPONENTS|)))
  {
    var x := Run(s, Sweeps(rel, keep, |COMPONENTS|));
    forall i | 0 <= i < |COMPONENTS| ensures HasManifest(x, Key(COMPONENTS[i], rel.revision)) {
      var k := Key(COMPONENTS[i], rel.revision);
      assert InVersion(k, MANIFEST) in s;
      SweepsSpare(s, rel, keep, |COMPONENTS|, k);
      assert InVersion(k, MANIFEST) in x;
    }
  }

  /** Out of sight exactly the release staging of the first `n` components is gone. */
  ghost predicate ReleaseCleared(names: map<Path, nat>, names': map<Path, nat>, n: nat)
    requires n <= |COMPONENTS|
  {
    forall p | !Visible(p) ::
      p in names' <==> p in names && !exists i | 0 <= i < n :: Temporary(p, COMPONENTS[i], ".release.staging-")
  }

  /** Exclusive release ownership makes interrupted staging recoverable. */
  method ClearReleases(vol: Volume)
    requires vol.Valid()
    modifies vol`names, vol`trace
    ensures vol.Valid() && vol.Seen() == old(vol.Seen()) && vol.trace == old(vol.trace)
    ensures ReleaseCleared(old(vol.names), vol.names, |COMPONENTS|)
  {
    for i := 0 to |COMPONENTS|
      invariant vol.Valid() && vol.Seen() == old(vol.Seen()) && vol.trace == old(vol.trace)
      invariant ReleaseCleared(old(vol.names), vol.names, i)
    {
      vol.ClearTemporary(COMPONENTS[i], RELEASE_PREFIX);
    }
  }

  /** `import_release`: the whole release is there, and no retained version is touched. */
  method ImportRelease(vol: Volume, rel: Release) returns (ok: bool, n: nat)
    requires vol.Valid() && Usable(vol.Seen()) && forall i | 0 <= i < |COMPONENTS| :: JobOk(ReleaseJob(rel, COMPONENTS[i]))
    modifies vol
    ensures vol.Valid() && Usable(vol.Seen()) && n <= |COMPONENTS|
    ensures !ok ==> vol.Seen() == Run(old(vol.Seen()), Imports(rel, n))
    ensures ok ==> vol.Seen() == Run(Run(old(vol.Seen()), Imports(rel, |COMPONENTS|)),
                                     if rel.keep.Some? then Sweeps(rel, rel.keep.value, |COMPONENTS|) else [])
    ensures ok ==> Imported(rel, |COMPONENTS|, vol.Seen())
    ensures ImportMet(old(vol.trace), vol.trace, old(vol.Seen()), rel) && ReleaseCleared(old(vol.names), vol.names, |COMPONENTS|)
  {
    ClearReleases(vol);
    ok, n := ImportComponents(vol, rel);
    if ok && rel.keep.Some? {
      ghost var met := vol.trace;
      SweepsKeepImported(rel, rel.keep.value, vol.Seen());
      RetireReleases(vol, rel, old(vol.Seen()));
      ImportMetTrans(old(vol.trace), met, vol.trace, old(vol.Seen()), rel);
    }
  }

  lemma ImportMetTrans(before: seq<View>, middle: seq<View>, after: seq<View>, v: View, rel: Release)
    requires ImportMet(before, middle, v, rel) && ImportMet(middle, after, v, rel)
    ensures ImportMet(before, after, v, rel)
  {
    forall i | |before| <= i < |after| ensures InImport(v, rel, after[i]) {
      if i < |middle| { assert after[i] == middle[i]; }
    }
  }
}

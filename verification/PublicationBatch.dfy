/** Batches: several publications with retirement and a build record, cut short anywhere and run again. */
module PublicationBatch {
  import opened Common
  import opened Publication
  import opened PublicationTheorems

  /** `record`: the build to commit, whose applications are the revisions the batch publishes. */
  datatype Batch = Batch(jobs: seq<Job>, binding: string, keep: Option<set<string>>, record: Option<Build>)

  function SweepFor(j: Job, binding: string, keep: set<string>, k: Key): Sweep {
    Sweep(j.dest.component, binding, keep + {k.revision}, false)
  }

  function RetireAfter(v: View, j: Job, binding: string, keep: Option<set<string>>, k: Key): View {
    if keep.Some? then RetireView(v, SweepFor(j, binding, keep.value, k)) else v
  }

  /** The application loop of `publish_batch`. */
  function ApplyJobs(v: View, jobs: seq<Job>, binding: string, keep: Option<set<string>>): (Result<map<string, string>>, View)
    decreases |jobs|
  {
    if jobs == [] then (Ok(map[]), v)
    else
      var (r, x) := PublishView(v, jobs[0]);
      if r.Err? then (Err(r.error), x)
      else
        var (rest, y) := ApplyJobs(RetireAfter(x, jobs[0], binding, keep, r.value), jobs[1..], binding, keep);
        if rest.Err? then (rest, y) else (Ok(map[jobs[0].dest.component := r.value.revision] + rest.value), y)
  }

  function BatchView(v: View, b: Batch): (Result<map<string, string>>, View) {
    var (r, x) := ApplyJobs(v, b.jobs, b.binding, b.keep);
    if r.Err? || b.record.None? then (r, x)
    else
      var (done, y) := RecordView(x, b.record.value.(applications := r.value));
      if done.Err? then (Err(done.error), y) else (r, y)
  }

  /** Every view a reader can meet during the application loop. */
  predicate DuringJobs(v: View, jobs: seq<Job>, binding: string, keep: Option<set<string>>, x: View)
    decreases |jobs|
  {
    if jobs == [] then x == v
    else
      var (r, y) := PublishView(v, jobs[0]);
      || Stage(v, jobs[0], x)
      || (r.Ok? && keep.Some? && Sweeping(y, SweepFor(jobs[0], binding, keep.value, r.value), x))
      || (r.Ok? && DuringJobs(RetireAfter(y, jobs[0], binding, keep, r.value), jobs[1..], binding, keep, x))
  }

  predicate DuringBatch(v: View, b: Batch, x: View) {
    DuringJobs(v, b.jobs, b.binding, b.keep, x) || x == BatchView(v, b).1
  }

  /** Each job publishes another component. */
  predicate Distinct(jobs: seq<Job>) {
    forall i, h | 0 <= i < h < |jobs| :: jobs[i].dest.component != jobs[h].dest.component
  }

  // ----- Views that agree on everything a publication depends on -----

  /** Component `c` has the same version directories. */
  ghost predicate SameComponent(v: View, x: View, c: string) {
    forall k: Key {:trigger SameVersion(v, x, k)} | k.component == c :: SameVersion(v, x, k)
  }

  /**
   The views differ at most in files of versions without a manifest, which half a removal may leave
   behind, and not in whether a destination of the batch holds such files.
   */
  ghost predicate Alike(v: View, x: View, dests: set<Key>) {
    && (forall p: Path {:trigger p in v} {:trigger p in x} | !p.InVersion? :: (p in v <==> p in x) && (p in v ==> x[p] == v[p]))
    && (forall k: Key {:trigger SameVersion(v, x, k)} | HasManifest(v, k) :: SameVersion(v, x, k))
    && (forall k: Key {:trigger HasManifest(v, k)} {:trigger HasManifest(x, k)} :: HasManifest(v, k) <==> HasManifest(x, k))
    && (forall k: Key {:trigger Occupied(v, k)} {:trigger Occupied(x, k)} | k in dests :: Occupied(v, k) <==> Occupied(x, k))
  }

  lemma AlikeMeta(v: View, x: View, dests: set<Key>, k: Key)
    requires Alike(v, x, dests)
    ensures MetaAt(v, k) == MetaAt(x, k)
  {
    if HasManifest(v, k) {
      assert SameVersion(v, x, k);
      assert InVersion(k, MANIFEST) in v;
    } else {
      assert !HasManifest(x, k);
    }
  }

  lemma AlikePlan(v: View, x: View, dests: set<Key>, j: Job)
    requires Alike(v, x, dests)
    ensures PlanOf(v, j) == PlanOf(x, j)
  {
    assert HasManifest(v, j.dest) <==> HasManifest(x, j.dest);
    if j.previous.Some? {
      var k := Key(j.dest.component, j.previous.value);
      AlikeMeta(v, x, dests, k);
      assert HasManifest(v, k) <==> HasManifest(x, k);
      if HasManifest(v, k) { SameVersionPlan(v, x, j, k); }
    }
  }

  /** Inputs and reuse read the previous version only. */
  lemma SameVersionPlan(v: View, x: View, j: Job, k: Key)
    requires SameVersion(v, x, k) && j.previous == Some(k.revision) && j.dest.component == k.component
    ensures MetaAt(v, k) == MetaAt(x, k)
    ensures j.source.Tree? ==> Inputs(v, j, MetaAt(v, k)) == Inputs(x, j, MetaAt(x, k))
    ensures forall base, tree :: Unchanged(v, j, base, tree) <==> Unchanged(x, j, base, tree)
  {
    assert InVersion(k, MANIFEST) in v <==> InVersion(k, MANIFEST) in x;
    forall rel ensures PriorItem(v, k, rel) == PriorItem(x, k, rel) {
      assert InVersion(k, rel) in v <==> InVersion(k, rel) in x;
    }
    var m := MetaAt(v, k);
    if m.Some? {
      assert PriorItems(v, j, k, m.value.files.Keys) == PriorItems(x, j, k, m.value.files.Keys);
    }
    forall base, tree ensures Unchanged(v, j, base, tree) <==> Unchanged(x, j, base, tree) {
      assert forall rel | rel in tree :: Same(v, k, rel, tree[rel]) <==> Same(x, k, rel, tree[rel]);
    }
  }

  lemma AlikeDocuments(v: View, x: View, dests: set<Key>, j: Job, parts: set<Part>, manifest: File)
    requires Alike(v, x, dests)
    ensures Alike(ArchiveView(v, j, parts), ArchiveView(x, j, parts), dests)
    ensures Alike(EvidenceView(v, j, manifest), EvidenceView(x, j, manifest), dests)
  {
    assert Archive(j.dest) in v <==> Archive(j.dest) in x;
    if KeepsArchive(v, j, parts) { AlikeUpdate(v, x, dests, Archive(j.dest), File(j.archive.value, READ_ONLY)); }
    if WithEvidence(j) { AlikeUpdate(v, x, dests, Evidence(j.dest), manifest); }
  }

  lemma UpdateKeepsOccupied(v: View, p: Path, f: File, k: Key)
    requires !p.InVersion?
    ensures Occupied(v, k) <==> Occupied(v[p := f], k)
  {
    if Occupied(v, k) {
      var q :| q in v && q.InVersion? && q.key == k;
      assert q in v[p := f];
    }
  }

  lemma AlikeUpdate(v: View, x: View, dests: set<Key>, p: Path, f: File)
    requires Alike(v, x, dests) && !p.InVersion?
    ensures Alike(v[p := f], x[p := f], dests)
  {
    var v', x' := v[p := f], x[p := f];
    forall k: Key | HasManifest(v', k) ensures SameVersion(v', x', k) {
      assert HasManifest(v, k);
      assert SameVersion(v, x, k);
    }
    forall k: Key ensures HasManifest(v', k) <==> HasManifest(x', k) {
      assert HasManifest(v, k) <==> HasManifest(x, k);
    }
    forall k: Key | k in dests ensures Occupied(v', k) <==> Occupied(x', k) {
      UpdateKeepsOccupied(v, p, f, k);
      UpdateKeepsOccupied(x, p, f, k);
    }
  }

  lemma AlikePlaced(v: View, x: View, dests: set<Key>, k: Key, files: map<Rel, File>)
    requires Alike(v, x, dests) && !Occupied(v, k) && !Occupied(x, k) && MANIFEST in files
    ensures Alike(v + Placed(k, files), x + Placed(k, files), dests)
  {
    var v', x' := v + Placed(k, files), x + Placed(k, files);
    assert InVersion(k, MANIFEST) in Placed(k, files);
    forall h: Key ensures HasManifest(v', h) <==> HasManifest(x', h) {
      assert HasManifest(v, h) <==> HasManifest(x, h);
    }
    forall h: Key | HasManifest(v', h) ensures SameVersion(v', x', h) {
      if h == k {
        forall rel ensures InVersion(k, rel) !in v && InVersion(k, rel) !in x {
          assert InVersion(k, rel) in v ==> Occupied(v, k);
          assert InVersion(k, rel) in x ==> Occupied(x, k);
        }
      } else {
        assert HasManifest(v, h);
        assert SameVersion(v, x, h);
      }
    }
    forall h: Key | h in dests ensures Occupied(v', h) <==> Occupied(x', h) {
      PlacedOccupies(v, k, files, h);
      PlacedOccupies(x, k, files, h);
    }
  }

  lemma PlacedOccupies(v: View, k: Key, files: map<Rel, File>, h: Key)
    requires MANIFEST in files
    ensures Occupied(v + Placed(k, files), h) <==> h == k || Occupied(v, h)
  {
    var x := v + Placed(k, files);
    assert InVersion(k, MANIFEST) in x;
    if Occupied(v, h) {
      var q :| q in v && q.InVersion? && q.key == h;
      assert q in x;
    }
  }

  lemma AlikePublish(v: View, x: View, dests: set<Key>, j: Job)
    requires Alike(v, x, dests) && j.dest in dests
    ensures PublishView(v, j).0 == PublishView(x, j).0
    ensures Alike(PublishView(v, j).1, PublishView(x, j).1, dests)
  {
    AlikePlan(v, x, dests, j);
    match PlanOf(v, j)
    case Stop(_) =>
    case Make(base, tree) => AlikeMake(v, x, dests, j, base, tree);
  }

  lemma AlikeMake(v: View, x: View, dests: set<Key>, j: Job, base: Option<Meta>, tree: map<Rel, File>)
    requires Alike(v, x, dests) && j.dest in dests
    ensures MakeView(v, j, base, tree).0 == MakeView(x, j, base, tree).0
    ensures Alike(MakeView(v, j, base, tree).1, MakeView(x, j, base, tree).1, dests)
  {
    var parts := PartsOf(tree.Keys, j.dest.component);
    if WithEvidence(j) && !Adoptable(j, base, parts) {
      AlikeDocuments(v, x, dests, j, parts, File(Raw([]), READ_ONLY));
    } else {
      var manifest := ManifestFile(j, base, tree);
      AlikeDocuments(v, x, dests, j, parts, manifest);
      var v1, x1 := ArchiveView(v, j, parts), ArchiveView(x, j, parts);
      AlikeDocuments(v1, x1, dests, j, parts, manifest);
      var v2, x2 := EvidenceView(v1, j, manifest), EvidenceView(x1, j, manifest);
      assert Occupied(v2, j.dest) <==> Occupied(x2, j.dest);
      if !Occupied(v2, j.dest) { AlikePlaced(v2, x2, dests, j.dest, VersionFiles(tree, manifest)); }
    }
  }

  lemma RetiredVersion(v: View, w: Sweep, k: Key)
    ensures !Retires(v, w, k) ==> SameVersion(v, RetireView(v, w), k) && (Occupied(RetireView(v, w), k) <==> Occupied(v, k))
    ensures Retires(v, w, k) ==> !Occupied(RetireView(v, w), k)
    ensures HasManifest(RetireView(v, w), k) <==> HasManifest(v, k) && !Retires(v, w, k)
  {
    if !Retires(v, w, k) && Occupied(v, k) {
      var p :| p in v && p.InVersion? && p.key == k;
      assert p in RetireView(v, w);
    }
  }

  lemma AlikeRetire(v: View, x: View, dests: set<Key>, w: Sweep)
    requires Alike(v, x, dests)
    ensures Alike(RetireView(v, w), RetireView(x, w), dests)
  {
    var v', x' := RetireView(v, w), RetireView(x, w);
    forall k: Key ensures Retires(v, w, k) <==> Retires(x, w, k) { AlikeMeta(v, x, dests, k); }
    forall k: Key ensures HasManifest(v', k) <==> HasManifest(x', k) {
      RetiredVersion(v, w, k);
      RetiredVersion(x, w, k);
      assert HasManifest(v, k) <==> HasManifest(x, k);
    }
    forall k: Key | HasManifest(v', k) ensures SameVersion(v', x', k) {
      RetiredVersion(v, w, k);
      RetiredVersion(x, w, k);
      assert SameVersion(v, x, k);
    }
    forall k: Key | k in dests ensures Occupied(v', k) <==> Occupied(x', k) {
      RetiredVersion(v, w, k);
      RetiredVersion(x, w, k);
    }
  }

  /** Finishing a retirement that died amounts to having done it, but for files without a manifest. */
  lemma RetireAgain(v: View, w: Sweep, x: View, dests: set<Key>)
    requires Sweeping(v, w, x) && forall k {:trigger Retires(v, w, k)} | k in dests :: !Retires(v, w, k)
    ensures Alike(RetireView(v, w), RetireView(x, w), dests)
  {
    var v', x' := RetireView(v, w), RetireView(x, w);
    forall k: Key ensures HasManifest(v', k) <==> HasManifest(x', k) {
      RetiredVersion(v, w, k);
      RetiredVersion(x, w, k);
      assert InVersion(k, MANIFEST) in x ==> InVersion(k, MANIFEST) in v;
    }
    forall k: Key | HasManifest(v', k) ensures SameVersion(v', x', k) {
      RetiredVersion(v, w, k);
      RetiredVersion(x, w, k);
    }
    forall k: Key | k in dests ensures Occupied(v', k) <==> Occupied(x', k) {
      RetiredVersion(v, w, k);
      RetiredVersion(x, w, k);
    }
    forall p: Path | !p.InVersion? ensures (p in v' <==> p in x') && (p in v' ==> x'[p] == v'[p]) {
      assert p in v && p !in x ==> Swept(v, w, p);
    }
  }

  // ----- One publication, again -----

  /** A publication that died is completed by running it again: same result, same view. */
  lemma PublishAgain(v: View, j: Job, x: View)
    requires Stage(v, j, x)
    ensures PublishView(x, j) == PublishView(v, j)
  {
    match PlanOf(v, j)
    case Stop(_) =>
    case Make(base, tree) =>
      var parts := PartsOf(tree.Keys, j.dest.component);
      var v1 := ArchiveView(v, j, parts);
      assert ArchiveView(v1, j, parts) == v1;
      DocumentsPlan(v, j, v1);
      if !WithEvidence(j) || Adoptable(j, base, parts) {
        var manifest := ManifestFile(j, base, tree);
        var v2 := EvidenceView(v1, j, manifest);
        assert ArchiveView(v2, j, parts) == v2 && EvidenceView(v2, j, manifest) == v2;
        DocumentsPlan(v, j, v2);
        if !Occupied(v2, j.dest) {
          var z := v2 + Placed(j.dest, VersionFiles(tree, manifest));
          assert InVersion(j.dest, MANIFEST) in z;
        }
      }
  }

  lemma DocumentsPlan(v: View, j: Job, x: View)
    requires SameVersions(v, x)
    ensures PlanOf(x, j) == PlanOf(v, j)
  {
    if j.previous.Some? {
      SameVersionPlan(v, x, j, Key(j.dest.component, j.previous.value));
    }
  }

  /** What settles a publication is its destination's manifest and the version found. */
  lemma SettledFrame(v: View, x: View, j: Job, k: Key)
    requires PlanOf(v, j) == Stop(Ok(k)) && (HasManifest(v, j.dest) <==> HasManifest(x, j.dest))
    requires !HasManifest(v, j.dest) ==> SameVersion(v, x, k)
    ensures PlanOf(x, j) == Stop(Ok(k)) && PublishView(x, j) == (Ok(k), x)
  {
    if !HasManifest(v, j.dest) {
      assert InVersion(k, MANIFEST) in v <==> InVersion(k, MANIFEST) in x;
      SameVersionPlan(v, x, j, k);
    }
  }

  /** The retirement that follows a publication leaves it settled, wherever it stops. */
  lemma SweepLeavesSettled(y: View, j: Job, k: Key, w: Sweep, x: View)
    requires PlanOf(y, j) == Stop(Ok(k)) && (HasManifest(y, j.dest) ==> k == j.dest) && k.revision in w.keep
    requires Sweeping(y, w, x)
    ensures PlanOf(x, j) == Stop(Ok(k)) && PublishView(x, j) == (Ok(k), x)
  {
    assert InVersion(k, MANIFEST) in y <==> InVersion(k, MANIFEST) in x;
    SettledFrame(y, x, j, k);
  }

  // ----- Other components -----

  predicate Touches(jobs: seq<Job>, c: string) {
    exists i | 0 <= i < |jobs| :: jobs[i].dest.component == c
  }

  lemma SweepElsewhere(v: View, w: Sweep, x: View, c: string)
    requires Sweeping(v, w, x) && w.component != c
    ensures SameComponent(v, x, c)
  {
  }

  lemma PublishElsewhere(v: View, j: Job, x: View, c: string)
    requires Stage(v, j, x) && j.dest.component != c
    ensures SameComponent(v, x, c)
  {
    forall k: Key | k.component == c ensures SameVersion(v, x, k) { PublishFrame(v, j, x, k); }
  }

  lemma SameComponentTrans(u: View, v: View, x: View, c: string)
    requires SameComponent(u, v, c) && SameComponent(v, x, c)
    ensures SameComponent(u, x, c)
  {
    forall k: Key | k.component == c ensures SameVersion(u, x, k) {
      assert SameVersion(u, v, k) && SameVersion(v, x, k);
    }
  }

  lemma {:induction false} JobsElsewhere(v: View, jobs: seq<Job>, binding: string, keep: Option<set<string>>, x: View, c: string)
    requires DuringJobs(v, jobs, binding, keep, x) && !Touches(jobs, c)
    ensures SameComponent(v, x, c)
    decreases |jobs|
  {
    if jobs != [] {
      var j := jobs[0];
      assert j.dest.component != c;
      var (r, y) := PublishView(v, j);
      if Stage(v, j, x) {
        PublishElsewhere(v, j, x, c);
      } else {
        PublishElsewhere(v, j, y, c);
        var w := SweepFor(j, binding, if keep.Some? then keep.value else {}, r.value);
        if keep.Some? && Sweeping(y, w, x) {
          SweepElsewhere(y, w, x, c);
          SameComponentTrans(v, y, x, c);
        } else {
          var z := RetireAfter(y, j, binding, keep, r.value);
          if keep.Some? { SweepElsewhere(y, w, z, c); }
          SameComponentTrans(v, y, z, c);
          JobsElsewhere(z, jobs[1..], binding, keep, x, c);
          SameComponentTrans(v, z, x, c);
        }
      }
    }
  }

  // ----- The application loop, again -----

  /** The destinations of the batch: at most one per component, and each job's own. */
  ghost predicate DestsOk(jobs: seq<Job>, dests: set<Key>) {
    && (forall i | 0 <= i < |jobs| :: jobs[i].dest in dests)
    && (forall d, k | d in dests && k in dests && d.component == k.component :: d == k)
  }

  lemma {:induction false} AlikeApply(v: View, x: View, dests: set<Key>, jobs: seq<Job>, binding: string, keep: Option<set<string>>)
    requires Alike(v, x, dests) && DestsOk(jobs, dests)
    ensures ApplyJobs(v, jobs, binding, keep).0 == ApplyJobs(x, jobs, binding, keep).0
    ensures Alike(ApplyJobs(v, jobs, binding, keep).1, ApplyJobs(x, jobs, binding, keep).1, dests)
    decreases |jobs|
  {
    if jobs != [] {
      AlikePublish(v, x, dests, jobs[0]);
      var (r, y) := PublishView(v, jobs[0]);
      var z := PublishView(x, jobs[0]).1;
      if r.Ok? {
        if keep.Some? { AlikeRetire(y, z, dests, SweepFor(jobs[0], binding, keep.value, r.value)); }
        AlikeApply(RetireAfter(y, jobs[0], binding, keep, r.value), RetireAfter(z, jobs[0], binding, keep, r.value),
                   dests, jobs[1..], binding, keep);
      }
    }
  }

  lemma AlikeSelf(v: View, dests: set<Key>)
    ensures Alike(v, v, dests)
  {
  }

  /** Nothing is left to do for a job whose component has not changed since. */
  lemma NothingToDo(z: View, x: View, j: Job, k: Key, w: Sweep)
    requires PlanOf(z, j) == Stop(Ok(k)) && k.component == j.dest.component && w.component == j.dest.component
    requires SameComponent(z, x, j.dest.component)
    requires forall h {:trigger Retires(z, w, h)} :: !Retires(z, w, h)
    ensures PublishView(x, j) == (Ok(k), x) && RetireView(x, w) == x
    ensures forall h {:trigger Retires(x, w, h)} :: !Retires(x, w, h)
    ensures PlanOf(x, j) == Stop(Ok(k))
  {
    assert SameVersion(z, x, j.dest) && SameVersion(z, x, k);
    assert InVersion(j.dest, MANIFEST) in z <==> InVersion(j.dest, MANIFEST) in x;
    SettledFrame(z, x, j, k);
    forall h ensures !Retires(x, w, h) {
      if h.component == w.component {
        assert SameVersion(z, x, h);
        assert InVersion(h, MANIFEST) in z <==> InVersion(h, MANIFEST) in x;
        assert !Retires(z, w, h);
      }
    }
  }

  /** One job is done; the rest of the loop from `x` is the rest of the loop. */
  lemma ApplyFromSettled(x: View, jobs: seq<Job>, binding: string, keep: Option<set<string>>, k: Key)
    requires jobs != [] && PublishView(x, jobs[0]) == (Ok(k), x)
    ensures var (rest, y) := ApplyJobs(RetireAfter(x, jobs[0], binding, keep, k), jobs[1..], binding, keep);
            ApplyJobs(x, jobs, binding, keep)
            == (if rest.Err? then rest else Ok(map[jobs[0].dest.component := k.revision] + rest.value), y)
  {
  }

  lemma RerunAfterSweep(v: View, jobs: seq<Job>, binding: string, keep: set<string>, x: View, dests: set<Key>)
    requires jobs != [] && DestsOk(jobs, dests) && PublishView(v, jobs[0]).0.Ok?
    requires var (r, y) := PublishView(v, jobs[0]); Sweeping(y, SweepFor(jobs[0], binding, keep, r.value), x)
    ensures ApplyJobs(x, jobs, binding, Some(keep)).0 == ApplyJobs(v, jobs, binding, Some(keep)).0
    ensures Alike(ApplyJobs(v, jobs, binding, Some(keep)).1, ApplyJobs(x, jobs, binding, Some(keep)).1, dests)
  {
    var j := jobs[0];
    var (r, y) := PublishView(v, j);
    var w := SweepFor(j, binding, keep, r.value);
    SweepLeavesSettled(y, j, r.value, w, x);
    RetireAgain(y, w, x, dests);
    AlikeApply(RetireView(y, w), RetireView(x, w), dests, jobs[1..], binding, Some(keep));
    ApplyFromSettled(x, jobs, binding, Some(keep), r.value);
  }

  /** A job whose publication and retirement are finished stays so while others run. */
  lemma JobIsOver(v: View, j: Job, binding: string, keep: Option<set<string>>, x: View)
    requires PublishView(v, j).0.Ok?
    requires var (r, y) := PublishView(v, j); SameComponent(RetireAfter(y, j, binding, keep, r.value), x, j.dest.component)
    ensures var r := PublishView(v, j).0;
            PublishView(x, j) == (r, x) && RetireAfter(x, j, binding, keep, r.value) == x
  {
    var (r, y) := PublishView(v, j);
    if keep.Some? {
      var w := SweepFor(j, binding, keep.value, r.value);
      SweepLeavesSettled(y, j, r.value, w, RetireView(y, w));
      NothingToDo(RetireView(y, w), x, j, r.value, w);
    } else {
      assert SameVersion(y, x, j.dest) && SameVersion(y, x, r.value);
      assert InVersion(j.dest, MANIFEST) in y <==> InVersion(j.dest, MANIFEST) in x;
      SettledFrame(y, x, j, r.value);
    }
  }

  lemma {:induction false} RerunJobs(v: View, jobs: seq<Job>, binding: string, keep: Option<set<string>>, x: View, dests: set<Key>)
    requires Distinct(jobs) && DestsOk(jobs, dests) && DuringJobs(v, jobs, binding, keep, x)
    ensures ApplyJobs(x, jobs, binding, keep).0 == ApplyJobs(v, jobs, binding, keep).0
    ensures Alike(ApplyJobs(v, jobs, binding, keep).1, ApplyJobs(x, jobs, binding, keep).1, dests)
    decreases |jobs|
  {
    if jobs == [] {
      AlikeSelf(v, dests);
    } else {
      var j := jobs[0];
      var (r, y) := PublishView(v, j);
      if Stage(v, j, x) {
        PublishAgain(v, j, x);
        AlikeSelf(ApplyJobs(v, jobs, binding, keep).1, dests);
      } else if keep.Some? && Sweeping(y, SweepFor(j, binding, keep.value, r.value), x) {
        RerunAfterSweep(v, jobs, binding, keep.value, x, dests);
      } else {
        var z := RetireAfter(y, j, binding, keep, r.value);
        assert !Touches(jobs[1..], j.dest.component);
        JobsElsewhere(z, jobs[1..], binding, keep, x, j.dest.component);
        JobIsOver(v, j, binding, keep, x);
        RerunJobs(z, jobs[1..], binding, keep, x, dests);
        ApplyFromSettled(x, jobs, binding, keep, r.value);
      }
    }
  }

  // ----- The whole batch, again -----

  lemma {:induction false} ApplyIsDuring(v: View, jobs: seq<Job>, binding: string, keep: Option<set<string>>)
    ensures DuringJobs(v, jobs, binding, keep, ApplyJobs(v, jobs, binding, keep).1)
    decreases |jobs|
  {
    if jobs != [] {
      var (r, y) := PublishView(v, jobs[0]);
      if r.Ok? { ApplyIsDuring(RetireAfter(y, jobs[0], binding, keep, r.value), jobs[1..], binding, keep); }
    }
  }

  /** Once every application is published, running the loop again changes nothing. */
  lemma {:induction false} LoopIsOver(v: View, jobs: seq<Job>, binding: string, keep: Option<set<string>>, x: View)
    requires Distinct(jobs) && ApplyJobs(v, jobs, binding, keep).0.Ok? && SameVersions(ApplyJobs(v, jobs, binding, keep).1, x)
    ensures ApplyJobs(x, jobs, binding, keep) == (ApplyJobs(v, jobs, binding, keep).0, x)
    decreases |jobs|
  {
    if jobs != [] {
      var j := jobs[0];
      var (r, y) := PublishView(v, j);
      var z := RetireAfter(y, j, binding, keep, r.value);
      var end := ApplyJobs(z, jobs[1..], binding, keep).1;
      assert !Touches(jobs[1..], j.dest.component);
      ApplyIsDuring(z, jobs[1..], binding, keep);
      JobsElsewhere(z, jobs[1..], binding, keep, end, j.dest.component);
      SameComponentTrans(z, end, x, j.dest.component);
      JobIsOver(v, j, binding, keep, x);
      LoopIsOver(z, jobs[1..], binding, keep, x);
      ApplyFromSettled(x, jobs, binding, keep, r.value);
    }
  }

  lemma AlikeRecord(v: View, x: View, dests: set<Key>, b: Build)
    requires Alike(v, x, dests)
    ensures RecordView(v, b).0 == RecordView(x, b).0 && Alike(RecordView(v, b).1, RecordView(x, b).1, dests)
  {
    assert InBuild(b.id, "build.json") in v <==> InBuild(b.id, "build.json") in x;
    forall c | c in b.applications
      ensures HasManifest(v, Key(c, b.applications[c])) <==> HasManifest(x, Key(c, b.applications[c])) {
    }
    assert forall p: Path | p.InBuild? :: p in v <==> p in x;
    var p, q := InBuild(b.id, "inputs.tar.gz"), InBuild(b.id, "build.json");
    var f, g := File(b.archive, READ_ONLY), File(BuildRecord(b.applications, b.details, b.url), READ_ONLY);
    AlikeUpdate(v, x, dests, p, f);
    AlikeUpdate(v[p := f], x[p := f], dests, q, g);
  }

  function Dests(jobs: seq<Job>): set<Key> {
    set i | 0 <= i < |jobs| :: jobs[i].dest
  }

  /**
   Running a batch again after it died anywhere gives the revisions and, but for files of versions
   without a manifest, the volume of an uninterrupted run.
   */
  lemma RerunBatch(v: View, b: Batch, x: View)
    requires Distinct(b.jobs) && DuringBatch(v, b, x)
    ensures BatchView(x, b).0 == BatchView(v, b).0
    ensures Alike(BatchView(v, b).1, BatchView(x, b).1, Dests(b.jobs))
  {
    if DuringJobs(v, b.jobs, b.binding, b.keep, x) { RerunLoop(v, b, x); } else { RerunEnd(v, b, x); }
  }

  lemma RerunLoop(v: View, b: Batch, x: View)
    requires Distinct(b.jobs) && DuringJobs(v, b.jobs, b.binding, b.keep, x)
    ensures BatchView(x, b).0 == BatchView(v, b).0
    ensures Alike(BatchView(v, b).1, BatchView(x, b).1, Dests(b.jobs))
  {
    var dests := Dests(b.jobs);
    RerunJobs(v, b.jobs, b.binding, b.keep, x, dests);
    var (r, y) := ApplyJobs(v, b.jobs, b.binding, b.keep);
    var z := ApplyJobs(x, b.jobs, b.binding, b.keep).1;
    if r.Ok? && b.record.Some? { AlikeRecord(y, z, dests, b.record.value.(applications := r.value)); }
  }

  lemma RerunEnd(v: View, b: Batch, x: View)
    requires Distinct(b.jobs) && x == BatchView(v, b).1 && !DuringJobs(v, b.jobs, b.binding, b.keep, x)
    ensures BatchView(x, b) == BatchView(v, b) && Alike(x, x, Dests(b.jobs))
  {
    ApplyIsDuring(v, b.jobs, b.binding, b.keep);
    var (r, y) := ApplyJobs(v, b.jobs, b.binding, b.keep);
    var record := b.record.value.(applications := r.value);
    LoopIsOver(v, b.jobs, b.binding, b.keep, x);
    AlikeSelf(x, Dests(b.jobs));
  }

  /** A build record appears only when every application of the batch is published, and names exactly those. */
  lemma RecordComesLast(v: View, b: Batch, x: View)
    requires DuringBatch(v, b, x) && b.record.Some?
    requires InBuild(b.record.value.id, "build.json") in x && InBuild(b.record.value.id, "build.json") !in v
    ensures var r := ApplyJobs(v, b.jobs, b.binding, b.keep).0;
            && r.Ok? && x == BatchView(v, b).1
            && (forall c | c in r.value :: HasManifest(x, Key(c, r.value[c])))
            && x[InBuild(b.record.value.id, "build.json")].content.BuildRecord?
            && x[InBuild(b.record.value.id, "build.json")].content.applications == r.value
  {
    if DuringJobs(v, b.jobs, b.binding, b.keep, x) {
      LoopWritesNoRecord(v, b.jobs, b.binding, b.keep, x, b.record.value.id);
      assert false;
    }
    ApplyIsDuring(v, b.jobs, b.binding, b.keep);
    LoopWritesNoRecord(v, b.jobs, b.binding, b.keep, ApplyJobs(v, b.jobs, b.binding, b.keep).1, b.record.value.id);
    var y := ApplyJobs(v, b.jobs, b.binding, b.keep).1;
    forall k: Key ensures HasManifest(y, k) ==> HasManifest(x, k) {
    }
  }

  lemma {:induction false} LoopWritesNoRecord(v: View, jobs: seq<Job>, binding: string, keep: Option<set<string>>, x: View, id: string)
    requires DuringJobs(v, jobs, binding, keep, x) && InBuild(id, "build.json") !in v
    ensures InBuild(id, "build.json") !in x
    decreases |jobs|
  {
    if jobs != [] && !Stage(v, jobs[0], x) {
      var (r, y) := PublishView(v, jobs[0]);
      if !(keep.Some? && Sweeping(y, SweepFor(jobs[0], binding, keep.value, r.value), x)) {
        LoopWritesNoRecord(RetireAfter(y, jobs[0], binding, keep, r.value), jobs[1..], binding, keep, x, id);
      }
    }
  }
}

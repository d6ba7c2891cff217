/** What a batch leaves on the volume: which versions it removes, and which it never touches. */
module BatchEffects {
  import opened Common
  import opened Publication
  import opened PublicationTheorems
  import opened PublicationBatch

  // ----- The versions a batch never touches -----

  /** The publisher keeps no track of old versions, keeps this one, or does not own it. */
  predicate Protected(v: View, binding: string, keep: Option<set<string>>, k: Key) {
    keep.None? || k.revision in keep.value || MetaAt(v, k).None? || MetaAt(v, k).value.binding != binding
  }

  lemma OccupiedSame(v: View, x: View, k: Key)
    requires SameVersion(v, x, k)
    ensures Occupied(v, k) <==> Occupied(x, k)
    ensures MetaAt(v, k) == MetaAt(x, k) && (HasManifest(v, k) <==> HasManifest(x, k))
  {
    assert InVersion(k, MANIFEST) in v <==> InVersion(k, MANIFEST) in x;
    if Occupied(v, k) {
      var p :| p in v && p.InVersion? && p.key == k;
      assert InVersion(k, p.rel) in x;
    }
    if Occupied(x, k) {
      var p :| p in x && p.InVersion? && p.key == k;
      assert InVersion(k, p.rel) in v;
    }
  }

  lemma {:induction false} JobsKeep(v: View, jobs: seq<Job>, binding: string, keep: Option<set<string>>, x: View, k: Key)
    requires DuringJobs(v, jobs, binding, keep, x) && Occupied(v, k) && Protected(v, binding, keep, k)
    ensures SameVersion(v, x, k)
    decreases |jobs|
  {
    if jobs != [] && !Stage(v, jobs[0], x) {
      var j := jobs[0];
      var (r, y) := PublishView(v, j);
      PublishFrame(v, j, y, k);
      OccupiedSame(v, y, k);
      if keep.None? || !Sweeping(y, SweepFor(j, binding, keep.value, r.value), x) {
        var z := RetireAfter(y, j, binding, keep, r.value);
        assert SameVersion(y, z, k);
        OccupiedSame(y, z, k);
        JobsKeep(z, jobs[1..], binding, keep, x, k);
      }
    } else if jobs != [] {
      PublishFrame(v, jobs[0], x, k);
    }
  }

  lemma RecordKeepsVersions(v: View, b: Build, k: Key)
    ensures SameVersion(v, RecordView(v, b).1, k)
  {
  }

  /**
   Whatever the batch publishes and wherever it stops, no file of an existing version changes if its
   revision is to be kept, if another publisher owns it, or if no retention was asked for.
   */
  lemma BatchKeepsRetained(v: View, b: Batch, x: View, k: Key)
    requires DuringBatch(v, b, x) && Occupied(v, k)
    requires b.keep.None? || k.revision in b.keep.value || MetaAt(v, k).None? || MetaAt(v, k).value.binding != b.binding
    ensures SameVersion(v, x, k)
  {
    var (r, y) := ApplyJobs(v, b.jobs, b.binding, b.keep);
    ApplyIsDuring(v, b.jobs, b.binding, b.keep);
    JobsKeep(v, b.jobs, b.binding, b.keep, y, k);
    if DuringJobs(v, b.jobs, b.binding, b.keep, x) {
      JobsKeep(v, b.jobs, b.binding, b.keep, x, k);
    } else {
      RecordKeepsVersions(y, b.record.value.(applications := r.value), k);
    }
  }

  // ----- The versions a finished batch leaves -----

  /** Publishing and retiring one job leaves other components, and of its own removes what it may. */
  lemma JobEffect(v: View, j: Job, binding: string, keep: Option<set<string>>, k: Key)
    requires PublishView(v, j).0.Ok?
    ensures var (r, y) := PublishView(v, j);
            var z := RetireAfter(y, j, binding, keep, r.value);
            && r.value.component == j.dest.component && HasManifest(z, r.value)
            && (Occupied(v, k) && (Protected(v, binding, keep, k) || k == r.value || k.component != j.dest.component) ==> SameVersion(v, z, k))
            && (Occupied(v, k) && !Protected(v, binding, keep, k) && k != r.value && k.component == j.dest.component ==> !Occupied(z, k))
  {
    var (r, y) := PublishView(v, j);
    PublishedHasManifest(v, j);
    if keep.Some? { RetiredVersion(y, SweepFor(j, binding, keep.value, r.value), r.value); }
    if Occupied(v, k) {
      PublishFrame(v, j, y, k);
      OccupiedSame(v, y, k);
      if keep.Some? { RetiredVersion(y, SweepFor(j, binding, keep.value, r.value), k); }
    }
  }

  lemma PublishedHasManifest(v: View, j: Job)
    requires PublishView(v, j).0.Ok?
    ensures var (r, y) := PublishView(v, j); HasManifest(y, r.value) && r.value.component == j.dest.component
  {
  }

  /** The end of the loop, seen from component `c` after the last job that publishes it. */
  lemma RestLeaves(z: View, jobs: seq<Job>, binding: string, keep: Option<set<string>>, k: Key)
    requires !Touches(jobs, k.component)
    ensures var x := ApplyJobs(z, jobs, binding, keep).1;
            SameVersion(z, x, k) && (Occupied(z, k) <==> Occupied(x, k)) && (HasManifest(z, k) <==> HasManifest(x, k))
  {
    var x := ApplyJobs(z, jobs, binding, keep).1;
    ApplyIsDuring(z, jobs, binding, keep);
    JobsElsewhere(z, jobs, binding, keep, x, k.component);
    OccupiedSame(z, x, k);
  }

  lemma {:induction false} ResultNamesComponents(v: View, jobs: seq<Job>, binding: string, keep: Option<set<string>>)
    requires ApplyJobs(v, jobs, binding, keep).0.Ok?
    ensures forall c :: c in ApplyJobs(v, jobs, binding, keep).0.value <==> Touches(jobs, c)
    decreases |jobs|
  {
    if jobs != [] {
      var (r, y) := PublishView(v, jobs[0]);
      var z := RetireAfter(y, jobs[0], binding, keep, r.value);
      ResultNamesComponents(z, jobs[1..], binding, keep);
      forall c ensures Touches(jobs, c) <==> c == jobs[0].dest.component || Touches(jobs[1..], c) {
        if Touches(jobs, c) && c != jobs[0].dest.component {
          var i :| 0 <= i < |jobs| && jobs[i].dest.component == c;
          assert jobs[1..][i - 1].dest.component == c;
        }
        if Touches(jobs[1..], c) {
          var i :| 0 <= i < |jobs[1..]| && jobs[1..][i].dest.component == c;
          assert jobs[i + 1].dest.component == c;
        }
      }
    }
  }

  /** The version goes: its component is published, its publisher owns it, and it is neither kept nor returned. */
  predicate Goes(v: View, jobs: seq<Job>, binding: string, keep: Option<set<string>>, k: Key)
    requires ApplyJobs(v, jobs, binding, keep).0.Ok?
  {
    var revisions := ApplyJobs(v, jobs, binding, keep).0.value;
    k.component in revisions && revisions[k.component] != k.revision && !Protected(v, binding, keep, k)
  }

  lemma {:induction false} JobsLeave(v: View, jobs: seq<Job>, binding: string, keep: Option<set<string>>, k: Key)
    requires Distinct(jobs) && ApplyJobs(v, jobs, binding, keep).0.Ok?
    ensures var (r, x) := ApplyJobs(v, jobs, binding, keep);
            && (k.component in r.value && r.value[k.component] == k.revision ==> HasManifest(x, k))
            && (Occupied(v, k) ==> if Goes(v, jobs, binding, keep, k) then !Occupied(x, k) else SameVersion(v, x, k))
    decreases |jobs|
  {
    if jobs != [] {
      var j := jobs[0];
      var (r, y) := PublishView(v, j);
      var z := RetireAfter(y, j, binding, keep, r.value);
      JobEffect(v, j, binding, keep, k);
      ResultNamesComponents(z, jobs[1..], binding, keep);
      if k.component == j.dest.component {
        assert !Touches(jobs[1..], k.component);
        RestLeaves(z, jobs[1..], binding, keep, k);
      } else {
        JobsLeave(z, jobs[1..], binding, keep, k);
        if Occupied(v, k) { OccupiedSame(v, z, k); }
      }
    }
  }

  /**
   A finished batch names its components, and each revision it names is published. Of the versions
   there were it has removed exactly those of its own binding and components that are neither to be
   kept nor named, and removed them whole; no other version has changed.
   */
  lemma BatchLeavesExactly(v: View, b: Batch, k: Key)
    requires Distinct(b.jobs) && BatchView(v, b).0.Ok?
    ensures var (r, x) := BatchView(v, b);
            && (k.component in r.value <==> Touches(b.jobs, k.component))
            && (k.component in r.value && r.value[k.component] == k.revision ==> HasManifest(x, k))
            && (Occupied(v, k) ==>
                  if b.keep.Some? && k.revision !in b.keep.value && MetaAt(v, k).Some? && MetaAt(v, k).value.binding == b.binding
                     && k.component in r.value && r.value[k.component] != k.revision
                  then !Occupied(x, k) else SameVersion(v, x, k))
  {
    var (r, y) := ApplyJobs(v, b.jobs, b.binding, b.keep);
    ResultNamesComponents(v, b.jobs, b.binding, b.keep);
    JobsLeave(v, b.jobs, b.binding, b.keep, k);
    if b.record.Some? {
      var build := b.record.value.(applications := r.value);
      RecordKeepsVersions(y, build, k);
      OccupiedSame(y, RecordView(y, build).1, k);
    }
  }

  /** A batch that succeeds has its build record, of exactly the revisions it returns if the record is new. */
  lemma BatchLeavesRecord(v: View, b: Batch)
    requires BatchView(v, b).0.Ok? && b.record.Some?
    ensures var (r, x) := BatchView(v, b);
            var p := InBuild(b.record.value.id, "build.json");
            && p in x
            && (p !in ApplyJobs(v, b.jobs, b.binding, b.keep).1 ==>
                  x[p].content == BuildRecord(r.value, b.record.value.details, b.record.value.url))
  {
  }
}

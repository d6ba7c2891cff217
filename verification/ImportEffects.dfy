/** What an import of a release leaves on the volume, component by component. */
module ImportEffects {
  import opened Common
  import opened Publication
  import opened PublicationTheorems
  import opened PublicationBatch
  import opened BatchEffects
  import opened PublisherBatch

  predicate PayloadsOk(rel: Release) {
    forall i | 0 <= i < |COMPONENTS| :: JobOk(ReleaseJob(rel, COMPONENTS[i]))
  }

  /** Version `k` of the release is the full copy of its own component's payload, owned by the release. */
  ghost predicate IsPayload(x: View, rel: Release, k: Key) {
    && k.component in rel.payload && rel.payload[k.component].Tree?
    && Application(x, k) == FullCopy(rel.payload[k.component].items)
    && MetaAt(x, k).Some? && MetaAt(x, k).value.releaseOwned && MetaAt(x, k).value.binding == rel.binding
    && Complete(x, k)
  }

  lemma IsPayloadSame(v: View, x: View, rel: Release, k: Key)
    requires SameVersion(v, x, k) && IsPayload(v, rel, k)
    ensures IsPayload(x, rel, k)
  {
    SameVersionComplete(v, x, k);
  }

  /** Publishing one component of the release builds it, if it is not there, from that component's payload. */
  lemma ImportBuilds(s: View, rel: Release, c: string)
    requires JobOk(ReleaseJob(rel, c)) && !HasManifest(s, Key(c, rel.revision))
    requires HasManifest(PublishView(s, ReleaseJob(rel, c)).1, Key(c, rel.revision))
    ensures IsPayload(PublishView(s, ReleaseJob(rel, c)).1, rel, Key(c, rel.revision))
  {
    var j := ReleaseJob(rel, c);
    ImportPlan(s, rel, c);
    var tree := FullCopy(rel.payload[c].items);
    PlacedVersion(s, j.dest, tree, ManifestFile(j, BaseOf(s, j), tree));
  }

  /** A release publication takes the whole payload and reuses nothing. */
  lemma ImportPlan(s: View, rel: Release, c: string)
    requires !HasManifest(s, Key(c, rel.revision))
    requires HasManifest(PublishView(s, ReleaseJob(rel, c)).1, Key(c, rel.revision))
    ensures var j := ReleaseJob(rel, c);
            && c in rel.payload && rel.payload[c].Tree? && !Occupied(s, j.dest)
            && PlanOf(s, j) == Make(BaseOf(s, j), FullCopy(rel.payload[c].items))
  {
  }

  /** The versions after the first `n` components: other versions are as they were. */
  lemma {:induction false} ImportsLeave(v: View, rel: Release, n: nat, k: Key)
    requires n <= |COMPONENTS| && PayloadsOk(rel)
    ensures var x := Run(v, Imports(rel, n));
            && (Occupied(v, k) ==> SameVersion(v, x, k))
            && (HasManifest(x, k) && !HasManifest(v, k) ==> k.revision == rel.revision && IsPayload(x, rel, k))
    decreases n
  {
    if n > 0 {
      var s, x, j := Run(v, Imports(rel, n - 1)), Run(v, Imports(rel, n)), ReleaseJob(rel, COMPONENTS[n - 1]);
      ImportsLeave(v, rel, n - 1, k);
      ImportsSnoc(v, rel, n - 1);
      if Occupied(v, k) { OccupiedSame(v, s, k); }
      if Occupied(s, k) || k != j.dest { PublishFrame(s, j, x, k); OccupiedSame(s, x, k); }
      if HasManifest(x, k) && !HasManifest(v, k) {
        if HasManifest(s, k) { IsPayloadSame(s, x, rel, k); } else { ImportBuilds(s, rel, k.component); }
      }
    }
  }

  /** Release retirement takes exactly the release-owned versions of its components that nothing keeps. */
  lemma {:induction false} SweepsLeave(v: View, rel: Release, keep: set<string>, n: nat, k: Key)
    requires n <= |COMPONENTS|
    ensures var x := Run(v, Sweeps(rel, keep, n));
            if k.component in COMPONENTS[..n] && MetaAt(v, k).Some? && MetaAt(v, k).value.releaseOwned
               && k.revision !in keep && k.revision != rel.revision
            then !Occupied(x, k) else SameVersion(v, x, k)
    decreases n
  {
    if n > 0 {
      var s := Run(v, Sweeps(rel, keep, n - 1));
      SweepsLeave(v, rel, keep, n - 1, k);
      SweepsSnoc(v, rel, keep, n - 1);
      RetiredVersion(s, ReleaseSweep(rel, COMPONENTS[n - 1], keep), k);
      assert COMPONENTS[..n] == COMPONENTS[..n - 1] + [COMPONENTS[n - 1]];
      if SameVersion(v, s, k) { OccupiedSame(v, s, k); }
    }
  }

  /** The view an import that succeeds ends with. */
  function ImportView(v: View, rel: Release): View {
    Run(Run(v, Imports(rel, |COMPONENTS|)), if rel.keep.Some? then Sweeps(rel, rel.keep.value, |COMPONENTS|) else [])
  }

  /**
   After an import each of the three components has the release's revision: as it was if it was
   published already, and otherwise the full copy of that component's own payload, owned by the
   release. Of the other versions exactly the release-owned ones that nothing keeps are gone.
   */
  lemma ImportLeavesExactly(v: View, rel: Release, k: Key)
    requires PayloadsOk(rel) && Imported(rel, |COMPONENTS|, ImportView(v, rel))
    ensures var x := ImportView(v, rel);
            var ours := k.component == "control-plane" || k.component == "frontend" || k.component == "model-server";
            && (k.revision == rel.revision && ours ==>
                  if HasManifest(v, k) then SameVersion(v, x, k) else IsPayload(x, rel, k))
            && (Occupied(v, k) ==>
                  if rel.keep.Some? && k.revision !in rel.keep.value && k.revision != rel.revision && ours
                     && MetaAt(v, k).Some? && MetaAt(v, k).value.releaseOwned
                  then !Occupied(x, k) else SameVersion(v, x, k))
  {
    var s, x := Run(v, Imports(rel, |COMPONENTS|)), ImportView(v, rel);
    ImportsLeave(v, rel, |COMPONENTS|, k);
    if rel.keep.Some? { SweepsLeave(s, rel, rel.keep.value, |COMPONENTS|, k); } else { assert x == s; }
    assert COMPONENTS[..|COMPONENTS|] == COMPONENTS;
    if Occupied(v, k) { OccupiedSame(v, s, k); }
    if k.revision == rel.revision && k.component in COMPONENTS {
      assert SameVersion(s, x, k);
      OccupiedSame(s, x, k);
      var i :| 0 <= i < |COMPONENTS| && COMPONENTS[i] == k.component;
      assert HasManifest(x, Key(COMPONENTS[i], rel.revision));
      if HasManifest(v, k) { assert InVersion(k, MANIFEST) in v; } else { IsPayloadSame(s, x, rel, k); }
    }
  }
}

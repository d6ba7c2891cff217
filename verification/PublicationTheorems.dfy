/** What publication and retirement promise over every run, including runs cut short at any visible point. */
module PublicationTheorems {
  import opened Common
  import opened Publication

  // ----- Versions -----

  /** Exports hold relative paths and leave the names of the version's own documents free. */
  predicate JobOk(j: Job) {
    j.source.Tree? ==> forall rel | rel in j.source.items :: ValidRel(rel) && !Reserved(rel)
  }

  /** A manifest lists plain relative paths and records provenance for exactly the parts it lists. */
  predicate MetaOk(m: Meta, component: string) {
    && (forall rel | rel in m.files :: ValidRel(rel) && !Reserved(rel))
    && (m.sources.Some? && m.sources.value.ByPart? ==> m.sources.value.parts.Keys == PartsOf(m.files.Keys, component))
  }

  predicate Readable(v: View) {
    forall p | p in v && p.InVersion? && p.rel == MANIFEST ::
      v[p].content.Manifest? && MetaOk(v[p].content.meta, p.key.component)
  }

  predicate NormalModes(v: View) {
    forall p | p in v && p.InVersion? && !Reserved(p.rel) :: v[p].mode == Normal(v[p].mode)
  }

  /** The application files of a version, without its two documents. */
  function Application(v: View, k: Key): map<Rel, File> {
    map rel | rel in (set p | p in v && p.InVersion? && p.key == k && !Reserved(p.rel) :: p.rel) :: v[InVersion(k, rel)]
  }

  /** A version is complete: exactly the listed files, as listed, and their package. */
  ghost predicate Complete(v: View, k: Key) {
    && MetaAt(v, k).Some?
    && var meta := MetaAt(v, k).value;
       && Application(v, k).Keys == meta.files.Keys && Listings(Application(v, k)) == meta.files
       && InVersion(k, PACKAGE) in v && v[InVersion(k, PACKAGE)].content == Package(Application(v, k))
  }

  /** Version `k` looks the same in both views. */
  ghost predicate SameVersion(v: View, x: View, k: Key) {
    forall rel :: (InVersion(k, rel) in v <==> InVersion(k, rel) in x)
                  && (InVersion(k, rel) in v ==> x[InVersion(k, rel)] == v[InVersion(k, rel)])
  }

  lemma SameVersionComplete(v: View, x: View, k: Key)
    requires SameVersion(v, x, k)
    ensures Complete(v, k) <==> Complete(x, k)
    ensures MetaAt(v, k) == MetaAt(x, k) && Application(v, k) == Application(x, k)
  {
    assert InVersion(k, MANIFEST) in v <==> InVersion(k, MANIFEST) in x;
    assert InVersion(k, PACKAGE) in v <==> InVersion(k, PACKAGE) in x;
    forall rel ensures rel in Application(v, k) <==> rel in Application(x, k) {
      assert InVersion(k, rel) in v <==> InVersion(k, rel) in x;
    }
  }

  // ----- A new or reused version is a full copy -----

  /** What a publication copies, when it gets as far as copying. */
  function Wanted(v: View, j: Job): map<Rel, File>
    requires j.source.Tree? && Inputs(v, j, BaseOf(v, j)).Ok?
  {
    FullCopy(Inputs(v, j, BaseOf(v, j)).value)
  }

  lemma WantedIsPlain(v: View, j: Job)
    requires JobOk(j) && Readable(v) && j.source.Tree? && Inputs(v, j, BaseOf(v, j)).Ok?
    ensures forall rel | rel in Wanted(v, j) ::
              ValidRel(rel) && !Reserved(rel) && Wanted(v, j)[rel].mode == Normal(Wanted(v, j)[rel].mode)
  {
    forall rel | rel in Wanted(v, j)
      ensures ValidRel(rel) && !Reserved(rel) && Wanted(v, j)[rel].mode == Normal(Wanted(v, j)[rel].mode)
    {
    }
  }

  lemma PlacedVersion(v: View, k: Key, tree: map<Rel, File>, manifest: File)
    requires !Occupied(v, k) && forall rel | rel in tree :: !Reserved(rel)
    ensures var x := v + Placed(k, VersionFiles(tree, manifest));
            && Application(x, k) == tree
            && InVersion(k, MANIFEST) in x && x[InVersion(k, MANIFEST)] == manifest
            && InVersion(k, PACKAGE) in x && x[InVersion(k, PACKAGE)] == File(Package(tree), READ_ONLY)
  {
    var files := VersionFiles(tree, manifest);
    var x := v + Placed(k, files);
    forall rel ensures InVersion(k, rel) in x <==> rel in files {
      assert InVersion(k, rel) in v ==> Occupied(v, k);
    }
    forall rel ensures rel in Application(x, k) <==> rel in tree {
      assert rel in Application(x, k) <==> InVersion(k, rel) in x && !Reserved(rel);
    }
  }

  /** A publication that does anything visible to a version builds its own, absent, destination. */
  lemma PublishFrame(v: View, j: Job, x: View, k: Key)
    requires Stage(v, j, x)
    requires k != j.dest || Occupied(v, k)
    ensures SameVersion(v, x, k)
  {
  }

  /**
   The version a publication builds or reuses holds exactly the selected parts of the export and
   the unselected parts of the previous manifest, with the bytes and published modes of a full copy.
   */
  lemma PublishedIsFullCopy(v: View, j: Job)
    requires JobOk(j) && Readable(v) && NormalModes(v) && !HasManifest(v, j.dest) && PublishView(v, j).0.Ok?
    requires j.previous.Some? && HasManifest(v, Key(j.dest.component, j.previous.value)) ==>
               Complete(v, Key(j.dest.component, j.previous.value))
    ensures var (r, x) := PublishView(v, j);
            && j.source.Tree? && Inputs(v, j, BaseOf(v, j)).Ok?
            && Application(x, r.value) == Wanted(v, j)
            && MetaAt(x, r.value).Some? && MetaAt(x, r.value).value.files == Listings(Wanted(v, j))
            && (r.value == j.dest || (x == v && j.reusePrevious && r.value == Key(j.dest.component, j.previous.value)))
  {
    WantedIsPlain(v, j);
    match PlanOf(v, j) {
      case Stop(_) => ReusedIsFullCopy(v, j);
      case Make(base, tree) =>
        var manifest := ManifestFile(j, base, tree);
        var v2 := EvidenceView(ArchiveView(v, j, PartsOf(tree.Keys, j.dest.component)), j, manifest);
        PlacedVersion(v2, j.dest, tree, manifest);
    }
  }

  lemma ReusedIsFullCopy(v: View, j: Job)
    requires JobOk(j) && j.source.Tree? && Inputs(v, j, BaseOf(v, j)).Ok? && j.previous.Some?
    requires Unchanged(v, j, BaseOf(v, j), Wanted(v, j))
    requires Complete(v, Key(j.dest.component, j.previous.value)) && NormalModes(v)
    ensures Application(v, Key(j.dest.component, j.previous.value)) == Wanted(v, j)
  {
    var k := Key(j.dest.component, j.previous.value);
    forall rel | rel in Wanted(v, j) ensures Application(v, k)[rel] == Wanted(v, j)[rel] {
      assert Same(v, k, rel, Wanted(v, j)[rel]);
      assert rel in Listings(Wanted(v, j));
      assert rel in Application(v, k) && Application(v, k)[rel] == v[InVersion(k, rel)];
    }
    assert Application(v, k).Keys == Listings(Wanted(v, j)).Keys == Wanted(v, j).Keys;
  }

  lemma WantedSelected(v: View, j: Job, rel: Rel)
    requires j.source.Tree? && Inputs(v, j, BaseOf(v, j)).Ok? && Selected(j, rel)
    ensures rel in Wanted(v, j) <==> rel in j.source.items && j.source.items[rel].Regular?
    ensures rel in Wanted(v, j) ==>
              Wanted(v, j)[rel] == File(j.source.items[rel].file.content, Normal(j.source.items[rel].file.mode))
  {
  }

  lemma WantedUnselected(v: View, j: Job, k: Key, rel: Rel)
    requires j.source.Tree? && Inputs(v, j, BaseOf(v, j)).Ok? && !Selected(j, rel)
    requires j.previous == Some(k.revision) && k.component == j.dest.component
    requires Readable(v) && NormalModes(v) && Complete(v, k)
    ensures rel in Wanted(v, j) <==> rel in Application(v, k)
    ensures rel in Wanted(v, j) ==> Wanted(v, j)[rel] == Application(v, k)[rel]
  {
    if rel in MetaAt(v, k).value.files {
      assert rel in Application(v, k);
      assert PriorItem(v, k, rel) == Regular(v[InVersion(k, rel)]);
    }
  }

  /**
   Incremental publication refines a full copy, part by part: a selected part is the export's and
   nothing of the previous version survives in it; an unselected part is the previous version's.
   */
  lemma IncrementalRefinesFullCopy(v: View, j: Job, rel: Rel)
    requires JobOk(j) && Readable(v) && NormalModes(v) && !HasManifest(v, j.dest) && PublishView(v, j).0.Ok?
    requires j.previous.Some? && HasManifest(v, Key(j.dest.component, j.previous.value)) ==>
               Complete(v, Key(j.dest.component, j.previous.value))
    ensures var (r, x) := PublishView(v, j);
            var built := Application(x, r.value);
            && j.source.Tree?
            && (Selected(j, rel) ==>
                  && (rel in built <==> rel in j.source.items && j.source.items[rel].Regular?)
                  && (rel in built ==> built[rel] == File(j.source.items[rel].file.content, Normal(j.source.items[rel].file.mode))))
            && (!Selected(j, rel) ==>
                  && j.previous.Some?
                  && var prior := Application(v, Key(j.dest.component, j.previous.value));
                     (rel in built <==> rel in prior) && (rel in built ==> built[rel] == prior[rel]))
  {
    PublishedIsFullCopy(v, j);
    if Selected(j, rel) {
      WantedSelected(v, j, rel);
    } else {
      assert BaseOf(v, j).Some?;
      WantedUnselected(v, j, Key(j.dest.component, j.previous.value), rel);
    }
  }

  // ----- History -----

  /** No retirement of the run, finished or not, selects version `k`. */
  predicate Spared(v: View, events: seq<Event>, k: Key)
    decreases |events|
  {
    events != [] ==>
    && (events[0].Retire? || events[0].RetireDies? ==> !Retires(v, events[0].sweep, k))
    && Spared(Next(v, events[0]), events[1..], k)
  }

  lemma StepKeepsVersion(v: View, e: Event, k: Key)
    requires Occupied(v, k)
    requires e.Retire? || e.RetireDies? ==> !Retires(v, e.sweep, k)
    ensures SameVersion(v, Next(v, e), k) && Occupied(Next(v, e), k)
  {
    if e.Publish? {
      PublishFrame(v, e.job, Next(v, e), k);
    } else if e.PublishDies? && Stage(v, e.job, e.x) {
      PublishFrame(v, e.job, e.x, k);
    }
    var p :| p in v && p.InVersion? && p.key == k;
    assert InVersion(k, p.rel) in Next(v, e);
  }

  /** Publishing never damages history: a version that no retirement selects keeps its bytes and modes. */
  lemma {:induction false} HistoryKept(v: View, events: seq<Event>, k: Key)
    requires Occupied(v, k) && Spared(v, events, k)
    ensures SameVersion(v, Run(v, events), k) && Occupied(Run(v, events), k)
    decreases |events|
  {
    if events != [] {
      StepKeepsVersion(v, events[0], k);
      HistoryKept(Next(v, events[0]), events[1..], k);
    }
  }

  // ----- Complete versions -----

  /** Every version with a manifest is complete, except those whose removal was cut short. */
  ghost predicate Sound(v: View, hurt: set<Key>) {
    && Readable(v) && NormalModes(v)
    && forall k {:trigger Complete(v, k)} | HasManifest(v, k) && k !in hurt :: Complete(v, k)
  }

  /** The versions a step may leave half removed. */
  function Hurts(v: View, e: Event): set<Key> {
    if e.RetireDies? then set p | p in v && p.InVersion? && Retires(v, e.sweep, p.key) :: p.key else {}
  }

  function Hurt(v: View, events: seq<Event>): set<Key>
    decreases |events|
  {
    if events == [] then {} else Hurts(v, events[0]) + Hurt(Next(v, events[0]), events[1..])
  }

  predicate EventOk(e: Event) {
    e.Publish? || e.PublishDies? ==> JobOk(e.job)
  }

  /** The manifest a publication writes is well formed. */
  lemma BuiltMetaOk(v: View, j: Job)
    requires JobOk(j) && Readable(v) && PlanOf(v, j).Make?
    requires var Make(base, tree) := PlanOf(v, j); WithEvidence(j) ==> Adoptable(j, base, PartsOf(tree.Keys, j.dest.component))
    ensures var Make(base, tree) := PlanOf(v, j);
            var m := ManifestFile(j, base, tree);
            m.content.Manifest? && MetaOk(m.content.meta, j.dest.component)
            && (forall rel | rel in tree :: !Reserved(rel) && tree[rel].mode == Normal(tree[rel].mode))
  {
    WantedIsPlain(v, j);
    var Make(base, tree) := PlanOf(v, j);
    assert Listings(tree).Keys == tree.Keys;
  }

  lemma BuiltIsComplete(v: View, k: Key, tree: map<Rel, File>, manifest: File)
    requires !Occupied(v, k) && forall rel | rel in tree :: !Reserved(rel)
    requires manifest.content.Manifest? && manifest.content.meta.files == Listings(tree)
    ensures Complete(v + Placed(k, VersionFiles(tree, manifest)), k)
  {
    PlacedVersion(v, k, tree, manifest);
    assert Listings(tree).Keys == tree.Keys;
  }

  /** The two views hold the same version directories. */
  ghost predicate SameVersions(v: View, x: View) {
    forall p: Path | p.InVersion? :: (p in v <==> p in x) && (p in v ==> x[p] == v[p])
  }

  lemma SameVersionsSound(v: View, x: View, hurt: set<Key>)
    requires Sound(v, hurt) && SameVersions(v, x)
    ensures Sound(x, hurt)
  {
    forall k {:trigger Complete(x, k)} | HasManifest(x, k) && k !in hurt ensures Complete(x, k) {
      assert Complete(v, k);
      SameVersionComplete(v, x, k);
    }
  }

  lemma PlacingSound(v: View, k: Key, tree: map<Rel, File>, manifest: File, hurt: set<Key>)
    requires Sound(v, hurt) && !Occupied(v, k)
    requires forall rel | rel in tree :: !Reserved(rel) && tree[rel].mode == Normal(tree[rel].mode)
    requires manifest.content.Manifest? && manifest.content.meta.files == Listings(tree)
    requires MetaOk(manifest.content.meta, k.component)
    ensures Sound(v + Placed(k, VersionFiles(tree, manifest)), hurt)
  {
    var x := v + Placed(k, VersionFiles(tree, manifest));
    BuiltIsComplete(v, k, tree, manifest);
    forall h {:trigger Complete(x, h)} | HasManifest(x, h) && h !in hurt ensures Complete(x, h) {
      if h != k {
        assert Complete(v, h);
        SameVersionComplete(v, x, h);
      }
    }
  }

  lemma DocumentsSound(v: View, j: Job, parts: set<Part>, manifest: File, hurt: set<Key>)
    requires Sound(v, hurt)
    ensures Sound(ArchiveView(v, j, parts), hurt)
    ensures Sound(EvidenceView(ArchiveView(v, j, parts), j, manifest), hurt)
  {
    SameVersionsSound(v, ArchiveView(v, j, parts), hurt);
    SameVersionsSound(v, EvidenceView(ArchiveView(v, j, parts), j, manifest), hurt);
  }

  lemma MakeKeepsSound(v: View, j: Job, base: Option<Meta>, tree: map<Rel, File>, hurt: set<Key>)
    requires Sound(v, hurt) && JobOk(j) && PlanOf(v, j) == Make(base, tree)
    ensures Sound(MakeView(v, j, base, tree).1, hurt)
  {
    var parts := PartsOf(tree.Keys, j.dest.component);
    if WithEvidence(j) && !Adoptable(j, base, parts) {
      DocumentsSound(v, j, parts, File(Raw([]), READ_ONLY), hurt);
    } else {
      var manifest := ManifestFile(j, base, tree);
      DocumentsSound(v, j, parts, manifest, hurt);
      BuiltMetaOk(v, j);
      var v2 := EvidenceView(ArchiveView(v, j, parts), j, manifest);
      if !Occupied(v2, j.dest) { PlacingSound(v2, j.dest, tree, manifest, hurt); }
    }
  }

  lemma PublishKeepsSound(v: View, j: Job, x: View, hurt: set<Key>)
    requires Sound(v, hurt) && JobOk(j) && Stage(v, j, x)
    ensures Sound(x, hurt)
  {
    if x != v {
      var Make(base, tree) := PlanOf(v, j);
      MakeKeepsSound(v, j, base, tree, hurt);
      var parts := PartsOf(tree.Keys, j.dest.component);
      DocumentsSound(v, j, parts, File(Raw([]), READ_ONLY), hurt);
      if !WithEvidence(j) || Adoptable(j, base, parts) {
        DocumentsSound(v, j, parts, ManifestFile(j, base, tree), hurt);
      }
    }
  }

  lemma SweepKeepsSound(v: View, w: Sweep, x: View, hurt: set<Key>, more: set<Key>)
    requires Sound(v, hurt) && Sweeping(v, w, x)
    requires forall k {:trigger Retires(v, w, k)} | Retires(v, w, k) && HasManifest(x, k) :: k in more
    ensures Sound(x, hurt + more)
  {
    forall k {:trigger Complete(x, k)} | HasManifest(x, k) && k !in hurt + more ensures Complete(x, k) {
      assert !Retires(v, w, k);
      assert Complete(v, k);
      SameVersionComplete(v, x, k);
    }
  }

  lemma StepKeepsSound(v: View, e: Event, hurt: set<Key>)
    requires Sound(v, hurt) && EventOk(e)
    ensures Sound(Next(v, e), hurt + Hurts(v, e))
  {
    assert hurt + {} == hurt;
    match e
    case Publish(j) => PublishKeepsSound(v, j, Next(v, e), hurt);
    case PublishDies(j, x) => if Stage(v, j, x) { PublishKeepsSound(v, j, x, hurt); }
    case Retire(w) => SweepKeepsSound(v, w, Next(v, e), hurt, {});
    case RetireDies(w, x) =>
      if Sweeping(v, w, x) {
        SweepKeepsSound(v, w, x, hurt, Hurts(v, e));
      }
    case Record(b) => SameVersionsSound(v, Next(v, e), hurt);
  }

  /** Over every run a version with a manifest is complete unless a retirement of it died half way. */
  lemma {:induction false} ManifestMeansComplete(v: View, events: seq<Event>, hurt: set<Key>)
    requires Sound(v, hurt) && forall i | 0 <= i < |events| :: EventOk(events[i])
    ensures Sound(Run(v, events), hurt + Hurt(v, events))
    decreases |events|
  {
    if events == [] {
      assert hurt + {} == hurt;
    } else {
      StepKeepsSound(v, events[0], hurt);
      ManifestMeansComplete(Next(v, events[0]), events[1..], hurt + Hurts(v, events[0]));
      assert hurt + Hurts(v, events[0]) + Hurt(Next(v, events[0]), events[1..]) == hurt + Hurt(v, events);
    }
  }

  /**
   A retirement that dies may leave a manifest without its files. It is harmless to a complete
   version, wherever it stops, exactly when it does not select that version.
   */
  lemma DyingRetirement(v: View, w: Sweep, k: Key)
    requires Complete(v, k)
    ensures (forall x | Sweeping(v, w, x) :: HasManifest(x, k) ==> Complete(x, k)) <==> !Retires(v, w, k)
  {
    if Retires(v, w, k) {
      var x := v - {InVersion(k, PACKAGE)};
      assert Sweeping(v, w, x) && HasManifest(x, k) && !Complete(x, k);
    } else {
      forall x | Sweeping(v, w, x) && HasManifest(x, k) ensures Complete(x, k) {
        SameVersionComplete(v, x, k);
      }
    }
  }

  /** Files whose manifest is gone are never removed, and their version is never published again. */
  lemma {:induction false} LeftoversAreForever(v: View, events: seq<Event>, k: Key)
    requires Occupied(v, k) && !HasManifest(v, k)
    ensures Occupied(Run(v, events), k) && !HasManifest(Run(v, events), k) && SameVersion(v, Run(v, events), k)
    decreases |events|
  {
    if events != [] {
      StepKeepsVersion(v, events[0], k);
      var x := Next(v, events[0]);
      assert InVersion(k, MANIFEST) in v <==> InVersion(k, MANIFEST) in x;
      LeftoversAreForever(x, events[1..], k);
    }
  }
}

/** Source provenance along chains of full and partial publications, and the archives it names. */
module PublicationProvenance {
  import opened Common
  import opened Publication
  import opened PublicationTheorems

  /** The publication builds its destination. */
  predicate Builds(v: View, j: Job) {
    PlanOf(v, j).Make? && PublishView(v, j).0 == Ok(j.dest)
  }

  /** What a manifest records for one of its parts. */
  function RecordedAt(v: View, k: Key, part: Part): Option<Fields> {
    if MetaAt(v, k).Some? then Recorded(MetaAt(v, k).value.sources, part) else None
  }

  predicate HasPart(v: View, k: Key, part: Part) {
    MetaAt(v, k).Some? && part in PartsOf(MetaAt(v, k).value.files.Keys, k.component)
  }

  /** What a publication's own provenance says about a part it supplies. */
  function Own(j: Job, part: Part): Fields
    requires j.sources.Some?
  {
    ForPart(j.sources.value["archive" := j.archiveUrl], part)
  }

  /** A part the publication does not supply was already a part of the previous version. */
  lemma UnsuppliedPartIsPrior(v: View, j: Job, part: Part)
    requires Builds(v, j) && !Supplies(j, part) && HasPart(PublishView(v, j).1, j.dest, part)
    ensures j.previous.Some? && HasPart(v, Key(j.dest.component, j.previous.value), part)
  {
    var Make(base, tree) := PlanOf(v, j);
    var rel :| rel in tree && PartOf(rel, j.dest.component) == part;
    assert rel in base.value.files;
  }

  /** What a publication with sources records for a part on its own account; only a kept archive is named. */
  function Account(j: Job, part: Part): Fields
    requires j.sources.Some?
  {
    if j.archive.Some? then Own(j, part) else ForPart(j.sources.value, part)
  }

  /** A build that carries sources and their archive takes over the record of the parts it does not supply. */
  lemma LinkRecords(v: View, j: Job, part: Part)
    requires Builds(v, j) && HasPart(PublishView(v, j).1, j.dest, part)
    ensures var got := RecordedAt(PublishView(v, j).1, j.dest, part);
            if j.sources.None? then got == None
            else if Supplies(j, part) || j.archive.None? then got == Some(Account(j, part))
            else j.previous.Some? && got == RecordedAt(v, Key(j.dest.component, j.previous.value), part)
  {
    if !Supplies(j, part) { UnsuppliedPartIsPrior(v, j, part); }
  }

  // ----- Reuse -----

  /** A publication whose destination is new either builds it or, exactly if nothing changed, reuses the previous version. */
  lemma BuildsUnlessUnchanged(v: View, j: Job)
    requires !HasManifest(v, j.dest) && PublishView(v, j).0.Ok?
    ensures j.source.Tree? && Inputs(v, j, BaseOf(v, j)).Ok?
    ensures Unchanged(v, j, BaseOf(v, j), Wanted(v, j)) ==>
              j.previous.Some? && PublishView(v, j) == (Ok(Key(j.dest.component, j.previous.value)), v)
    ensures !Unchanged(v, j, BaseOf(v, j), Wanted(v, j)) <==> Builds(v, j)
  {
  }

  /** `j2` submits the export of `j` once more, as the next revision, whatever its sources are. */
  predicate Resubmits(j: Job, j2: Job) {
    && j2.source == j.source && j2.dest.component == j.dest.component && j2.previous == Some(j.dest.revision)
    && j2.reusePrevious && j2.parts.None? && j.parts.None? && !j.releaseOwned && j2.binding == j.binding
    && j2.image == j.image && j2.preparation == j.preparation
  }

  /**
   An export submitted again unchanged is reused with its old provenance: the new publication's own
   sources and archive are recorded nowhere.
   */
  lemma IdenticalExportKeepsOldSources(v: View, j: Job, j2: Job, part: Part)
    requires Builds(v, j) && JobOk(j) && Resubmits(j, j2) && !HasManifest(PublishView(v, j).1, j2.dest)
    ensures var x := PublishView(v, j).1;
            && PublishView(x, j2) == (Ok(j.dest), x)
            && (HasPart(x, j.dest, part) ==>
                  RecordedAt(x, j.dest, part) == if j.sources.Some? then Some(Account(j, part)) else None)
  {
    var x := PublishView(v, j).1;
    var Make(base, tree) := PlanOf(v, j);
    var manifest := ManifestFile(j, base, tree);
    var v2 := EvidenceView(ArchiveView(v, j, PartsOf(tree.Keys, j.dest.component)), j, manifest);
    PlacedVersion(v2, j.dest, tree, manifest);
    assert tree == FullCopy(j.source.items) == Wanted(x, j2);
    forall rel | rel in tree ensures Same(x, j.dest, rel, tree[rel]) {
      assert rel in Application(x, j.dest) && Application(x, j.dest)[rel] == x[InVersion(j.dest, rel)];
    }
    assert Unchanged(x, j2, BaseOf(x, j2), tree);
    if HasPart(x, j.dest, part) { LinkRecords(v, j, part); }
  }

  // ----- Chains -----

  /**
   A publication on view `before` that ends with `version`, and what happens on the volume until view
   `after` of the next one of the chain.
   */
  datatype Link = Link(before: View, job: Job, version: Key, between: seq<Event>, after: View)

  /** The publication left the view alone and found `k`: the reused previous version, or its own from an earlier run. */
  predicate Finds(link: Link, k: Key) {
    link.version == k && PublishView(link.before, link.job) == (Ok(k), link.before)
  }

  predicate Built(link: Link) {
    link.version == link.job.dest && Builds(link.before, link.job)
  }

  /**
   Each publication builds on the previous one's version, or finds that version, which nobody retires
   meanwhile. The first publication of a chain builds a full version, from a release or from source.
   */
  predicate LinkOk(links: seq<Link>, i: nat)
    requires i < |links|
  {
    var Link(before, job, version, between, after) := links[i];
    && Spared(PublishView(before, job).1, between, version) && after == Run(PublishView(before, job).1, between)
    && (i == 0 ==> Built(links[i]) && job.parts.None?)
    && (i > 0 ==> && before == links[i - 1].after && job.previous == Some(links[i - 1].version.revision)
                  && job.dest.component == links[i - 1].version.component
                  && (Built(links[i]) || Finds(links[i], links[i - 1].version)))
  }

  ghost predicate Chain(links: seq<Link>) {
    forall i: nat {:trigger LinkOk(links, i)} | i < |links| :: LinkOk(links, i)
  }

  /** What link `i` leaves recorded for a part. */
  function Got(links: seq<Link>, i: nat, part: Part): Option<Fields>
    requires i < |links|
  {
    RecordedAt(links[i].after, links[i].version, part)
  }

  predicate Has(links: seq<Link>, i: nat, part: Part)
    requires i < |links|
  {
    HasPart(links[i].after, links[i].version, part)
  }

  lemma BetweenKeeps(link: Link, part: Part)
    requires HasManifest(PublishView(link.before, link.job).1, link.version)
    requires Spared(PublishView(link.before, link.job).1, link.between, link.version)
    requires link.after == Run(PublishView(link.before, link.job).1, link.between)
    ensures RecordedAt(link.after, link.version, part) == RecordedAt(PublishView(link.before, link.job).1, link.version, part)
    ensures HasPart(link.after, link.version, part) == HasPart(PublishView(link.before, link.job).1, link.version, part)
    ensures HasManifest(link.after, link.version)
  {
    var x := PublishView(link.before, link.job).1;
    assert InVersion(link.version, MANIFEST) in x;
    HistoryKept(x, link.between, link.version);
    SameVersionComplete(x, link.after, link.version);
    assert InVersion(link.version, MANIFEST) in link.after;
  }

  /** The version of every link is there. */
  lemma {:induction false} VersionIsThere(links: seq<Link>, i: nat, part: Part)
    requires Chain(links) && i < |links|
    ensures HasManifest(PublishView(links[i].before, links[i].job).1, links[i].version)
    ensures HasManifest(links[i].after, links[i].version)
    ensures Got(links, i, part) == RecordedAt(PublishView(links[i].before, links[i].job).1, links[i].version, part)
    ensures Has(links, i, part) == HasPart(PublishView(links[i].before, links[i].job).1, links[i].version, part)
    decreases i
  {
    assert LinkOk(links, i);
    if i > 0 { VersionIsThere(links, i - 1, part); }
    if Built(links[i]) { assert InVersion(links[i].version, MANIFEST) in PublishView(links[i].before, links[i].job).1; }
    BetweenKeeps(links[i], part);
  }

  /** What matters of one publication for the record of a part. */
  datatype Facts = Facts(built: bool, supplies: bool, sourced: bool, archived: bool)

  function FactsOf(link: Link, part: Part): Facts {
    Facts(Built(link), Supplies(link.job, part), link.job.sources.Some?, link.job.archive.Some?)
  }

  function FactsAlong(links: seq<Link>, part: Part): seq<Facts> {
    seq(|links|, i requires 0 <= i < |links| => FactsOf(links[i], part))
  }

  /** A build without sources erases the record; one that supplies the part, or keeps no archive, writes its own. */
  predicate Erases(f: Facts) {
    f.built && !f.sourced
  }

  predicate Signs(f: Facts) {
    f.built && f.sourced && (f.supplies || !f.archived)
  }

  lemma LinkGot(links: seq<Link>, i: nat, part: Part)
    requires i < |links| && Chain(links) && Has(links, i, part)
    ensures var f := FactsOf(links[i], part);
            var got := Got(links, i, part);
            if Erases(f) then got == None
            else if Signs(f) then got == Some(Account(links[i].job, part))
            else i > 0 && Has(links, i - 1, part) && got == Got(links, i - 1, part)
  {
    assert LinkOk(links, i);
    VersionIsThere(links, i, part);
    if Built(links[i]) {
      LinkRecords(links[i].before, links[i].job, part);
      if !Supplies(links[i].job, part) { UnsuppliedPartIsPrior(links[i].before, links[i].job, part); }
    }
  }

  /** The publication on whose account a part is recorded after number `i`; none if the record was erased. */
  function Author(facts: seq<Facts>, i: nat): (a: Option<nat>)
    requires i < |facts|
    ensures a.Some? ==> a.value <= i && Signs(facts[a.value])
  {
    if Erases(facts[i]) then None
    else if Signs(facts[i]) then Some(i)
    else if i == 0 then None
    else Author(facts, i - 1)
  }

  /** Along any chain of full, partial, reusing and repeated publications a part carries exactly its author's account. */
  lemma {:induction false} RecordIsTheAuthors(links: seq<Link>, i: nat, part: Part)
    requires Chain(links) && i < |links| && Has(links, i, part)
    ensures var a := Author(FactsAlong(links, part), i);
            Got(links, i, part) == if a.Some? then Some(Account(links[a.value].job, part)) else None
    decreases i
  {
    LinkGot(links, i, part);
    if i > 0 && Has(links, i - 1, part) { RecordIsTheAuthors(links, i - 1, part); }
  }

  predicate LastSupplier(facts: seq<Facts>, m: nat, i: nat) {
    m <= i < |facts| && facts[m].supplies && forall h | m < h <= i :: !facts[h].supplies
  }

  /**
   The author is the last publication that supplied the part exactly when that one built its version,
   rather than reuse an unchanged one, with sources, and every later build carried sources and archive.
   */
  lemma {:induction false} AuthorIsLastSupplier(facts: seq<Facts>, m: nat, i: nat)
    requires LastSupplier(facts, m, i)
    ensures Author(facts, i) == Some(m) <==>
              && facts[m].built && facts[m].sourced
              && forall h | m < h <= i && facts[h].built :: facts[h].sourced && facts[h].archived
    decreases i
  {
    if m < i { AuthorIsLastSupplier(facts, m, i - 1); }
  }

  /**
   Each part records, along any chain, its last supplier's account exactly under that condition;
   otherwise it records an earlier or later author's, or nothing.
   */
  lemma ProvenanceOfLastSupplier(links: seq<Link>, part: Part, m: nat, i: nat)
    requires Chain(links) && i < |links| && Has(links, i, part) && LastSupplier(FactsAlong(links, part), m, i)
    ensures var a := Author(FactsAlong(links, part), i);
            && Got(links, i, part) == (if a.Some? then Some(Account(links[a.value].job, part)) else None)
            && (a == Some(m) <==>
                  && Built(links[m]) && links[m].job.sources.Some?
                  && forall h | m < h <= i && Built(links[h]) :: links[h].job.sources.Some? && links[h].job.archive.Some?)
  {
    var facts := FactsAlong(links, part);
    AuthorIsLastSupplier(facts, m, i);
    RecordIsTheAuthors(links, i, part);
    assert forall h | 0 <= h <= i :: facts[h] == FactsOf(links[h], part);
  }

  // ----- Archives -----

  function ArchiveUrl(endpoint: string, k: Key): string {
    endpoint + "/sources/" + k.component + "/" + k.revision + ".tar.gz"
  }

  /** The archive these fields name, if any, is stored. */
  predicate Stored(endpoint: string, v: View, fields: Fields) {
    "archive" in fields ==> exists p | p in v :: p.Archive? && fields["archive"] == ArchiveUrl(endpoint, p.key)
  }

  predicate Backed(endpoint: string, v: View, m: Meta) {
    forall part: Part :: Recorded(m.sources, part).Some? ==> Stored(endpoint, v, Recorded(m.sources, part).value)
  }

  predicate IsManifest(p: Path) {
    p.Evidence? || (p.InVersion? && p.rel == MANIFEST)
  }

  /**
   Every archive named by a manifest, of a version or kept as evidence, is stored, and a version with
   part-wise provenance has its manifest kept as evidence.
   */
  ghost predicate Proven(endpoint: string, v: View) {
    && (forall p {:trigger IsManifest(p)} | p in v && IsManifest(p) && v[p].content.Manifest? ::
          Backed(endpoint, v, v[p].content.meta))
    && (forall k {:trigger MetaAt(v, k)} | MetaAt(v, k).Some? ::
          MetaAt(v, k).value.sources.Some? && MetaAt(v, k).value.sources.value.ByPart? ==>
            Evidence(k) in v && v[Evidence(k)] == v[InVersion(k, MANIFEST)])
  }

  /** The archive URL a batch passes is that of the destination's archive. */
  predicate UrlOk(endpoint: string, j: Job) {
    && (WithEvidence(j) ==> j.archiveUrl == ArchiveUrl(endpoint, j.dest))
    && (j.sources.Some? ==> "archive" !in j.sources.value)
  }

  predicate ArchivesGrow(v: View, x: View) {
    forall p | p in v && p.Archive? :: p in x
  }

  lemma SuppliedIsStored(endpoint: string, v: View, j: Job, parts: set<Part>, part: Part)
    requires UrlOk(endpoint, j) && WithEvidence(j) && part in parts && Supplies(j, part)
    ensures Stored(endpoint, ArchiveView(v, j, parts), Own(j, part))
  {
    assert j.parts.Some? ==> part in parts * j.parts.value;
    var p := Archive(j.dest);
    assert p in ArchiveView(v, j, parts) && p.Archive? && Own(j, part)["archive"] == ArchiveUrl(endpoint, p.key);
  }

  /** The archives of a new manifest are stored before the manifest can be seen. */
  lemma NewManifestBacked(endpoint: string, v: View, j: Job, base: Option<Meta>, parts: set<Part>)
    requires UrlOk(endpoint, j) && (base.Some? ==> Backed(endpoint, v, base.value))
    requires WithEvidence(j) ==> Adoptable(j, base, parts)
    ensures var m := SourcesFor(j, base, parts);
            forall part: Part :: Recorded(m, part).Some? ==>
              Stored(endpoint, ArchiveView(v, j, parts), Recorded(m, part).value)
  {
    var m := SourcesFor(j, base, parts);
    forall part: Part | Recorded(m, part).Some? ensures Stored(endpoint, ArchiveView(v, j, parts), Recorded(m, part).value) {
      if WithEvidence(j) && part in parts && Supplies(j, part) {
        SuppliedIsStored(endpoint, v, j, parts, part);
      }
    }
  }

  predicate PartWise(m: Meta) {
    m.sources.Some? && m.sources.value.ByPart?
  }

  predicate Kept(v: View, x: View, p: Path) {
    p in v && p in x && x[p] == v[p]
  }

  lemma ProvenStep(endpoint: string, v: View, x: View)
    requires Proven(endpoint, v) && ArchivesGrow(v, x)
    requires forall p {:trigger IsManifest(p)} | p in x && IsManifest(p) && x[p].content.Manifest? ::
               Kept(v, x, p) || Backed(endpoint, x, x[p].content.meta)
    requires forall k {:trigger MetaAt(x, k)} | MetaAt(x, k).Some? && PartWise(MetaAt(x, k).value) ::
               || (Kept(v, x, InVersion(k, MANIFEST)) && (Evidence(k) in v ==> Kept(v, x, Evidence(k))))
               || (Evidence(k) in x && x[Evidence(k)] == x[InVersion(k, MANIFEST)])
    ensures Proven(endpoint, x)
  {
    forall p {:trigger IsManifest(p)} | p in x && IsManifest(p) && x[p].content.Manifest?
      ensures Backed(endpoint, x, x[p].content.meta)
    {
      assert Kept(v, x, p) ==> Backed(endpoint, v, v[p].content.meta);
    }
    forall k {:trigger MetaAt(x, k)} | MetaAt(x, k).Some? && PartWise(MetaAt(x, k).value)
      ensures Evidence(k) in x && x[Evidence(k)] == x[InVersion(k, MANIFEST)]
    {
      assert Kept(v, x, InVersion(k, MANIFEST)) ==> MetaAt(v, k) == MetaAt(x, k);
    }
  }

  /** The views of a publication up to its evidence. */
  lemma DocumentsProven(endpoint: string, v: View, j: Job, base: Option<Meta>, tree: map<Rel, File>)
    requires Proven(endpoint, v) && UrlOk(endpoint, j) && !HasManifest(v, j.dest)
    requires base.Some? ==> Backed(endpoint, v, base.value)
    requires WithEvidence(j) ==> Adoptable(j, base, PartsOf(tree.Keys, j.dest.component))
    ensures var v1 := ArchiveView(v, j, PartsOf(tree.Keys, j.dest.component));
            var m := ManifestFile(j, base, tree);
            Backed(endpoint, v1, m.content.meta) && Proven(endpoint, EvidenceView(v1, j, m))
  {
    var v1 := ArchiveView(v, j, PartsOf(tree.Keys, j.dest.component));
    var m := ManifestFile(j, base, tree);
    NewManifestBacked(endpoint, v, j, base, PartsOf(tree.Keys, j.dest.component));
    var v2 := EvidenceView(v1, j, m);
    forall p {:trigger IsManifest(p)} | p in v2 && IsManifest(p) && v2[p].content.Manifest?
      ensures Kept(v, v2, p) || Backed(endpoint, v2, v2[p].content.meta)
    {
    }
    forall k {:trigger MetaAt(v2, k)} | MetaAt(v2, k).Some?
      ensures Kept(v, v2, InVersion(k, MANIFEST)) && (Evidence(k) in v ==> Kept(v, v2, Evidence(k)))
    {
      assert InVersion(k, MANIFEST) in v2;
    }
    ProvenStep(endpoint, v, v2);
  }

  lemma ArchiveProven(endpoint: string, v: View, j: Job, parts: set<Part>)
    requires Proven(endpoint, v)
    ensures Proven(endpoint, ArchiveView(v, j, parts))
  {
    var v1 := ArchiveView(v, j, parts);
    forall k {:trigger MetaAt(v1, k)} | MetaAt(v1, k).Some? ensures Kept(v, v1, InVersion(k, MANIFEST)) {
      assert InVersion(k, MANIFEST) in v1;
    }
    ProvenStep(endpoint, v, v1);
  }

  /** Moving the finished version into place, its evidence being there. */
  lemma PlacingProven(endpoint: string, v: View, k: Key, tree: map<Rel, File>, manifest: File)
    requires Proven(endpoint, v) && manifest.content.Manifest? && Backed(endpoint, v, manifest.content.meta)
    requires PartWise(manifest.content.meta) ==> Evidence(k) in v && v[Evidence(k)] == manifest
    ensures Proven(endpoint, v + Placed(k, VersionFiles(tree, manifest)))
  {
    var x := v + Placed(k, VersionFiles(tree, manifest));
    assert InVersion(k, MANIFEST) in Placed(k, VersionFiles(tree, manifest));
    forall p {:trigger IsManifest(p)} | p in x && IsManifest(p) && x[p].content.Manifest?
      ensures Kept(v, x, p) || Backed(endpoint, x, x[p].content.meta)
    {
    }
    forall h {:trigger MetaAt(x, h)} | MetaAt(x, h).Some? && PartWise(MetaAt(x, h).value)
      ensures (Kept(v, x, InVersion(h, MANIFEST)) && (Evidence(h) in v ==> Kept(v, x, Evidence(h))))
              || (Evidence(h) in x && x[Evidence(h)] == x[InVersion(h, MANIFEST)])
    {
      assert h != k ==> Kept(v, x, InVersion(h, MANIFEST));
    }
    ProvenStep(endpoint, v, x);
  }

  lemma BaseBacked(endpoint: string, v: View, j: Job)
    requires Proven(endpoint, v)
    ensures BaseOf(v, j).Some? ==> Backed(endpoint, v, BaseOf(v, j).value)
  {
    if j.previous.Some? { assert IsManifest(InVersion(Key(j.dest.component, j.previous.value), MANIFEST)); }
  }

  lemma MakeProven(endpoint: string, v: View, j: Job, base: Option<Meta>, tree: map<Rel, File>)
    requires Proven(endpoint, v) && UrlOk(endpoint, j) && !HasManifest(v, j.dest)
    requires base.Some? ==> Backed(endpoint, v, base.value)
    ensures Proven(endpoint, MakeView(v, j, base, tree).1)
  {
    var parts := PartsOf(tree.Keys, j.dest.component);
    ArchiveProven(endpoint, v, j, parts);
    if !WithEvidence(j) || Adoptable(j, base, parts) {
      DocumentsProven(endpoint, v, j, base, tree);
      var v1 := ArchiveView(v, j, parts);
      var m := ManifestFile(j, base, tree);
      var v2 := EvidenceView(v1, j, m);
      PlacingProven(endpoint, v2, j.dest, tree, m);
    }
  }

  lemma PublishProven(endpoint: string, v: View, j: Job, x: View)
    requires Proven(endpoint, v) && UrlOk(endpoint, j) && Stage(v, j, x)
    ensures Proven(endpoint, x)
  {
    if x != v {
      var Make(base, tree) := PlanOf(v, j);
      BaseBacked(endpoint, v, j);
      MakeProven(endpoint, v, j, base, tree);
      var parts := PartsOf(tree.Keys, j.dest.component);
      ArchiveProven(endpoint, v, j, parts);
      if !WithEvidence(j) || Adoptable(j, base, parts) { DocumentsProven(endpoint, v, j, base, tree); }
    }
  }

  lemma SweepProven(endpoint: string, v: View, w: Sweep, x: View)
    requires Proven(endpoint, v) && Sweeping(v, w, x)
    ensures Proven(endpoint, x)
  {
    forall k {:trigger MetaAt(x, k)} | MetaAt(x, k).Some?
      ensures Kept(v, x, InVersion(k, MANIFEST)) && (Evidence(k) in v ==> Kept(v, x, Evidence(k)))
    {
      assert Evidence(k) in v && Evidence(k) !in x ==> Swept(v, w, Evidence(k));
    }
    ProvenStep(endpoint, v, x);
  }

  lemma RecordProven(endpoint: string, v: View, b: Build)
    requires Proven(endpoint, v)
    ensures Proven(endpoint, RecordView(v, b).1)
  {
    var x := RecordView(v, b).1;
    forall k {:trigger MetaAt(x, k)} | MetaAt(x, k).Some?
      ensures Kept(v, x, InVersion(k, MANIFEST)) && (Evidence(k) in v ==> Kept(v, x, Evidence(k)))
    {
      assert InVersion(k, MANIFEST) in x;
    }
    ProvenStep(endpoint, v, x);
  }

  lemma StepProven(endpoint: string, v: View, e: Event)
    requires Proven(endpoint, v) && (e.Publish? || e.PublishDies? ==> UrlOk(endpoint, e.job))
    ensures Proven(endpoint, Next(v, e))
  {
    match e
    case Publish(j) => PublishProven(endpoint, v, j, Next(v, e));
    case PublishDies(j, x) => if Stage(v, j, x) { PublishProven(endpoint, v, j, x); }
    case Retire(w) => SweepProven(endpoint, v, w, Next(v, e));
    case RetireDies(w, x) => if Sweeping(v, w, x) { SweepProven(endpoint, v, w, x); }
    case Record(b) => RecordProven(endpoint, v, b);
  }

  lemma StepKeepsArchives(v: View, e: Event, k: Key)
    requires Archive(k) in v
    ensures Kept(v, Next(v, e), Archive(k))
  {
    if e.RetireDies? && Sweeping(v, e.sweep, e.x) {
      assert Archive(k) !in e.x ==> Swept(v, e.sweep, Archive(k));
    }
  }

  /** Over every run: named archives are stored, and evidence stands beside part-wise manifests. */
  lemma {:induction false} NamedArchivesAreStored(endpoint: string, v: View, events: seq<Event>)
    requires Proven(endpoint, v)
    requires forall i | 0 <= i < |events| && (events[i].Publish? || events[i].PublishDies?) :: UrlOk(endpoint, events[i].job)
    ensures Proven(endpoint, Run(v, events))
    decreases |events|
  {
    if events != [] {
      StepProven(endpoint, v, events[0]);
      NamedArchivesAreStored(endpoint, Next(v, events[0]), events[1..]);
    }
  }

  /** A stored archive is never removed or rewritten, whatever is published or retired. */
  lemma {:induction false} ArchivesAreForever(v: View, events: seq<Event>, k: Key)
    requires Archive(k) in v
    ensures Kept(v, Run(v, events), Archive(k))
    decreases |events|
  {
    if events != [] {
      StepKeepsArchives(v, events[0], k);
      ArchivesAreForever(Next(v, events[0]), events[1..], k);
    }
  }
}

/** What one publication, retirement or build record writes, in terms of paths, bytes and permission bits. */
module PublicationEffects {
  import opened Common
  import opened Publication
  import opened PublicationTheorems

  // ----- Partial publication, path by path -----

  /** `rel` of the version is the export's, byte for byte: absent there, absent here. */
  predicate FromExport(built: map<Rel, File>, source: Export, rel: Rel) {
    && source.Tree? && (rel in built <==> rel in source.items && source.items[rel].Regular?)
    && (rel in built ==> built[rel].content == source.items[rel].file.content)
  }

  /** `rel` of the version is the previous version's, with its bytes and mode: absent there, absent here. */
  predicate FromPrevious(built: map<Rel, File>, prior: map<Rel, File>, rel: Rel) {
    (rel in built <==> rel in prior) && (rel in built ==> built[rel] == prior[rel])
  }

  /** A publication that succeeds and builds on a complete previous version, if on any. */
  ghost predicate Succeeds(v: View, j: Job) {
    && JobOk(j) && Readable(v) && NormalModes(v) && !HasManifest(v, j.dest) && PublishView(v, j).0.Ok?
    && (j.previous.Some? && HasManifest(v, Key(j.dest.component, j.previous.value)) ==>
          Complete(v, Key(j.dest.component, j.previous.value)))
  }

  /** The application the publication ends with. */
  function Built(v: View, j: Job): map<Rel, File>
    requires PublishView(v, j).0.Ok?
  {
    Application(PublishView(v, j).1, PublishView(v, j).0.value)
  }

  function Prior(v: View, j: Job): map<Rel, File> {
    if j.previous.Some? then Application(v, Key(j.dest.component, j.previous.value)) else map[]
  }

  lemma TakesOrKeeps(v: View, j: Job, rel: Rel)
    requires Succeeds(v, j)
    ensures Selected(j, rel) ==> FromExport(Built(v, j), j.source, rel)
    ensures !Selected(j, rel) ==> FromPrevious(Built(v, j), Prior(v, j), rel)
  {
    IncrementalRefinesFullCopy(v, j, rel);
  }

  /** Without a choice of parts everything comes from the export. */
  lemma FullPublication(v: View, j: Job, rel: Rel)
    requires Succeeds(v, j) && j.parts.None?
    ensures FromExport(Built(v, j), j.source, rel)
  {
    TakesOrKeeps(v, j, rel);
  }

  predicate InPython(rel: Rel) {
    rel != [] && rel[0] == "python"
  }

  predicate InEngine(rel: Rel) {
    rel != [] && (rel[0] == "engine" || rel[0] == "engine-environment.json")
  }

  /** Outside the control plane a path's part is decided by its first name. */
  lemma PartByPath(j: Job, rel: Rel)
    requires j.parts.Some? && j.dest.component != "control-plane"
    ensures InPython(rel) ==> (Selected(j, rel) <==> Python in j.parts.value)
    ensures InEngine(rel) ==> (Selected(j, rel) <==> Engine in j.parts.value)
    ensures !InPython(rel) && !InEngine(rel) ==> (Selected(j, rel) <==> Rust in j.parts.value)
  {
  }

  /** Updating the Python part takes what is under `python` from the export and leaves the rest as it was. */
  lemma PythonUpdate(v: View, j: Job, rel: Rel)
    requires Succeeds(v, j) && j.parts == Some({Python}) && j.dest.component != "control-plane"
    ensures if InPython(rel) then FromExport(Built(v, j), j.source, rel) else FromPrevious(Built(v, j), Prior(v, j), rel)
  {
    PartByPath(j, rel);
    TakesOrKeeps(v, j, rel);
  }

  /** Updating the engine part takes `engine` and the engine environment file. */
  lemma EngineUpdate(v: View, j: Job, rel: Rel)
    requires Succeeds(v, j) && j.parts == Some({Engine}) && j.dest.component != "control-plane"
    ensures if InEngine(rel) then FromExport(Built(v, j), j.source, rel) else FromPrevious(Built(v, j), Prior(v, j), rel)
  {
    PartByPath(j, rel);
    TakesOrKeeps(v, j, rel);
  }

  /** Whatever parts are updated together, each path outside the control plane goes with its own part. */
  lemma PartsAreIndependent(v: View, j: Job, rel: Rel)
    requires Succeeds(v, j) && j.parts.Some? && j.dest.component != "control-plane"
    ensures if (InPython(rel) && Python in j.parts.value) || (InEngine(rel) && Engine in j.parts.value)
               || (!InPython(rel) && !InEngine(rel) && Rust in j.parts.value)
            then FromExport(Built(v, j), j.source, rel) else FromPrevious(Built(v, j), Prior(v, j), rel)
  {
    PartByPath(j, rel);
    TakesOrKeeps(v, j, rel);
  }

  /** The control plane is one Go binary tree: it is replaced whole or not at all. */
  lemma ControlPlaneUpdate(v: View, j: Job, rel: Rel)
    requires Succeeds(v, j) && j.parts.Some? && j.dest.component == "control-plane"
    ensures if Go in j.parts.value then FromExport(Built(v, j), j.source, rel) else FromPrevious(Built(v, j), Prior(v, j), rel)
  {
    TakesOrKeeps(v, j, rel);
  }

  // ----- Reuse -----

  /**
   The previous version stands for the new one exactly if reuse is allowed, it belongs to the same
   binding and no release, ran on the same image and preparation, and holds the same files.
   */
  lemma ReusesExactly(v: View, j: Job)
    requires Succeeds(v, j) && j.previous.Some? && Complete(v, Key(j.dest.component, j.previous.value))
    ensures var previous := Key(j.dest.component, j.previous.value);
            var m := MetaAt(v, previous).value;
            PublishView(v, j).0 == Ok(previous) <==>
            && j.reusePrevious && m.binding == j.binding && !m.releaseOwned && m.image == j.image && m.preparation == j.preparation
            && Built(v, j) == Application(v, previous)
  {
    var previous := Key(j.dest.component, j.previous.value);
    BuiltIsWanted(v, j);
    ReturnsPrevious(v, j, previous);
    WantedIsPlain(v, j);
    UnchangedExactly(v, j, previous, Wanted(v, j));
  }

  lemma BuiltIsWanted(v: View, j: Job)
    requires Succeeds(v, j)
    ensures j.source.Tree? && Inputs(v, j, BaseOf(v, j)).Ok? && Built(v, j) == Wanted(v, j)
  {
    PublishedIsFullCopy(v, j);
  }

  lemma ReturnsPrevious(v: View, j: Job, k: Key)
    requires !HasManifest(v, j.dest) && PublishView(v, j).0.Ok? && j.source.Tree? && Inputs(v, j, BaseOf(v, j)).Ok?
    requires j.previous == Some(k.revision) && k.component == j.dest.component && k != j.dest
    ensures PublishView(v, j).0 == Ok(k) <==> Unchanged(v, j, BaseOf(v, j), Wanted(v, j))
  {
  }

  lemma UnchangedExactly(v: View, j: Job, k: Key, tree: map<Rel, File>)
    requires NormalModes(v) && Complete(v, k) && j.previous == Some(k.revision) && j.dest.component == k.component
    requires forall rel | rel in tree :: !Reserved(rel) && tree[rel].mode == Normal(tree[rel].mode)
    ensures Unchanged(v, j, MetaAt(v, k), tree) <==>
            var m := MetaAt(v, k).value;
            && j.reusePrevious && m.binding == j.binding && !m.releaseOwned && m.image == j.image && m.preparation == j.preparation
            && tree == Application(v, k)
  {
    var m := MetaAt(v, k).value;
    if Unchanged(v, j, Some(m), tree) {
      assert tree.Keys == Listings(tree).Keys == m.files.Keys == Application(v, k).Keys;
      forall rel | rel in tree ensures tree[rel] == Application(v, k)[rel] {
        assert Same(v, k, rel, tree[rel]);
        assert v[InVersion(k, rel)].mode == Normal(v[InVersion(k, rel)].mode);
      }
    }
  }

  /** A file whose executable bits differ from the stored one's is a change, whatever the previous manifest lists. */
  lemma ModeChangeRebuilds(v: View, j: Job, k: Key, rel: Rel)
    requires !HasManifest(v, j.dest) && PublishView(v, j).0.Ok? && j.source.Tree? && Inputs(v, j, BaseOf(v, j)).Ok?
    requires j.previous == Some(k.revision) && k.component == j.dest.component && k != j.dest
    requires rel in Wanted(v, j) && InVersion(k, rel) in v && v[InVersion(k, rel)].mode & 0x49 != Wanted(v, j)[rel].mode & 0x49
    ensures PublishView(v, j).0 == Ok(j.dest)
  {
    ReturnsPrevious(v, j, k);
    NormalBits(v[InVersion(k, rel)].mode);
    assert !Same(v, k, rel, Wanted(v, j)[rel]);
    BuildsOtherwise(v, j);
  }

  lemma BuildsOtherwise(v: View, j: Job)
    requires !HasManifest(v, j.dest) && PublishView(v, j).0.Ok? && j.source.Tree? && Inputs(v, j, BaseOf(v, j)).Ok?
    requires !Unchanged(v, j, BaseOf(v, j), Wanted(v, j))
    ensures PublishView(v, j).0 == Ok(j.dest)
  {
  }

  // ----- Modes -----

  /** Published files are read-only for everybody and executable for whoever could execute the export. */
  lemma PublishedModes(v: View, j: Job, rel: Rel)
    requires Succeeds(v, j) && rel in Built(v, j)
    ensures var mode := Built(v, j)[rel].mode;
            && mode & 0x124 == 0x124        // r--r--r--
            && mode & 0xE92 == 0            // -w--w--w-, and no set-user, set-group or sticky bit
            && (Selected(j, rel) ==>
                  FromExport(Built(v, j), j.source, rel) && mode & 0x49 == j.source.items[rel].file.mode & 0x49)
  {
    PublishedIsFullCopy(v, j);
    TakesOrKeeps(v, j, rel);
    IncrementalRefinesFullCopy(v, j, rel);
    WantedIsPlain(v, j);
    NormalBits(Built(v, j)[rel].mode);
    if Selected(j, rel) { NormalBits(j.source.items[rel].file.mode); }
  }

  lemma NormalBits(m: Mode)
    ensures Normal(m) & 0x124 == 0x124 && Normal(m) & 0xE92 == 0 && Normal(m) & 0x49 == m & 0x49
  {
  }

  // ----- Manifests and archives -----

  /** The manifest of a version a publication builds: whose it is, what it runs on and what it lists. */
  lemma ManifestStates(v: View, j: Job)
    requires Succeeds(v, j) && PublishView(v, j).0.value == j.dest
    ensures var x := PublishView(v, j).1;
            && MetaAt(x, j.dest).Some?
            && var m := MetaAt(x, j.dest).value;
               && m.binding == j.binding && m.releaseOwned == j.releaseOwned && m.image == j.image && m.preparation == j.preparation
               && m.files.Keys == Application(x, j.dest).Keys
               && (forall rel | rel in m.files ::
                     && m.files[rel].mode == Application(x, j.dest)[rel].mode
                     && (Application(x, j.dest)[rel].content.Raw? ==>
                           m.files[rel].size == |Application(x, j.dest)[rel].content.bytes|))
               && (!WithEvidence(j) && j.sources.Some? ==> m.sources == Some(Flat(j.sources.value)))
  {
    PublishedIsFullCopy(v, j);
    BuiltManifest(v, j);
  }

  lemma BuiltManifest(v: View, j: Job)
    requires Succeeds(v, j) && PublishView(v, j).0.value == j.dest
    ensures var x := PublishView(v, j).1;
            && PlanOf(v, j).Make?
            && (WithEvidence(j) ==> Adoptable(j, PlanOf(v, j).base, PartsOf(PlanOf(v, j).tree.Keys, j.dest.component)))
            && InVersion(j.dest, MANIFEST) in x
            && x[InVersion(j.dest, MANIFEST)] == ManifestFile(j, PlanOf(v, j).base, PlanOf(v, j).tree)
            && (WithEvidence(j) ==> Evidence(j.dest) in x && x[Evidence(j.dest)] == x[InVersion(j.dest, MANIFEST)])
  {
    match PlanOf(v, j) {
      case Stop(_) =>
      case Make(base, tree) =>
        var parts := PartsOf(tree.Keys, j.dest.component);
        var v1 := ArchiveView(v, j, parts);
        var v2 := EvidenceView(v1, j, ManifestFile(j, base, tree));
        WantedIsPlain(v, j);
        PlacedVersion(v2, j.dest, tree, ManifestFile(j, base, tree));
    }
  }

  /** A publication that builds its destination builds what its plan says. */
  lemma BuiltIsPlan(v: View, j: Job)
    requires Succeeds(v, j) && PublishView(v, j).0.value == j.dest
    ensures PlanOf(v, j).Make? && Built(v, j) == PlanOf(v, j).tree
    ensures PublishView(v, j) == MakeView(v, j, PlanOf(v, j).base, PlanOf(v, j).tree)
  {
    BuiltIsWanted(v, j);
    PlanIsWanted(v, j);
  }

  lemma PlanIsWanted(v: View, j: Job)
    requires !HasManifest(v, j.dest) && PublishView(v, j).0 == Ok(j.dest) && j.source.Tree? && Inputs(v, j, BaseOf(v, j)).Ok?
    requires j.previous.Some? && j.previous.value == j.dest.revision ==> BaseOf(v, j).None?
    ensures PlanOf(v, j).Make? && PlanOf(v, j).tree == Wanted(v, j)
  {
  }

  /** The record of one part: the publication's sources with its archive, and engines for the engine part only. */
  ghost predicate NamesSources(record: Fields, sources: Fields, url: string, part: Part) {
    && "archive" in record && record["archive"] == url
    && (forall name | name != "archive" && name != "engines" ::
          (name in record <==> name in sources) && (name in record ==> record[name] == sources[name]))
    && ("engines" in record <==> part == Engine && "engines" in sources)
  }

  lemma ForPartNames(sources: Fields, url: string, part: Part)
    ensures NamesSources(ForPart(sources["archive" := url], part), sources, url, part)
  {
    assert "archive" != "engines";
  }

  /** The parts a publication supplies are recorded as built from its own sources and its own archive. */
  lemma RecordNamesSources(v: View, j: Job, part: Part)
    requires Succeeds(v, j) && PublishView(v, j).0.value == j.dest && WithEvidence(j)
    requires part in PartsOf(Built(v, j).Keys, j.dest.component) && (j.parts.None? || part in j.parts.value)
    ensures var meta := MetaAt(PublishView(v, j).1, j.dest);
            && meta.Some? && Recorded(meta.value.sources, part).Some?
            && NamesSources(Recorded(meta.value.sources, part).value, j.sources.value, j.archiveUrl, part)
  {
    BuiltIsPlan(v, j);
    BuiltManifest(v, j);
    ForPartNames(j.sources.value, j.archiveUrl, part);
    AdoptedRecord(j, PlanOf(v, j).base, PlanOf(v, j).tree, part);
  }

  lemma AdoptedRecord(j: Job, base: Option<Meta>, tree: map<Rel, File>, part: Part)
    requires WithEvidence(j) && Adoptable(j, base, PartsOf(tree.Keys, j.dest.component))
    requires part in PartsOf(tree.Keys, j.dest.component) && (j.parts.None? || part in j.parts.value)
    ensures var m := ManifestFile(j, base, tree).content.meta;
            Recorded(m.sources, part) == Some(ForPart(j.sources.value["archive" := j.archiveUrl], part))
  {
  }

  /** An archive that appears, finished or not, is the publication's own source archive, read-only. */
  lemma ArchiveIsStored(v: View, j: Job, x: View)
    requires Stage(v, j, x)
    ensures forall k: Key | Archive(k) in x ::
              if Archive(k) in v then x[Archive(k)] == v[Archive(k)]
              else k == j.dest && j.archive.Some? && x[Archive(k)] == File(j.archive.value, 0x124)
  {
  }

  /** A publication that builds some part from sources it has evidence of stores their archive. */
  lemma BuiltArchiveIsThere(v: View, j: Job, rel: Rel)
    requires Succeeds(v, j) && PublishView(v, j).0.value == j.dest && WithEvidence(j)
    requires rel in Built(v, j) && Selected(j, rel)
    ensures Archive(j.dest) in PublishView(v, j).1
  {
    BuiltIsPlan(v, j);
    MadeArchive(v, j, PlanOf(v, j).base, PlanOf(v, j).tree, rel);
  }

  lemma MadeArchive(v: View, j: Job, base: Option<Meta>, tree: map<Rel, File>, rel: Rel)
    requires WithEvidence(j) && rel in tree && Selected(j, rel)
    ensures Archive(j.dest) in MakeView(v, j, base, tree).1
  {
    var parts := PartsOf(tree.Keys, j.dest.component);
    assert PartOf(rel, j.dest.component) in parts;
    if j.parts.Some? { assert PartOf(rel, j.dest.component) in parts * j.parts.value; }
    assert Archive(j.dest) in ArchiveView(v, j, parts);
  }

  /** Without a part of its own a publication stores no archive. */
  lemma AdoptionStoresNoArchive(v: View, j: Job)
    requires Succeeds(v, j) && PublishView(v, j).0.value == j.dest && Archive(j.dest) !in v
    requires j.parts.Some? && forall rel | rel in Built(v, j) :: !Selected(j, rel)
    ensures Archive(j.dest) !in PublishView(v, j).1
  {
    BuiltIsPlan(v, j);
    NoMadeArchive(v, j, PlanOf(v, j).base, PlanOf(v, j).tree);
  }

  lemma NoMadeArchive(v: View, j: Job, base: Option<Meta>, tree: map<Rel, File>)
    requires j.parts.Some? && Archive(j.dest) !in v && forall rel | rel in tree :: !Selected(j, rel)
    ensures Archive(j.dest) !in MakeView(v, j, base, tree).1
  {
    var parts := PartsOf(tree.Keys, j.dest.component);
    forall part | part in parts ensures part !in j.parts.value {
      var rel :| rel in tree && PartOf(rel, j.dest.component) == part;
    }
    assert parts * j.parts.value == {};
  }

  // ----- Failures -----

  /** Why a publication fails before it has its inputs, exactly. */
  lemma FailsExactly(v: View, j: Job)
    requires !HasManifest(v, j.dest)
    ensures var r := PublishView(v, j).0;
            var partial := j.source.Tree? && j.parts.Some?;
            var base := if j.previous.Some? then MetaAt(v, Key(j.dest.component, j.previous.value)) else None;
            var broken := j.previous.Some? && HasManifest(v, Key(j.dest.component, j.previous.value)) && base.None?;
            && (r == Err(NoExport) <==> j.source.Missing?)
            && (r == Err(Unreadable) <==> j.source.Tree? && broken)
            && (r == Err(NoBase) <==> partial && !broken && base.None?)
            && (r == Err(WrongImage) <==>
                  partial && base.Some? && base.value.image != (if j.previousImage.Some? then j.previousImage else j.image))
  {
  }

  /** A previous manifest with a path outside the version is refused, and nothing else is for that reason. */
  lemma RefusesBadPaths(v: View, j: Job)
    requires !HasManifest(v, j.dest) && j.source.Tree? && j.parts.Some? && BaseOf(v, j).Some?
    requires BaseOf(v, j).value.image == if j.previousImage.Some? then j.previousImage else j.image
    ensures PublishView(v, j).0 == Err(BadPath) <==>
            exists rel | rel in BaseOf(v, j).value.files :: rel == [] || rel[0] == "/" || ".." in rel
  {
    PathsExactly(BaseOf(v, j).value.files.Keys);
  }

  lemma PathsExactly(files: set<Rel>)
    ensures (exists rel | rel in files :: !ValidRel(rel)) <==> exists rel | rel in files :: rel == [] || rel[0] == "/" || ".." in rel
  {
    if rel :| rel in files && !ValidRel(rel) { assert rel == [] || rel[0] == "/" || ".." in rel; }
    if rel :| rel in files && (rel == [] || rel[0] == "/" || ".." in rel) { assert !ValidRel(rel); }
  }

  /** A part taken over from a part-wise record that does not name it has no provenance, and the build fails for exactly that. */
  lemma RefusesUnknownOrigin(v: View, j: Job, base: Option<Meta>, tree: map<Rel, File>)
    requires WithEvidence(j) && j.parts.Some? && base.Some?
    ensures MakeView(v, j, base, tree).0 == Err(NoProvenance) <==>
            exists rel | rel in tree ::
              && PartOf(rel, j.dest.component) !in j.parts.value
              && base.value.sources.Some? && base.value.sources.value.ByPart?
              && PartOf(rel, j.dest.component) !in base.value.sources.value.parts
  {
    var parts := PartsOf(tree.Keys, j.dest.component);
    if !Adoptable(j, base, parts) {
      var part :| part in parts && !Supplies(j, part)
                  && !(base.value.sources.Some? && base.value.sources.value.ByPart? ==> part in base.value.sources.value.parts);
      var rel :| rel in tree && PartOf(rel, j.dest.component) == part;
    }
    if rel :| rel in tree && PartOf(rel, j.dest.component) !in j.parts.value && base.value.sources.Some?
              && base.value.sources.value.ByPart? && PartOf(rel, j.dest.component) !in base.value.sources.value.parts {
      assert PartOf(rel, j.dest.component) in parts;
    }
  }

  /** A full publication refuses exactly exports with links or special files, and then changes no version. */
  lemma RefusesIrregular(v: View, j: Job)
    requires !HasManifest(v, j.dest) && j.source.Tree? && j.parts.None? && !BaseUnreadable(v, j)
    ensures PublishView(v, j).0 == Err(NotRegular) <==>
            exists rel | rel in j.source.items :: j.source.items[rel].Symlink? || j.source.items[rel].Special?
  {
    RegularExactly(j.source.items);
  }

  /** A publication that fails changes no version. */
  lemma FailureChangesNoVersion(v: View, j: Job)
    requires PublishView(v, j).0.Err?
    ensures SameVersions(v, PublishView(v, j).1)
  {
  }

  lemma RegularExactly(items: map<Rel, Item>)
    ensures AllRegular(items) <==> !exists rel | rel in items :: items[rel].Symlink? || items[rel].Special?
  {
    if !AllRegular(items) {
      var rel :| rel in items && !(items[rel].Directory? || items[rel].Regular?);
      assert items[rel].Symlink? || items[rel].Special?;
    }
  }

  // ----- Retirement and records -----

  /** `retained` names exactly the publisher's own versions of the component that the retirement spares. */
  lemma RetainedSurvive(v: View, w: Sweep, name: string)
    ensures var k := Key(w.component, name);
            name in Retained(v, w) <==>
            MetaAt(RetireView(v, w), k).Some? && (if w.release then MetaAt(v, k).value.releaseOwned else MetaAt(v, k).value.binding == w.binding)
  {
    var k := Key(w.component, name);
    if MetaAt(v, k).Some? { assert InVersion(k, MANIFEST) in v; }
  }

  /** A build record that appears is the build's own, with its own input archive, and of published applications. */
  lemma RecordStates(v: View, b: Build)
    requires InBuild(b.id, "build.json") !in v && RecordView(v, b).0.Ok?
    ensures var x := RecordView(v, b).1;
            && RecordView(v, b).0 == Ok(b.id)
            && InBuild(b.id, "build.json") in x && x[InBuild(b.id, "build.json")] == File(BuildRecord(b.applications, b.details, b.url), 0x124)
            && InBuild(b.id, "inputs.tar.gz") in x && x[InBuild(b.id, "inputs.tar.gz")] == File(b.archive, 0x124)
            && (forall c | c in b.applications :: HasManifest(x, Key(c, b.applications[c])))
            && (forall p | p in v :: p in x && x[p] == v[p])
  {
  }

  /** Committing a build record again finds it and changes nothing. */
  lemma RecordIsIdempotent(v: View, b: Build)
    requires RecordView(v, b).0.Ok?
    ensures RecordView(RecordView(v, b).1, b) == (Ok(b.id), RecordView(v, b).1)
  {
  }
}

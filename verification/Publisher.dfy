/** The publisher's operations on the volume, each proved against what readers see before and after. */
module Publisher {
  import opened Common
  import opened Publication
  import opened PublicationTheorems
  import opened PublicationProvenance
  import opened FileSystem

  /** Where an input comes from: the export, or the same path of the previous version. */
  datatype Origin = Exported(item: Item) | Previous

  function ItemOf(v: View, k: Key, rel: Rel, o: Origin): Item {
    if o.Exported? then o.item else PriorItem(v, k, rel)
  }

  function Items(v: View, k: Key, origins: map<Rel, Origin>): map<Rel, Item> {
    map rel | rel in origins :: ItemOf(v, k, rel, origins[rel])
  }

  function PreviousKey(j: Job): Key {
    Key(j.dest.component, if j.previous.Some? then j.previous.value else "")
  }

  /** Selected export items, and the previous version for the unselected paths of `files`. */
  predicate OriginsOf(j: Job, files: set<Rel>, origins: map<Rel, Origin>)
    requires j.source.Tree?
  {
    && (forall rel | rel in j.source.items && Selected(j, rel) :: rel in origins)
    && (forall rel | rel in files && !Selected(j, rel) :: rel in origins)
    && (forall rel | rel in origins ::
          if Selected(j, rel) then rel in j.source.items && origins[rel] == Exported(j.source.items[rel])
          else rel in files && origins[rel] == Previous)
  }

  lemma OriginsAreInputs(v: View, j: Job, k: Key, files: set<Rel>, origins: map<Rel, Origin>)
    requires j.source.Tree? && OriginsOf(j, files, origins)
    ensures Items(v, k, origins)
            == (map rel | rel in j.source.items && Selected(j, rel) :: j.source.items[rel]) + PriorItems(v, j, k, files)
  {
    var exported := map rel | rel in j.source.items && Selected(j, rel) :: j.source.items[rel];
    var items, prior := Items(v, k, origins), PriorItems(v, j, k, files);
    assert items.Keys == (exported + prior).Keys;
    assert forall rel | rel in items :: items[rel] == (exported + prior)[rel];
  }

  /** Select the inputs of a publication, in the order the publisher checks them. */
  method GatherInputs(vol: Volume, j: Job, base: Option<Meta>) returns (r: Result<map<Rel, Origin>>)
    requires vol.Valid() && j.source.Tree? && (base.Some? ==> j.previous.Some?)
    ensures match r
            case Err(e) => Inputs(vol.Seen(), j, base) == Err(e)
            case Ok(origins) =>
              && Inputs(vol.Seen(), j, base) == Ok(Items(vol.Seen(), PreviousKey(j), origins))
              && forall rel | rel in origins :: origins[rel].Previous? ==> j.previous.Some?
  {
    if j.parts.None? {
      r := Ok(map rel | rel in j.source.items :: Exported(j.source.items[rel]));
      assert Items(vol.Seen(), PreviousKey(j), r.value) == j.source.items;
      return;
    }
    if base.None? { return Err(NoBase); }
    if base.value.image != (if j.previousImage.Some? then j.previousImage else j.image) { return Err(WrongImage); }
    var origins := map rel | rel in j.source.items && Selected(j, rel) :: Exported(j.source.items[rel]);
    var files := base.value.files.Keys;
    var todo := files;
    while todo != {}
      invariant todo <= files && (forall rel | rel in files && rel !in todo :: ValidRel(rel))
      invariant OriginsOf(j, files - todo, origins)
      decreases |todo|
    {
      var rel :| rel in todo;
      if !ValidRel(rel) { return Err(BadPath); }
      if !Selected(j, rel) { origins := origins[rel := Previous]; }
      todo := todo - {rel};
    }
    assert files - {} == files;
    OriginsAreInputs(vol.Seen(), j, PreviousKey(j), files, origins);
    r := Ok(origins);
  }

  /** A file as a full copy would publish it. */
  function Copy(f: File): File {
    File(f.content, Normal(f.mode))
  }

  /** Nothing but new entries and new inodes. */
  ghost predicate Grows(names: map<Path, nat>, inodes: map<nat, File>, names': map<Path, nat>, inodes': map<nat, File>) {
    && (forall p | p in names :: p in names' && names'[p] == names[p])
    && (forall i | i in inodes :: i in inodes' && inodes'[i] == inodes[i])
  }

  /** Link the previous version's file if it can stand for `f`, else copy; `asIs`: `f` is that very file. */
  method StageFile(vol: Volume, j: Job, rel: Rel, f: File, asIs: bool, to: Path) returns (linked: bool)
    requires vol.Valid() && NormalModes(vol.Seen()) && !Reserved(rel) && to !in vol.names && to.Staged?
    requires asIs ==> j.previous.Some? && InVersion(PreviousKey(j), rel) in vol.names
                      && f == vol.Content(InVersion(PreviousKey(j), rel))
    modifies vol
    ensures vol.Valid() && vol.Seen() == old(vol.Seen()) && vol.trace == old(vol.trace)
    ensures linked <==> j.previous.Some? && Same(vol.Seen(), PreviousKey(j), rel, Copy(f))
    ensures vol.names.Keys == old(vol.names.Keys) + {to} && vol.inodes[vol.names[to]] == Copy(f)
    ensures Grows(old(vol.names), old(vol.inodes), vol.names, vol.inodes)
  {
    var prior := InVersion(PreviousKey(j), rel);
    assert vol.IsFile(prior) <==> prior in vol.Seen();
    linked := j.previous.Some? && vol.IsFile(prior) && Normal(vol.Content(prior).mode) == Normal(f.mode)
              && (asIs || vol.Content(prior).content == f.content);
    if linked {
      vol.Link(prior, to);
    } else {
      vol.CopyFile(f.content, Normal(f.mode), to);
    }
  }

  /** What the copying loop has achieved for the inputs of `done`: a full copy of them, listed and compared. */
  ghost predicate Copied(v: View, k: Key, items: map<Rel, Item>, done: set<Rel>, tree: map<Rel, File>,
                         files: map<Rel, Listing>, same: bool, reusable: bool)
  {
    && (forall rel {:trigger rel in tree} :: rel in tree <==> rel in done && rel in items && items[rel].Regular?)
    && (forall rel | rel in tree :: tree[rel] == Copy(items[rel].file))
    && files == Listings(tree)
    && same == (reusable && forall rel | rel in tree :: Same(v, k, rel, tree[rel]))
    && forall rel | rel in done && rel in items :: items[rel].Directory? || items[rel].Regular?
  }

  lemma CopiedStarts(v: View, k: Key, items: map<Rel, Item>, reusable: bool)
    ensures Copied(v, k, items, {}, map[], map[], reusable, reusable)
  {
  }

  lemma CopiedStep(v: View, k: Key, items: map<Rel, Item>, done: set<Rel>, tree: map<Rel, File>, files: map<Rel, Listing>,
                   same: bool, reusable: bool, rel: Rel, linked: bool)
    requires Copied(v, k, items, done, tree, files, same, reusable)
    requires rel !in done && rel in items && items[rel].Regular? && (reusable ==> (linked <==> Same(v, k, rel, Copy(items[rel].file))))
    ensures var f := items[rel].file;
            Copied(v, k, items, done + {rel}, tree[rel := Copy(f)], files[rel := Listing(Normal(f.mode), Size(f.content))],
                   same && linked, reusable)
  {
    var f := items[rel].file;
    assert Listings(tree[rel := Copy(f)]) == Listings(tree)[rel := Listing(Normal(f.mode), Size(f.content))];
    var now := tree[rel := Copy(f)];
    assert now[rel] == Copy(f) && forall r | r in tree :: now[r] == tree[r];
  }

  lemma CopiedSkips(v: View, k: Key, items: map<Rel, Item>, done: set<Rel>, tree: map<Rel, File>, files: map<Rel, Listing>,
                    same: bool, reusable: bool, rel: Rel)
    requires Copied(v, k, items, done, tree, files, same, reusable) && rel in items && items[rel].Directory?
    ensures Copied(v, k, items, done + {rel}, tree, files, same, reusable)
  {
  }

  lemma CopiedAll(v: View, k: Key, items: map<Rel, Item>, done: set<Rel>, tree: map<Rel, File>, files: map<Rel, Listing>,
                  same: bool, reusable: bool)
    requires Copied(v, k, items, done, tree, files, same, reusable) && done == items.Keys
    ensures AllRegular(items) && tree == FullCopy(items)
  {
  }

  lemma StagesStep(names: map<Path, nat>, inodes: map<nat, File>, names': map<Path, nat>, inodes': map<nat, File>,
                   directory: string, temp: string, tree: map<Rel, File>, rel: Rel, f: File)
    requires Stages(names, inodes, directory, temp, tree) && Grows(names, inodes, names', inodes')
    requires names'.Keys == names.Keys + {Staged(directory, temp, rel)} && names'[Staged(directory, temp, rel)] in inodes'
    requires inodes'[names'[Staged(directory, temp, rel)]] == f && rel !in tree
    ensures Stages(names', inodes', directory, temp, tree[rel := f])
  {
  }

  /** No entry is gone, and every entry of `names'` that is not in `names` is staged in this directory. */
  ghost predicate OnlyStaged(names: map<Path, nat>, names': map<Path, nat>, directory: string, temp: string) {
    names.Keys <= names'.Keys && forall p | p in names' && p !in names :: IsStaged(p, directory, temp)
  }

  lemma OnlyStagedStep(names: map<Path, nat>, names': map<Path, nat>, names'': map<Path, nat>, directory: string, temp: string,
                       rel: Rel)
    requires OnlyStaged(names, names', directory, temp)
    requires names'.Keys <= names''.Keys <= names'.Keys + {Staged(directory, temp, rel)}
    ensures OnlyStaged(names, names'', directory, temp)
  {
  }

  /** One input: skipped, refused, or staged as a full copy would have it. */
  method CopyInput(vol: Volume, j: Job, o: Origin, rel: Rel, directory: string, temp: string, ghost tree: map<Rel, File>)
    returns (ok: bool, file: Option<File>, linked: bool)
    requires vol.Valid() && NormalModes(vol.Seen()) && !Reserved(rel) && rel !in tree
    requires Stages(vol.names, vol.inodes, directory, temp, tree) && (o.Previous? ==> j.previous.Some?)
    modifies vol
    ensures vol.Valid() && vol.Seen() == old(vol.Seen()) && vol.trace == old(vol.trace)
    ensures old(vol.names.Keys) <= vol.names.Keys <= old(vol.names.Keys) + {Staged(directory, temp, rel)}
    ensures var item := ItemOf(vol.Seen(), PreviousKey(j), rel, o);
            && ok == (item.Directory? || item.Regular?)
            && (file == if item.Regular? then Some(item.file) else None)
            && (item.Regular? ==> (linked <==> j.previous.Some? && Same(vol.Seen(), PreviousKey(j), rel, Copy(item.file))))
    ensures Stages(vol.names, vol.inodes, directory, temp, if file.Some? then tree[rel := Copy(file.value)] else tree)
  {
    ok, file, linked := true, None, false;
    var from := InVersion(PreviousKey(j), rel);
    assert vol.IsFile(from) <==> from in vol.Seen();
    if (o.Exported? && !o.item.Directory? && !o.item.Regular?) || (o.Previous? && !vol.IsFile(from)) {
      ok := false;
    } else if o.Previous? || o.item.Regular? {
      var f := if o.Exported? then o.item.file else vol.Content(from);
      ghost var names, inodes := vol.names, vol.inodes;
      linked := StageFile(vol, j, rel, f, o.Previous?, Staged(directory, temp, rel));
      StagesStep(names, inodes, vol.names, vol.inodes, directory, temp, tree, rel, Copy(f));
      file := Some(f);
    }
  }

  lemma RemoveOne(all: set<Rel>, done: set<Rel>, rel: Rel)
    ensures (all - done) - {rel} == all - (done + {rel})
  {
  }

  /** The copying loop: every input staged, listed and compared with the previous version. */
  method CopyInputs(vol: Volume, j: Job, origins: map<Rel, Origin>, directory: string, temp: string, reusable: bool,
                    ghost v: View, ghost items: map<Rel, Item>)
    returns (ok: bool, files: map<Rel, Listing>, same: bool)
    requires vol.Valid() && vol.Seen() == v && NormalModes(v) && items == Items(v, PreviousKey(j), origins)
    requires Stages(vol.names, vol.inodes, directory, temp, map[])
    requires forall rel | rel in origins :: !Reserved(rel) && (origins[rel].Previous? ==> j.previous.Some?)
    requires reusable ==> j.previous.Some?
    modifies vol
    ensures vol.Valid() && vol.Seen() == v && vol.trace == old(vol.trace)
    ensures OnlyStaged(old(vol.names), vol.names, directory, temp)
    ensures ok == AllRegular(items)
    ensures ok ==> && Stages(vol.names, vol.inodes, directory, temp, FullCopy(items))
                   && Copied(v, PreviousKey(j), items, items.Keys, FullCopy(items), files, same, reusable)
  {
    ok, files, same := true, map[], reusable;
    var todo := origins.Keys;
    ghost var done: set<Rel>, tree: map<Rel, File> := {}, map[];
    CopiedStarts(v, PreviousKey(j), items, reusable);
    while ok && todo != {}
      invariant todo == items.Keys - done && done <= items.Keys
      invariant vol.Valid() && vol.Seen() == v && vol.trace == old(vol.trace)
      invariant OnlyStaged(old(vol.names), vol.names, directory, temp)
      invariant Stages(vol.names, vol.inodes, directory, temp, tree)
      invariant if ok then Copied(v, PreviousKey(j), items, done, tree, files, same, reusable) else !AllRegular(items)
      decreases |todo|
    {
      var rel :| rel in todo;
      RemoveOne(items.Keys, done, rel);
      todo := todo - {rel};
      ghost var names := vol.names;
      var file, linked;
      ok, file, linked := CopyInput(vol, j, origins[rel], rel, directory, temp, tree);
      OnlyStagedStep(old(vol.names), names, vol.names, directory, temp, rel);
      if file.Some? {
        CopiedStep(v, PreviousKey(j), items, done, tree, files, same, reusable, rel, linked);
        tree := tree[rel := Copy(file.value)];
        files := files[rel := Listing(Normal(file.value.mode), Size(file.value.content))];
        same := same && linked;
      } else if ok {
        CopiedSkips(v, PreviousKey(j), items, done, tree, files, same, reusable, rel);
      }
      done := done + {rel};
    }
    if ok { CopiedAll(v, PreviousKey(j), items, done, tree, files, same, reusable); }
  }

  // ----- Provenance and evidence -----

  /** The parts of the listed files. */
  method ListParts(files: map<Rel, Listing>, component: string) returns (parts: set<Part>)
    ensures parts == PartsOf(files.Keys, component)
  {
    parts := set rel | rel in files :: PartOf(rel, component);
  }

  /** Keep the source archive beside the versions, once, if this publication supplies some part. */
  method KeepArchive(vol: Volume, j: Job, parts: set<Part>, directory: string, temp: string)
    requires vol.Valid() && WithEvidence(j) && Pending(directory, temp, "inputs.tar.gz") !in vol.names
    modifies vol
    ensures vol.Valid() && vol.Seen() == ArchiveView(old(vol.Seen()), j, parts)
    ensures vol.trace == if KeepsArchive(old(vol.Seen()), j, parts) then old(vol.trace) + [vol.Seen()] else old(vol.trace)
    ensures forall p | !Visible(p) :: p in vol.names <==> p in old(vol.names)
    ensures forall p | p in vol.names && !Visible(p) ::
              vol.names[p] == old(vol.names)[p] && vol.inodes[vol.names[p]] == old(vol.inodes[vol.names[p]])
  {
    assert vol.IsFile(Archive(j.dest)) <==> Archive(j.dest) in vol.Seen();
    if (j.parts.None? || parts * j.parts.value != {}) && !vol.IsFile(Archive(j.dest)) {
      var pending := Pending(directory, temp, "inputs.tar.gz");
      vol.CopyFile(j.archive.value, READ_ONLY, pending);
      vol.Rename(pending, Archive(j.dest));
    }
  }

  /** What the provenance loop has settled for the parts of `done`. */
  predicate Adopting(j: Job, base: Option<Meta>, done: set<Part>, adopted: map<Part, Option<Fields>>)
    requires WithEvidence(j)
  {
    && adopted.Keys == done && Adoptable(j, base, done)
    && forall part | part in adopted ::
         adopted[part] == if Supplies(j, part) then Some(Own(j, part)) else Recorded(base.value.sources, part)
  }

  /** One part's provenance: this publication's, or what the previous version recorded. */
  method AdoptPart(j: Job, base: Option<Meta>, part: Part) returns (ok: bool, source: Option<Fields>)
    requires WithEvidence(j) && (!Supplies(j, part) ==> base.Some?)
    ensures ok == Adoptable(j, base, {part})
    ensures ok ==> source == if Supplies(j, part) then Some(Own(j, part)) else Recorded(base.value.sources, part)
  {
    ok := true;
    if Supplies(j, part) {
      source := Some(Own(j, part));
    } else if base.value.sources.None? {
      source := None;
    } else if base.value.sources.value.ByPart? {
      ok := part in base.value.sources.value.parts;
      source := if ok then base.value.sources.value.parts[part] else None;
    } else {
      source := Some(ForPart(base.value.sources.value.fields, part));
    }
    assert part in {part};
  }

  lemma AdoptingStep(j: Job, base: Option<Meta>, done: set<Part>, adopted: map<Part, Option<Fields>>, part: Part,
                     source: Option<Fields>)
    requires WithEvidence(j) && Adopting(j, base, done, adopted) && Adoptable(j, base, {part})
    requires source == if Supplies(j, part) then Some(Own(j, part)) else (assert part in {part}; Recorded(base.value.sources, part))
    ensures Adopting(j, base, done + {part}, adopted[part := source])
  {
    assert part in {part};
  }

  lemma AdoptedAll(j: Job, base: Option<Meta>, parts: set<Part>, adopted: map<Part, Option<Fields>>)
    requires WithEvidence(j) && Adopting(j, base, parts, adopted)
    ensures Adopted(j, base, parts) == Some(ByPart(adopted))
  {
    assert Adopted(j, base, parts).value.parts == adopted;
  }

  /** The provenance loop over the application's parts; a part-wise base must know every adopted part. */
  method AdoptSources(j: Job, base: Option<Meta>, parts: set<Part>) returns (r: Option<Sources>)
    requires WithEvidence(j) && (forall part | part in parts && !Supplies(j, part) :: base.Some?)
    ensures r.Some? == Adoptable(j, base, parts)
    ensures r.Some? ==> r == Adopted(j, base, parts)
  {
    var adopted: map<Part, Option<Fields>> := map[];
    var todo := parts;
    while todo != {}
      invariant todo <= parts && Adopting(j, base, parts - todo, adopted)
      decreases |todo|
    {
      var part :| part in todo;
      var ok, source := AdoptPart(j, base, part);
      if !ok { return None; }
      AdoptingStep(j, base, parts - todo, adopted, part, source);
      adopted := adopted[part := source];
      assert parts - (todo - {part}) == (parts - todo) + {part};
      todo := todo - {part};
    }
    assert parts - {} == parts;
    AdoptedAll(j, base, parts, adopted);
    r := Some(ByPart(adopted));
  }

  // ----- Documents -----

  /** Read every listed file back from staging into one package. */
  method PackFiles(vol: Volume, files: set<Rel>, directory: string, temp: string, ghost tree: map<Rel, File>)
    returns (members: map<Rel, File>)
    requires vol.Valid() && Stages(vol.names, vol.inodes, directory, temp, tree) && files == tree.Keys
    ensures members == tree
  {
    members := map[];
    var todo := files;
    while todo != {}
      invariant todo <= files && members.Keys == files - todo && forall rel | rel in members :: members[rel] == tree[rel]
      decreases |todo|
    {
      var rel :| rel in todo;
      members := members[rel := vol.Content(Staged(directory, temp, rel))];
      todo := todo - {rel};
    }
  }

  /** The package and the manifest join the staged files. */
  method WriteDocuments(vol: Volume, meta: Meta, directory: string, temp: string, ghost tree: map<Rel, File>)
    requires vol.Valid() && Stages(vol.names, vol.inodes, directory, temp, tree) && meta.files.Keys == tree.Keys
    requires forall rel | rel in tree :: !Reserved(rel)
    modifies vol
    ensures vol.Valid() && vol.Seen() == old(vol.Seen()) && vol.trace == old(vol.trace)
    ensures Stages(vol.names, vol.inodes, directory, temp, VersionFiles(tree, File(Manifest(meta), WRITABLE)))
    ensures OnlyStaged(old(vol.names), vol.names, directory, temp)
  {
    var members := PackFiles(vol, meta.files.Keys, directory, temp, tree);
    ghost var names, inodes := vol.names, vol.inodes;
    vol.CopyFile(Package(members), READ_ONLY, Staged(directory, temp, PACKAGE));
    StagesStep(names, inodes, vol.names, vol.inodes, directory, temp, tree, PACKAGE, File(Package(members), READ_ONLY));
    names, inodes := vol.names, vol.inodes;
    ghost var packed := tree[PACKAGE := File(Package(members), READ_ONLY)];
    vol.Write(Staged(directory, temp, MANIFEST), Manifest(meta));
    StagesStep(names, inodes, vol.names, vol.inodes, directory, temp, packed, MANIFEST, File(Manifest(meta), WRITABLE));
  }

  /** The manifest's inode stays behind as evidence when the version is retired. */
  method KeepEvidence(vol: Volume, j: Job, directory: string, temp: string, ghost files: map<Rel, File>)
    requires vol.Valid() && Stages(vol.names, vol.inodes, directory, temp, files) && MANIFEST in files && WithEvidence(j)
    requires Pending(directory, temp, "source-manifest.json") !in vol.names
    modifies vol
    ensures vol.Valid() && vol.Seen() == EvidenceView(old(vol.Seen()), j, files[MANIFEST])
    ensures vol.trace == old(vol.trace) + [vol.Seen()]
    ensures Stages(vol.names, vol.inodes, directory, temp, files)
    ensures forall p | !Visible(p) :: p in vol.names <==> p in old(vol.names)
  {
    var pending := Pending(directory, temp, "source-manifest.json");
    vol.Link(Staged(directory, temp, MANIFEST), pending);
    vol.Rename(pending, Evidence(j.dest));
  }

  // ----- Publishing -----

  /** Out of sight, names differ only in the temporary directory. */
  ghost predicate OnlyTemporary(names: map<Path, nat>, names': map<Path, nat>, directory: string, temp: string) {
    forall p | !Visible(p) && !(p in names <==> p in names') :: p.directory == directory && p.temp == temp
  }

  /** Commit the staged version: documents, evidence, then the rename that publishes it. */
  method CommitVersion(vol: Volume, j: Job, meta: Meta, directory: string, temp: string, ghost tree: map<Rel, File>)
    returns (r: Result<Key>)
    requires vol.Valid() && Stages(vol.names, vol.inodes, directory, temp, tree) && meta.files.Keys == tree.Keys
    requires forall rel | rel in tree :: !Reserved(rel)
    requires Pending(directory, temp, "source-manifest.json") !in vol.names
    modifies vol
    ensures vol.Valid() && OnlyTemporary(old(vol.names), vol.names, directory, temp)
    ensures var manifest := File(Manifest(meta), WRITABLE);
            var v2 := EvidenceView(old(vol.Seen()), j, manifest);
            && (r, vol.Seen()) == CommitView(v2, j, tree, manifest)
            && Met(old(vol.trace), vol.trace, v2, vol.Seen())
  {
    ghost var files := VersionFiles(tree, File(Manifest(meta), WRITABLE));
    WriteDocuments(vol, meta, directory, temp, tree);
    ghost var met := vol.trace;
    if WithEvidence(j) { KeepEvidence(vol, j, directory, temp, files); }
    ghost var v2, met2 := vol.Seen(), vol.trace;
    var ok := vol.MoveStaging(directory, temp, files, j.dest);
    MetTwo(met, met2, vol.trace, v2, vol.Seen());
    r := if ok then Ok(j.dest) else Err(NotEmpty);
  }

  /** Readers met at most `x` and `y` since. */
  ghost predicate Met(before: seq<View>, after: seq<View>, x: View, y: View) {
    before <= after && forall i | |before| <= i < |after| :: after[i] == x || after[i] == y
  }

  lemma MetTwo(before: seq<View>, middle: seq<View>, after: seq<View>, x: View, y: View)
    requires middle == before || middle == before + [x]
    requires after == middle || after == middle + [y]
    ensures Met(before, after, x, y)
  {
  }

  lemma MetThree(before: seq<View>, middle: seq<View>, after: seq<View>, v: View, j: Job, base: Option<Meta>, tree: map<Rel, File>,
                 x: View, y: View, z: View)
    requires (middle == before || middle == before + [x]) && Met(middle, after, y, z)
    requires MakeStage(v, j, base, tree, x) && MakeStage(v, j, base, tree, y) && MakeStage(v, j, base, tree, z)
    ensures before <= after && forall i | |before| <= i < |after| :: MakeStage(v, j, base, tree, after[i])
  {
  }

  /** Keep the archive and settle what the manifest records as sources. */
  method RecordSources(vol: Volume, j: Job, base: Option<Meta>, parts: set<Part>, directory: string, temp: string,
                       ghost tree: map<Rel, File>)
    returns (ok: bool, sources: Option<Sources>)
    requires vol.Valid() && Stages(vol.names, vol.inodes, directory, temp, tree) && (j.parts.Some? ==> base.Some?)
    requires forall p | p in vol.names && p.Pending? :: p.temp != temp
    modifies vol
    ensures vol.Valid() && Stages(vol.names, vol.inodes, directory, temp, tree)
    ensures forall p | !Visible(p) :: p in vol.names <==> p in old(vol.names)
    ensures vol.Seen() == ArchiveView(old(vol.Seen()), j, parts)
    ensures vol.trace == old(vol.trace) || vol.trace == old(vol.trace) + [vol.Seen()]
    ensures ok == (WithEvidence(j) ==> Adoptable(j, base, parts))
    ensures ok ==> sources == SourcesFor(j, base, parts)
  {
    ok, sources := true, if j.sources.Some? then Some(Flat(j.sources.value)) else None;
    if WithEvidence(j) {
      KeepArchive(vol, j, parts, directory, temp);
      sources := AdoptSources(j, base, parts);
      ok := sources.Some?;
    }
  }

  /** Provenance, archive and commit of a staged tree. */
  method BuildVersion(vol: Volume, j: Job, base: Option<Meta>, files: map<Rel, Listing>, directory: string, temp: string,
                      ghost tree: map<Rel, File>)
    returns (r: Result<Key>)
    requires vol.Valid() && Stages(vol.names, vol.inodes, directory, temp, tree) && files == Listings(tree)
    requires forall rel | rel in tree :: !Reserved(rel)
    requires j.parts.Some? ==> base.Some?
    requires forall p | p in vol.names && p.Pending? :: p.temp != temp
    modifies vol
    ensures vol.Valid() && OnlyTemporary(old(vol.names), vol.names, directory, temp)
    ensures (r, vol.Seen()) == MakeView(old(vol.Seen()), j, base, tree)
    ensures old(vol.trace) <= vol.trace
    ensures forall i | |old(vol.trace)| <= i < |vol.trace| :: MakeStage(old(vol.Seen()), j, base, tree, vol.trace[i])
  {
    assert files.Keys == tree.Keys;
    ghost var v := vol.Seen();
    var parts := ListParts(files, j.dest.component);
    var ok, sources := RecordSources(vol, j, base, parts, directory, temp, tree);
    ghost var v1, met := vol.Seen(), vol.trace;
    if ok {
      var meta := Meta(j.binding, j.releaseOwned, files, sources, j.image, j.preparation);
      assert File(Manifest(meta), WRITABLE) == ManifestFile(j, base, tree);
      r := CommitVersion(vol, j, meta, directory, temp, tree);
      MetThree(old(vol.trace), met, vol.trace, v, j, base, tree, v1, EvidenceView(v1, j, ManifestFile(j, base, tree)), vol.Seen());
    } else {
      r := Err(NoProvenance);
    }
  }

  const RELEASE_PREFIX := ".release.staging-"

  function StagingPrefix(j: Job): string {
    if j.releaseOwned then RELEASE_PREFIX else "." + j.binding + ".staging-"
  }

  /** What remains of the plan once the inputs are known. */
  function CopyPlan(v: View, j: Job, base: Option<Meta>, items: map<Rel, Item>): Plan {
    if !AllRegular(items) then Stop(Err(NotRegular))
    else if Unchanged(v, j, base, FullCopy(items)) then Stop(Ok(PreviousKey(j)))
    else Make(base, FullCopy(items))
  }

  /** Stage the inputs in a new temporary directory, then reuse the previous version or build a new one. */
  method PublishInputs(vol: Volume, j: Job, base: Option<Meta>, origins: map<Rel, Origin>,
                       ghost v: View, ghost items: map<Rel, Item>)
    returns (r: Result<Key>)
    requires vol.Valid() && vol.Seen() == v && NormalModes(v) && items == Items(v, PreviousKey(j), origins)
    requires forall rel | rel in origins :: !Reserved(rel) && (origins[rel].Previous? ==> j.previous.Some?)
    requires (base.Some? ==> j.previous.Some?) && (j.parts.Some? ==> base.Some?)
    modifies vol
    ensures vol.Valid() && SameHidden(old(vol.names), vol.names) && old(vol.trace) <= vol.trace
    ensures match CopyPlan(v, j, base, items)
            case Stop(result) => r == result && vol.Seen() == v && vol.trace == old(vol.trace)
            case Make(_, tree) =>
              && (r, vol.Seen()) == MakeView(v, j, base, tree)
              && forall i | |old(vol.trace)| <= i < |vol.trace| :: MakeStage(v, j, base, tree, vol.trace[i])
  {
    var temp := vol.FreshName(StagingPrefix(j));
    var ok, files, same := CopyInputs(vol, j, origins, j.dest.component, temp, Reusable(j, base), v, items);
    if !ok {
      r := Err(NotRegular);
    } else if j.previous.Some? && same && files == base.value.files {
      r := Ok(PreviousKey(j));
    } else {
      r := BuildVersion(vol, j, base, files, j.dest.component, temp, FullCopy(items));
    }
    HiddenCleared(old(vol.names), vol.names, j.dest.component, temp);
    vol.ClearTemporary(j.dest.component, temp);
  }

  /** Out of sight nothing is left behind, and nothing of anybody else's is gone. */
  ghost predicate SameHidden(names: map<Path, nat>, names': map<Path, nat>) {
    forall p | !Visible(p) :: p in names <==> p in names'
  }

  lemma HiddenCleared(names: map<Path, nat>, names': map<Path, nat>, directory: string, temp: string)
    requires OnlyTemporary(names, names', directory, temp) && forall p | p in names && !Visible(p) :: |p.temp| < |temp|
    ensures SameHidden(names, map p | p in names' && !Temporary(p, directory, temp) :: names'[p])
  {
  }

  /** Out of sight exactly the temporary directories of this name prefix are gone. */
  ghost predicate Cleared(names: map<Path, nat>, names': map<Path, nat>, directory: string, prefix: string) {
    forall p | !Visible(p) :: p in names' <==> p in names && !Temporary(p, directory, prefix)
  }

  lemma OriginsArePlain(v: View, j: Job, base: Option<Meta>, origins: map<Rel, Origin>)
    requires JobOk(j) && Readable(v) && j.source.Tree? && base == BaseOf(v, j)
    requires Inputs(v, j, base) == Ok(Items(v, PreviousKey(j), origins))
    ensures forall rel | rel in origins :: !Reserved(rel)
  {
    forall rel | rel in origins ensures !Reserved(rel) {
      assert rel in Items(v, PreviousKey(j), origins);
      if j.parts.Some? && rel !in j.source.items {
        assert InVersion(PreviousKey(j), MANIFEST) in v;
      }
    }
  }

  /** `publish`: what it returns and leaves to be seen, and everything seen meanwhile. */
  method Publish(vol: Volume, j: Job) returns (r: Result<Key>)
    requires vol.Valid() && JobOk(j) && Readable(vol.Seen()) && NormalModes(vol.Seen())
    modifies vol
    ensures vol.Valid() && (r, vol.Seen()) == PublishView(old(vol.Seen()), j)
    ensures old(vol.trace) <= vol.trace
    ensures forall i | |old(vol.trace)| <= i < |vol.trace| :: Stage(old(vol.Seen()), j, vol.trace[i])
    ensures j.releaseOwned ==> SameHidden(old(vol.names), vol.names)
    ensures !j.releaseOwned ==> Cleared(old(vol.names), vol.names, j.dest.component, "." + j.binding + ".staging-")
  {
    ghost var v := vol.Seen();
    if !j.releaseOwned { vol.ClearTemporary(j.dest.component, StagingPrefix(j)); }
    assert vol.IsFile(InVersion(j.dest, MANIFEST)) <==> InVersion(j.dest, MANIFEST) in v;
    if vol.IsFile(InVersion(j.dest, MANIFEST)) { return Ok(j.dest); }
    if j.source.Missing? { return Err(NoExport); }
    var base := ReadBase(vol, j);
    var inputs := GatherInputs(vol, j, base);
    if inputs.Err? { return Err(inputs.error); }
    ghost var items := Items(v, PreviousKey(j), inputs.value);
    OriginsArePlain(v, j, base, inputs.value);
    PlanFromInputs(v, j, base, items);
    r := PublishInputs(vol, j, base, inputs.value, v, items);
  }

  lemma PlanFromInputs(v: View, j: Job, base: Option<Meta>, items: map<Rel, Item>)
    requires !HasManifest(v, j.dest) && j.source.Tree? && !BaseUnreadable(v, j) && base == BaseOf(v, j)
    requires Inputs(v, j, base) == Ok(items)
    ensures PlanOf(v, j) == CopyPlan(v, j, base, items) && (j.parts.Some? ==> base.Some?)
  {
  }

  /** The previous version's manifest, if it has one. */
  method ReadBase(vol: Volume, j: Job) returns (base: Option<Meta>)
    requires vol.Valid() && Readable(vol.Seen())
    ensures base == BaseOf(vol.Seen(), j) && !BaseUnreadable(vol.Seen(), j)
  {
    var p := InVersion(PreviousKey(j), MANIFEST);
    assert vol.IsFile(p) <==> p in vol.Seen();
    if j.previous.Some? && vol.IsFile(p) {
      base := Some(vol.Content(p).content.meta);
    } else {
      base := None;
    }
  }
}

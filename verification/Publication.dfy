/**
 Application publication as its readers see it: what the immutable version directories, the source
 evidence and the build records hold, without hard links, staging directories or intermediate writes.

 `Publisher` carries the same operations out on a file system with shared inodes and is proved against
 the functions of this module.
 */
module Publication {
  import opened Common

  type Rel = seq<string>        // the parts of a relative path; an absolute path starts with "/"
  type Mode = bv12              // permission bits
  type Fields = map<string, string>

  datatype Key = Key(component: string, revision: string)

  datatype Part = Go | Python | Engine | Rust

  datatype Sources = Flat(fields: Fields) | ByPart(parts: map<Part, Option<Fields>>)

  datatype Listing = Listing(mode: Mode, size: nat)

  datatype Meta = Meta(binding: string, releaseOwned: bool, files: map<Rel, Listing>, sources: Option<Sources>,
                       image: Option<string>, preparation: Option<string>)

  datatype Content =
    | Raw(bytes: seq<nat>)
    | Manifest(meta: Meta)
    | Package(members: map<Rel, File>)
    | BuildRecord(applications: map<string, string>, details: string, url: string)

  datatype File = File(content: Content, mode: Mode)

  datatype Path =
    | InVersion(key: Key, rel: Rel)
    | Archive(key: Key)                                   // sources/<component>/<revision>.tar.gz
    | Evidence(key: Key)                                  // sources/<component>/<revision>.json
    | InBuild(build: string, name: string)                // sources/builds/<build>/<name>
    | Staged(directory: string, temp: string, rel: Rel)   // <directory>/<temp>/payload/<rel>
    | Pending(directory: string, temp: string, name: string)

  predicate Visible(p: Path) {
    !p.Staged? && !p.Pending?
  }

  type View = map<Path, File>

  datatype Item = Directory | Regular(file: File) | Symlink | Special

  datatype Export = Missing | Tree(items: map<Rel, Item>)

  /** The arguments of one `publish` call; `archive` is the content of the source archive. */
  datatype Job = Job(source: Export, dest: Key, binding: string, previous: Option<string>, releaseOwned: bool,
                     reusePrevious: bool, sources: Option<Fields>, image: Option<string>, parts: Option<set<Part>>,
                     previousImage: Option<string>, preparation: Option<string>, archive: Option<Content>,
                     archiveUrl: string)

  datatype Error = NoExport | Unreadable | NoBase | WrongImage | BadPath | NotRegular | NoProvenance | NotEmpty | NoApplication

  datatype Result<+T> = Ok(value: T) | Err(error: Error)

  const MANIFEST: Rel := ["manifest.json"]
  const PACKAGE: Rel := ["application.tar.gz"]
  const READ_ONLY: Mode := 0x124          // 0o444
  const EXECUTABLE: Mode := 0x49          // 0o111
  const WRITABLE: Mode := 0x1A4           // 0o644, a fresh file before chmod

  /** Published modes keep the executable bits and are otherwise read-only. */
  function Normal(m: Mode): Mode {
    (m & EXECUTABLE) | READ_ONLY
  }

  /** The sizes of the documents the publisher writes itself are never listed. */
  function Size(c: Content): nat {
    if c.Raw? then |c.bytes| else 0
  }

  predicate Reserved(rel: Rel) {
    rel == MANIFEST || rel == PACKAGE
  }

  /** `_application_part` */
  function PartOf(rel: Rel, component: string): Part {
    if component == "control-plane" then Go
    else if rel != [] && rel[0] == "python" then Python
    else if rel != [] && (rel[0] == "engine" || rel[0] == "engine-environment.json") then Engine
    else Rust
  }

  function PartsOf(files: set<Rel>, component: string): set<Part> {
    set rel | rel in files :: PartOf(rel, component)
  }

  predicate ValidRel(rel: Rel) {
    rel != [] && rel[0] != "/" && ".." !in rel
  }

  // ----- Reading versions -----

  predicate HasManifest(v: View, k: Key) {
    InVersion(k, MANIFEST) in v
  }

  function MetaAt(v: View, k: Key): Option<Meta> {
    var p := InVersion(k, MANIFEST);
    if p in v && v[p].content.Manifest? then Some(v[p].content.meta) else None
  }

  /** The version directory holds a file, so a rename onto it fails. */
  predicate Occupied(v: View, k: Key) {
    exists p | p in v :: p.InVersion? && p.key == k
  }

  // ----- What one publication consists of -----

  /** A path of the previous version as an input: a missing one is not a regular file. */
  function PriorItem(v: View, k: Key, rel: Rel): Item {
    if InVersion(k, rel) in v then Regular(v[InVersion(k, rel)]) else Special
  }

  predicate Selected(j: Job, rel: Rel) {
    j.parts.None? || PartOf(rel, j.dest.component) in j.parts.value
  }

  function PriorItems(v: View, j: Job, k: Key, files: set<Rel>): map<Rel, Item> {
    map rel | rel in files && !Selected(j, rel) :: PriorItem(v, k, rel)
  }

  /** Selected parts come from the export in full, the others from the previous manifest. */
  function Inputs(v: View, j: Job, base: Option<Meta>): Result<map<Rel, Item>>
    requires j.source.Tree?
  {
    if j.parts.None? then Ok(j.source.items)
    else if base.None? || j.previous.None? then Err(NoBase)
    else if base.value.image != (if j.previousImage.Some? then j.previousImage else j.image) then Err(WrongImage)
    else if exists rel | rel in base.value.files :: !ValidRel(rel) then Err(BadPath)
    else
      Ok((map rel | rel in j.source.items && Selected(j, rel) :: j.source.items[rel])
         + PriorItems(v, j, Key(j.dest.component, j.previous.value), base.value.files.Keys))
  }

  predicate AllRegular(inputs: map<Rel, Item>) {
    forall rel | rel in inputs :: inputs[rel].Directory? || inputs[rel].Regular?
  }

  /** A full copy of the inputs with published modes. */
  function FullCopy(inputs: map<Rel, Item>): map<Rel, File> {
    map rel | rel in inputs && inputs[rel].Regular? :: File(inputs[rel].file.content, Normal(inputs[rel].file.mode))
  }

  function Listings(tree: map<Rel, File>): map<Rel, Listing> {
    map rel | rel in tree :: Listing(tree[rel].mode, Size(tree[rel].content))
  }

  /** The previous version's file can stand for `f`. */
  predicate Same(v: View, k: Key, rel: Rel, f: File) {
    InVersion(k, rel) in v && Normal(v[InVersion(k, rel)].mode) == f.mode && v[InVersion(k, rel)].content == f.content
  }

  /** The previous version was published for the same binding, environment and publisher. */
  predicate Reusable(j: Job, base: Option<Meta>) {
    && j.reusePrevious && base.Some? && base.value.binding == j.binding && !base.value.releaseOwned
    && base.value.image == j.image && base.value.preparation == j.preparation
  }

  predicate Unchanged(v: View, j: Job, base: Option<Meta>, tree: map<Rel, File>) {
    && j.previous.Some? && Reusable(j, base)
    && (forall rel | rel in tree :: Same(v, Key(j.dest.component, j.previous.value), rel, tree[rel]))
    && Listings(tree) == base.value.files
  }

  // ----- Provenance -----

  /** Engine sources are recorded for the engine part only. */
  function ForPart(fields: Fields, part: Part): Fields {
    if part == Engine then fields else fields - {"engines"}
  }

  predicate WithEvidence(j: Job) {
    j.sources.Some? && j.archive.Some?
  }

  predicate Supplies(j: Job, part: Part) {
    j.parts.None? || part in j.parts.value
  }

  /** What one part of a manifest is recorded to be built from. */
  function Recorded(sources: Option<Sources>, part: Part): Option<Fields> {
    match sources
    case None => None
    case Some(Flat(fields)) => Some(ForPart(fields, part))
    case Some(ByPart(parts)) => if part in parts then parts[part] else None
  }

  /** A part-wise record of the previous version that lacks an adopted part is an error. */
  predicate Adoptable(j: Job, base: Option<Meta>, parts: set<Part>) {
    forall part | part in parts && !Supplies(j, part) ::
      base.Some? && (base.value.sources.Some? && base.value.sources.value.ByPart? ==> part in base.value.sources.value.parts)
  }

  function Adopted(j: Job, base: Option<Meta>, parts: set<Part>): Option<Sources>
    requires WithEvidence(j) && Adoptable(j, base, parts)
  {
    var fields := j.sources.value["archive" := j.archiveUrl];
    Some(ByPart(map part | part in parts ::
      if Supplies(j, part) then Some(ForPart(fields, part)) else Recorded(base.value.sources, part)))
  }

  function SourcesFor(j: Job, base: Option<Meta>, parts: set<Part>): Option<Sources>
    requires WithEvidence(j) ==> Adoptable(j, base, parts)
  {
    if WithEvidence(j) then Adopted(j, base, parts)
    else if j.sources.Some? then Some(Flat(j.sources.value)) else None
  }

  // ----- One publication -----

  /** What a publication amounts to: an immediate result, or a new version to build. */
  datatype Plan = Stop(result: Result<Key>) | Make(base: Option<Meta>, tree: map<Rel, File>)

  function BaseOf(v: View, j: Job): Option<Meta> {
    if j.previous.Some? then MetaAt(v, Key(j.dest.component, j.previous.value)) else None
  }

  predicate BaseUnreadable(v: View, j: Job) {
    j.previous.Some? && HasManifest(v, Key(j.dest.component, j.previous.value)) && BaseOf(v, j).None?
  }

  function PlanOf(v: View, j: Job): Plan {
    if HasManifest(v, j.dest) then Stop(Ok(j.dest))
    else if j.source.Missing? then Stop(Err(NoExport))
    else if BaseUnreadable(v, j) then Stop(Err(Unreadable))
    else
      var base := BaseOf(v, j);
      var inputs := Inputs(v, j, base);
      if inputs.Err? then Stop(Err(inputs.error))
      else if !AllRegular(inputs.value) then Stop(Err(NotRegular))
      else
        var tree := FullCopy(inputs.value);
        if Unchanged(v, j, base, tree) then Stop(Ok(Key(j.dest.component, j.previous.value)))
        else Make(base, tree)
  }

  /** The source archive is kept once, when some published part is supplied by this publication. */
  predicate KeepsArchive(v: View, j: Job, parts: set<Part>) {
    WithEvidence(j) && (j.parts.None? || parts * j.parts.value != {}) && Archive(j.dest) !in v
  }

  function ArchiveView(v: View, j: Job, parts: set<Part>): View {
    if KeepsArchive(v, j, parts) then v[Archive(j.dest) := File(j.archive.value, READ_ONLY)] else v
  }

  function ManifestFile(j: Job, base: Option<Meta>, tree: map<Rel, File>): File
    requires WithEvidence(j) ==> Adoptable(j, base, PartsOf(tree.Keys, j.dest.component))
  {
    File(Manifest(Meta(j.binding, j.releaseOwned, Listings(tree),
                       SourcesFor(j, base, PartsOf(tree.Keys, j.dest.component)), j.image, j.preparation)), WRITABLE)
  }

  function EvidenceView(v: View, j: Job, manifest: File): View {
    if WithEvidence(j) then v[Evidence(j.dest) := manifest] else v
  }

  /** The files of a finished version: the application, its package and its manifest. */
  function VersionFiles(tree: map<Rel, File>, manifest: File): map<Rel, File> {
    tree[PACKAGE := File(Package(tree), READ_ONLY)][MANIFEST := manifest]
  }

  function Placed(k: Key, files: map<Rel, File>): View {
    map p | p in (set rel | rel in files :: InVersion(k, rel)) :: files[p.rel]
  }

  function CommitView(v: View, j: Job, tree: map<Rel, File>, manifest: File): (Result<Key>, View) {
    if Occupied(v, j.dest) then (Err(NotEmpty), v)
    else (Ok(j.dest), v + Placed(j.dest, VersionFiles(tree, manifest)))
  }

  function MakeView(v: View, j: Job, base: Option<Meta>, tree: map<Rel, File>): (Result<Key>, View) {
    var parts := PartsOf(tree.Keys, j.dest.component);
    var v1 := ArchiveView(v, j, parts);
    if WithEvidence(j) && !Adoptable(j, base, parts) then (Err(NoProvenance), v1)
    else
      var manifest := ManifestFile(j, base, tree);
      CommitView(EvidenceView(v1, j, manifest), j, tree, manifest)
  }

  function PublishView(v: View, j: Job): (Result<Key>, View) {
    match PlanOf(v, j)
    case Stop(result) => (result, v)
    case Make(base, tree) => MakeView(v, j, base, tree)
  }

  /** Everything a reader can see while the publication is under way, or after it died. */
  predicate Stage(v: View, j: Job, x: View) {
    x == v ||
    match PlanOf(v, j)
    case Stop(_) => false
    case Make(base, tree) => MakeStage(v, j, base, tree, x)
  }

  predicate MakeStage(v: View, j: Job, base: Option<Meta>, tree: map<Rel, File>, x: View) {
    var parts := PartsOf(tree.Keys, j.dest.component);
    var v1 := ArchiveView(v, j, parts);
    || x == v1 || x == MakeView(v, j, base, tree).1
    || ((WithEvidence(j) ==> Adoptable(j, base, parts)) && x == EvidenceView(v1, j, ManifestFile(j, base, tree)))
  }

  // ----- Retirement -----

  datatype Sweep = Sweep(component: string, binding: string, keep: set<string>, release: bool)

  predicate Owned(m: Meta, w: Sweep) {
    if w.release then m.releaseOwned else m.binding == w.binding
  }

  /** The versions `retire` removes. */
  predicate Retires(v: View, w: Sweep, k: Key) {
    && k.component == w.component && MetaAt(v, k).Some? && Owned(MetaAt(v, k).value, w) && k.revision !in w.keep
  }

  predicate Swept(v: View, w: Sweep, p: Path) {
    p.InVersion? && Retires(v, w, p.key)
  }

  function RetireView(v: View, w: Sweep): View {
    map p | p in v && !Swept(v, w, p) :: v[p]
  }

  /** Everything a reader can see while the removal is under way: some files of retired versions are gone. */
  predicate Sweeping(v: View, w: Sweep, x: View) {
    && (forall p | p in x :: p in v && x[p] == v[p])
    && (forall p | p in v && p !in x :: Swept(v, w, p))
  }

  /** `retained`: the names of the kept versions this publisher owns. */
  function Retained(v: View, w: Sweep): set<string> {
    set p | p in v && p.InVersion? && p.rel == MANIFEST && p.key.component == w.component
            && MetaAt(v, p.key).Some? && Owned(MetaAt(v, p.key).value, w) && p.key.revision in w.keep :: p.key.revision
  }

  // ----- Build records -----

  datatype Build = Build(id: string, archive: Content, applications: map<string, string>, details: string, url: string)

  /** `publish_build`: the record is committed once, and only if every application it names is published. */
  function RecordView(v: View, b: Build): (Result<string>, View) {
    if InBuild(b.id, "build.json") in v then (Ok(b.id), v)
    else if exists c | c in b.applications :: !HasManifest(v, Key(c, b.applications[c])) then (Err(NoApplication), v)
    else if exists p | p in v :: p.InBuild? && p.build == b.id then (Err(NotEmpty), v)
    else (Ok(b.id), v[InBuild(b.id, "inputs.tar.gz") := File(b.archive, READ_ONLY)]
                     [InBuild(b.id, "build.json") := File(BuildRecord(b.applications, b.details, b.url), READ_ONLY)])
  }

  // ----- Runs -----

  /** A completed step, or one that died leaving `x` behind. */
  datatype Event =
    | Publish(job: Job)
    | PublishDies(job: Job, x: View)
    | Retire(sweep: Sweep)
    | RetireDies(sweep: Sweep, x: View)
    | Record(build: Build)

  function Next(v: View, e: Event): View {
    match e
    case Publish(j) => PublishView(v, j).1
    case PublishDies(j, x) => if Stage(v, j, x) then x else v
    case Retire(w) => RetireView(v, w)
    case RetireDies(w, x) => if Sweeping(v, w, x) then x else v
    case Record(b) => RecordView(v, b).1
  }

  function Run(v: View, events: seq<Event>): View
    decreases |events|
  {
    if events == [] then v else Run(Next(v, events[0]), events[1..])
  }
}

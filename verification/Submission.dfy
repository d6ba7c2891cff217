/**
 Submission, temporary cleanup and deletion of one deployment instance by any number of clients.

 The API server stores the InferenceDeployment records of one instance name and the members
 (services and dependencies) of the instance. Every write is versioned; `clock` is the server's
 revision counter. The per-instance mutation lock appears as the record's holder: it is granted to
 one client at a time and freed only when that client has left or is dead with no subprocess
 running, which is what `LockTheorems` establishes for the annotation-and-flock protocol.
 */
module Submission {
  import opened Common

  type Cid = nat     // a client's operation id
  type Uid = nat

  datatype Ref = Service(name: nat) | Dependency(name: nat)

  datatype Spec = Spec(config: nat, suspend: bool)

  /** `owner` is the deployment UID label, `source` the source revision, `tag` the operation annotation. */
  datatype Obj = Obj(uid: Uid, version: nat, generation: nat, deleting: bool, owner: Uid,
                     source: nat, tag: Option<Cid>, spec: Spec)

  datatype Intent = Intent(uid: Uid, generation: nat, source: nat, tag: Option<Cid>)

  /** `services`: some declared member is a service; `requested`: `updateID` is set. */
  datatype Root = Root(live: bool, deleting: bool, version: nat, holder: Option<Cid>, tag: Option<Cid>,
                       services: bool, requested: bool, creator: Option<Cid>)

  datatype Request =
    | ClaimRoot(version: nat, identity: Option<Cid>)
    | RequestRoot(version: nat, services: bool)
    | DeleteRoot(version: nat)
    | Configure(ref: Ref, base: Option<Obj>, config: nat, source: nat, suspend: bool)  // server-side apply
    | Toggle(ref: Ref, prior: Obj, suspend: bool)                                        // merge patch
    | CreateMember(ref: Ref, config: nat)
    | ClaimMember(ref: Ref, prior: Obj)
    | ApplyMember(ref: Ref, prior: Obj, config: nat)
    | DeleteMember(ref: Ref, prior: Obj)

  datatype Reply = Waiting | Done(obj: Option<Obj>) | Conflict | Failed

  datatype Phase =
    | Fresh                                       // constructing: taking the service snapshot
    | Outside                                     // not in the lock
    | Holding                                     // in the lock, claim not yet looked at
    | Validating(todo: set<Ref>)                  // `_begin`: members still to validate
    | ClaimReady(version: nat, identity: Option<Cid>)
    | Checked                                     // in the lock, own claim confirmed
    | Observed(ref: Ref, obj: Option<Obj>)
    | RootSeen(version: nat)
    | Sent(req: Request, reply: Reply)
    | Leaving                                     // an exception is on its way out of the lock
    | Lost(req: Request)                          // process died, its subprocess still runs
    | Dead

  datatype Kind = Deploy(temporary: bool) | Delete

  /**
   `expected` and `committed` are the submission's intent preconditions, `created` and `createdRoot`
   its creation receipts, `applied` the configurations it committed, `claimed` its retained scope.
   `over`: a claim attempt ended without a known outcome, so no second attempt is made.
   */
  datatype Client = Client(kind: Kind, uid: Option<Uid>, expected: map<Ref, Option<Intent>>,
                           committed: map<Ref, Intent>, created: map<Ref, Uid>, createdRoot: bool,
                           applied: map<Ref, nat>, claimed: bool, over: bool, phase: Phase)

  /** One successful write by a client, with what it replaced and what the client had a right to replace. */
  datatype Entry =
    | Claimed(uid: Uid, author: Cid, temporary: bool)
    | Requested(uid: Uid, author: Cid, services: bool)
    | RootDeleted(uid: Uid, author: Cid)
    | ServiceWritten(uid: Uid, author: Cid, ref: Ref, before: Option<Obj>, after: Obj,
                     want: Option<Intent>, config: Option<nat>)
    | DependencyWritten(uid: Uid, author: Cid, ref: Ref, before: Option<Obj>, after: Obj)
    | MemberDeleted(uid: Uid, author: Cid, ref: Ref, gone: Obj, receipt: Option<Uid>, want: Option<Intent>)

  /**
   `landed` are the operations whose claim the server has accepted. `specs`, `owners` and `makers`
   remember, per object UID, the spec at each generation, the deployment label and the creating client.
   */
  datatype State = State(roots: map<Uid, Root>, current: Option<Uid>, objs: map<Ref, Obj>,
                         clients: map<Cid, Client>, clock: nat, used: set<Uid>, landed: set<Cid>,
                         specs: map<(Uid, nat), Spec>, owners: map<Uid, Uid>, makers: map<Uid, Cid>,
                         log: seq<Entry>)

  const Initial := State(map[], None, map[], map[], 0, {}, {}, map[], map[], map[], [])

  // ----- Pure parts of the submission -----

  /** Identify spec and executable intent independently of status-only updates. */
  function IntentOf(o: Obj): Intent {
    Intent(o.uid, o.generation, o.source, o.tag)
  }

  function IntentOpt(o: Option<Obj>): Option<Intent> {
    if o.Some? then Some(IntentOf(o.value)) else None
  }

  /** The intent a service must have for this client to go on: its last commit, else its snapshot. */
  function Want(cl: Client, ref: Ref): Option<Intent> {
    if ref in cl.committed then Some(cl.committed[ref])
    else if ref in cl.expected then cl.expected[ref] else None
  }

  /** `_validate_member`, including the refusal of a service that is being deleted. */
  predicate ValidMember(cl: Client, ref: Ref, o: Option<Obj>) {
    && (o.Some? ==> Some(o.value.owner) == cl.uid)
    && (ref in cl.expected ==> (o.Some? ==> !o.value.deleting) && IntentOpt(o) == Want(cl, ref))
  }

  /** `owns_created`: a recorded creation whose current intent, or UID and operation, are still ours. */
  predicate OwnsCreated(cl: Client, c: Cid, ref: Ref, o: Obj) {
    && ref in cl.created && !o.deleting && Some(o.owner) == cl.uid
    && (ref in cl.expected ==> ref in cl.committed && IntentOf(o) == cl.committed[ref])
    && (ref !in cl.expected ==> o.uid == cl.created[ref] && o.tag == Some(c))
  }

  /** `_owns_scope`: the live, undeleted record of this client's UID still carries its operation. */
  predicate OwnsInstance(s: State, c: Cid)
    requires c in s.clients
  {
    var cl := s.clients[c];
    && cl.claimed && s.current.Some? && s.current == cl.uid && s.current.value in s.roots
    && !s.roots[s.current.value].deleting && s.roots[s.current.value].tag == Some(c)
  }

  /** Retained storage with no declared service and a completed request. */
  predicate StorageOnly(r: Root) {
    r.requested && !r.services
  }

  // ----- The API server -----

  /** Generation moves exactly when the spec does. */
  function Rewrite(o: Obj, version: nat, spec: Spec, source: nat, tag: Option<Cid>): Obj {
    Obj(o.uid, version, if spec == o.spec then o.generation else o.generation + 1, o.deleting, o.owner,
        source, tag, spec)
  }

  /** The member a request writes and the object version it is fenced to. */
  function Target(req: Request): Option<(Ref, Option<Obj>)> {
    match req
    case Configure(ref, base, _, _, _) => Some((ref, base))
    case Toggle(ref, o, _) => Some((ref, Some(o)))
    case CreateMember(ref, _) => Some((ref, None))
    case ClaimMember(ref, o) => Some((ref, Some(o)))
    case ApplyMember(ref, o, _) => Some((ref, Some(o)))
    case DeleteMember(ref, o) => Some((ref, Some(o)))
    case _ => None
  }

  predicate MemberFence(s: State, ref: Ref, base: Option<Obj>) {
    if base.None? then ref !in s.objs
    else ref in s.objs && s.objs[ref].uid == base.value.uid && s.objs[ref].version == base.value.version
  }

  predicate RootFence(s: State, u: Uid, version: nat) {
    u in s.roots && s.roots[u].live && s.roots[u].version == version
  }

  /** What the server has under `ref`. */
  function Stored(s: State, ref: Ref): Option<Obj> {
    if ref in s.objs then Some(s.objs[ref]) else None
  }

  /** The object a member request makes of the stored one, at server revision `version`. */
  function Written(c: Cid, u: Uid, req: Request, stored: Option<Obj>, version: nat, newUid: Uid): Obj
    requires Target(req).Some? && (stored.Some? <==> Target(req).value.1.Some?)
  {
    match req
    case Configure(_, _, config, source, suspend) =>
      if stored.None? then Obj(newUid, version, 1, false, u, source, None, Spec(config, suspend))
      else Rewrite(stored.value, version, Spec(config, suspend || stored.value.spec.suspend), source, stored.value.tag)
    case Toggle(_, _, suspend) =>
      Rewrite(stored.value, version, Spec(stored.value.spec.config, suspend), stored.value.source, Some(c))
    case CreateMember(_, config) => Obj(newUid, version, 1, false, u, 0, Some(c), Spec(config, false))
    case ClaimMember(_, _) => Rewrite(stored.value, version, stored.value.spec, stored.value.source, Some(c))
    case ApplyMember(_, _, config) =>
      Rewrite(stored.value, version, Spec(config, stored.value.spec.suspend), stored.value.source, Some(c))
    case DeleteMember(_, _) => stored.value.(version := version, deleting := true)
  }

  /** The entry of a member write: `stored` is what the server replaced by `o`. */
  function Log(c: Cid, cl: Client, u: Uid, req: Request, stored: Option<Obj>, o: Obj): Entry
    requires Target(req).Some? && (stored.Some? <==> Target(req).value.1.Some?)
  {
    var ref := Target(req).value.0;
    if req.DeleteMember? then
      MemberDeleted(u, c, ref, stored.value, if ref in cl.created then Some(cl.created[ref]) else None, Want(cl, ref))
    else if req.Configure? || req.Toggle? then
      ServiceWritten(u, c, ref, stored, o, Want(cl, ref), if ref in cl.applied then Some(cl.applied[ref]) else None)
    else DependencyWritten(u, c, ref, stored, o)
  }

  /** Store an object and remember what its UID and generation stand for. */
  function Store(s: State, ref: Ref, o: Obj): State {
    s.(objs := s.objs[ref := o], clock := o.version, used := s.used + {o.uid},
       specs := s.specs[(o.uid, o.generation) := o.spec], owners := s.owners[o.uid := o.owner])
  }

  /** Execute client c's member request; the reply carries the stored object. */
  function LandMember(s: State, c: Cid, req: Request, newUid: Uid): (State, Reply)
    requires c in s.clients && s.clients[c].uid.Some? && Target(req).Some?
  {
    var cl := s.clients[c];
    var (ref, base) := Target(req).value;
    if !MemberFence(s, ref, base) then (s, Conflict)
    else
      var o := Written(c, cl.uid.value, req, Stored(s, ref), s.clock + 1, newUid);
      var t := Store(s, ref, o);
      (t.(log := s.log + [Log(c, cl, cl.uid.value, req, Stored(s, ref), o)],
          makers := if base.None? then s.makers[o.uid := c] else s.makers), Done(Some(o)))
  }

  function LandRoot(s: State, c: Cid, req: Request): (State, Reply)
    requires c in s.clients && s.clients[c].uid.Some? && Target(req).None?
  {
    var cl := s.clients[c];
    var u := cl.uid.value;
    if !RootFence(s, u, req.version) then (s, Conflict)
    else
      var r := s.roots[u].(version := s.clock + 1);
      var t := s.(clock := s.clock + 1);
      match req
      case ClaimRoot(_, _) =>
        // A temporary claim declares its services in the same patch.
        var temporary := cl.kind == Deploy(true);
        (t.(roots := s.roots[u := r.(tag := Some(c), services := r.services || temporary)],
            landed := s.landed + {c}, log := s.log + [Claimed(u, c, temporary)]), Done(None))
      case RequestRoot(_, services) =>
        (t.(roots := s.roots[u := r.(services := services, requested := true)],
            log := s.log + [Requested(u, c, services)]), Done(None))
      case _ =>
        (t.(roots := s.roots[u := r.(deleting := true)], log := s.log + [RootDeleted(u, c)]), Done(None))
  }

  function Land(s: State, c: Cid, req: Request, newUid: Uid): (State, Reply)
    requires c in s.clients && s.clients[c].uid.Some?
  {
    if Target(req).Some? then LandMember(s, c, req, newUid) else LandRoot(s, c, req)
  }

  // ----- Client steps -----

  function SetPhase(s: State, c: Cid, phase: Phase): State
    requires c in s.clients
  {
    s.(clients := s.clients[c := s.clients[c].(phase := phase)])
  }

  /** `_prepare_instance`: create the record once, or bind to the one that exists. */
  function Prepare(s: State, c: Cid, newUid: Uid): State
    requires c in s.clients
  {
    var cl := s.clients[c];
    if s.current.Some? then
      if s.current.value !in s.roots || s.roots[s.current.value].deleting || (cl.uid.Some? && cl.uid != s.current) then s
      else s.(clients := s.clients[c := cl.(uid := s.current)])
    else if cl.uid.Some? || newUid in s.used || cl.kind.Delete? then s
    else
      s.(roots := s.roots[newUid := Root(true, false, s.clock + 1, None, None, true, false, Some(c))],
         current := Some(newUid), clock := s.clock + 1, used := s.used + {newUid},
         clients := s.clients[c := cl.(uid := Some(newUid), createdRoot := true)])
  }

  predicate CanAcquire(s: State, c: Cid) {
    && c in s.clients && s.clients[c].phase == Outside && s.clients[c].uid.Some? && s.current == s.clients[c].uid
    && s.current.value in s.roots && !s.roots[s.current.value].deleting && s.roots[s.current.value].holder == None
  }

  function SetHolder(s: State, u: Uid, holder: Option<Cid>): State
    requires u in s.roots
  {
    s.(roots := s.roots[u := s.roots[u].(holder := holder, version := s.clock + 1)], clock := s.clock + 1)
  }

  /** The root read of `_begin`: a temporary submission needs its own or a storage-only instance. */
  function ReadForClaim(s: State, cl: Client): Phase {
    if s.current.None? || s.current != cl.uid || s.current.value !in s.roots then Leaving
    else
      var r := s.roots[s.current.value];
      if r.deleting || (cl.kind == Deploy(true) && !cl.createdRoot && !StorageOnly(r)) then Leaving
      else ClaimReady(r.version, r.tag)
  }

  /** After a version conflict `_begin` goes on only if the observed operation is still the same. */
  function RereadForClaim(s: State, cl: Client, identity: Option<Cid>): Phase {
    if s.current.None? || s.current != cl.uid || s.current.value !in s.roots then Leaving
    else
      var r := s.roots[s.current.value];
      if r.deleting || (cl.kind.Deploy? && r.tag != identity) then Leaving else ClaimReady(r.version, r.tag)
  }

  /** May the client send this request after reading `ref` as `o` with its claim confirmed? */
  predicate MaySend(cl: Client, c: Cid, req: Request, ref: Ref, o: Option<Obj>) {
    Target(req) == Some((ref, o)) &&
    match req
    case Configure(_, _, _, _, _) => ref.Service? && ref in cl.expected && ValidMember(cl, ref, o)
    case Toggle(_, _, suspend) =>
      // An existing service is resumed only after this submission's configuration was committed.
      ref.Service? && ref in cl.expected && ValidMember(cl, ref, o) && (suspend || ref in cl.applied)
    case CreateMember(_, _) => ref.Dependency? && ref !in cl.expected && ValidMember(cl, ref, o)
    case ClaimMember(_, x) => ref.Dependency? && ref !in cl.expected && ValidMember(cl, ref, o) && MayAdopt(cl, ref, x)
    case ApplyMember(_, x, _) => ref.Dependency? && ref !in cl.expected && ValidMember(cl, ref, o) && MayAdopt(cl, ref, x)
    case DeleteMember(_, x) => OwnsCreated(cl, c, ref, x)
    case _ => false
  }

  /** A temporary submission leaves retained storage it did not create untouched. */
  predicate MayAdopt(cl: Client, ref: Ref, o: Obj) {
    cl.kind == Deploy(true) ==> ref in cl.created && cl.created[ref] == o.uid
  }

  predicate MaySendRoot(cl: Client, req: Request, version: nat) {
    match req
    case RequestRoot(v, services) => v == version && cl.kind.Deploy? && (services || cl.kind.temporary)
    case DeleteRoot(v) => v == version && (cl.kind.Delete? || cl.createdRoot)
    case _ => false
  }

  /** The client hears about its request. */
  function Receive(s: State, cl: Client): Client
    requires cl.phase.Sent? && !cl.phase.reply.Waiting?
  {
    var Sent(req, reply) := cl.phase;
    if reply.Done? && reply.obj.Some? && Target(req).Some? && !req.DeleteMember? then Commit(cl, req, reply.obj.value)
    else cl.(claimed := cl.claimed || (req.ClaimRoot? && reply.Done?),
             over := cl.over || (req.ClaimRoot? && reply.Failed?),
             phase := AfterReply(s, cl))
  }

  function AfterReply(s: State, cl: Client): (phase: Phase)
    requires cl.phase.Sent? && !cl.phase.reply.Waiting?
    ensures phase == Checked || phase == Leaving || phase == Holding || phase.ClaimReady?
  {
    var Sent(req, reply) := cl.phase;
    if reply.Done? then Checked
    else if reply.Failed? then Leaving
    else if req.ClaimRoot? then RereadForClaim(s, cl, req.identity)
    else Holding
  }

  /** Record a creation receipt and, for a service, the committed intent and configuration. */
  function Commit(cl: Client, req: Request, o: Obj): Client
    requires Target(req).Some? && !req.DeleteMember?
  {
    var creates := (req.Configure? && req.base.None?) || req.CreateMember?;
    var receipt := creates || (req.ref in cl.created && (req.ref.Service? || cl.created[req.ref] == o.uid));
    var created := if receipt then cl.created[req.ref := o.uid] else cl.created;
    if req.ref.Service? then
      cl.(created := created, committed := cl.committed[req.ref := IntentOf(o)],
          applied := if req.Configure? then cl.applied[req.ref := req.config] else cl.applied, phase := Checked)
    else cl.(created := created, phase := Observed(req.ref, Some(o)))
  }

  /** The subprocess of c's request runs to its end: the write lands, or never reaches the server. */
  function Complete(s: State, c: Cid, outcome: Outcome): State
    requires c in s.clients && s.clients[c].uid.Some?
  {
    var phase := s.clients[c].phase;
    if !phase.Lost? && !(phase.Sent? && phase.reply == Waiting) then s
    else if outcome.Never? then SetPhase(s, c, if phase.Lost? then Dead else Sent(phase.req, Failed))
    else if Target(phase.req).Some? && outcome.newUid in s.used then s
    else
      var (t, reply) := Land(s, c, phase.req, outcome.newUid);
      SetPhase(t, c, if phase.Lost? then Dead else Sent(phase.req, if outcome.heard then reply else Failed))
  }

  /** `newUid` is the UID the server assigns if the request creates an object. */
  datatype Outcome = Never | Lands(newUid: Uid, heard: bool)

  predicate InLock(phase: Phase) {
    !phase.Fresh? && !phase.Outside? && !phase.Dead?
  }

  datatype Event =
    | NewClient(c: Cid, kind: Kind, uid: Option<Uid>)
    | Snapshot(c: Cid, ref: Ref)
    | EndSnapshot(c: Cid)
    | Bind(c: Cid, newUid: Uid)
    | Acquire(c: Cid)
    | Release(c: Cid)
    | Recover(u: Uid)
    | StartBegin(c: Cid)
    | Validate(c: Cid, ref: Ref)
    | ReadRoot(c: Cid)
    | SendClaim(c: Cid)
    | Check(c: Cid)
    | ReadMember(c: Cid, ref: Ref)
    | SeeRoot(c: Cid)
    | Send(c: Cid, req: Request)
    | Finish(c: Cid, outcome: Outcome)
    | Hear(c: Cid)
    | Fail(c: Cid)
    | Crash(c: Cid)
    | TouchRoot(u: Uid, deleting: bool)
    | RemoveRoot(u: Uid)
    | Edit(ref: Ref, spec: Spec, deleting: bool)
    | Remove(ref: Ref)
    | Create(ref: Ref, owner: Uid, spec: Spec, newUid: Uid)

  /** Steps that only the acting client notices. */
  predicate Private(e: Event) {
    e.Snapshot? || e.EndSnapshot? || e.StartBegin? || e.Validate? || e.ReadRoot? || e.SendClaim? || e.Check?
    || e.ReadMember? || e.SeeRoot? || e.Send? || e.Hear? || e.Fail? || e.Crash?
  }

  /** The constructor's read of one service; a temporary submission tolerates no existing one. */
  function TakeSnapshot(s: State, cl: Client, ref: Ref): Client {
    var o := if ref in s.objs then Some(s.objs[ref]) else None;
    if cl.phase != Fresh || !ref.Service? || (o.Some? && (o.value.deleting || cl.kind == Deploy(true))) then cl
    else cl.(expected := cl.expected[ref := IntentOpt(o)])
  }

  function NextPhase(s: State, e: Event): (phase: Phase)
    requires Private(e) && !e.Snapshot? && !e.Hear? && e.c in s.clients
    ensures !s.clients[e.c].phase.Fresh? ==> !phase.Fresh?
    ensures s.clients[e.c].phase.Sent? ==>
              phase == s.clients[e.c].phase || phase == Dead
              || (phase == Lost(s.clients[e.c].phase.req) && s.clients[e.c].phase.reply == Waiting)
    ensures !s.clients[e.c].phase.Sent? && phase.Sent? ==> phase.reply == Waiting
  {
    var cl := s.clients[e.c];
    match e
    case EndSnapshot(_) => if cl.phase == Fresh then Outside else cl.phase
    case StartBegin(_) =>
      if cl.phase == Holding && !cl.claimed && !cl.over then Validating(cl.expected.Keys) else cl.phase
    case Validate(_, ref) =>
      if !cl.phase.Validating? || ref !in cl.phase.todo then cl.phase
      else if ValidMember(cl, ref, if ref in s.objs then Some(s.objs[ref]) else None)
      then Validating(cl.phase.todo - {ref}) else Leaving
    case ReadRoot(_) => if cl.phase == Validating({}) then ReadForClaim(s, cl) else cl.phase
    case SendClaim(_) =>
      if cl.phase.ClaimReady? then Sent(ClaimRoot(cl.phase.version, cl.phase.identity), Waiting) else cl.phase
    case Check(_) =>
      if (cl.phase == Holding || cl.phase == Checked) && cl.claimed
      then if OwnsInstance(s, e.c) then Checked else Leaving else cl.phase
    case ReadMember(_, ref) =>
      if cl.phase == Checked then Observed(ref, if ref in s.objs then Some(s.objs[ref]) else None) else cl.phase
    case SeeRoot(_) =>
      if cl.phase == Checked && cl.uid.Some? && s.current == cl.uid && s.current.value in s.roots
         && !s.roots[s.current.value].deleting
      then RootSeen(s.roots[s.current.value].version) else cl.phase
    case Send(c, req) =>
      if (cl.phase.Observed? && MaySend(cl, c, req, cl.phase.ref, cl.phase.obj))
         || (cl.phase.RootSeen? && MaySendRoot(cl, req, cl.phase.version))
      then Sent(req, Waiting) else cl.phase
    case Fail(_) =>
      if InLock(cl.phase) && !cl.phase.Sent? && !cl.phase.Lost? then Leaving else cl.phase
    case Crash(_) =>
      if cl.phase.Lost? then cl.phase
      else if cl.phase.Sent? && cl.phase.reply == Waiting then Lost(cl.phase.req)
      else Dead
  }

  function Acting(s: State, e: Event): Client
    requires Private(e) && e.c in s.clients
  {
    var cl := s.clients[e.c];
    if e.Snapshot? then TakeSnapshot(s, cl, e.ref)
    else if e.Hear? then if cl.phase.Sent? && !cl.phase.reply.Waiting? then Receive(s, cl) else cl
    else cl.(phase := NextPhase(s, e))
  }

  function Next(s: State, e: Event): State {
    if Private(e) then
      if e.c in s.clients then s.(clients := s.clients[e.c := Acting(s, e)]) else s
    else Shared(s, e)
  }

  /** Steps that others can notice. */
  function Shared(s: State, e: Event): State
    requires !Private(e)
  {
    match e
    case NewClient(c, kind, uid) =>
      if c in s.clients || (uid.Some? && uid.value !in s.roots) || (kind.Delete? && uid.None?) then s
      else s.(clients := s.clients[c := Client(kind, uid, map[], map[], map[], false, map[], false, false,
                                               if kind.Delete? then Outside else Fresh)])
    case Bind(c, newUid) =>
      if c in s.clients && s.clients[c].phase == Outside && !s.clients[c].claimed && !s.clients[c].over
      then Prepare(s, c, newUid) else s
    case Acquire(c) =>
      if CanAcquire(s, c)
      then SetPhase(SetHolder(s, s.current.value, Some(c)), c, Holding) else s
    case Release(c) =>
      if c in s.clients && InLock(s.clients[c].phase) && !s.clients[c].phase.Sent? && !s.clients[c].phase.Lost?
         && s.clients[c].uid.Some? && s.clients[c].uid.value in s.roots
      then SetPhase(SetHolder(s, s.clients[c].uid.value, None), c, Outside) else s
    case Recover(u) =>
      if u in s.roots && s.roots[u].holder.Some? && s.roots[u].holder.value in s.clients
         && s.clients[s.roots[u].holder.value].phase == Dead
      then SetHolder(s, u, None) else s
    case Finish(c, outcome) =>
      if c in s.clients && s.clients[c].uid.Some? then Complete(s, c, outcome) else s
    case TouchRoot(u, deleting) =>
      if u in s.roots && s.roots[u].live
      then s.(roots := s.roots[u := s.roots[u].(version := s.clock + 1, deleting := s.roots[u].deleting || deleting)],
              clock := s.clock + 1) else s
    case RemoveRoot(u) =>
      if u in s.roots && s.current == Some(u)
      then s.(roots := s.roots[u := s.roots[u].(live := false)], current := None) else s
    case Edit(ref, spec, deleting) =>
      if ref in s.objs
      then Store(s, ref, Rewrite(s.objs[ref], s.clock + 1, spec, s.objs[ref].source, s.objs[ref].tag)
                         .(deleting := s.objs[ref].deleting || deleting)) else s
    case Remove(ref) => s.(objs := s.objs - {ref})
    case Create(ref, owner, spec, newUid) =>
      if ref in s.objs || newUid in s.used then s
      else Store(s, ref, Obj(newUid, s.clock + 1, 1, false, owner, 0, None, spec))
  }

  function Run(s: State, events: seq<Event>): State
    decreases |events|
  {
    if events == [] then s else Run(Next(s, events[0]), events[1..])
  }
}

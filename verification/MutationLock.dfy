/**
 The per-instance mutation lock: an annotation on the InferenceDeployment record, set by
 compare-and-swap on UID and resourceVersion, paired with a lock file that subprocesses
 inherit. Operations of any number of processes on any number of workstations interleave
 step by step; a process may crash between any two steps and a holder patch may reach the
 API server long after its sender stopped waiting.
 */
module MutationLock {
  import opened Common

  type OpId = nat
  type Uid = nat
  type Host = nat

  /** An InferenceDeployment record. A removed record keeps its last holder and is no longer live. */
  datatype Record = Record(live: bool, deleting: bool, version: nat, holder: Option<OpId>)

  /** A versioned holder patch; `seen` is the holder in the record it was computed from. */
  datatype Patch = Patch(sender: OpId, uid: Uid, version: nat, seen: Option<OpId>, to: Option<OpId>)

  datatype Reply = Waiting | Accepted | Conflict | Failed

  /** Where an operation stands inside `hold`, `_release` or `_recover_local`. */
  datatype Phase =
    | Opened                                  // lock file created, flock not yet taken
    | Polling                                 // about to read the record
    | Observed(uid: Uid, version: nat, holder: Option<OpId>)
    | Acquiring(patch: Patch, reply: Reply)   // acquire patch sent
    | Body                                    // inside the `with hold()` block
    | Releasing                               // about to read the record in `_release`
    | Clearing(patch: Patch, reply: Reply)    // release patch sent
    | Unlinking                               // `_release` returned
    | OwnerOpen(uid: Uid, version: nat, owner: OpId)    // a stale holder's lock file is open
    | OwnerLocked(uid: Uid, version: nat, owner: OpId)  // and its flock was free
    | Recovering(patch: Patch, reply: Reply)  // recovery patch sent
    | OwnerCleared(owner: OpId)               // recovery patch accepted, file not yet unlinked
    | Leaving                                 // outer `finally`
    | Orphaned                                // process died, a body subprocess still runs
    | Gone                                    // stream closed

  /** `granted` records that the API server applied this operation's acquire patch. */
  datatype Op = Op(host: Host, uid: Option<Uid>, phase: Phase, acquired: bool, uncertain: bool,
                   child: bool, granted: bool)

  /** `current` is the UID the instance name resolves to; `locks[a] == b`: b's descriptor locks a's file. */
  datatype State = State(recs: map<Uid, Record>, current: Option<Uid>, ops: map<OpId, Op>,
                         net: set<Patch>, files: set<OpId>, locks: map<OpId, OpId>)

  datatype Event =
    | Start(o: OpId, host: Host, uid: Option<Uid>)
    | Flock(o: OpId)
    | Read(o: OpId)
    | GiveUp(o: OpId)
    | SendAcquire(o: OpId)
    | Deliver(p: Patch, heard: bool)
    | Lose(p: Patch)
    | Receive(o: OpId)
    | Timeout(o: OpId)
    | Spawn(o: OpId)
    | ChildExit(o: OpId)
    | Finish(o: OpId)
    | ReadRelease(o: OpId)
    | Unlink(o: OpId)
    | Close(o: OpId)
    | OpenOwner(o: OpId)
    | TryLock(o: OpId)
    | SendClear(o: OpId)
    | UnlinkOwner(o: OpId)
    | Crash(o: OpId)
    | CreateRecord(u: Uid)
    | Touch(u: Uid)
    | MarkDeleting(u: Uid)
    | RemoveRecord(u: Uid)

  const Initial := State(map[], None, map[], {}, {}, map[])

  // ----- Steps -----

  function SetPhase(s: State, o: OpId, phase: Phase): State
    requires o in s.ops
  {
    s.(ops := s.ops[o := s.ops[o].(phase := phase)])
  }

  /** A patch is applied only to the record it was computed from, at the version it was computed from. */
  predicate Matches(s: State, p: Patch) {
    p.uid in s.recs && s.recs[p.uid].live && s.recs[p.uid].version == p.version
  }

  predicate Awaits(op: Op, p: Patch) {
    (op.phase.Acquiring? || op.phase.Clearing? || op.phase.Recovering?) && op.phase.patch == p
  }

  function Answer(op: Op, p: Patch, reply: Reply): Op {
    if !Awaits(op, p) || op.phase.reply != Waiting then op
    else op.(phase := op.phase.(reply := reply))
  }

  function DeliverPatch(s: State, p: Patch, heard: bool): State
    requires p in s.net
  {
    var applied := Matches(s, p);
    var reply := if !heard then Failed else if applied then Accepted else Conflict;
    var recs := if applied
                then s.recs[p.uid := s.recs[p.uid].(holder := p.to, version := p.version + 1)]
                else s.recs;
    var ops := if p.sender in s.ops
               then var op := Answer(s.ops[p.sender], p, reply);
                    s.ops[p.sender := op.(granted := op.granted || (applied && p.to == Some(p.sender)))]
               else s.ops;
    s.(recs := recs, ops := ops, net := s.net - {p})
  }

  /** `_read` pins the UID and rejects a replaced, absent or terminating record. */
  function ReadRecord(s: State, o: OpId): State
    requires o in s.ops
  {
    var op := s.ops[o];
    if s.current == None || s.current.value !in s.recs then SetPhase(s, o, Leaving)
    else
      var u := s.current.value;
      var rec := s.recs[u];
      if rec.deleting || (op.uid.Some? && op.uid.value != u) then SetPhase(s, o, Leaving)
      else s.(ops := s.ops[o := op.(uid := Some(u), phase := Observed(u, rec.version, rec.holder))])
  }

  /** `_release` reads without pinning: an absent or replaced record needs no release. */
  function ReadForRelease(s: State, o: OpId): State
    requires o in s.ops
  {
    var op := s.ops[o];
    if s.current == None || s.current.value !in s.recs || s.current != op.uid then SetPhase(s, o, Unlinking)
    else
      var u := s.current.value;
      var rec := s.recs[u];
      if rec.holder != Some(o) then SetPhase(s, o, Leaving)   // "ownership changed"
      else
        var p := Patch(o, u, rec.version, Some(o), None);
        s.(ops := s.ops[o := op.(phase := Clearing(p, Waiting), child := true)], net := s.net + {p})
  }

  function ReceiveReply(s: State, o: OpId): State
    requires o in s.ops
  {
    var op := s.ops[o].(child := false);
    match op.phase
    case Acquiring(p, Accepted) => s.(ops := s.ops[o := op.(phase := Body, acquired := true)])
    case Acquiring(p, Conflict) => s.(ops := s.ops[o := op.(phase := Polling, uncertain := false)])
    case Acquiring(p, Failed) => s.(ops := s.ops[o := op.(phase := Leaving)])
    case Clearing(p, Accepted) => s.(ops := s.ops[o := op.(phase := Unlinking)])
    case Clearing(p, Conflict) => s.(ops := s.ops[o := op.(phase := Releasing)])
    case Clearing(p, Failed) => s.(ops := s.ops[o := op.(phase := Leaving)])
    case Recovering(p, Accepted) =>
      s.(ops := s.ops[o := op.(phase := OwnerCleared(if p.seen.Some? then p.seen.value else o))])
    case Recovering(p, Conflict) =>
      Unlock(s.(ops := s.ops[o := op.(phase := Polling, uncertain := false)]), o, p)
    case Recovering(p, Failed) => Unlock(s.(ops := s.ops[o := op.(phase := Leaving)]), o, p)
    case _ => s
  }

  /** Closing a recoverer's stream drops the flock it took on the stale holder's file. */
  function Unlock(s: State, o: OpId, p: Patch): State {
    if p.seen.Some? && p.seen.value in s.locks && s.locks[p.seen.value] == o && p.seen.value != o
    then s.(locks := s.locks - {p.seen.value}) else s
  }

  /** Abandoning a command kills its subprocess; the patch itself may still be on the wire. */
  function Abandon(s: State, o: OpId): State
    requires o in s.ops
  {
    var op := s.ops[o];
    match op.phase
    case Acquiring(p, _) => s.(ops := s.ops[o := op.(phase := Leaving, child := false)])
    case Clearing(p, _) => s.(ops := s.ops[o := op.(phase := Leaving, child := false)])
    case Recovering(p, _) => Unlock(s.(ops := s.ops[o := op.(phase := Leaving, child := false)]), o, p)
    case _ => s
  }

  /** The stale holder whose lock file this phase keeps locked. */
  function Pinned(phase: Phase): Option<OpId> {
    match phase
    case OwnerLocked(_, _, a) => Some(a)
    case Recovering(p, _) => p.seen
    case OwnerCleared(a) => Some(a)
    case _ => None
  }

  /** Every descriptor of a crashed process closes, except those its live subprocess inherited. */
  function CrashProcess(s: State, o: OpId): State
    requires o in s.ops
  {
    var op := s.ops[o];
    var pinned := Pinned(op.phase);
    var phase := if op.phase == Body && op.child then Orphaned else Gone;
    var dropped := (if op.child then {} else {o})
                   + (if pinned.Some? && pinned.value != o && pinned.value in s.locks && s.locks[pinned.value] == o
                      then {pinned.value} else {});
    s.(ops := s.ops[o := op.(phase := phase)], locks := s.locks - dropped)
  }

  function Next(s: State, e: Event): State {
    match e
    case Start(o, host, uid) =>
      if o in s.ops then s
      else s.(ops := s.ops[o := Op(host, uid, Opened, false, false, false, false)], files := s.files + {o})
    case Flock(o) =>
      if o in s.ops && s.ops[o].phase == Opened && o !in s.locks
      then SetPhase(s, o, Polling).(locks := s.locks[o := o]) else s
    case Read(o) =>
      if o in s.ops && s.ops[o].phase == Polling then ReadRecord(s, o) else s
    case GiveUp(o) =>
      if o in s.ops && (s.ops[o].phase == Polling || s.ops[o].phase == Releasing)
      then SetPhase(s, o, Leaving) else s
    case SendAcquire(o) =>
      if o in s.ops && s.ops[o].phase.Observed? && s.ops[o].phase.holder == None then
        var op := s.ops[o];
        var p := Patch(o, op.phase.uid, op.phase.version, None, Some(o));
        s.(ops := s.ops[o := op.(phase := Acquiring(p, Waiting), uncertain := true, child := true)],
           net := s.net + {p})
      else s
    case Deliver(p, heard) => if p in s.net then DeliverPatch(s, p, heard) else s
    case Lose(p) =>
      if p in s.net && p.sender in s.ops
      then s.(ops := s.ops[p.sender := Answer(s.ops[p.sender], p, Failed)], net := s.net - {p}) else s
    case Receive(o) => if o in s.ops then ReceiveReply(s, o) else s
    case Timeout(o) => if o in s.ops then Abandon(s, o) else s
    case Spawn(o) =>
      if o in s.ops && s.ops[o].phase == Body
      then s.(ops := s.ops[o := s.ops[o].(child := true)]) else s
    case ChildExit(o) =>
      if o !in s.ops || !s.ops[o].child then s
      else if s.ops[o].phase == Body then s.(ops := s.ops[o := s.ops[o].(child := false)])
      else if s.ops[o].phase == Orphaned || s.ops[o].phase == Gone
      then s.(ops := s.ops[o := s.ops[o].(child := false, phase := Gone)], locks := s.locks - {o})
      else s
    case Finish(o) =>
      if o in s.ops && s.ops[o].phase == Body && !s.ops[o].child then SetPhase(s, o, Releasing) else s
    case ReadRelease(o) =>
      if o in s.ops && s.ops[o].phase == Releasing then ReadForRelease(s, o) else s
    case Unlink(o) =>
      if o in s.ops && s.ops[o].phase == Unlinking
      then SetPhase(s, o, Leaving).(files := s.files - {o}) else s
    case Close(o) =>
      if o in s.ops && s.ops[o].phase == Leaving then
        var files := if !s.ops[o].acquired && !s.ops[o].uncertain then s.files - {o} else s.files;
        SetPhase(s, o, Gone).(files := files, locks := s.locks - {o})
      else s
    case OpenOwner(o) =>
      if o in s.ops && s.ops[o].phase.Observed? && s.ops[o].phase.holder.Some? then
        var Observed(u, v, h) := s.ops[o].phase;
        var a := h.value;
        if a in s.files && a in s.ops && s.ops[a].host == s.ops[o].host
        then SetPhase(s, o, OwnerOpen(u, v, a)) else SetPhase(s, o, Polling)
      else s
    case TryLock(o) =>
      if o in s.ops && s.ops[o].phase.OwnerOpen? then
        var OwnerOpen(u, v, a) := s.ops[o].phase;
        if a !in s.locks then SetPhase(s, o, OwnerLocked(u, v, a)).(locks := s.locks[a := o])
        else SetPhase(s, o, Polling)
      else s
    case SendClear(o) =>
      if o in s.ops && s.ops[o].phase.OwnerLocked? then
        var OwnerLocked(u, v, a) := s.ops[o].phase;
        var p := Patch(o, u, v, Some(a), None);
        s.(ops := s.ops[o := s.ops[o].(phase := Recovering(p, Waiting), child := true)], net := s.net + {p})
      else s
    case UnlinkOwner(o) =>
      if o in s.ops && s.ops[o].phase.OwnerCleared? then
        var a := s.ops[o].phase.owner;
        var locks := if a in s.locks && s.locks[a] == o && a != o then s.locks - {a} else s.locks;
        SetPhase(s, o, Polling).(files := s.files - {a}, locks := locks)
      else s
    case Crash(o) =>
      if o in s.ops && !s.ops[o].phase.Gone? && !s.ops[o].phase.Orphaned? then CrashProcess(s, o) else s
    case CreateRecord(u) =>
      if u in s.recs || s.current.Some? then s
      else s.(recs := s.recs[u := Record(true, false, 0, None)], current := Some(u))
    case Touch(u) =>
      if u in s.recs && s.recs[u].live
      then s.(recs := s.recs[u := s.recs[u].(version := s.recs[u].version + 1)]) else s
    case MarkDeleting(u) =>
      if u in s.recs && s.recs[u].live
      then s.(recs := s.recs[u := s.recs[u].(version := s.recs[u].version + 1, deleting := true)]) else s
    case RemoveRecord(u) =>
      if s.current == Some(u) && u in s.recs
      then s.(recs := s.recs[u := s.recs[u].(live := false)], current := None) else s
  }

  function Run(s: State, events: seq<Event>): State
    decreases |events|
  {
    if events == [] then s else Run(Next(s, events[0]), events[1..])
  }

  // ----- What every step keeps -----

  /** The operation's own lock stream is open. */
  predicate StreamOpen(op: Op) {
    !op.phase.Opened? && !op.phase.Gone? && !op.phase.Orphaned?
  }

  /** The process, its stream and every subprocess that inherited it are gone. */
  predicate Dead(op: Op) {
    op.phase.Gone? && !op.child
  }

  /** Inside the lock: in the `with` body, or outlived by a subprocess the body started. */
  predicate Inside(op: Op) {
    op.phase.Body? || op.phase.Orphaned?
  }

  /** From the moment the acquire patch is accepted until the operation's release is undecided no more. */
  predicate Owning(op: Op) {
    || Inside(op)
    || op.phase.Releasing?
    || (op.phase.Acquiring? && op.phase.reply == Accepted)
    || (op.phase.Clearing? && (op.phase.reply == Waiting || op.phase.reply == Conflict))
  }

  /** Phases that can follow an acquire patch the server applied. */
  predicate PastGrant(op: Op) {
    || Owning(op) || op.phase.Clearing? || op.phase.Unlinking? || op.phase.Leaving? || op.phase.Gone?
    || (op.phase.Acquiring? && op.phase.reply == Failed)
  }

  predicate Holds(s: State, u: Uid, a: OpId) {
    u in s.recs && s.recs[u].holder == Some(a)
  }

  predicate RecordOk(s: State, u: Uid)
    requires u in s.recs
  {
    var rec := s.recs[u];
    && (rec.live ==> s.current == Some(u))
    && (rec.holder.Some? ==>
          var a := rec.holder.value;
          a in s.ops && s.ops[a].granted && s.ops[a].uid == Some(u) && (rec.live ==> a in s.files))
  }

  /** A snapshot of a record is never newer than the record, and equal versions mean equal holders. */
  predicate Snapshot(s: State, u: Uid, v: nat, h: Option<OpId>) {
    && u in s.recs && v <= s.recs[u].version
    && (v == s.recs[u].version ==> s.recs[u].holder == h)
    && (h.Some? ==> h.value in s.ops && s.ops[h.value].granted && s.ops[h.value].uid == Some(u))
  }

  predicate PatchOk(s: State, p: Patch) {
    && Snapshot(s, p.uid, p.version, p.seen)
    && p.sender in s.ops && s.ops[p.sender].uid == Some(p.uid)
    && (p.to.Some? ==>
          && p.to == Some(p.sender) && p.seen == None
          && s.ops[p.sender].uncertain && !s.ops[p.sender].granted && p.sender in s.files
          && (s.ops[p.sender].phase == Acquiring(p, Waiting)
              || s.ops[p.sender].phase.Leaving? || s.ops[p.sender].phase.Gone?))
    && (p.to == None ==>
          && p.seen.Some?
          && (p.seen.value == p.sender ==>
                s.ops[p.sender].phase == Clearing(p, Waiting)
                || s.ops[p.sender].phase.Leaving? || s.ops[p.sender].phase.Gone?)
          && (p.seen.value != p.sender ==>
                && Dead(s.ops[p.seen.value])
                && (s.ops[p.sender].phase == Recovering(p, Waiting)
                    || s.ops[p.sender].phase.Leaving? || s.ops[p.sender].phase.Gone?)))
  }

  predicate OpOk(s: State, o: OpId)
    requires o in s.ops
  {
    var op := s.ops[o];
    && (StreamOpen(op) || op.phase.Orphaned? || (op.child && !op.phase.Opened?) ==> o in s.locks && s.locks[o] == o)
    && (op.phase.Opened? ==> !op.child && o !in s.locks)
    && (!op.phase.Leaving? && !op.phase.Gone? ==> o in s.files)
    && (op.child ==> op.phase.Body? || op.phase.Orphaned? || op.phase.Gone? || op.phase.Acquiring?
                     || op.phase.Clearing? || op.phase.Recovering?)
    && (op.granted ==> PastGrant(op) && op.uid.Some? && op.uid.value in s.recs && (op.uncertain || op.acquired))
    && (Owning(op) || op.phase.Clearing? ==> op.granted)
    && (Owning(op) ==> op.uid.Some? && Holds(s, op.uid.value, o))
    && (op.phase.Unlinking? ==>
          op.granted && !(Holds(s, op.uid.value, o) && s.recs[op.uid.value].live))
    && PhaseOk(s, o)
  }

  predicate PhaseOk(s: State, o: OpId)
    requires o in s.ops
  {
    var op := s.ops[o];
    match op.phase
    case Observed(u, v, h) => Snapshot(s, u, v, h) && op.uid == Some(u) && h != Some(o)
    case Acquiring(p, r) =>
      && p.sender == o && p.seen == None && p.to == Some(o) && op.uncertain && op.uid == Some(p.uid)
      && (r == Waiting ==> p in s.net) && (r == Waiting || r == Conflict ==> !op.granted)
    case Clearing(p, r) =>
      && p.sender == o && p.seen == Some(o) && p.to == None && op.acquired && op.uid == Some(p.uid)
      && (r == Waiting ==> p in s.net)
      && (r == Accepted ==> !Holds(s, p.uid, o))
    case Body => op.acquired
    case Releasing => op.acquired
    case OwnerOpen(u, v, a) => Snapshot(s, u, v, Some(a)) && op.uid == Some(u) && a != o
    case OwnerLocked(u, v, a) =>
      Snapshot(s, u, v, Some(a)) && op.uid == Some(u) && a != o && Dead(s.ops[a])
    case Recovering(p, r) =>
      && p.sender == o && p.to == None && p.seen.Some? && p.seen.value != o && op.uid == Some(p.uid)
      && Snapshot(s, p.uid, p.version, p.seen) && Dead(s.ops[p.seen.value])
      && (r == Waiting ==> p in s.net)
      && (r == Accepted ==> !Holds(s, p.uid, p.seen.value))
    case OwnerCleared(a) =>
      && a != o && a in s.ops && Dead(s.ops[a]) && s.ops[a].granted && s.ops[a].uid.Some?
      && !Holds(s, s.ops[a].uid.value, a)
    case _ => true
  }

  /** A lock file is locked by its own operation's open descriptors or by a recoverer at work on it. */
  predicate LockOk(s: State, a: OpId)
    requires a in s.locks
  {
    var b := s.locks[a];
    && a in s.ops && !s.ops[a].phase.Opened? && b in s.ops
    && (b == a ==> StreamOpen(s.ops[a]) || s.ops[a].child)
    && (b != a ==> Pinned(s.ops[b].phase) == Some(a))
  }

  ghost predicate Inv(s: State) {
    && (s.current.Some? ==> s.current.value in s.recs && s.recs[s.current.value].live)
    && (forall u {:trigger RecordOk(s, u)} | u in s.recs :: RecordOk(s, u))
    && (forall p {:trigger PatchOk(s, p)} | p in s.net :: PatchOk(s, p))
    && (forall o {:trigger OpOk(s, o)} | o in s.ops :: OpOk(s, o))
    && (forall p, q | p in s.net && q in s.net && p.sender == q.sender :: p == q)
    && (forall a {:trigger LockOk(s, a)} | a in s.locks :: LockOk(s, a))
  }
}

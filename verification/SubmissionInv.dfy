/** What every step of `Submission` keeps, stated over the state and the log of successful writes. */
module SubmissionInv {
  import opened Common
  import opened Submission

  // ----- Reading the log -----

  /** The author of the last claim of instance `u`. */
  function LastClaim(log: seq<Entry>, u: Uid): Option<Cid> {
    if log == [] then None
    else
      var e := log[|log| - 1];
      if e.Claimed? && e.uid == u then Some(e.author) else LastClaim(log[..|log| - 1], u)
  }

  ghost predicate TempSeen(log: seq<Entry>, u: Uid) {
    exists i :: 0 <= i < |log| && log[i].Claimed? && log[i].uid == u && log[i].temporary
  }

  /** The last temporary claim of `u` has not been followed by a request that declares no service. */
  predicate TempOpen(log: seq<Entry>, u: Uid) {
    if log == [] then false
    else
      var e := log[|log| - 1];
      if e.Claimed? && e.uid == u && e.temporary then true
      else if e.Requested? && e.uid == u && !e.services then false
      else TempOpen(log[..|log| - 1], u)
  }

  // ----- Objects and intents seen by anyone -----

  predicate TagOk(s: State, x: Cid, u: Uid) {
    x in s.landed && x in s.clients && s.clients[x].uid == Some(u)
  }

  /** `o` was once the object stored under `ref`: what its version, generation and tag stand for. */
  predicate ObjOk(s: State, ref: Ref, o: Obj) {
    && o.uid in s.used && o.version <= s.clock
    && (o.uid, o.generation) in s.specs && s.specs[(o.uid, o.generation)] == o.spec
    && o.uid in s.owners && s.owners[o.uid] == o.owner
    && (o.tag.Some? ==> TagOk(s, o.tag.value, o.owner))
    && (ref in s.objs && s.objs[ref].uid == o.uid ==> o.generation <= s.objs[ref].generation)
    && (ref in s.objs && s.objs[ref].version == o.version ==> s.objs[ref] == o)
  }

  predicate IntentOk(s: State, ref: Ref, v: Intent) {
    && v.uid in s.used && (v.uid, v.generation) in s.specs && v.uid in s.owners
    && (v.tag.Some? ==> TagOk(s, v.tag.value, s.owners[v.uid]))
    && (ref in s.objs && s.objs[ref].uid == v.uid ==> v.generation <= s.objs[ref].generation)
  }

  ghost predicate ObjsOk(s: State) {
    && (forall ref {:trigger ObjOk(s, ref, s.objs[ref])} | ref in s.objs :: ObjOk(s, ref, s.objs[ref]))
    && (forall ref, r | ref in s.objs && r in s.objs && s.objs[ref].uid == s.objs[r].uid :: ref == r)
    && (forall k | k in s.specs :: k.0 in s.used)
    && s.owners.Keys <= s.used && s.makers.Keys <= s.used
    && (forall ref, k | ref in s.objs && k in s.specs && k.0 == s.objs[ref].uid :: k.1 <= s.objs[ref].generation)
  }

  // ----- One client -----

  /** The client's claim is confirmed, or its accepted claim is about to be heard of. */
  predicate HasClaim(phase: Phase) {
    || phase.Checked? || phase.Observed? || phase.RootSeen?
    || (phase.Sent? && (!phase.req.ClaimRoot? || phase.reply.Done?))
    || (phase.Lost? && !phase.req.ClaimRoot?)
  }

  predicate ClaimPending(phase: Phase) {
    || phase.ClaimReady?
    || (phase.Sent? && phase.req.ClaimRoot? && (phase.reply.Waiting? || phase.reply.Conflict?))
    || (phase.Lost? && phase.req.ClaimRoot?)
  }

  /** The server accepted this client's claim: the client knows, is about to, or never asks again. */
  predicate AfterClaim(cl: Client) {
    || cl.claimed || cl.over || cl.phase.Dead?
    || (cl.phase.Sent? && cl.phase.req.ClaimRoot? && (cl.phase.reply.Done? || cl.phase.reply.Failed?))
  }

  /** A request on the wire was allowed by what its sender had read, and that is still what it knows. */
  predicate RequestOk(s: State, c: Cid, cl: Client, req: Request) {
    && (Target(req).Some? ==>
          var (ref, base) := Target(req).value;
          MaySend(cl, c, req, ref, base) && (base.Some? ==> ObjOk(s, ref, base.value)))
    && (req.RequestRoot? || req.DeleteRoot? ==> MaySendRoot(cl, req, req.version))
    && (!req.ClaimRoot? ==> cl.claimed)
  }

  predicate ReplyOk(s: State, c: Cid, req: Request, reply: Reply) {
    reply.Done? && reply.obj.Some? ==>
      && Target(req).Some?
      && var (ref, base) := Target(req).value;
         var o := reply.obj.value;
         && ObjOk(s, ref, o)
         && (base.None? ==> o.uid in s.makers && s.makers[o.uid] == c)
         && (base.Some? ==> o.uid == base.value.uid)
         && (req.Configure? ==> o.spec.config == req.config)
         && (req.Toggle? ==> o.spec.config == req.prior.spec.config)
  }

  predicate PhaseOk(s: State, c: Cid, cl: Client) {
    match cl.phase
    case Observed(ref, obj) => cl.claimed && (obj.Some? ==> ObjOk(s, ref, obj.value))
    case Checked => cl.claimed
    case RootSeen(_) => cl.claimed
    case Sent(req, reply) => RequestOk(s, c, cl, req) && ReplyOk(s, c, req, reply)
    case Lost(req) => RequestOk(s, c, cl, req)
    case _ => true
  }

  predicate CommitOk(s: State, c: Cid, cl: Client, ref: Ref)
    requires ref in cl.committed
  {
    var v := cl.committed[ref];
    && ref in cl.expected && IntentOk(s, ref, v)
    && (ref in cl.applied ==> s.specs[(v.uid, v.generation)].config == cl.applied[ref])
    && (ref in cl.created ==> cl.created[ref] == v.uid)
  }

  predicate ReceiptOk(s: State, c: Cid, cl: Client, ref: Ref)
    requires ref in cl.created
  {
    && cl.created[ref] in s.makers && s.makers[cl.created[ref]] == c
    && (ref.Service? ==> ref in cl.committed)
  }

  ghost predicate DataOk(s: State, c: Cid, cl: Client) {
    && (cl.uid.Some? ==> cl.uid.value in s.roots)
    && (cl.createdRoot ==> cl.uid.Some? && s.roots[cl.uid.value].creator == Some(c))
    && (cl.claimed ==> c in s.landed) && (c in s.landed ==> AfterClaim(cl) && cl.uid.Some?)
    && (cl.claimed || InLock(cl.phase) || cl.createdRoot ==> cl.uid.Some?)
    && (forall ref | ref in cl.expected :: ref.Service? && (cl.expected[ref].Some? ==> IntentOk(s, ref, cl.expected[ref].value)))
    && (forall ref {:trigger CommitOk(s, c, cl, ref)} | ref in cl.committed :: CommitOk(s, c, cl, ref))
    && (forall ref | ref in cl.applied :: ref in cl.committed)
    && (forall ref {:trigger ReceiptOk(s, c, cl, ref)} | ref in cl.created :: ReceiptOk(s, c, cl, ref))
    && PhaseOk(s, c, cl)
  }

  predicate LockOk(s: State, c: Cid, cl: Client) {
    InLock(cl.phase) ==>
      && cl.uid.Some? && cl.uid.value in s.roots
      && var r := s.roots[cl.uid.value];
         && r.holder == Some(c)
         && (HasClaim(cl.phase) ==> r.tag == Some(c))
         && (ClaimPending(cl.phase) || cl.phase.Validating? ==> !cl.claimed && !cl.over)
         && (ClaimPending(cl.phase) ==> (cl.kind == Deploy(true) && !cl.createdRoot ==> StorageOnly(r)))
  }

  // ----- Records and the log -----

  ghost predicate RootOk(s: State, u: Uid)
    requires u in s.roots
  {
    var r := s.roots[u];
    && u in s.used && r.version <= s.clock && (r.live ==> s.current == Some(u))
    && (r.holder.Some? ==> r.holder.value in s.clients && s.clients[r.holder.value].uid == Some(u))
    && r.tag == LastClaim(s.log, u)
    && (r.tag.Some? ==> TagOk(s, r.tag.value, u))
    && (!r.services ==> TempSeen(s.log, u))
    && (TempOpen(s.log, u) ==> r.services)
    && (TempSeen(s.log, u) ==> r.creator.Some? && r.creator.value in s.landed)
  }

  ghost predicate EntryOk(s: State, k: nat)
    requires k < |s.log|
  {
    var e := s.log[k];
    && e.author in s.landed && e.uid in s.roots
    && (e.Claimed? ==>
          && e.author in s.clients && e.temporary == (s.clients[e.author].kind == Deploy(true))
          && (e.temporary ==> !TempOpen(s.log[..k], e.uid))
          && (forall j | 0 <= j < k && s.log[j].Claimed? :: s.log[j].author != e.author))
    && (!e.Claimed? ==> LastClaim(s.log[..k], e.uid) == Some(e.author))
    && (e.ServiceWritten? ==>
          && IntentOpt(e.before) == e.want
          && (e.before.Some? && e.before.value.spec.suspend && !e.after.spec.suspend ==>
                e.config == Some(e.after.spec.config) && e.config == Some(e.before.value.spec.config)))
    && (e.MemberDeleted? ==>
          && e.receipt == Some(e.gone.uid) && e.gone.uid in s.makers && s.makers[e.gone.uid] == e.author
          && e.gone.owner == e.uid
          && (e.ref.Service? ==> e.want == Some(IntentOf(e.gone)))
          && (e.ref.Dependency? ==> e.gone.tag == Some(e.author)))
  }

  ghost predicate RootsOk(s: State) {
    && (s.current.Some? ==> s.current.value in s.roots && s.roots[s.current.value].live)
    && (forall u {:trigger RootOk(s, u)} | u in s.roots :: RootOk(s, u))
  }

  ghost predicate ClientsOk(s: State) {
    && (forall c {:trigger DataOk(s, c, s.clients[c])} | c in s.clients :: DataOk(s, c, s.clients[c]))
    && s.landed <= s.clients.Keys
  }

  ghost predicate LocksOk(s: State) {
    forall c {:trigger LockOk(s, c, s.clients[c])} | c in s.clients :: LockOk(s, c, s.clients[c])
  }

  ghost predicate LogOk(s: State) {
    forall k: nat {:trigger EntryOk(s, k)} | k < |s.log| :: EntryOk(s, k)
  }

  ghost predicate Inv(s: State) {
    ObjsOk(s) && RootsOk(s) && ClientsOk(s) && LocksOk(s) && LogOk(s)
  }
}

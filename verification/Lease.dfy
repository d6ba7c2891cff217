/**
 The release operation's timed lease: installers serialize release import, collection and Helm
 selection through one Kubernetes Job name, which its TTL controller frees.

 Time is in any unit. A window lasts from reading the retained references until no selection based on
 them can land any more, which includes the time a stopped selection is given to end.
 */
module Lease {
  import opened Common

  type Id = nat
  type Uid = nat
  type Time = int

  /**
   `lag`: no Job finishes sooner than this after its installer's start. `grace`: how long a command may
   outlive its deadline or its cancellation while it is being stopped. `patient`: a Job is released only
   after its installer's selection has ended; cancellation callbacks that run concurrently are not patient.
   */
  datatype Terms = Terms(lag: Time, grace: Time, patient: bool)

  datatype Stage =
    | Waiting                                   // the name is occupied, or creation is not yet attempted
    | Unsure                                    // the create request's answer was lost; it may still land
    | Confirmed                                 // owns the Job it created
    | HasRead                                   // retained references read, before Helm's selection
    | Committing                                // Helm's selection is running
    | Stopping(selecting: bool, since: Time)    // failed or cancelled; its selection may still be running
    | Over

  datatype Installer = Installer(start: Time, seconds: Time, stage: Stage, uid: Option<Uid>)

  datatype Job = Job(owner: Id, uid: Uid, created: Time, finished: Option<Time>)

  datatype Entry = Referenced(owner: Id) | Collected(owner: Id, uid: Uid) | Selected(owner: Id)

  /** `inputs` are the Job UIDs whose input ConfigMap exists. */
  datatype State = State(terms: Terms, now: Time, job: Option<Job>, installers: map<Id, Installer>, inputs: set<Uid>,
                         next: Uid, log: seq<Entry>)

  function Initial(terms: Terms): State {
    State(terms, 0, None, map[], {}, 0, [])
  }

  function Deadline(x: Installer): Time {
    x.start + x.seconds
  }

  /** The installer has its Job's receipt and has not begun to release it. */
  predicate Owns(x: Installer) {
    x.stage.Confirmed? || x.stage.HasRead? || x.stage.Committing?
  }

  /** A selection of this installer is being stopped. */
  predicate Ending(x: Installer) {
    x.stage.Stopping? && x.stage.selecting
  }

  /** Inside the window from reading retained references to the end of the selection. */
  predicate Open(x: Installer) {
    x.stage.HasRead? || x.stage.Committing? || Ending(x)
  }

  datatype Event =
    | Tick(d: Time)
    | Start(i: Id, seconds: Time)
    | Create(i: Id, answered: bool)       // an unanswered create may also land after its installer failed
    | Read(i: Id)
    | PutInputs(i: Id)
    | Collect
    | Finish
    | Expire
    | Select(i: Id)
    | EndSelect(i: Id, landed: bool)
    | Stop(i: Id)
    | Release(i: Id)

  /** The instant from which a command of this installer is being stopped, at the latest. */
  function Limit(x: Installer): Time {
    if x.stage.Stopping? && x.stage.since < Deadline(x) then x.stage.since else Deadline(x)
  }

  predicate MayTick(s: State, d: Time) {
    d >= 0 && (d > 0 ==> forall i | i in s.installers && (Owns(s.installers[i]) || Ending(s.installers[i])) ::
                           s.now + d < Limit(s.installers[i]) + s.terms.grace)
  }

  /** The Job under the name is the one this installer holds the receipt of. */
  predicate Holds(s: State, i: Id) {
    i in s.installers && s.job.Some? && s.job.value.owner == i && s.installers[i].uid == Some(s.job.value.uid)
  }

  /** Delete only the created UID; without a receipt, the Job that carries this installer's own label. */
  predicate MayRelease(s: State, i: Id) {
    && i in s.installers && (s.installers[i].stage.Over? || s.installers[i].stage.Stopping?)
    && (s.terms.patient ==> !Ending(s.installers[i]))
    && s.job.Some? && s.job.value.owner == i && (s.installers[i].uid.None? || Holds(s, i))
  }

  function SetStage(s: State, i: Id, stage: Stage): State
    requires i in s.installers
  {
    s.(installers := s.installers[i := s.installers[i].(stage := stage)])
  }

  /** The name is free; an occupied name proves that the request created nothing. */
  function CreateJob(s: State, i: Id, answered: bool): State
    requires i in s.installers && s.job.None?
  {
    var x := s.installers[i];
    var made := s.(job := Some(Job(i, s.next, s.now, None)), next := s.next + 1);
    if x.stage == Waiting && s.now < Deadline(x) && answered
    then made.(installers := s.installers[i := x.(stage := Confirmed, uid := Some(s.next))])
    else if x.stage == Unsure then made.(installers := s.installers[i := x.(stage := Over)])
    else if x.stage == Waiting && s.now < Deadline(x) then SetStage(s, i, Unsure) else s
  }

  function Next(s: State, e: Event): State {
    match e
    case Tick(d) => if MayTick(s, d) then s.(now := s.now + d) else s
    case Start(i, seconds) =>
      if i in s.installers || seconds < 0 then s
      else s.(installers := s.installers[i := Installer(s.now, seconds, Waiting, None)])
    case Create(i, answered) => if i in s.installers && s.job.None? then CreateJob(s, i, answered) else s
    case Read(i) =>
      if i in s.installers && s.installers[i].stage == Confirmed
      then SetStage(s, i, HasRead).(log := s.log + [Referenced(i)]) else s
    case PutInputs(i) =>
      if i in s.installers && s.installers[i].stage == HasRead && s.installers[i].uid.Some?
      then s.(inputs := s.inputs + {s.installers[i].uid.value}) else s
    case Collect =>
      // The publisher's Pod starts only when its input ConfigMap exists.
      if s.job.Some? && s.job.value.finished.None? && s.job.value.uid in s.inputs
      then s.(log := s.log + [Collected(s.job.value.owner, s.job.value.uid)]) else s
    case Finish =>
      if s.job.Some? && s.job.value.finished.None? && s.job.value.owner in s.installers
         && s.installers[s.job.value.owner].start + s.terms.lag <= s.now
      then s.(job := Some(s.job.value.(finished := Some(s.now)))) else s
    case Expire =>
      // ttlSecondsAfterFinished counts from the finish.
      if s.job.Some? && s.job.value.finished.Some? && s.job.value.owner in s.installers
         && s.job.value.finished.value + s.installers[s.job.value.owner].seconds <= s.now
      then s.(job := None) else s
    case Select(i) =>
      if i in s.installers && s.installers[i].stage == HasRead && Holds(s, i) && s.job.value.finished.Some?
         && s.now < Deadline(s.installers[i])
      then SetStage(s, i, Committing) else s
    case EndSelect(i, landed) =>
      if i in s.installers && (s.installers[i].stage == Committing || Ending(s.installers[i]))
      then SetStage(s, i, Over).(log := s.log + if landed then [Selected(i)] else []) else s
    case Stop(i) =>
      if i in s.installers && Owns(s.installers[i])
      then SetStage(s, i, Stopping(s.installers[i].stage == Committing, s.now)) else s
    case Release(i) => if MayRelease(s, i) then s.(job := None) else s
  }

  function Run(s: State, events: seq<Event>): State
    decreases |events|
  {
    if events == [] then s else Run(Next(s, events[0]), events[1..])
  }

  // ----- What every step keeps -----

  predicate JobOk(s: State) {
    s.job.Some? ==>
      var j := s.job.value;
      && j.owner in s.installers && j.uid < s.next && s.installers[j.owner].start <= j.created <= s.now
      && (j.finished.Some? ==> j.created <= j.finished.value <= s.now
                               && s.installers[j.owner].start + s.terms.lag <= j.finished.value)
      && (j.uid in s.inputs ==> s.installers[j.owner].uid == Some(j.uid) && Referenced(j.owner) in s.log)
      && (s.installers[j.owner].uid.None? ==> s.installers[j.owner].stage.Over?)
  }

  /** The name is held until the deadline, and for `lag` longer. */
  predicate InstallerOk(s: State, i: Id)
    requires i in s.installers
  {
    var x := s.installers[i];
    && x.start <= s.now && x.seconds >= 0
    && (x.stage.Waiting? || x.stage.Unsure? ==> x.uid == None)
    && (x.uid.Some? ==> x.uid.value < s.next && (s.job.Some? && s.job.value.uid == x.uid.value ==> s.job.value.owner == i))
    && (Owns(x) || Ending(x) ==> x.uid.Some? && s.now < Deadline(x) + s.terms.grace)
    && (Owns(x) || (Ending(x) && s.terms.patient) ==> (s.now < Deadline(x) + s.terms.lag ==> Holds(s, i)))
  }

  /** Who has read retained references. */
  predicate ReadOk(s: State, i: Id)
    requires i in s.installers
  {
    var x := s.installers[i];
    && (Open(x) ==> Referenced(i) in s.log)
    && (Referenced(i) in s.log ==> x.uid.Some? && !x.stage.Waiting? && !x.stage.Unsure? && !x.stage.Confirmed?)
  }

  ghost predicate Inv(s: State) {
    && JobOk(s) && s.terms.lag >= 0 && s.terms.grace >= 0
    && (forall i {:trigger InstallerOk(s, i)} | i in s.installers :: InstallerOk(s, i))
    && (forall i {:trigger ReadOk(s, i)} | i in s.installers :: ReadOk(s, i))
    && (forall u | u in s.inputs :: u < s.next)
    && (forall e | e in s.log :: e.owner in s.installers)
  }

  lemma TimeKeeps(s: State, e: Event)
    requires Inv(s) && (e.Tick? || e.Start? || e.Collect? || e.Finish? || e.Expire?)
    ensures Inv(Next(s, e))
  {
    var z := Next(s, e);
    forall i {:trigger InstallerOk(z, i)} {:trigger ReadOk(z, i)} | i in z.installers ensures InstallerOk(z, i) && ReadOk(z, i) {
      if i in s.installers { assert InstallerOk(s, i) && ReadOk(s, i); }
    }
  }

  lemma CreateKeeps(s: State, e: Event)
    requires Inv(s) && e.Create?
    ensures Inv(Next(s, e))
  {
    var z := Next(s, e);
    if e.i in s.installers { assert InstallerOk(s, e.i); }
    forall i {:trigger InstallerOk(z, i)} {:trigger ReadOk(z, i)} | i in z.installers ensures InstallerOk(z, i) && ReadOk(z, i) {
      assert InstallerOk(s, i) && ReadOk(s, i);
    }
  }

  lemma ReadKeeps(s: State, e: Event)
    requires Inv(s) && e.Read?
    ensures Inv(Next(s, e))
  {
    var z := Next(s, e);
    forall i {:trigger InstallerOk(z, i)} {:trigger ReadOk(z, i)} | i in z.installers ensures InstallerOk(z, i) && ReadOk(z, i) {
      assert InstallerOk(s, i) && ReadOk(s, i);
    }
  }

  lemma SelectKeeps(s: State, e: Event)
    requires Inv(s) && (e.PutInputs? || e.Select?)
    ensures Inv(Next(s, e))
  {
    var z := Next(s, e);
    if e.i in s.installers { assert InstallerOk(s, e.i) && ReadOk(s, e.i); }
    forall i {:trigger InstallerOk(z, i)} {:trigger ReadOk(z, i)} | i in z.installers ensures InstallerOk(z, i) && ReadOk(z, i) {
      assert InstallerOk(s, i) && ReadOk(s, i);
    }
  }

  lemma EndKeeps(s: State, e: Event)
    requires Inv(s) && (e.EndSelect? || e.Stop? || e.Release?)
    ensures Inv(Next(s, e))
  {
    var z := Next(s, e);
    forall i {:trigger InstallerOk(z, i)} {:trigger ReadOk(z, i)} | i in z.installers ensures InstallerOk(z, i) && ReadOk(z, i) {
      assert InstallerOk(s, i) && ReadOk(s, i);
    }
  }

  lemma StepKeeps(s: State, e: Event)
    requires Inv(s)
    ensures Inv(Next(s, e)) && Next(s, e).terms == s.terms
  {
    if e.Tick? || e.Start? || e.Collect? || e.Finish? || e.Expire? { TimeKeeps(s, e); }
    else if e.Create? { CreateKeeps(s, e); }
    else if e.Read? { ReadKeeps(s, e); }
    else if e.PutInputs? || e.Select? { SelectKeeps(s, e); }
    else { EndKeeps(s, e); }
  }

  lemma {:induction false} RunKeeps(s: State, events: seq<Event>)
    requires Inv(s)
    ensures Inv(Run(s, events)) && Run(s, events).terms == s.terms
    decreases |events|
  {
    if events != [] {
      StepKeeps(s, events[0]);
      RunKeeps(Next(s, events[0]), events[1..]);
    }
  }

  // ----- Theorems -----

  predicate TermsOk(terms: Terms) {
    terms.lag >= 0 && terms.grace >= 0
  }

  /** No Job finishes within a stopped command's grace, and none is released before its selection ended. */
  predicate Safe(terms: Terms) {
    terms.grace <= terms.lag && terms.patient
  }

  /** The name is held from creation at least until the deadline by which the selection must end. */
  lemma HeldUntilDeadline(terms: Terms, events: seq<Event>, i: Id)
    requires TermsOk(terms)
    requires var s := Run(Initial(terms), events);
             i in s.installers && Owns(s.installers[i]) && s.now < Deadline(s.installers[i]) + terms.lag
    ensures Holds(Run(Initial(terms), events), i)
  {
    RunKeeps(Initial(terms), events);
    assert InstallerOk(Run(Initial(terms), events), i);
  }

  /** Only the Job of a confirmed owner that has read its references collects, never an unanswered creation. */
  lemma CollectionIsConfirmed(terms: Terms, events: seq<Event>)
    requires TermsOk(terms)
    ensures var s := Next(Run(Initial(terms), events), Collect);
            s.log == Run(Initial(terms), events).log
            || (s.job.Some? && Holds(s, s.job.value.owner) && Referenced(s.job.value.owner) in Run(Initial(terms), events).log
                && s.log == Run(Initial(terms), events).log + [Collected(s.job.value.owner, s.job.value.uid)])
  {
    RunKeeps(Initial(terms), events);
  }

  ghost predicate Disjoint(s: State) {
    forall i, h | i in s.installers && h in s.installers && Open(s.installers[i]) && Open(s.installers[h]) :: i == h
  }

  lemma OpenHolds(s: State, i: Id)
    requires Inv(s) && Safe(s.terms) && i in s.installers && Open(s.installers[i])
    ensures Holds(s, i)
  {
    assert InstallerOk(s, i);
  }

  lemma WindowsAreDisjoint(terms: Terms, events: seq<Event>)
    requires TermsOk(terms) && Safe(terms)
    ensures Disjoint(Run(Initial(terms), events))
  {
    var s := Run(Initial(terms), events);
    RunKeeps(Initial(terms), events);
    forall i, h | i in s.installers && h in s.installers && Open(s.installers[i]) && Open(s.installers[h]) ensures i == h {
      OpenHolds(s, i);
      OpenHolds(s, h);
    }
  }

  /**
   Collection is fresh: between an installer's reading of retained references and any collection with
   them, no other installer's selection lands.
   */
  ghost predicate Fresh(log: seq<Entry>) {
    forall r, m, k | 0 <= r < m < k < |log| && log[r].Referenced? && log[m].Selected? && log[k].Collected?
                     && log[r].owner == log[k].owner :: log[m].owner == log[k].owner
  }

  /** Whoever read before another's selection landed no longer has a Job to collect with. */
  ghost predicate Overtaken(s: State) {
    forall r, m | 0 <= r < m < |s.log| && s.log[r].Referenced? && s.log[m].Selected? && s.log[m].owner != s.log[r].owner ::
      s.job.Some? ==> s.job.value.owner != s.log[r].owner
  }

  /** A landed selection finds its own installer's Job under the name. */
  lemma SelectionKeepsFresh(s: State, z: State, h: Id)
    requires Fresh(s.log) && Overtaken(s) && s.job.Some? && s.job.value.owner == h
    requires z.job == s.job && (z.log == s.log || z.log == s.log + [Selected(h)])
    ensures Fresh(z.log) && Overtaken(z)
  {
  }

  /** A Job is created only by an installer that has not read. */
  lemma CreationKeepsFresh(s: State, z: State, i: Id)
    requires Fresh(s.log) && Overtaken(s) && z.log == s.log && (z.job == s.job || (z.job.Some? && z.job.value.owner == i))
    requires z.job != s.job ==> Referenced(i) !in s.log
    ensures Fresh(z.log) && Overtaken(z)
  {
  }

  lemma ReadingKeepsFresh(s: State, z: State)
    requires Fresh(s.log) && Overtaken(s) && z.job == s.job && |z.log| == |s.log| + 1 && s.log <= z.log
    requires z.log[|s.log|].Referenced? || (z.log[|s.log|].Collected? && s.job.Some? && s.job.value.owner == z.log[|s.log|].owner)
    ensures Fresh(z.log) && Overtaken(z)
  {
  }

  lemma QuietKeepsFresh(s: State, e: Event)
    requires Fresh(s.log) && Overtaken(s) && !e.EndSelect? && !e.Create? && !e.Read? && !e.Collect?
    ensures Fresh(Next(s, e).log) && Overtaken(Next(s, e))
  {
    assert Next(s, e).log == s.log;
  }

  lemma FreshKeeps(s: State, e: Event)
    requires Inv(s) && Safe(s.terms) && Fresh(s.log) && Overtaken(s)
    ensures Fresh(Next(s, e).log) && Overtaken(Next(s, e))
  {
    var z := Next(s, e);
    if e.EndSelect? {
      if e.i in s.installers && Open(s.installers[e.i]) && !s.installers[e.i].stage.HasRead? {
        OpenHolds(s, e.i);
        SelectionKeepsFresh(s, z, e.i);
      }
    } else if e.Create? {
      if e.i in s.installers { assert ReadOk(s, e.i); }
      CreationKeepsFresh(s, z, e.i);
    } else if e.Read? || e.Collect? {
      if z.log != s.log { ReadingKeepsFresh(s, z); }
    } else {
      QuietKeepsFresh(s, e);
    }
  }

  lemma {:induction false} FreshRun(s: State, events: seq<Event>)
    requires Inv(s) && Safe(s.terms) && Fresh(s.log) && Overtaken(s)
    ensures Fresh(Run(s, events).log)
    decreases |events|
  {
    if events != [] {
      StepKeeps(s, events[0]);
      FreshKeeps(s, events[0]);
      FreshRun(Next(s, events[0]), events[1..]);
    }
  }

  lemma CollectionIsFresh(terms: Terms, events: seq<Event>)
    requires TermsOk(terms) && Safe(terms)
    ensures Fresh(Run(Initial(terms), events).log)
  {
    FreshRun(Initial(terms), events);
  }

  // ----- What happens on other terms -----

  predicate Steps(s: State, events: seq<Event>, states: seq<State>) {
    && |events| == |states|
    && (events != [] ==> states[0] == Next(s, events[0]))
    && forall k | 1 <= k < |events| :: states[k] == Next(states[k - 1], events[k])
  }

  lemma {:induction false} Unroll(s: State, events: seq<Event>, states: seq<State>)
    requires Steps(s, events, states)
    ensures Run(s, events) == if states == [] then s else states[|states| - 1]
    decreases |events|
  {
    if events != [] { Unroll(states[0], events[1..], states[1..]); }
  }

  lemma {:induction false} RunJoin(s: State, a: seq<Event>, b: seq<Event>)
    ensures Run(s, a + b) == Run(Run(s, a), b)
    decreases |a|
  {
    if a == [] {
      assert a + b == b;
    } else {
      assert (a + b)[0] == a[0] && (a + b)[1..] == a[1..] + b;
      RunJoin(Next(s, a[0]), a[1..], b);
    }
  }

  /** Installer 0 selects as soon as its Job has finished. */
  function Selecting(terms: Terms, seconds: Time): seq<Event> {
    [Start(0, seconds), Create(0, true), Read(0), Tick(terms.lag), Finish, Select(0)]
  }

  /** The Job expires at the deadline plus `lag`, within the grace of the timed-out selection. */
  function Expiring(seconds: Time): seq<Event> {
    [Tick(seconds), Expire]
  }

  /** The Job is deleted while the cancelled selection is still being stopped. */
  const Cancelling := [Stop(0), Release(0)]

  function Entering(seconds: Time): seq<Event> {
    [Start(1, seconds), Create(1, true), Read(1)]
  }

  /** The first selection lands after the second installer's read, and the second one's Job collects. */
  const Collecting := [EndSelect(0, true), PutInputs(1), Collect]

  /** Installer 0's selection is running and its Job finished at `lag`. */
  predicate Selects(s: State, terms: Terms, seconds: Time) {
    s == State(terms, terms.lag, Some(Job(0, 0, 0, Some(terms.lag))),
               map[0 := Installer(0, seconds, Committing, Some(0))], {}, 1, [Referenced(0)])
  }

  lemma SelectingRun(terms: Terms, seconds: Time)
    requires TermsOk(terms) && terms.lag < seconds
    ensures Selects(Run(Initial(terms), Selecting(terms, seconds)), terms, seconds)
  {
    var e := Selecting(terms, seconds);
    var s1 := Next(Initial(terms), e[0]);
    var s2 := Next(s1, e[1]);
    var s3 := Next(s2, e[2]);
    assert s3.installers == map[0 := Installer(0, seconds, HasRead, Some(0))];
    var s4 := Next(s3, e[3]);
    assert s4.now == terms.lag;
    var s5 := Next(s4, e[4]);
    var s6 := Next(s5, e[5]);
    Unroll(Initial(terms), e, [s1, s2, s3, s4, s5, s6]);
  }

  /** The name is free while installer 0's selection has not ended. */
  predicate Exposed(s: State) {
    && s.job.None? && s.installers.Keys == {0} && Open(s.installers[0]) && !s.installers[0].stage.HasRead?
    && s.log == [Referenced(0)]
  }

  lemma ExpiringExposes(s: State, terms: Terms, seconds: Time)
    requires TermsOk(terms) && terms.lag < seconds && terms.lag < terms.grace && Selects(s, terms, seconds)
    ensures Exposed(Run(s, Expiring(seconds)))
  {
    var s1 := Next(s, Tick(seconds));
    assert s1.now == terms.lag + seconds;
    Unroll(s, Expiring(seconds), [s1, Next(s1, Expire)]);
  }

  lemma CancellingExposes(s: State, terms: Terms, seconds: Time)
    requires TermsOk(terms) && terms.lag < seconds && !terms.patient && Selects(s, terms, seconds)
    ensures Exposed(Run(s, Cancelling))
  {
    var s1 := Next(s, Stop(0));
    Unroll(s, Cancelling, [s1, Next(s1, Release(0))]);
  }

  lemma EnteringOverlaps(s: State, seconds: Time)
    requires Exposed(s) && seconds > 0
    ensures var z := Run(s, Entering(seconds));
            && z.installers.Keys == {0, 1} && z.installers[0] == s.installers[0] && z.installers[1].stage == HasRead
            && z.job.Some? && z.job.value.finished.None? && z.job.value.owner == 1 && z.installers[1].uid == Some(z.job.value.uid)
            && z.log == [Referenced(0), Referenced(1)]
  {
    var s1 := Next(s, Start(1, seconds));
    var s2 := Next(s1, Create(1, true));
    var s3 := Next(s2, Read(1));
    assert s3.log == [Referenced(0), Referenced(1)];
    Unroll(s, Entering(seconds), [s1, s2, s3]);
  }

  lemma CollectingIsStale(s: State)
    requires s.installers.Keys == {0, 1} && Open(s.installers[0]) && !s.installers[0].stage.HasRead? && s.installers[1].stage == HasRead
    requires s.job.Some? && s.job.value.finished.None? && s.job.value.owner == 1 && s.installers[1].uid == Some(s.job.value.uid)
    requires s.log == [Referenced(0), Referenced(1)]
    ensures !Fresh(Run(s, Collecting).log)
  {
    var s1 := Next(s, EndSelect(0, true));
    var s2 := Next(s1, PutInputs(1));
    var s3 := Next(s2, Collect);
    assert s3.log == [Referenced(0), Referenced(1), Selected(0), Collected(1, s.job.value.uid)];
    Unroll(s, Collecting, [s1, s2, s3]);
    assert s3.log[1] == Referenced(1) && s3.log[2] == Selected(0) && s3.log[3].Collected?;
  }

  /** How the name comes free too early: by expiry if the grace exceeds the lag, else by a concurrent release. */
  function Freeing(terms: Terms, seconds: Time): seq<Event> {
    if terms.lag < terms.grace then Expiring(seconds) else Cancelling
  }

  function Overlapping(terms: Terms, seconds: Time): seq<Event> {
    Selecting(terms, seconds) + (Freeing(terms, seconds) + Entering(seconds))
  }

  /**
   On any other terms two windows overlap, and the second installer's Job collects with references that
   miss the first one's selection.
   */
  lemma UnsafeOverlaps(terms: Terms, seconds: Time)
    requires TermsOk(terms) && !Safe(terms) && terms.lag < seconds
    ensures !Disjoint(Run(Initial(terms), Overlapping(terms, seconds)))
    ensures !Fresh(Run(Initial(terms), Overlapping(terms, seconds) + Collecting).log)
  {
    var a, b, c := Selecting(terms, seconds), Freeing(terms, seconds), Entering(seconds);
    SelectingRun(terms, seconds);
    var s := Run(Initial(terms), a);
    if terms.lag < terms.grace { ExpiringExposes(s, terms, seconds); } else { CancellingExposes(s, terms, seconds); }
    EnteringOverlaps(Run(s, b), seconds);
    var z := Run(Run(s, b), c);
    RunJoin(s, b, c);
    RunJoin(Initial(terms), a, b + c);
    assert Open(z.installers[0]) && Open(z.installers[1]);
    CollectingIsStale(z);
    RunJoin(Initial(terms), Overlapping(terms, seconds), Collecting);
  }

  /** Over all runs no two windows overlap exactly on safe terms. */
  lemma DisjointExactlyWhenSafe(terms: Terms)
    requires TermsOk(terms)
    ensures (forall events :: Disjoint(Run(Initial(terms), events))) <==> Safe(terms)
  {
    if Safe(terms) {
      forall events ensures Disjoint(Run(Initial(terms), events)) { WindowsAreDisjoint(terms, events); }
    } else {
      UnsafeOverlaps(terms, terms.lag + 1);
    }
  }

  /** Over all runs every collection is fresh exactly on safe terms. */
  lemma FreshExactlyWhenSafe(terms: Terms)
    requires TermsOk(terms)
    ensures (forall events :: Fresh(Run(Initial(terms), events).log)) <==> Safe(terms)
  {
    if Safe(terms) {
      forall events ensures Fresh(Run(Initial(terms), events).log) { CollectionIsFresh(terms, events); }
    } else {
      UnsafeOverlaps(terms, terms.lag + 1);
    }
  }
}

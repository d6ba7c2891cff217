/** What an installer that keeps its time achieves with its Job, and how the name becomes free again. */
module LeaseRuns {
  import opened Common
  import opened Lease

  lemma {:induction false} RunSplit(s: State, a: seq<Event>, b: seq<Event>)
    ensures Run(s, a + b) == Run(Run(s, a), b)
    decreases |a|
  {
    if a == [] {
      assert a + b == b;
    } else {
      assert (a + b)[0] == a[0] && (a + b)[1..] == a[1..] + b;
      RunSplit(Next(s, a[0]), a[1..], b);
    }
  }

  lemma RunOne(s: State, e: Event)
    ensures Run(s, [e]) == Next(s, e)
  {
    assert [e][1..] == [];
  }

  lemma RunTwo(s: State, e: Event, f: Event)
    ensures Run(s, [e, f]) == Next(Next(s, e), f)
  {
    RunSplit(s, [e], [f]);
    RunOne(s, e);
    RunOne(Next(s, e), f);
    assert [e] + [f] == [e, f];
  }

  lemma RunThree(s: State, e: Event, f: Event, g: Event)
    ensures Run(s, [e, f, g]) == Next(Next(Next(s, e), f), g)
  {
    RunTwo(s, e, f);
    RunSplit(s, [e, f], [g]);
    RunOne(Next(Next(s, e), f), g);
    assert [e, f] + [g] == [e, f, g];
  }

  /** The name is free and nobody is inside a window or owns a Job. */
  predicate Quiet(s: State) {
    && s.job.None? && s.terms.lag >= 0 && s.terms.grace >= 0
    && forall i | i in s.installers :: !Owns(s.installers[i]) && !Ending(s.installers[i])
  }

  function Opening(i: Id, seconds: Time): seq<Event> {
    [Start(i, seconds), Create(i, true), Read(i)]
  }

  /** Starting on a free name gives the Job its receipt and reads the retained references. */
  lemma OpeningRun(s: State, i: Id, seconds: Time)
    requires Quiet(s) && i !in s.installers && seconds > s.terms.lag
    ensures Run(s, Opening(i, seconds))
            == s.(job := Some(Job(i, s.next, s.now, None)), next := s.next + 1, log := s.log + [Referenced(i)],
                  installers := s.installers[i := Installer(s.now, seconds, HasRead, Some(s.next))])
  {
    RunThree(s, Start(i, seconds), Create(i, true), Read(i));
    var s1 := Next(s, Start(i, seconds));
    assert s1 == s.(installers := s.installers[i := Installer(s.now, seconds, Waiting, None)]);
    var x := Installer(s.now, seconds, Confirmed, Some(s.next));
    assert Next(s1, Create(i, true))
           == s1.(job := Some(Job(i, s.next, s.now, None)), next := s.next + 1, installers := s1.installers[i := x]);
  }

  function Importing(i: Id, lag: Time): seq<Event> {
    [PutInputs(i), Collect, Tick(lag)]
  }

  /** Once its inputs are there the Job collects, under the installer's own receipt. */
  lemma ImportingRun(s: State, i: Id)
    requires i in s.installers && s.installers[i].stage == HasRead && s.job.Some? && s.job.value.finished.None?
    requires s.job.value.owner == i && s.installers[i].uid == Some(s.job.value.uid)
    requires 0 <= s.terms.lag && s.now + s.terms.lag < Deadline(s.installers[i]) && s.terms.grace >= 0
    requires forall h | h in s.installers && h != i :: !Owns(s.installers[h]) && !Ending(s.installers[h])
    ensures Run(s, Importing(i, s.terms.lag))
            == s.(inputs := s.inputs + {s.job.value.uid}, now := s.now + s.terms.lag,
                  log := s.log + [Collected(i, s.job.value.uid)])
  {
    RunThree(s, PutInputs(i), Collect, Tick(s.terms.lag));
    var s1 := Next(s, PutInputs(i));
    assert s1 == s.(inputs := s.inputs + {s.job.value.uid});
    assert Next(s1, Collect) == s1.(log := s.log + [Collected(i, s.job.value.uid)]);
  }

  function Selecting(i: Id): seq<Event> {
    [Finish, Select(i), EndSelect(i, true)]
  }

  /** A finished Job lets its installer select before the deadline. */
  lemma SelectingRun(s: State, i: Id)
    requires i in s.installers && s.installers[i].stage == HasRead && Holds(s, i) && s.job.value.finished.None?
    requires s.installers[i].start + s.terms.lag <= s.now < Deadline(s.installers[i])
    ensures Run(s, Selecting(i))
            == s.(job := Some(s.job.value.(finished := Some(s.now))), log := s.log + [Selected(i)],
                  installers := s.installers[i := s.installers[i].(stage := Over)])
  {
    RunThree(s, Finish, Select(i), EndSelect(i, true));
  }

  /** An installer that is over and holds the Job's receipt frees the name. */
  lemma ReleasingRun(s: State, i: Id)
    requires Holds(s, i) && s.installers[i].stage == Over
    ensures Run(s, [Release(i)]) == s.(job := None)
  {
    RunOne(s, Release(i));
  }

  function Installation(i: Id, seconds: Time, lag: Time): seq<Event> {
    Opening(i, seconds) + (Importing(i, lag) + (Selecting(i) + [Release(i)]))
  }

  /**
   An installation that keeps its time reads, collects and selects in this order, on one Job of its
   own, and leaves the name free.
   */
  lemma InstallationSucceeds(s: State, i: Id, seconds: Time)
    requires Quiet(s) && i !in s.installers && seconds > s.terms.lag
    ensures var t := Run(s, Installation(i, seconds, s.terms.lag));
            && t.job.None? && t.log == s.log + [Referenced(i), Collected(i, s.next), Selected(i)]
            && Quiet(t) && i in t.installers && t.installers[i].stage == Over && t.next == s.next + 1
  {
    var lag := s.terms.lag;
    var s1 := Run(s, Opening(i, seconds));
    OpeningRun(s, i, seconds);
    RunSplit(s, Opening(i, seconds), Importing(i, lag) + (Selecting(i) + [Release(i)]));
    var s2 := Run(s1, Importing(i, lag));
    ImportingRun(s1, i);
    RunSplit(s1, Importing(i, lag), Selecting(i) + [Release(i)]);
    var s3 := Run(s2, Selecting(i));
    SelectingRun(s2, i);
    RunSplit(s2, Selecting(i), [Release(i)]);
    ReleasingRun(s3, i);
    assert s3.log == s.log + [Referenced(i), Collected(i, s.next), Selected(i)];
  }

  /** A name nobody releases becomes free by itself, `seconds` after its Job finished and no sooner. */
  lemma ExpiresExactly(s: State, d: Time)
    requires s.job.Some? && s.job.value.finished.Some? && s.job.value.owner in s.installers && MayTick(s, d)
    ensures var t := Run(s, [Tick(d), Expire]);
            t.job.None? <==> s.job.value.finished.value + s.installers[s.job.value.owner].seconds <= s.now + d
  {
    RunTwo(s, Tick(d), Expire);
  }

  /** A create request whose answer was lost may land; the installer that gave up frees it by its own label. */
  lemma LostCreateIsFreed(s: State, i: Id)
    requires s.job.None? && i in s.installers && s.installers[i].stage == Waiting && s.installers[i].uid.None?
    requires s.now < Deadline(s.installers[i])
    ensures var landed := Run(s, [Create(i, false), Create(i, true)]);
            && landed.job == Some(Job(i, s.next, s.now, None)) && i in landed.installers && landed.installers[i].stage == Over
            && Run(landed, [Release(i)]).job.None?
  {
    RunTwo(s, Create(i, false), Create(i, true));
    var landed := Run(s, [Create(i, false), Create(i, true)]);
    RunOne(landed, Release(i));
  }

  /** A cancelled installer's selection that never lands leaves no trace, and its Job is released after it. */
  lemma CancelledSelectionIsReleased(s: State, i: Id)
    requires Holds(s, i) && s.installers[i].stage == Committing
    ensures var t := Run(s, [Stop(i), EndSelect(i, false), Release(i)]);
            t.job.None? && t.log == s.log && i in t.installers && t.installers[i].stage == Over
  {
    RunThree(s, Stop(i), EndSelect(i, false), Release(i));
  }

  /** A patient release waits for the selection to end; an impatient one frees the name at once. */
  lemma ReleaseWhileStopping(s: State, i: Id)
    requires Holds(s, i) && Ending(s.installers[i])
    ensures Next(s, Release(i)).job.None? <==> !s.terms.patient
  {
  }

  /** Nobody else's receipt or label frees the Job. */
  lemma OthersCannotRelease(s: State, i: Id)
    requires s.job.Some? && (s.job.value.owner != i || (i in s.installers && s.installers[i].uid.Some? && !Holds(s, i)))
    ensures Next(s, Release(i)).job == s.job
  {
  }

  /** A selection starts exactly on the installer's own finished Job and before its deadline. */
  lemma SelectsExactly(s: State, i: Id)
    requires i in s.installers && s.installers[i].stage == HasRead
    ensures var t := Next(s, Select(i));
            if && s.job.Some? && s.job.value.owner == i && s.installers[i].uid == Some(s.job.value.uid)
               && s.job.value.finished.Some? && s.now < s.installers[i].start + s.installers[i].seconds
            then t == SetStage(s, i, Committing) else t == s
  {
  }

  // ----- Stopped selections -----

  /** A selection being stopped has not been so for as long as `grace`. */
  predicate EndsInTime(s: State, i: Id)
    requires i in s.installers
  {
    Ending(s.installers[i]) ==> s.now == s.installers[i].stage.since || s.now < s.installers[i].stage.since + s.terms.grace
  }

  ghost predicate AllEndInTime(s: State) {
    forall i {:trigger s.installers[i]} | i in s.installers :: EndsInTime(s, i)
  }

  lemma StepEndsInTime(s: State, e: Event)
    requires AllEndInTime(s)
    ensures AllEndInTime(Next(s, e))
  {
    var t := Next(s, e);
    forall i {:trigger t.installers[i]} | i in t.installers ensures EndsInTime(t, i) {
      if i in s.installers { assert EndsInTime(s, i); }
    }
  }

  /** A cancelled installer's selection is over, or its time to end is not: nothing lands later than `grace` after the stop. */
  lemma {:induction false} StoppedSelectionsEnd(s: State, events: seq<Event>, i: Id)
    requires AllEndInTime(s) && i in Run(s, events).installers && Ending(Run(s, events).installers[i])
    ensures var t := Run(s, events);
            t.now == t.installers[i].stage.since || t.now < t.installers[i].stage.since + t.terms.grace
    decreases |events|
  {
    if events != [] {
      StepEndsInTime(s, events[0]);
      StoppedSelectionsEnd(Next(s, events[0]), events[1..], i);
    } else {
      assert EndsInTime(s, i);
    }
  }
}

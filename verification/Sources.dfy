/** Sticky selection of download sources: keep what works, move only to a materially faster mirror. */
module Sources {
  import opened Common

  const RATIO := 0.7
  const MARGIN := 0.25

  /** A measurement: `None` if the source did not answer. */
  type Elapsed = Option<real>

  /** The sources of one probe; the official one is written "" in a selection. */
  datatype Source = Environment(name: string) | Registry(host: string)

  datatype Result = Result(source: Source, official: Elapsed, mirrors: seq<string>, times: seq<Elapsed>)

  datatype Pick = Pick(mirror: string, elapsed: real)

  /** One time for each mirror, and no mirror written like the official source. */
  predicate ResultOk(r: Result) {
    |r.mirrors| == |r.times| && "" !in r.mirrors
  }

  // ----- One probe -----

  predicate Available(r: Result, m: string)
    requires |r.mirrors| == |r.times|
  {
    exists i | 0 <= i < |r.mirrors| :: r.mirrors[i] == m && r.times[i].Some?
  }

  /** The measurement is the first that the mirror's name has. */
  predicate FirstOf(mirrors: seq<string>, times: seq<Elapsed>, p: Pick)
    requires |mirrors| == |times|
  {
    exists i | 0 <= i < |mirrors| ::
      mirrors[i] == p.mirror && times[i] == Some(p.elapsed) && forall h | 0 <= h < i :: mirrors[h] != p.mirror || times[h].None?
  }

  /** Every earlier measurement is slower. */
  predicate FirstFastest(mirrors: seq<string>, times: seq<Elapsed>, p: Pick)
    requires |mirrors| == |times|
  {
    exists i | 0 <= i < |mirrors| ::
      mirrors[i] == p.mirror && times[i] == Some(p.elapsed) && forall h | 0 <= h < i && times[h].Some? :: times[h].value > p.elapsed
  }

  /** The first available mirror of this name. */
  function FindMirror(mirrors: seq<string>, times: seq<Elapsed>, m: string): (p: Option<Pick>)
    requires |mirrors| == |times|
    ensures p.Some? <==> exists i | 0 <= i < |mirrors| :: mirrors[i] == m && times[i].Some?
    ensures p.Some? ==> p.value.mirror == m
  {
    if mirrors == [] then None
    else if mirrors[0] == m && times[0].Some? then Some(Pick(m, times[0].value))
    else
      var rest := FindMirror(mirrors[1..], times[1..], m);
      assert rest.Some? ==> exists i | 0 <= i < |mirrors[1..]| :: mirrors[1..][i] == m && times[1..][i].Some?;
      assert forall i | 1 <= i < |mirrors| :: mirrors[i] == mirrors[1..][i - 1] && times[i] == times[1..][i - 1];
      rest
  }

  /** The first of the fastest available mirrors. */
  function Fastest(mirrors: seq<string>, times: seq<Elapsed>): (p: Option<Pick>)
    requires |mirrors| == |times|
    ensures p.None? <==> forall i | 0 <= i < |times| :: times[i].None?
    ensures p.Some? ==> exists i | 0 <= i < |mirrors| :: mirrors[i] == p.value.mirror && times[i] == Some(p.value.elapsed)
    ensures p.Some? ==> forall i | 0 <= i < |times| && times[i].Some? :: p.value.elapsed <= times[i].value
  {
    if mirrors == [] then None
    else
      var rest := Fastest(mirrors[1..], times[1..]);
      assert forall i | 1 <= i < |mirrors| :: mirrors[i] == mirrors[1..][i - 1] && times[i] == times[1..][i - 1];
      if times[0].None? then rest
      else if rest.Some? && rest.value.elapsed < times[0].value then rest
      else Some(Pick(mirrors[0], times[0].value))
  }

  lemma {:induction false} FindsFirst(mirrors: seq<string>, times: seq<Elapsed>, m: string)
    requires |mirrors| == |times| && FindMirror(mirrors, times, m).Some?
    ensures FirstOf(mirrors, times, FindMirror(mirrors, times, m).value)
    decreases |mirrors|
  {
    var p := FindMirror(mirrors, times, m).value;
    if mirrors[0] == m && times[0].Some? {
      assert mirrors[0] == p.mirror;
    } else {
      FindsFirst(mirrors[1..], times[1..], m);
      var i :| 0 <= i < |mirrors[1..]| && mirrors[1..][i] == p.mirror && times[1..][i] == Some(p.elapsed)
               && forall h | 0 <= h < i :: mirrors[1..][h] != p.mirror || times[1..][h].None?;
      assert mirrors[i + 1] == p.mirror;
      forall h | 0 <= h < i + 1 ensures mirrors[h] != p.mirror || times[h].None? {
        if h > 0 { assert mirrors[h] == mirrors[1..][h - 1] && times[h] == times[1..][h - 1]; }
      }
    }
  }

  lemma {:induction false} FastestIsFirst(mirrors: seq<string>, times: seq<Elapsed>)
    requires |mirrors| == |times| && Fastest(mirrors, times).Some?
    ensures FirstFastest(mirrors, times, Fastest(mirrors, times).value)
    decreases |mirrors|
  {
    var p, rest := Fastest(mirrors, times).value, Fastest(mirrors[1..], times[1..]);
    if rest.Some? && rest.value == p && (times[0].None? || p.elapsed < times[0].value) {
      FastestIsFirst(mirrors[1..], times[1..]);
      var i :| 0 <= i < |mirrors[1..]| && mirrors[1..][i] == p.mirror && times[1..][i] == Some(p.elapsed)
               && forall h | 0 <= h < i && times[1..][h].Some? :: times[1..][h].value > p.elapsed;
      assert mirrors[i + 1] == p.mirror;
      forall h | 0 <= h < i + 1 && times[h].Some? ensures times[h].value > p.elapsed {
        if h > 0 { assert times[h] == times[1..][h - 1]; }
      }
    } else {
      assert mirrors[0] == p.mirror;
    }
  }

  /** A mirror that is worth leaving a reachable official source for. */
  predicate MateriallyFaster(elapsed: real, official: real) {
    elapsed <= official * RATIO && official - elapsed >= MARGIN
  }

  /** `_select_mirror`; `preferred` is the prior choice, `None` on a first selection. */
  function SelectMirror(r: Result, preferred: Option<string>): Option<Pick>
    requires |r.mirrors| == |r.times|
  {
    if preferred == Some("") && r.official.Some? then None
    else
      var kept := if preferred.Some? then FindMirror(r.mirrors, r.times, preferred.value) else None;
      if kept.Some? then kept
      else
        var best := Fastest(r.mirrors, r.times);
        if best.Some? && r.official.Some? && !MateriallyFaster(best.value.elapsed, r.official.value) then None
        else best
  }

  function ChoiceOf(p: Option<Pick>): string {
    if p.Some? then p.value.mirror else ""
  }

  /** The source a choice stands for answered in this round. */
  predicate Reachable(r: Result, choice: string)
    requires |r.mirrors| == |r.times|
  {
    if choice == "" then r.official.Some? else Available(r, choice)
  }

  /** A reachable source is kept, whatever the others measure. */
  lemma ReachableIsKept(r: Result, preferred: string)
    requires ResultOk(r) && Reachable(r, preferred)
    ensures ChoiceOf(SelectMirror(r, Some(preferred))) == preferred
    ensures preferred != "" ==> FirstOf(r.mirrors, r.times, SelectMirror(r, Some(preferred)).value)
  {
    if preferred != "" { FindsFirst(r.mirrors, r.times, preferred); }
  }

  /** A new mirror is the fastest that answered, and materially faster than an official source that did. */
  lemma MovesAreWorthwhile(r: Result, preferred: Option<string>)
    requires ResultOk(r)
    ensures var p := SelectMirror(r, preferred);
            p.Some? && preferred != Some(p.value.mirror) ==>
              && Available(r, p.value.mirror)
              && (forall i | 0 <= i < |r.times| && r.times[i].Some? :: p.value.elapsed <= r.times[i].value)
              && FirstFastest(r.mirrors, r.times, p.value)
              && (r.official.Some? ==> p.value.elapsed <= r.official.value * 0.7 && r.official.value - p.value.elapsed >= 0.25)
  {
    var p := SelectMirror(r, preferred);
    if p.Some? && preferred != Some(p.value.mirror) {
      FastestIsFirst(r.mirrors, r.times);
      var i :| 0 <= i < |r.mirrors| && r.mirrors[i] == p.value.mirror && r.times[i] == Some(p.value.elapsed);
    }
  }

  /** The official source is chosen exactly when it is kept, nothing else answered, or no mirror is worth the move. */
  lemma OfficialExactly(r: Result, preferred: Option<string>)
    requires ResultOk(r)
    ensures ChoiceOf(SelectMirror(r, preferred)) == "" <==>
              || (preferred == Some("") && r.official.Some?)
              || (forall i | 0 <= i < |r.times| :: r.times[i].None?)
              || (r.official.Some? && !(preferred.Some? && Available(r, preferred.value))
                  && forall i | 0 <= i < |r.times| && r.times[i].Some? ::
                       r.times[i].value > r.official.value * 0.7 || r.official.value - r.times[i].value < 0.25)
  {
    var best := Fastest(r.mirrors, r.times);
    if best.Some? && r.official.Some? && !MateriallyFaster(best.value.elapsed, r.official.value) {
      forall i | 0 <= i < |r.times| && r.times[i].Some? ensures !MateriallyFaster(r.times[i].value, r.official.value) {
        assert best.value.elapsed <= r.times[i].value;
      }
    }
  }

  // ----- One round over all probes -----

  /** Only mirrors are written down; a source without an entry is the official one. */
  datatype Selection = Selection(environment: map<string, string>, registries: map<string, seq<string>>)

  function Chosen(s: Selection, source: Source): string {
    match source
    case Environment(name) => if name in s.environment then s.environment[name] else ""
    case Registry(host) => if host in s.registries && s.registries[host] != [] then s.registries[host][0] else ""
  }

  /** The prior choice a probe starts from; without prior selections it is a first selection. */
  function Preferred(source: Source, environment: Option<map<string, string>>,
                     registries: Option<map<string, seq<string>>>): Option<string>
  {
    match source
    case Environment(name) =>
      if environment.Some? then Some(Chosen(Selection(environment.value, map[]), source)) else None
    case Registry(host) =>
      if registries.Some? then Some(Chosen(Selection(map[], registries.value), source)) else None
  }

  function Write(s: Selection, source: Source, mirror: string): Selection {
    match source
    case Environment(name) => s.(environment := s.environment[name := mirror])
    case Registry(host) => s.(registries := s.registries[host := [mirror]])
  }

  /** Each source is probed once. */
  predicate RoundOk(results: seq<Result>) {
    && (forall i | 0 <= i < |results| :: ResultOk(results[i]))
    && (forall i, h | 0 <= i < h < |results| :: results[i].source != results[h].source)
  }

  /** The sources of a round are chosen independently of each other. */
  ghost predicate Decided(results: seq<Result>, n: nat, environment: Option<map<string, string>>,
                          registries: Option<map<string, seq<string>>>, s: Selection)
    requires n <= |results|
  {
    && (forall i | 0 <= i < n && ResultOk(results[i]) ::
          Chosen(s, results[i].source) == ChoiceOf(SelectMirror(results[i], Preferred(results[i].source, environment, registries))))
    && (forall source: Source :: (forall i | 0 <= i < n :: results[i].source != source) ==> Chosen(s, source) == "")
  }

  /** The selection loop of `select_build_sources`. */
  method SelectSources(results: seq<Result>, environment: Option<map<string, string>>, registries: Option<map<string, seq<string>>>)
    returns (s: Selection)
    requires RoundOk(results)
    ensures Decided(results, |results|, environment, registries, s)
  {
    s := Selection(map[], map[]);
    var n := 0;
    while n < |results|
      invariant n <= |results| && Decided(results, n, environment, registries, s)
    {
      var r := results[n];
      var pick := SelectMirror(r, Preferred(r.source, environment, registries));
      ghost var before := s;
      if pick.Some? { s := Write(s, r.source, pick.value.mirror); }
      DecidedStep(results, n, environment, registries, before, s);
      n := n + 1;
    }
  }

  lemma DecidedStep(results: seq<Result>, n: nat, environment: Option<map<string, string>>,
                    registries: Option<map<string, seq<string>>>, before: Selection, after: Selection)
    requires RoundOk(results) && n < |results| && Decided(results, n, environment, registries, before)
    requires var pick := SelectMirror(results[n], Preferred(results[n].source, environment, registries));
             after == if pick.Some? then Write(before, results[n].source, pick.value.mirror) else before
    ensures Decided(results, n + 1, environment, registries, after)
  {
    var source := results[n].source;
    var pick := SelectMirror(results[n], Preferred(source, environment, registries));
    if pick.Some? { WriteReads(before, source, pick.value.mirror); }
    assert Chosen(before, source) == "";
  }

  lemma WriteReads(s: Selection, source: Source, mirror: string)
    ensures Chosen(Write(s, source, mirror), source) == mirror
    ensures forall other: Source | other != source :: Chosen(Write(s, source, mirror), other) == Chosen(s, other)
  {
  }

  /** The first round is not sticky: a mirror that is materially faster than a reachable official source is taken. */
  lemma FirstRoundMoves(results: seq<Result>, s: Selection, i: nat, t: nat)
    requires RoundOk(results) && Decided(results, |results|, None, None, s)
    requires i < |results| && t < |results[i].times| && results[i].times[t].Some? && results[i].official.Some?
    requires var elapsed, official := results[i].times[t].value, results[i].official.value;
             elapsed <= official * 0.7 && official - elapsed >= 0.25
    ensures Chosen(s, results[i].source) != "" && Available(results[i], Chosen(s, results[i].source))
  {
    var r := results[i];
    assert ResultOk(r) && Preferred(r.source, None, None) == None;
    assert Chosen(s, r.source) == ChoiceOf(SelectMirror(r, None));
    OfficialExactly(r, None);
    MovesAreWorthwhile(r, None);
  }

  // ----- Repeated rounds -----

  /** `after` is what a round decides that starts from the selection `before`. */
  ghost predicate Follows(before: Selection, results: seq<Result>, after: Selection) {
    RoundOk(results) && Decided(results, |results|, Some(before.environment), Some(before.registries), after)
  }

  /**
   Over any sequence of rounds, each starting from the one before, a source probed in a round keeps
   its choice unless the source in use does not answer; and it moves to a mirror past an official
   source that does only for at most 0.7 of its time and a gain of at least 0.25 s.
   */
  lemma StickyRounds(selections: seq<Selection>, rounds: seq<seq<Result>>, k: nat, i: nat)
    requires |selections| == |rounds| + 1
    requires forall h | 0 <= h < |rounds| :: Follows(selections[h], rounds[h], selections[h + 1])
    requires k < |rounds| && i < |rounds[k]|
    ensures var r := rounds[k][i];
            var was, now := Chosen(selections[k], r.source), Chosen(selections[k + 1], r.source);
            && |r.mirrors| == |r.times|
            && (now != was ==> !Reachable(r, was))
            && (now != was && now != "" && r.official.Some? ==>
                  exists t | 0 <= t < |r.mirrors| :: r.mirrors[t] == now && r.times[t].Some?
                                                     && r.times[t].value <= r.official.value * 0.7
                                                     && r.official.value - r.times[t].value >= 0.25)
  {
    var r := rounds[k][i];
    assert Follows(selections[k], rounds[k], selections[k + 1]);
    var was := Chosen(selections[k], r.source);
    assert Preferred(r.source, Some(selections[k].environment), Some(selections[k].registries)) == Some(was);
    if Reachable(r, was) { ReachableIsKept(r, was); }
    MovesAreWorthwhile(r, Some(was));
    var p := SelectMirror(r, Some(was));
    if p.Some? && p.value.mirror != was && r.official.Some? {
      assert p == Fastest(r.mirrors, r.times);
    }
  }

  /** The source is probed in this round and what `choice` stands for answers. */
  predicate Answers(results: seq<Result>, source: Source, choice: string) {
    exists i | 0 <= i < |results| ::
      results[i].source == source && ResultOk(results[i]) && Reachable(results[i], choice)
  }

  lemma KeptInRound(before: Selection, results: seq<Result>, after: Selection, i: nat)
    requires Follows(before, results, after) && i < |results| && ResultOk(results[i])
    requires Reachable(results[i], Chosen(before, results[i].source))
    ensures Chosen(after, results[i].source) == Chosen(before, results[i].source)
  {
    var r := results[i];
    var was := Chosen(before, r.source);
    assert Preferred(r.source, Some(before.environment), Some(before.registries)) == Some(was);
    ReachableIsKept(r, was);
  }

  /** A source that answers in every round of a run keeps its choice throughout. */
  lemma {:induction false} KeptThroughout(selections: seq<Selection>, rounds: seq<seq<Result>>, source: Source, n: nat)
    requires |selections| == |rounds| + 1 && n <= |rounds|
    requires forall h | 0 <= h < |rounds| :: Follows(selections[h], rounds[h], selections[h + 1])
    requires forall h | 0 <= h < n :: Answers(rounds[h], source, Chosen(selections[0], source))
    ensures Chosen(selections[n], source) == Chosen(selections[0], source)
    decreases n
  {
    if n > 0 {
      KeptThroughout(selections, rounds, source, n - 1);
      assert Answers(rounds[n - 1], source, Chosen(selections[0], source));
      var i :| 0 <= i < |rounds[n - 1]| && rounds[n - 1][i].source == source && ResultOk(rounds[n - 1][i])
               && Reachable(rounds[n - 1][i], Chosen(selections[0], source));
      KeptInRound(selections[n - 1], rounds[n - 1], selections[n], i);
    }
  }
}

/** What holds of the readiness engine over all its runs. */
module ReadinessLaws {
  import opened Wrappers
  import opened Readiness

  function Run(s: EngineState, probes: seq<Probe>): EngineState
    decreases probes
  {
    if probes == [] then s else Run(Step(s, probes[0]).0, probes[1..])
  }

  function Answers(s: EngineState, probes: seq<Probe>): (answers: seq<Answer>)
    ensures |answers| == |probes|
    decreases probes
  {
    if probes == [] then [] else [Step(s, probes[0]).1] + Answers(Step(s, probes[0]).0, probes[1..])
  }

  // ---------- Invariants ----------

  predicate Consistent(s: EngineState) {
    s.ready ==> s.result == NO_REQUEUE
  }

  /** Reachable states that are ready never ask to be requeued. */
  lemma {:induction false} ReachableConsistent(s: EngineState, probes: seq<Probe>)
    requires Consistent(s)
    ensures Consistent(Run(s, probes))
    decreases probes
  {
    if probes != [] {
      ReachableConsistent(Step(s, probes[0]).0, probes[1..]);
    }
  }

  /** Not ready without an error always leaves a requeue: a second while the creation
      time is unknown, half a minute once it is known; readiness leaves none. */
  lemma RequeueFollowsAnswer(s: EngineState, probe: Probe)
    requires Consistent(s)
    ensures
      var (after, answer) := Step(s, probe);
      && (answer == Ready <==> after.ready)
      && (answer == Ready ==> after.result == NO_REQUEUE)
      && (answer == NotReady ==>
            after.result == Requeue(true, if after.created == ZERO_TIME then SECOND else 30 * SECOND))
      && (answer == Failed ==> after.result == NO_REQUEUE && probe.maxAge == Malformed)
  {
  }

  /** The list was read, names an operator, and none is progressing, degraded or
      unavailable. */
  predicate AllWell(operators: Option<seq<ClusterOperator>>) {
    && operators.Some? && |operators.value| > 0
    && forall i, j :: 0 <= i < |operators.value| && 0 <= j < |operators.value[i].conditions| ==>
         operators.value[i].conditions[j] !in {Condition(Progressing, True), Condition(Degraded, True),
                                               Condition(Available, False)}
  }

  /** Older than the setting allows, which is 90 minutes when there is none. */
  predicate BeyondAge(created: int, maxAge: MaxAgeSetting, now: int) {
    match maxAge
    case Unset => created < now - 5_400_000_000_000
    case Minutes(n) => TooOld(created, n, now)
    case Malformed => false
  }

  lemma OperatorsReadyMeans(operators: Option<seq<ClusterOperator>>)
    ensures OperatorsReady(operators) <==> AllWell(operators)
  {
    if operators.Some? && OperatorsReady(operators) {
      forall i, j | 0 <= i < |operators.value| && 0 <= j < |operators.value[i].conditions|
        ensures !BadCondition(operators.value[i].conditions[j])
      {
        assert Settled(operators.value[i]);
      }
    }
  }

  /** One call of a not-ready engine, answer, wait and memory, in the terms of what it was
      told. */
  lemma StepExactly(s: EngineState, probe: Probe)
    requires !s.ready
    ensures
      var (after, answer) := Step(s, probe);
      var known := after.created != -62_135_596_800_000_000_000;
      && (answer == Ready <==> AllWell(probe.operators) || (known && BeyondAge(after.created, probe.maxAge, probe.now)))
      && (answer == Failed <==> !AllWell(probe.operators) && known && probe.maxAge == Malformed)
      && (after.ready <==> answer == Ready)
      && after.result == (if answer != NotReady then Requeue(false, 0)
                          else Requeue(true, if known then 30_000_000_000 else 1_000_000_000))
      && after.created == (if AllWell(probe.operators) || s.created != -62_135_596_800_000_000_000
                              || probe.samples.None?
                           then s.created else Earliest(probe.samples.value))
  {
    OperatorsReadyMeans(probe.operators);
  }

  /** The call has to ask for the cluster's age, knows it, and finds the setting
      malformed. */
  predicate AgeLimitMissing(s: EngineState, probe: Probe) {
    && !s.ready && !AllWell(probe.operators)
    && (s.created != ZERO_TIME || (probe.samples.Some? && Earliest(probe.samples.value) != ZERO_TIME))
    && probe.maxAge == Malformed
  }

  lemma CallFailsExactlyWhen(s: EngineState, probe: Probe)
    ensures Step(s, probe).1 == Failed <==> AgeLimitMissing(s, probe)
  {
    OperatorsReadyMeans(probe.operators);
  }

  /** Within one process readiness never reverts and costs no further change. */
  lemma {:induction false} ReadinessNeverReverts(s: EngineState, probes: seq<Probe>)
    requires s.ready
    ensures Run(s, probes) == s && forall i :: 0 <= i < |probes| ==> Answers(s, probes)[i] == Ready
  {
    if probes != [] {
      ReadinessNeverReverts(s, probes[1..]);
    }
  }

  /** A creation time, once cached, outlives every later call. */
  lemma {:induction false} CreationTimeNeverChanges(s: EngineState, probes: seq<Probe>)
    requires s.created != ZERO_TIME
    ensures Run(s, probes).created == s.created
    decreases probes
  {
    if probes != [] {
      CreationTimeNeverChanges(Step(s, probes[0]).0, probes[1..]);
    }
  }

  /** Readiness is declared only on evidence: settled operators, or a known age past the limit. */
  lemma ReadyOnEvidence(s: EngineState, probe: Probe)
    requires !s.ready && Step(s, probe).1 == Ready
    ensures
      || AllWell(probe.operators)
      || (&& Step(s, probe).0.created != ZERO_TIME
          && BeyondAge(Step(s, probe).0.created, probe.maxAge, probe.now))
  {
    OperatorsReadyMeans(probe.operators);
  }

  // ---------- The creation time ----------

  function Minimum(samples: seq<int>): (low: int)
    requires samples != []
    ensures low in samples
    ensures forall i :: 0 <= i < |samples| ==> low <= samples[i]
  {
    var last := samples[|samples| - 1];
    if |samples| == 1 then last
    else
      var low := Minimum(samples[..|samples| - 1]);
      assert forall i :: 0 <= i < |samples| - 1 ==> samples[..|samples| - 1][i] == samples[i];
      if last < low then last else low
  }

  /** A sample below the zero time, or none at all equal to it, keeps the loop honest. */
  lemma {:induction false} EarliestTracksMinimum(samples: seq<int>)
    requires samples != []
    ensures Minimum(samples) * SECOND != ZERO_TIME ==> Earliest(samples) == Minimum(samples) * SECOND
    ensures Minimum(samples) * SECOND == ZERO_TIME ==>
      (Earliest(samples) == ZERO_TIME <==> samples[|samples| - 1] * SECOND == ZERO_TIME)
    ensures Minimum(samples) * SECOND == ZERO_TIME ==> Earliest(samples) >= ZERO_TIME
  {
    if |samples| == 1 {
      assert samples[..0] == [];
    } else {
      EarliestTracksMinimum(samples[..|samples| - 1]);
    }
  }

  /** The engine caches the minimum of the samples exactly when that minimum is not
      Go's zero time. */
  lemma CachesMinimumExactlyWhen(samples: seq<int>)
    requires samples != []
    ensures (Earliest(samples) != ZERO_TIME && Earliest(samples) == Minimum(samples) * SECOND)
       <==> Minimum(samples) * SECOND != ZERO_TIME
  {
    EarliestTracksMinimum(samples);
  }

  /** The loop reports failure exactly for an empty vector, or one that ends in the
      zero time and has nothing below it. */
  lemma FailsExactlyWhen(samples: seq<int>)
    ensures Earliest(samples) == ZERO_TIME
       <==> samples == [] || (samples[|samples| - 1] * SECOND == ZERO_TIME && Minimum(samples) * SECOND == ZERO_TIME)
  {
    if samples != [] {
      EarliestTracksMinimum(samples);
    }
  }

  lemma SameMinimum(xs: seq<int>, ys: seq<int>)
    requires xs != [] && multiset(xs) == multiset(ys)
    ensures ys != [] && Minimum(xs) == Minimum(ys)
  {
    assert |multiset(xs)| == |multiset(ys)|;
    assert Minimum(xs) in multiset(xs) && Minimum(ys) in multiset(ys);
  }

  /** Without a zero-time minimum the order of the samples does not matter. */
  lemma SameEarliest(xs: seq<int>, ys: seq<int>)
    requires multiset(xs) == multiset(ys)
    requires xs != [] ==> Minimum(xs) * SECOND != ZERO_TIME
    ensures Earliest(xs) == Earliest(ys)
  {
    if xs == [] {
      assert |multiset(ys)| == 0;
    } else {
      SameMinimum(xs, ys);
      EarliestTracksMinimum(xs);
      EarliestTracksMinimum(ys);
    }
  }

  /** Nothing but zero-time samples: in any order the loop fails. */
  lemma AllZeroTime(xs: seq<int>, ys: seq<int>)
    requires multiset(xs) == multiset(ys) && forall x :: x in xs ==> x * SECOND == ZERO_TIME
    ensures Earliest(ys) == ZERO_TIME
  {
    forall y | y in ys
      ensures y * SECOND == ZERO_TIME
    {
      assert y in multiset(ys) && y in multiset(xs);
      assert y in xs;
    }
    if ys != [] {
      assert ys[|ys| - 1] in ys && Minimum(ys) in ys;
    }
    FailsExactlyWhen(ys);
  }

  /** The same samples, with a chosen one at the end. */
  lemma MoveToEnd(xs: seq<int>, x: int) returns (moved: seq<int>)
    requires x in xs
    ensures multiset(moved) == multiset(xs) && moved != [] && moved[|moved| - 1] == x
  {
    var i :| 0 <= i < |xs| && xs[i] == x;
    moved := xs[..i] + xs[i + 1..] + [x];
    assert xs == xs[..i] + [x] + xs[i + 1..];
  }

  ghost predicate AnyOrder(xs: seq<int>) {
    forall ys: seq<int> :: multiset(ys) == multiset(xs) ==> Earliest(ys) == Earliest(xs)
  }

  /** A zero-time minimum and another sample: ending in the one the loop fails, ending
      in the other it does not. */
  lemma OrderMatters(xs: seq<int>, other: int)
    requires xs != [] && Minimum(xs) * SECOND == ZERO_TIME && other in xs && other * SECOND != ZERO_TIME
    ensures !AnyOrder(xs)
  {
    var failing := MoveToEnd(xs, Minimum(xs));
    var working := MoveToEnd(xs, other);
    SameMinimum(xs, failing);
    SameMinimum(xs, working);
    FailsExactlyWhen(failing);
    FailsExactlyWhen(working);
  }

  /** The order in which Prometheus answers is irrelevant exactly when no sample has the
      zero time for minimum, or none has another time. */
  lemma OrderIrrelevantExactlyWhen(xs: seq<int>)
    ensures AnyOrder(xs)
       <==> xs == [] || Minimum(xs) * SECOND != ZERO_TIME || forall x :: x in xs ==> x * SECOND == ZERO_TIME
  {
    if xs == [] || Minimum(xs) * SECOND != ZERO_TIME {
      forall ys: seq<int> | multiset(ys) == multiset(xs)
        ensures Earliest(ys) == Earliest(xs)
      {
        SameEarliest(xs, ys);
      }
    } else if other :| other in xs && other * SECOND != ZERO_TIME {
      OrderMatters(xs, other);
    } else {
      forall ys: seq<int> | multiset(ys) == multiset(xs)
        ensures Earliest(ys) == Earliest(xs)
      {
        AllZeroTime(xs, xs);
        AllZeroTime(xs, ys);
      }
    }
  }

  /** With one, the order decides between a wrong time and an error. */
  lemma ZeroSampleMakesOrderMatter()
    ensures multiset([-62_135_596_800, 5]) == multiset([5, -62_135_596_800])
    ensures Earliest([-62_135_596_800, 5]) == 5 * SECOND && Earliest([5, -62_135_596_800]) == ZERO_TIME
  {
    assert [-62_135_596_800, 5][..1] == [-62_135_596_800] && [5, -62_135_596_800][..1] == [5];
    assert [-62_135_596_800][..0] == [] && [5][..0] == [];
  }

  // ---------- Age arithmetic ----------

  const EXACT_MINUTES: int := 153_722_867

  /** The int64 product is exact up to 153722867 minutes either way, and no further. */
  lemma ProductExactWhen(minutes: int)
    requires -0x8000_0000_0000_0000 <= minutes < 0x8000_0000_0000_0000
    ensures MinusAge(minutes) == -minutes * MINUTE <==> -EXACT_MINUTES <= minutes <= EXACT_MINUTES
  {
  }

  /** The setting means what it says, for every cluster at every time. */
  ghost predicate AgeAsSet(minutes: int) {
    forall created: int, now: int :: TooOld(created, minutes, now) <==> created < now - minutes * 60_000_000_000
  }

  /** It does so exactly up to that many minutes either way. */
  lemma AgeAsSetExactlyWhen(minutes: int)
    requires -0x8000_0000_0000_0000 <= minutes < 0x8000_0000_0000_0000
    ensures AgeAsSet(minutes) <==> -EXACT_MINUTES <= minutes <= EXACT_MINUTES
  {
    hide MinusAge;
    ProductExactWhen(minutes);
    var wrapped, meant := MinusAge(minutes), -minutes * MINUTE;
    if wrapped != meant {
      var between := if wrapped < meant then wrapped else meant;
      assert TooOld(between, minutes, 0) <==> between < wrapped;
      assert !(TooOld(between, minutes, 0) <==> between < 0 - minutes * 60_000_000_000);
    }
  }

  /** One minute more and a cluster created this instant already counts as too old. */
  lemma OverflowDeclaresReady(created: int)
    ensures TooOld(created, EXACT_MINUTES + 1, created)
  {
  }

  // ---------- Polling ----------

  /** Calls at least 30 s apart, the first no earlier than `first`, under one setting. */
  ghost predicate Polls(probes: seq<Probe>, first: int, minutes: int) {
    && (probes != [] ==> probes[0].now >= first)
    && (forall i :: 0 <= i < |probes| - 1 ==> probes[i].now + 30 * SECOND <= probes[i + 1].now)
    && (forall i :: 0 <= i < |probes| ==> MaxAge(probes[i].maxAge) == Some(minutes))
  }

  function NotReadyCount(answers: seq<Answer>): nat {
    if answers == [] then 0 else (if answers[0] == NotReady then 1 else 0) + NotReadyCount(answers[1..])
  }

  /** How many polls, 30 s apart from the creation on, the setting leaves unready. */
  function UnreadyPolls(minutes: int): nat {
    if MinusAge(minutes) > 0 then 0 else -MinusAge(minutes) / (30 * SECOND) + 1
  }

  lemma {:induction false} PollsFrom(s: EngineState, probes: seq<Probe>, minutes: int, done: nat)
    requires s.created != ZERO_TIME && Polls(probes, s.created + 30 * SECOND * done, minutes)
    ensures NotReadyCount(Answers(s, probes))
         <= if UnreadyPolls(minutes) < done then 0 else UnreadyPolls(minutes) - done
    ensures Failed !in Answers(s, probes)
    decreases probes
  {
    hide MinusAge;
    if probes != [] {
      var (after, answer) := Step(s, probes[0]);
      assert Answers(s, probes)[1..] == Answers(after, probes[1..]);
      assert Answers(s, probes)[0] == answer;
      assert forall i :: 0 <= i < |probes| - 1 ==> probes[1..][i] == probes[i + 1];
      PollsFrom(after, probes[1..], minutes, done + 1);
      if after.ready {
        ReadinessNeverReverts(after, probes[1..]);
        AllReadyCount(Answers(after, probes[1..]));
      }
    }
  }

  lemma {:induction false} AllReadyCount(answers: seq<Answer>)
    requires forall i :: 0 <= i < |answers| ==> answers[i] == Ready
    ensures NotReadyCount(answers) == 0
  {
    if answers != [] {
      AllReadyCount(answers[1..]);
    }
  }

  /** Whatever the setting, wrap-around included, the limit is finite; it is the expected
      one for ages that fit, and lower than that beyond them. */
  lemma UnreadyPollsLimited(minutes: int)
    ensures UnreadyPolls(minutes) <= 2 * EXACT_MINUTES + 1
    ensures -EXACT_MINUTES <= minutes <= EXACT_MINUTES ==>
      UnreadyPolls(minutes) == if minutes < 0 then 0 else 2 * minutes + 1
    ensures 0 <= minutes ==> UnreadyPolls(minutes) <= 2 * minutes + 1
  {
  }

  /** Polling ends: with a known creation time, calls at least 30 s apart from then on
      report not ready at most 2*maxAge+1 times (181 by default), and never fail. */
  lemma PollingTerminates(s: EngineState, probes: seq<Probe>, minutes: int)
    requires s.created != ZERO_TIME && Polls(probes, s.created, minutes)
    ensures NotReadyCount(Answers(s, probes)) <= UnreadyPolls(minutes) <= 307_445_735
    ensures 0 <= minutes ==> NotReadyCount(Answers(s, probes)) <= 2 * minutes + 1
    ensures -EXACT_MINUTES <= minutes < 0 ==> NotReadyCount(Answers(s, probes)) == 0
    ensures minutes == DEFAULT_MAX_AGE ==> NotReadyCount(Answers(s, probes)) <= 181
    ensures Failed !in Answers(s, probes)
  {
    hide UnreadyPolls;
    PollsFrom(s, probes, minutes, 0);
    UnreadyPollsLimited(minutes);
  }

  /** Polls exactly 30 s apart of a cluster whose operators never settle. */
  function SteadyPolls(created: int, minutes: int, from: nat, count: nat): seq<Probe> {
    seq(count, i => Probe(None, None, Minutes(minutes), created + 30 * SECOND * (from + i)))
  }

  lemma {:induction false} SteadyPollsAllNotReady(s: EngineState, minutes: int, from: nat, count: nat)
    requires !s.ready && s.created != ZERO_TIME && from + count <= UnreadyPolls(minutes)
    ensures NotReadyCount(Answers(s, SteadyPolls(s.created, minutes, from, count))) == count
    decreases count
  {
    hide MinusAge;
    var probes := SteadyPolls(s.created, minutes, from, count);
    if count > 0 {
      assert from <= -MinusAge(minutes) / (30 * SECOND);
      var after := Step(s, probes[0]).0;
      assert probes[1..] == SteadyPolls(s.created, minutes, from + 1, count - 1);
      SteadyPollsAllNotReady(after, minutes, from + 1, count - 1);
      assert Answers(s, probes)[1..] == Answers(after, probes[1..]);
    }
  }

  /** The limit is reached under every setting. */
  lemma PollingBoundIsTight(s: EngineState, minutes: int)
    requires !s.ready && s.created != ZERO_TIME
    ensures
      var probes := SteadyPolls(s.created, minutes, 0, UnreadyPolls(minutes));
      Polls(probes, s.created, minutes) && NotReadyCount(Answers(s, probes)) == UnreadyPolls(minutes)
  {
    hide UnreadyPolls;
    SteadyPollsAllNotReady(s, minutes, 0, UnreadyPolls(minutes));
  }
}

/** The readiness engine, pkg/readiness/cluster_ready.go. Times are nanoseconds since
    the Unix epoch; `time.Time{}` is midnight of 1 January of the year 1. */
module Readiness {
  import opened Wrappers

  const SECOND: int := 1_000_000_000
  const MINUTE: int := 60 * SECOND
  const ZERO_TIME: int := -62_135_596_800 * SECOND
  const DEFAULT_MAX_AGE: int := 90

  datatype ConditionType = Progressing | Degraded | Available | OtherCondition
  datatype ConditionStatus = True | False | Unknown
  datatype Condition = Condition(kind: ConditionType, status: ConditionStatus)
  datatype ClusterOperator = ClusterOperator(conditions: seq<Condition>)

  /** What reconciliation should return; `requeueAfter` in nanoseconds. */
  datatype Requeue = Requeue(requeue: bool, requeueAfter: int)

  const NO_REQUEUE := Requeue(false, 0)

  /** MAX_CLUSTER_AGE_MINUTES, as `getEnvInt` sees it. */
  datatype MaxAgeSetting = Unset | Minutes(minutes: int) | Malformed

  /** The outside answers one readiness call may consult; `None` is a failed call. */
  datatype Probe = Probe(
    operators: Option<seq<ClusterOperator>>,
    samples: Option<seq<int>>,
    maxAge: MaxAgeSetting,
    now: int)

  datatype EngineState = EngineState(ready: bool, result: Requeue, created: int)

  const FRESH_ENGINE := EngineState(false, NO_REQUEUE, ZERO_TIME)

  datatype Answer = Ready | NotReady | Failed

  // ---------- Specification ----------

  predicate BadCondition(cond: Condition) {
    || (cond.kind == Progressing && cond.status == True)
    || (cond.kind == Degraded && cond.status == True)
    || (cond.kind == Available && cond.status == False)
  }

  predicate Settled(co: ClusterOperator) {
    forall j :: 0 <= j < |co.conditions| ==> !BadCondition(co.conditions[j])
  }

  /** Listed, at least one operator, and none progressing, degraded or unavailable. */
  predicate OperatorsReady(operators: Option<seq<ClusterOperator>>) {
    operators.Some? && operators.value != [] && forall i :: 0 <= i < |operators.value| ==> Settled(operators.value[i])
  }

  /** The running choice of lines 183-189 over the samples, in seconds. */
  function Earliest(samples: seq<int>): int {
    if samples == [] then ZERO_TIME
    else
      var before, last := Earliest(samples[..|samples| - 1]), samples[|samples| - 1] * SECOND;
      if before == ZERO_TIME || last < before then last else before
  }

  /** Two's-complement wrap-around of a 64-bit signed integer. */
  function Wrap64(x: int): int {
    (x + 0x8000_0000_0000_0000) % 0x1_0000_0000_0000_0000 - 0x8000_0000_0000_0000
  }

  /** `time.Duration(-maxAgeMinutes) * time.Minute` */
  function MinusAge(minutes: int): int {
    Wrap64(Wrap64(-minutes) * MINUTE)
  }

  predicate TooOld(created: int, minutes: int, now: int) {
    created < now + MinusAge(minutes)
  }

  function CreationTime(created: int, samples: Option<seq<int>>): int {
    if created != ZERO_TIME then created
    else if samples.Some? then Earliest(samples.value)
    else ZERO_TIME
  }

  function MaxAge(setting: MaxAgeSetting): Option<int> {
    match setting
    case Unset => Some(DEFAULT_MAX_AGE)
    case Minutes(n) => Some(n)
    case Malformed => None
  }

  /** One call of `IsReady`. */
  function Step(s: EngineState, probe: Probe): (EngineState, Answer) {
    if s.ready then (s, Ready)
    else if OperatorsReady(probe.operators) then (EngineState(true, NO_REQUEUE, s.created), Ready)
    else
      var created := CreationTime(s.created, probe.samples);
      if created == ZERO_TIME then (EngineState(false, Requeue(true, SECOND), created), NotReady)
      else match MaxAge(probe.maxAge)
        case None => (EngineState(false, NO_REQUEUE, created), Failed)
        case Some(minutes) =>
          if TooOld(created, minutes, probe.now) then (EngineState(true, NO_REQUEUE, created), Ready)
          else (EngineState(false, Requeue(true, 30 * SECOND), created), NotReady)
  }

  // ---------- Implementation ----------

  class Impl {
    var ready: bool
    var result: Requeue
    var clusterCreationTime: int

    constructor ()
      ensures State() == FRESH_ENGINE
    {
      ready, result, clusterCreationTime := false, NO_REQUEUE, ZERO_TIME;
    }

    function State(): EngineState
      reads this
    {
      EngineState(ready, result, clusterCreationTime)
    }

    function Result(): Requeue
      reads this
    {
      result
    }

    /** Nested loops that break at the first bad condition. */
    static method AllReady(operators: seq<ClusterOperator>) returns (allReady: bool)
      ensures allReady <==>
        forall i, j :: 0 <= i < |operators| && 0 <= j < |operators[i].conditions| ==>
          operators[i].conditions[j] !in {Condition(Progressing, True), Condition(Degraded, True),
                                          Condition(Available, False)}
    {
      allReady := true;
      for i := 0 to |operators|
        invariant allReady
        invariant forall k :: 0 <= k < i ==> Settled(operators[k])
      {
        var co := operators[i];
        for j := 0 to |co.conditions|
          invariant allReady
          invariant forall k :: 0 <= k < j ==> !BadCondition(co.conditions[k])
        {
          var cond := co.conditions[j];
          if cond.kind == Progressing && cond.status == True {
            allReady := false;
            break;
          }
          if cond.kind == Degraded && cond.status == True {
            allReady := false;
            break;
          }
          if cond.kind == Available && cond.status == False {
            allReady := false;
            break;
          }
        }
        if !allReady {
          assert !Settled(operators[i]);
          break;
        }
      }
    }

    method SetClusterCreationTime(samples: Option<seq<int>>) returns (ok: bool)
      modifies this`clusterCreationTime
      ensures clusterCreationTime == CreationTime(old(clusterCreationTime), samples)
      ensures ok <==> clusterCreationTime != ZERO_TIME
    {
      if clusterCreationTime != ZERO_TIME {
        return true;
      }
      if samples.None? {
        return false;
      }
      var vector := samples.value;
      var earliest := ZERO_TIME;
      for i := 0 to |vector|
        invariant earliest == Earliest(vector[..i])
      {
        var thisTime := vector[i] * SECOND;
        assert vector[..i + 1][..i] == vector[..i];
        if earliest == ZERO_TIME || thisTime < earliest {
          earliest := thisTime;
        }
      }
      assert vector[..|vector|] == vector;
      if earliest == ZERO_TIME {
        return false;
      }
      clusterCreationTime := earliest;
      return true;
    }

    method ClusterTooOld(maxAgeMinutes: int, now: int) returns (tooOld: bool)
      ensures tooOld == TooOld(clusterCreationTime, maxAgeMinutes, now)
    {
      var maxAge := now + Wrap64(Wrap64(-maxAgeMinutes) * MINUTE);
      tooOld := clusterCreationTime < maxAge;
    }

    method IsReady(probe: Probe) returns (answer: Answer)
      modifies this
      ensures (State(), answer) == Step(old(State()), probe)
    {
      if ready {
        return Ready;
      }
      result := NO_REQUEUE;
      if probe.operators.Some? && |probe.operators.value| > 0 {
        var allReady := AllReady(probe.operators.value);
        if allReady {
          ready := true;
          return Ready;
        }
      }
      var known := SetClusterCreationTime(probe.samples);
      if !known {
        result := Requeue(true, SECOND);
        return NotReady;
      }
      var maxClusterAge := MaxAge(probe.maxAge);
      if maxClusterAge.None? {
        return Failed;
      }
      var tooOld := ClusterTooOld(maxClusterAge.value, probe.now);
      if tooOld {
        ready := true;
        return Ready;
      }
      result := Requeue(true, 30 * SECOND);
      return NotReady;
    }
  }
}

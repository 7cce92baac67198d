/** Idle detection: last activity per seat, and a cached stage that is only
    reported when it changes. */
module IdleModel {
  import opened Common

  datatype IdleStage = StageActive | Dimmed | LockRequested | SuspendRequested

  datatype IdlePolicy = IdlePolicy(dimAfter: Duration, lockAfter: Duration, suspendAfter: Duration)

  function Rank(stage: IdleStage): nat {
    match stage
    case StageActive => 0
    case Dimmed => 1
    case LockRequested => 2
    case SuspendRequested => 3
  }

  predicate Reaches(idleFor: Duration, threshold: Duration) {
    threshold > 0 && idleFor >= threshold
  }

  function StageFor(policy: IdlePolicy, idleFor: Duration): IdleStage {
    if Reaches(idleFor, policy.suspendAfter) then SuspendRequested
    else if Reaches(idleFor, policy.lockAfter) then LockRequested
    else if Reaches(idleFor, policy.dimAfter) then Dimmed
    else StageActive
  }

  datatype Idle = Idle(last: map<SeatId, Instant>, stage: map<SeatId, IdleStage>)

  const NO_ACTIVITY := Idle(map[], map[])

  function IdleFor(i: Idle, seat: SeatId, now: Instant): Duration {
    if seat in i.last && i.last[seat] <= now then now - i.last[seat] else 0
  }

  function StageOf(i: Idle, seat: SeatId): IdleStage {
    if seat in i.stage then i.stage[seat] else StageActive
  }

  datatype Change = Change(seat: SeatId, stage: IdleStage)

  function Active(i: Idle, seat: SeatId, now: Instant): Idle {
    Idle(i.last[seat := now], i.stage[seat := StageActive])
  }

  function Ticked(i: Idle, now: Instant, policy: IdlePolicy): Idle {
    i.(stage := i.stage + map seat | seat in i.last :: StageFor(policy, IdleFor(i, seat, now)))
  }

  /** The changes a tick reports, in no particular order. */
  function Changes(i: Idle, now: Instant, policy: IdlePolicy): set<Change> {
    set seat | seat in i.last && StageOf(i, seat) != StageFor(policy, IdleFor(i, seat, now))
      :: Change(seat, StageFor(policy, IdleFor(i, seat, now)))
  }

  datatype Call = CActivity(seat: SeatId, now: Instant) | CTick(now: Instant, policy: IdlePolicy)

  function Apply(i: Idle, call: Call): Idle {
    match call
    case CActivity(seat, now) => Active(i, seat, now)
    case CTick(now, policy) => Ticked(i, now, policy)
  }

  function After(i: Idle, calls: seq<Call>): Idle {
    if calls == [] then i else Apply(After(i, calls[..|calls| - 1]), calls[|calls| - 1])
  }

  lemma AfterSnoc(i: Idle, calls: seq<Call>, call: Call)
    ensures After(i, calls + [call]) == Apply(After(i, calls), call)
  {
    assert (calls + [call])[..|calls|] == calls;
  }

  // ---- the cache agrees with the stateless rule ----------------------------------

  /** When the seat was last active in this history. */
  function LastActivity(calls: seq<Call>, seat: SeatId): Option<Instant> {
    if calls == [] then None
    else
      var n := |calls| - 1;
      if calls[n].CActivity? && calls[n].seat == seat then Some(calls[n].now) else LastActivity(calls[..n], seat)
  }

  /** The time from `then` to `now`, none if the clock reads earlier. */
  function Since(then': Instant, now: Instant): Duration {
    if then' <= now then now - then' else 0
  }

  /** The stage of a seat read off the history alone: Active until a tick comes, and
      after one what the time since the last activity implied at that tick. */
  function StageSeen(calls: seq<Call>, seat: SeatId): IdleStage {
    if calls == [] then StageActive
    else
      var n := |calls| - 1;
      match calls[n]
      case CActivity(t, _) => if t == seat then StageActive else StageSeen(calls[..n], seat)
      case CTick(now, policy) =>
        match LastActivity(calls[..n], seat)
        case None => StageActive
        case Some(t) => StageFor(policy, Since(t, now))
  }

  /** The detector remembers the latest activity and nothing else of the history, and
      its cached stages are those the history implies. */
  lemma {:induction false} CacheIsHistory(calls: seq<Call>, seat: SeatId)
    ensures var i := After(NO_ACTIVITY, calls);
            && (seat in i.last <==> LastActivity(calls, seat).Some?)
            && (seat in i.last ==> LastActivity(calls, seat) == Some(i.last[seat]))
            && (seat in i.stage ==> seat in i.last)
            && StageOf(i, seat) == StageSeen(calls, seat)
  {
    hide StageFor;
    if calls != [] {
      CacheIsHistory(calls[..|calls| - 1], seat);
    }
  }

  /** After any history, a tick puts a seat at the stage the time since its last
      activity implies, whatever ticks came in between; and reports it exactly when
      that is not what the history said before. */
  lemma TickIsStateless(calls: seq<Call>, now: Instant, policy: IdlePolicy, seat: SeatId)
    ensures var i := After(NO_ACTIVITY, calls);
            match LastActivity(calls, seat)
            case Some(t) =>
              var stage := StageFor(policy, Since(t, now));
              && StageOf(Ticked(i, now, policy), seat) == stage
              && (forall st :: Change(seat, st) in Changes(i, now, policy) <==>
                  st == stage && stage != StageSeen(calls, seat))
            case None =>
              && StageOf(Ticked(i, now, policy), seat) == StageActive
              && (forall st :: Change(seat, st) !in Changes(i, now, policy))
  {
    hide StageFor;
    CacheIsHistory(calls, seat);
  }

  predicate Passed(threshold: Duration, idleFor: Duration) {
    0 < threshold <= idleFor
  }

  /** Which threshold leads to which stage: the most severe that is switched on and has
      been reached, whatever their order. */
  lemma StageThresholds(policy: IdlePolicy, idleFor: Duration)
    ensures var stage := StageFor(policy, idleFor);
            && (stage == SuspendRequested <==> Passed(policy.suspendAfter, idleFor))
            && (stage in {LockRequested, SuspendRequested} <==>
                  Passed(policy.suspendAfter, idleFor) || Passed(policy.lockAfter, idleFor))
            && (stage == StageActive <==>
                  && !Passed(policy.suspendAfter, idleFor) && !Passed(policy.lockAfter, idleFor)
                  && !Passed(policy.dimAfter, idleFor))
  {
  }

  /** Longer idle never means a milder stage, whatever order the thresholds are in. */
  lemma StageForMonotone(policy: IdlePolicy, a: Duration, b: Duration)
    requires a <= b
    ensures Rank(StageFor(policy, a)) <= Rank(StageFor(policy, b))
  {
  }

  function TimeOf(call: Call): Instant {
    match call case CActivity(_, now) => now case CTick(now, _) => now
  }

  /** Clock readings never go back, and every tick runs under `policy`. */
  predicate Steady(calls: seq<Call>, policy: IdlePolicy) {
    && (forall j, k :: 0 <= j <= k < |calls| ==> TimeOf(calls[j]) <= TimeOf(calls[k]))
    && (forall k :: 0 <= k < |calls| ==> calls[k].CTick? ==> calls[k].policy == policy)
  }

  /** The stages reported for a seat since it was last active. */
  function Reported(calls: seq<Call>, seat: SeatId): seq<IdleStage> {
    if calls == [] then []
    else
      var n := |calls| - 1;
      var earlier := Reported(calls[..n], seat);
      match calls[n]
      case CActivity(t, _) => if t == seat then [] else earlier
      case CTick(now, policy) =>
        var i := After(NO_ACTIVITY, calls[..n]);
        if seat in i.last && StageOf(i, seat) != StageFor(policy, IdleFor(i, seat, now))
        then earlier + [StageFor(policy, IdleFor(i, seat, now))] else earlier
  }

  /** A tick adds to the report exactly the change it reports. */
  lemma ReportedGrows(calls: seq<Call>, now: Instant, policy: IdlePolicy, seat: SeatId, stage: IdleStage)
    ensures Change(seat, stage) in Changes(After(NO_ACTIVITY, calls), now, policy) <==>
              Reported(calls + [CTick(now, policy)], seat) == Reported(calls, seat) + [stage]
  {
    hide StageFor;
    var i := After(NO_ACTIVITY, calls);
    var reached := StageFor(policy, IdleFor(i, seat, now));
    var before := Reported(calls, seat);
    assert (calls + [CTick(now, policy)])[..|calls|] == calls;
    assert (before + [stage])[|before|] == stage && (before + [reached])[|before|] == reached;
    assert |before + [stage]| != |before|;
  }

  ghost predicate Climbing(stages: seq<IdleStage>) {
    forall j, k :: 0 <= j < k < |stages| ==> Rank(stages[j]) < Rank(stages[k])
  }

  /** The cache never runs ahead of the clock, and the last stage reported is the
      one cached. */
  ghost predicate Trailing(i: Idle, reported: seq<IdleStage>, seat: SeatId, clock: Instant, policy: IdlePolicy) {
    && (seat in i.last ==> i.last[seat] <= clock)
    && (seat in i.last ==> Rank(StageOf(i, seat)) <= Rank(StageFor(policy, IdleFor(i, seat, clock))))
    && StageOf(i, seat) == (if reported == [] then StageActive else reported[|reported| - 1])
    && (forall k :: 0 <= k < |reported| ==> !reported[k].StageActive?)
    && Climbing(reported)
  }

  lemma TrailingStep(i: Idle, reported: seq<IdleStage>, seat: SeatId, clock: Instant, now: Instant, policy: IdlePolicy)
    requires Trailing(i, reported, seat, clock, policy) && clock <= now
    ensures var stage := StageFor(policy, IdleFor(i, seat, now));
            var next := if seat in i.last && StageOf(i, seat) != stage then reported + [stage] else reported;
            Trailing(Ticked(i, now, policy), next, seat, now, policy)
  {
    var stage := StageFor(policy, IdleFor(i, seat, now));
    if seat in i.last {
      StageForMonotone(policy, IdleFor(i, seat, clock), IdleFor(i, seat, now));
      assert StageOf(Ticked(i, now, policy), seat) == stage;
      assert StageOf(i, seat) != stage ==> Rank(StageOf(i, seat)) < Rank(stage);
    } else {
      assert StageOf(Ticked(i, now, policy), seat) == StageOf(i, seat);
    }
  }

  lemma {:induction false} ReportsTrail(calls: seq<Call>, seat: SeatId, policy: IdlePolicy)
    requires Steady(calls, policy)
    ensures Trailing(After(NO_ACTIVITY, calls), Reported(calls, seat), seat,
                     if calls == [] then 0 else TimeOf(calls[|calls| - 1]), policy)
  {
    if calls != [] {
      var n := |calls| - 1;
      assert forall k :: 0 <= k < n ==> calls[..n][k] == calls[k];
      ReportsTrail(calls[..n], seat, policy);
      var i := After(NO_ACTIVITY, calls[..n]);
      var clock := if n == 0 then 0 else TimeOf(calls[n - 1]);
      match calls[n] {
        case CActivity(t, now) =>
          if t != seat && seat in i.last {
            StageForMonotone(policy, IdleFor(i, seat, clock), IdleFor(i, seat, now));
            assert IdleFor(Active(i, t, now), seat, now) == IdleFor(i, seat, now);
          }
        case CTick(now, p) =>
          TrailingStep(i, Reported(calls[..n], seat), seat, clock, now, policy);
      }
    }
  }

  /** Between two activities the stages reported for a seat only ever climb, never
      say Active, and so ask for suspend at most once, under any tick schedule and
      any thresholds. */
  lemma ReportsClimb(calls: seq<Call>, seat: SeatId, policy: IdlePolicy)
    requires Steady(calls, policy)
    ensures Climbing(Reported(calls, seat))
    ensures StageActive !in Reported(calls, seat)
    ensures |Reported(calls, seat)| <= 3
    ensures forall j :: 0 <= j < |Reported(calls, seat)| - 1 ==> !Reported(calls, seat)[j].SuspendRequested?
  {
    ReportsTrail(calls, seat, policy);
    var r := Reported(calls, seat);
    if r != [] { ClimbingHeight(r, |r| - 1); }
    assert forall j, k :: 0 <= j < k < |r| ==> Rank(r[j]) < Rank(r[k]);
  }

  lemma {:induction false} ClimbingHeight(stages: seq<IdleStage>, k: nat)
    requires Climbing(stages) && k < |stages| && !stages[0].StageActive?
    ensures Rank(stages[k]) >= k + 1
  {
    if k > 0 { ClimbingHeight(stages, k - 1); }
  }
}

/** The idle detector as the daemon owns it. */
module IdleDetectors {
  import opened Common
  import opened Timers
  import M = IdleModel

  class IdleTracker {
    var lastActivity: map<SeatId, Instant>

    constructor ()
      ensures lastActivity == map[]
    {
      lastActivity := map[];
    }

    method RecordActivity(seat: SeatId, now: Instant)
      modifies this
      ensures lastActivity == old(lastActivity)[seat := now]
    {
      lastActivity := lastActivity[seat := now];
    }

    /** Zero for an unknown seat, and for a clock that reads earlier than the activity. */
    function IdleFor(seat: SeatId, now: Instant): (idle: Duration)
      reads this
      ensures seat in lastActivity && lastActivity[seat] <= now ==> lastActivity[seat] + idle == now
      ensures !(seat in lastActivity && lastActivity[seat] <= now) ==> idle == 0
    {
      if seat in lastActivity && lastActivity[seat] <= now then now - lastActivity[seat] else 0
    }
  }

  class IdleDetector {
    const tracker: IdleTracker
    var stage: map<SeatId, M.IdleStage>

    ghost function Model(): M.Idle
      reads this, tracker
    {
      M.Idle(tracker.lastActivity, stage)
    }

    constructor ()
      ensures Model() == M.NO_ACTIVITY && fresh(tracker)
    {
      tracker := new IdleTracker();
      stage := map[];
    }

    method RecordActivity(seat: SeatId, now: Instant)
      modifies this, tracker
      ensures Model() == M.Apply(old(Model()), M.CActivity(seat, now))
    {
      tracker.RecordActivity(seat, now);
      stage := stage[seat := M.StageActive];
    }

    /** Recompute every tracked seat, in whatever order the map is walked, and report
        those whose stage changed. */
    method Tick(now: Instant, policy: M.IdlePolicy) returns (changes: seq<M.Change>)
      modifies this
      ensures Model() == M.Apply(old(Model()), M.CTick(now, policy))
      ensures Lists(changes, M.Changes(old(Model()), now, policy))
    {
      hide M.StageFor; hide StagesAmong; hide ChangesAmong; hide M.Ticked; hide M.Changes;
      ghost var before := Model();
      changes := [];
      var unseen := tracker.lastActivity.Keys;
      AmongNone(before, now, policy);
      while unseen != {}
        invariant unseen <= tracker.lastActivity.Keys && tracker.lastActivity == before.last
        invariant stage == StagesAmong(before, now, policy, before.last.Keys - unseen)
        invariant Lists(changes, ChangesAmong(before, now, policy, before.last.Keys - unseen))
        decreases unseen
      {
        var seat :| seat in unseen;
        AmongMore(before, now, policy, before.last.Keys - unseen, seat);
        assert before.last.Keys - (unseen - {seat}) == before.last.Keys - unseen + {seat};
        var newStage := M.StageFor(policy, tracker.IdleFor(seat, now));
        var cached := if seat in stage then stage[seat] else M.StageActive;
        stage := stage[seat := newStage];
        if cached != newStage {
          var c := M.Change(seat, newStage);
          assert c !in changes by { assert c !in (set x | x in changes); }
          ListsSnoc(changes, ChangesAmong(before, now, policy, before.last.Keys - unseen), c);
          changes := changes + [c];
        }
        unseen := unseen - {seat};
      }
      assert before.last.Keys - unseen == before.last.Keys;
      AmongAll(before, now, policy);
    }
  }

  /** The stages, and the changes reported, once the seats in `seen` have been visited. */
  ghost function StagesAmong(i: M.Idle, now: Instant, policy: M.IdlePolicy,
                             seen: set<SeatId>): map<SeatId, M.IdleStage> {
    i.stage + map seat | seat in seen :: M.StageFor(policy, M.IdleFor(i, seat, now))
  }

  ghost function ChangesAmong(i: M.Idle, now: Instant, policy: M.IdlePolicy, seen: set<SeatId>): set<M.Change> {
    set c | c in M.Changes(i, now, policy) && c.seat in seen
  }

  lemma AmongNone(i: M.Idle, now: Instant, policy: M.IdlePolicy)
    ensures StagesAmong(i, now, policy, i.last.Keys - i.last.Keys) == i.stage
    ensures Lists([], ChangesAmong(i, now, policy, i.last.Keys - i.last.Keys))
  {
    assert ChangesAmong(i, now, policy, i.last.Keys - i.last.Keys) == {};
  }

  lemma AmongMore(i: M.Idle, now: Instant, policy: M.IdlePolicy, seen: set<SeatId>, seat: SeatId)
    requires seat in i.last && seat !in seen
    ensures var stage := M.StageFor(policy, M.IdleFor(i, seat, now));
            var old' := StagesAmong(i, now, policy, seen);
            && M.StageOf(i, seat) == (if seat in old' then old'[seat] else M.StageActive)
            && StagesAmong(i, now, policy, seen + {seat}) == old'[seat := stage]
            && ChangesAmong(i, now, policy, seen + {seat})
               == ChangesAmong(i, now, policy, seen) +
                   (if M.StageOf(i, seat) != stage then {M.Change(seat, stage)} else {})
            && (forall c :: c in ChangesAmong(i, now, policy, seen) ==> c.seat != seat)
  {
    hide M.StageFor;
    var stage := M.StageFor(policy, M.IdleFor(i, seat, now));
    assert StagesAmong(i, now, policy, seen + {seat}) == StagesAmong(i, now, policy, seen)[seat := stage];
    assert ChangesAmong(i, now, policy, seen + {seat})
        == ChangesAmong(i, now, policy, seen) + (if M.StageOf(i, seat) != stage then {M.Change(seat, stage)} else {});
  }

  lemma AmongAll(i: M.Idle, now: Instant, policy: M.IdlePolicy)
    ensures StagesAmong(i, now, policy, i.last.Keys) == M.Ticked(i, now, policy).stage
    ensures M.Ticked(i, now, policy).last == i.last
    ensures ChangesAmong(i, now, policy, i.last.Keys) == M.Changes(i, now, policy)
  {
    assert StagesAmong(i, now, policy, i.last.Keys) == M.Ticked(i, now, policy).stage;
  }
}

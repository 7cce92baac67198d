/** Seats: one active session and a queue of those switched away from. */
module SeatModel {
  import opened Common

  datatype Seat = Seat(active: Option<SessionId>, queue: seq<SessionId>)

  type Seats = map<SeatId, Seat>

  const VACANT := Seat(None, [])

  predicate HasSession(seat: Seat, s: SessionId) {
    seat.active == Some(s) || s in seat.queue
  }

  /** Everyone on the seat, the active session first. */
  function Roster(seat: Seat): seq<SessionId> {
    if seat.active.Some? then [seat.active.value] + seat.queue else seat.queue
  }

  /** Nobody is on the seat twice, and nobody waits for an empty slot. */
  ghost predicate Orderly(seat: Seat) {
    NoDuplicates(Roster(seat)) && (seat.active.None? ==> seat.queue == [])
  }

  function SeatAt(seats: Seats, id: SeatId): Seat {
    if id in seats then seats[id] else VACANT
  }

  function Joined(seat: Seat, s: SessionId): Seat {
    if seat.active.None? then seat.(active := Some(s)) else seat.(queue := seat.queue + [s])
  }

  function Left(seat: Seat, s: SessionId): Seat {
    if seat.active == Some(s) then
      if seat.queue == [] then Seat(None, []) else Seat(Some(seat.queue[0]), seat.queue[1..])
    else
      seat.(queue := Without(seat.queue, s))
  }

  function Switched(seat: Seat, s: SessionId): Seat {
    if seat.active == Some(s) then seat
    else
      var queue := if seat.active.Some? then seat.queue + [seat.active.value] else seat.queue;
      Seat(Some(s), Without(queue, s))
  }

  function Attach(seats: Seats, id: SeatId, s: SessionId): Seats {
    seats[id := Joined(SeatAt(seats, id), s)]
  }

  function Detach(seats: Seats, s: SessionId): Seats {
    map id | id in seats :: Left(seats[id], s)
  }

  datatype SwitchResult = SwitchedFrom(previous: Option<SessionId>) | UnknownSeat | NotOnSeat

  function SwitchOutcome(seats: Seats, id: SeatId, s: SessionId): SwitchResult {
    if id !in seats then UnknownSeat
    else if !HasSession(seats[id], s) then NotOnSeat
    else SwitchedFrom(if seats[id].active == Some(s) then None else seats[id].active)
  }

  function Switch(seats: Seats, id: SeatId, s: SessionId): Seats {
    if SwitchOutcome(seats, id, s).SwitchedFrom? then seats[id := Switched(seats[id], s)] else seats
  }

  // ---- the slot and the queue are one list -------------------------------------

  /** Joining appends at the end of the list. */
  lemma JoinedRefines(seat: Seat, s: SessionId)
    requires Orderly(seat)
    ensures Roster(Joined(seat, s)) == Roster(seat) + [s]
    ensures s !in Roster(seat) ==> Orderly(Joined(seat, s))
  {
    if seat.active.Some? {
      assert Roster(Joined(seat, s)) == Roster(seat) + [s];
    }
  }

  /** Leaving removes the session and keeps everyone else in order; when the head
      leaves, the next in line becomes active. */
  lemma LeftRefines(seat: Seat, s: SessionId)
    requires Orderly(seat)
    ensures Roster(Left(seat, s)) == Without(Roster(seat), s)
    ensures Orderly(Left(seat, s))
  {
    var roster := Roster(seat);
    if seat.active == Some(s) {
      assert roster[1..] == seat.queue;
      assert forall i :: 0 < i < |roster| ==> roster[0] != roster[i];
      WithoutAbsent(seat.queue, s);
      if seat.queue != [] { assert Roster(Left(seat, s)) == seat.queue; }
    } else if seat.active.Some? {
      WithoutAppend([seat.active.value], seat.queue, s);
      WithoutAbsent([seat.active.value], s);
    }
    WithoutNoDuplicates(roster, s);
  }

  /** Switching moves the target to the head and the old head to the back; the
      others keep their order, and nobody joins or leaves. */
  lemma SwitchedRefines(seat: Seat, s: SessionId)
    requires Orderly(seat) && HasSession(seat, s)
    ensures Orderly(Switched(seat, s))
    ensures seat.active == Some(s) ==> Switched(seat, s) == seat
    ensures seat.active != Some(s) ==>
              && Roster(seat) != []
              && Roster(Switched(seat, s)) == [s] + Without(Roster(seat)[1..], s) + [Roster(seat)[0]]
    ensures multiset(Roster(Switched(seat, s))) == multiset(Roster(seat))
  {
    if seat.active != Some(s) {
      var head := seat.active.value;
      assert Roster(seat)[1..] == seat.queue;
      QueueOf(seat);
      WithoutAppend(seat.queue, [head], s);
      WithoutAbsent([head], s);
      assert Switched(seat, s).queue == Without(seat.queue, s) + [head];
      SwitchedRosters(head, seat.queue, s);
    }
  }

  lemma QueueOf(seat: Seat)
    requires Orderly(seat) && seat.active.Some?
    ensures NoDuplicates(seat.queue) && seat.active.value !in seat.queue
  {
    var roster := Roster(seat);
    assert forall i :: 0 <= i < |seat.queue| ==> seat.queue[i] == roster[i + 1] && roster[0] != roster[i + 1];
  }

  lemma SwitchedRosters(head: SessionId, queue: seq<SessionId>, s: SessionId)
    requires NoDuplicates(queue) && head !in queue && s in queue
    ensures NoDuplicates([s] + (Without(queue, s) + [head]))
    ensures multiset([s] + (Without(queue, s) + [head])) == multiset([head] + queue)
    ensures [s] + (Without(queue, s) + [head]) == [s] + Without(queue, s) + [head]
  {
    WithoutMultiset(queue, s);
    WithoutNoDuplicates(queue, s);
    var rest := Without(queue, s);
    assert forall i :: 0 <= i < |rest| ==> rest[i] in rest;
  }

  lemma {:induction false} WithoutMultiset(q: seq<SessionId>, s: SessionId)
    requires NoDuplicates(q) && s in q
    ensures multiset(Without(q, s)) + multiset{s} == multiset(q)
  {
    assert q == [q[0]] + q[1..];
    if q[0] == s {
      WithoutAbsent(q[1..], s);
    } else {
      WithoutMultiset(q[1..], s);
      assert Without(q, s) == [q[0]] + Without(q[1..], s);
    }
  }
}

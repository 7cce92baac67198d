/** The seats as the daemon owns them. */
module SeatManagers {
  import opened Common
  import M = SeatModel

  class SeatManager {
    var seats: M.Seats

    constructor ()
      ensures seats == map[]
    {
      seats := map[];
    }

    method EnsureSeat(id: SeatId)
      modifies this
      ensures seats == old(seats)[id := M.SeatAt(old(seats), id)]
    {
      if id !in seats {
        seats := seats[id := M.VACANT];
      } else {
        assert seats == seats[id := seats[id]];
      }
    }

    method AttachSession(id: SeatId, s: SessionId)
      modifies this
      ensures seats == M.Attach(old(seats), id, s)
    {
      EnsureSeat(id);
      var seat := seats[id];
      if seat.active.None? {
        seats := seats[id := seat.(active := Some(s))];
      } else {
        seats := seats[id := seat.(queue := seat.queue + [s])];
      }
    }

    /** Walk every seat; where the session was active, the next in line takes over. */
    method DetachSession(s: SessionId)
      modifies this
      ensures seats == M.Detach(old(seats), s)
    {
      var unseen := seats.Keys;
      while unseen != {}
        invariant unseen <= old(seats).Keys && seats.Keys == old(seats).Keys
        invariant forall id :: id in unseen ==> seats[id] == old(seats)[id]
        invariant forall id :: id in seats && id !in unseen ==> seats[id] == M.Left(old(seats)[id], s)
        decreases unseen
      {
        var id :| id in unseen;
        var seat := seats[id];
        if seat.active == Some(s) {
          if seat.queue == [] {
            seats := seats[id := seat.(active := None)];
          } else {
            seats := seats[id := M.Seat(Some(seat.queue[0]), seat.queue[1..])];
          }
        } else {
          seats := seats[id := seat.(queue := Without(seat.queue, s))];
        }
        unseen := unseen - {id};
      }
    }

    method SwitchActive(id: SeatId, s: SessionId) returns (r: M.SwitchResult)
      modifies this
      ensures r == M.SwitchOutcome(old(seats), id, s)
      ensures seats == M.Switch(old(seats), id, s)
    {
      if id !in seats {
        return M.UnknownSeat;
      }
      var seat := seats[id];
      if !(seat.active == Some(s) || s in seat.queue) {
        return M.NotOnSeat;
      }
      var previous := seat.active;
      if previous != Some(s) {
        var queue := seat.queue;
        if previous.Some? {
          queue := queue + [previous.value];
        }
        seats := seats[id := M.Seat(Some(s), Without(queue, s))];
        return M.SwitchedFrom(previous);
      }
      assert seats == seats[id := M.Switched(seat, s)];
      return M.SwitchedFrom(None);
    }

    method ActiveSession(id: SeatId) returns (active: Option<SessionId>)
      ensures active == if id in seats then seats[id].active else None
    {
      if id in seats {
        return seats[id].active;
      }
      return None;
    }
  }
}

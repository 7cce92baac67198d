/** Deadline maps, as both the lock and the elevation timers keep them. */
module Timers {
  import opened Common

  function Expired<K>(expiry: map<K, Instant>, now: Instant): set<K> {
    set k | k in expiry && expiry[k] <= now
  }

  /** Take out everything whose deadline has passed, and report it, each key once,
      in whatever order the map is walked. */
  method DrainExpired<K(==)>(expiry: map<K, Instant>, now: Instant) returns (left: map<K, Instant>, expired: seq<K>)
    ensures Lists(expired, Expired(expiry, now))
    ensures left == expiry - Expired(expiry, now)
  {
    expired := [];
    var unseen := expiry.Keys;
    while unseen != {}
      invariant unseen <= expiry.Keys
      invariant Lists(expired, Expired(expiry, now) - unseen)
      decreases unseen
    {
      var k :| k in unseen;
      if expiry[k] <= now {
        assert k !in expired by { assert k !in (set x | x in expired); }
        ListsSnoc(expired, Expired(expiry, now) - unseen, k);
        expired := expired + [k];
      }
      unseen := unseen - {k};
      assert Lists(expired, Expired(expiry, now) - unseen) by {
        assert Expired(expiry, now) - unseen == (set x | x in expired);
      }
    }
    assert Expired(expiry, now) - unseen == Expired(expiry, now);

    left := expiry;
    for i := 0 to |expired|
      invariant left == expiry - Elements(expired[..i])
    {
      left := left - {expired[i]};
      assert expired[..i + 1] == expired[..i] + [expired[i]];
      assert Elements(expired[..i + 1]) == Elements(expired[..i]) + {expired[i]};
    }
    assert expired[..|expired|] == expired;
  }

  ghost function Elements<T>(s: seq<T>): set<T> {
    set x | x in s
  }

  lemma ListsSnoc<T>(order: seq<T>, members: set<T>, x: T)
    requires Lists(order, members) && x !in order
    ensures Lists(order + [x], members + {x})
  {
    assert (set y | y in order + [x]) == (set y | y in order) + {x};
  }
}

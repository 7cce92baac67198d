/** Vocabulary shared by every part of the session daemon model. */
module Common {

  datatype Option<+T> = None | Some(value: T)

  /** Session ids are handed out by the session registry and never recycled. */
  type SessionId = nat
  /** One live IPC connection. */
  type ConnId = nat
  /** One elevation prompt. */
  type RequestId = nat
  type Uid = nat
  type Pid = nat
  type SeatId = string

  /** A monotonic clock reading, and a span of it, in seconds. */
  type Instant = nat
  type Duration = nat

  ghost predicate NoDuplicates<T>(s: seq<T>) {
    forall i, j :: 0 <= i < j < |s| ==> s[i] != s[j]
  }

  /** `order` visits every member of `members` exactly once. */
  ghost predicate Lists<T>(order: seq<T>, members: set<T>) {
    && NoDuplicates(order)
    && (set x | x in order) == members
  }

  /** The order in which a hash map happens to be walked: the given one when it
      is a listing of `members`, and some listing otherwise. */
  ghost function Listing<T>(order: seq<T>, members: set<T>): (listing: seq<T>)
    ensures Lists(listing, members)
  {
    if Lists(order, members) then order else SomeListing(members)
  }

  ghost function SomeListing<T>(members: set<T>): (listing: seq<T>)
    ensures Lists(listing, members)
  {
    if members == {} then
      []
    else
      var x :| x in members;
      var rest := SomeListing(members - {x});
      assert forall i :: 0 <= i < |rest| ==> rest[i] in (set y | y in rest);
      assert (set y | y in [x] + rest) == {x} + (set y | y in rest);
      [x] + rest
  }

  /** Every element of `s` other than `x`, in order. */
  function Without<T(==,!new)>(s: seq<T>, x: T): (r: seq<T>)
    ensures forall y :: y in r <==> y in s && y != x
  {
    if s == [] then [] else if s[0] == x then Without(s[1..], x) else [s[0]] + Without(s[1..], x)
  }

  lemma {:induction false} WithoutAbsent<T(!new)>(s: seq<T>, x: T)
    requires x !in s
    ensures Without(s, x) == s
  {
    if s != [] { WithoutAbsent(s[1..], x); }
  }

  lemma {:induction false} WithoutAppend<T(!new)>(a: seq<T>, b: seq<T>, x: T)
    ensures Without(a + b, x) == Without(a, x) + Without(b, x)
  {
    if a == [] {
      assert a + b == b;
    } else {
      assert (a + b)[1..] == a[1..] + b;
      WithoutAppend(a[1..], b, x);
    }
  }

  lemma {:induction false} WithoutNoDuplicates<T(!new)>(s: seq<T>, x: T)
    requires NoDuplicates(s)
    ensures NoDuplicates(Without(s, x))
  {
    if s != [] {
      WithoutNoDuplicates(s[1..], x);
      var rest := Without(s[1..], x);
      assert forall i :: 0 <= i < |rest| ==> rest[i] in rest && rest[i] in s[1..];
    }
  }

  /** A subset of a finite set is no larger. */
  lemma {:induction false} SubsetSize<T>(a: set<T>, b: set<T>)
    requires a <= b
    ensures |a| <= |b|
    decreases a
  {
    if a != {} {
      var x :| x in a;
      SubsetSize(a - {x}, b - {x});
    }
  }
}

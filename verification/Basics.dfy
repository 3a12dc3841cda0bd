/**
 Machine widths, identifiers, error codes and the ascending enumeration of a
 finite set of identifiers, which is the order in which a C++ `std::map` or
 `std::set` keyed by `Id128` is walked.
 */
module Basics {

  type Byte = n: nat | n < 0x100
  type U16 = n: nat | n < 0x1_0000
  type U32 = n: nat | n < TWO_32
  type U64 = n: nat | n < TWO_64

  const TWO_31: nat := 0x8000_0000
  const TWO_32: nat := 0x1_0000_0000
  const TWO_64: nat := 0x1_0000_0000_0000_0000
  const TWO_128: nat := 0x1_0000_0000_0000_0000_0000_0000_0000_0000

  /** A 128-bit identifier, read as the number `hi * 2^64 + lo`. Comparing two
      of them as numbers is comparing `(hi, lo)` lexicographically. */
  type Id = n: nat | n < TWO_128

  const ZERO_ID: Id := 0

  type Bytes = seq<Byte>

  datatype Option<+T> = None | Some(value: T)

  datatype ErrorCode =
    | AlreadyExists
    | SelfDependency
    | DependencyCycle
    | TaskNotFound
    | IllegalTransition
    | ReservationNotFound
    | MalformedFrame
    | ProtocolVersionMismatch
    | Timeout
    | ConnectionClosed
    | OutOfBounds
    | CorruptionDetected
    | PersistenceError

  /** The result of an operation that returns nothing on success. */
  datatype Outcome = Done | Failed(error: ErrorCode)

  datatype Result<+T> = Ok(value: T) | Err(error: ErrorCode)

  // ----- least elements and ascending enumerations -----

  ghost predicate IsLeast(s: set<Id>, m: Id) {
    m in s && forall x :: x in s ==> m <= x
  }

  lemma LeastExists(s: set<Id>)
    requires s != {}
    ensures exists m :: IsLeast(s, m)
  {
    var x :| x in s;
    var rest := s - {x};
    assert s == rest + {x};
    if rest == {} {
      assert IsLeast(s, x);
    } else {
      LeastExists(rest);
      var m :| IsLeast(rest, m);
      assert forall y :: y in s ==> y == x || y in rest;
      assert IsLeast(s, if x <= m then x else m);
    }
  }

  /** The element at the front of an ordered set: `*s.begin()`. */
  function Least(s: set<Id>): (m: Id)
    requires s != {}
    ensures IsLeast(s, m)
  {
    LeastExists(s);
    var m :| m in s && forall x :: x in s ==> m <= x;
    m
  }

  ghost predicate Ascending(q: seq<Id>) {
    forall i, j :: 0 <= i < j < |q| ==> q[i] < q[j]
  }

  /** The elements of `s` in the order an ordered set walks them. */
  function Walk(s: set<Id>): (q: seq<Id>)
    ensures Ascending(q)
    ensures forall x :: x in q <==> x in s
    ensures |q| == |s|
  {
    if s == {} then [] else
    var m := Least(s);
    var tail := Walk(s - {m});
    assert forall i :: 0 <= i < |tail| ==> tail[i] in tail;
    [m] + tail
  }
}

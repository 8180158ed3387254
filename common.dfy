/** Shared vocabulary: optional values, results with an error, bytes, and the
    two pieces of Python semantics that several modules rely on (negative list
    indexing and `sorted(d.keys())`). */
module Common {

  datatype Option<+T> = None | Some(value: T)

  datatype Result<+T, +E> = Ok(value: T) | Err(error: E)

  /** An unsigned 8-bit value, as held in a Python `bytes` object. */
  type Byte = b: int | 0 <= b < 256

  /** Python's `xs[i]` position: `i` counts from the end when negative.
      `None` is an `IndexError`. */
  function PyIndex(i: int, n: nat): (r: Option<nat>)
    ensures r.Some? <==> -(n as int) <= i < n
    ensures r.Some? ==> r.value < n && (r.value == i || r.value == i + n)
  {
    if 0 <= i < n then Some(i) else if -(n as int) <= i < 0 then Some(i + n) else None
  }

  predicate StrictlyIncreasing(s: seq<int>) {
    forall i, j | 0 <= i < j < |s| :: s[i] < s[j]
  }

  /** `sorted(list(keys))` for a set of integer keys: the keys in increasing order. */
  method SortedKeys(keys: set<int>) returns (r: seq<int>)
    ensures StrictlyIncreasing(r)
    ensures forall x :: x in r <==> x in keys
    ensures |r| == |keys|
  {
    r := [];
    var rest := keys;
    while rest != {}
      invariant rest <= keys
      invariant StrictlyIncreasing(r)
      invariant forall x :: x in r <==> x in keys - rest
      invariant forall i, y | 0 <= i < |r| && y in rest :: r[i] < y
      invariant |r| + |rest| == |keys|
      decreases |rest|
    {
      var m := MinOf(rest);
      r := r + [m];
      rest := rest - {m};
    }
  }

  /** A finite set is empty or has a member (used to pick elements with `:|`). */
  lemma EmptyOrHasElement(s: set<int>)
    ensures s == {} || exists x :: x in s
  {
    if forall x :: x !in s {
      assert s == {};
    }
  }

  /** The least element of a non-empty finite set. */
  method MinOf(s: set<int>) returns (m: int)
    requires s != {}
    ensures m in s && forall y | y in s :: m <= y
  {
    EmptyOrHasElement(s);
    m :| m in s;
    var rest := s - {m};
    ghost var done := {m};
    while rest != {}
      invariant m in done && rest + done == s
      invariant forall y | y in done :: m <= y
      decreases |rest|
    {
      EmptyOrHasElement(rest);
      var y :| y in rest;
      if y < m {
        m := y;
      }
      rest := rest - {y};
      done := done + {y};
    }
  }

  /** A `send_position_only(srv0, srv1)` call on the link with id `link`;
      the controllers record the calls they make in a log of these. */
  datatype Command = PositionOnly(link: int, srv0Pos: int, srv1Pos: int)
}

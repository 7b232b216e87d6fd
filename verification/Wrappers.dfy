/** Optional values and operation outcomes shared by every component. */
module Wrappers {

  /** A nullable column, an absent JSON field or a nil in Go. */
  datatype Option<+T> = None | Some(value: T) {

    /** The value, or the given default when there is none. */
    function GetOr(default: T): T {
      if Some? then value else default
    }
  }

  /** SQL's COALESCE of two nullable values. */
  function Coalesce<T>(first: Option<T>, second: Option<T>): Option<T> {
    if first.Some? then first else second
  }

  /** A call's result or the sentinel error it returned. */
  datatype Result<+T, +E> = Ok(value: T) | Err(error: E)

  /** Some element of a nonempty set. */
  ghost function Pick<T>(s: set<T>): (t: T)
    requires s != {}
    ensures t in s
  {
    var t :| t in s;
    t
  }

  /** Some key of a nonempty map. */
  ghost function PickKey<K, V>(m: map<K, V>): (k: K)
    requires m != map[]
    ensures k in m
  {
    Pick(m.Keys)
  }

  lemma {:induction false} SubsetSize<T>(a: set<T>, b: set<T>)
    requires a <= b
    ensures |a| <= |b|
    decreases |a|
  {
    if a != {} {
      var t := Pick(a);
      SubsetSize(a - {t}, b - {t});
    }
  }
}

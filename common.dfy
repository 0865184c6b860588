/** Small helpers shared by the lobby model: an optional value, counting
    occurrences in a sequence, and distinctness of a sequence. */
module Common {

  /** A value that may be absent (JavaScript `null`/`undefined`). */
  datatype Option<+T> = None | Some(value: T) {
    function GetOr(default: T): T {
      match this
      case Some(v) => v
      case None => default
    }
  }

  /** Number of positions of `s` that hold `x`. */
  function Count<T(==)>(s: seq<T>, x: T): (n: nat)
    ensures n <= |s|
  {
    if s == [] then 0 else (if s[0] == x then 1 else 0) + Count(s[1..], x)
  }

  /** No element occurs twice (for objects: no two positions alias). */
  predicate Distinct<T(==)>(s: seq<T>) {
    forall i, j :: 0 <= i < j < |s| ==> s[i] != s[j]
  }

  /** Every position holds `x` exactly when the count is the whole length. */
  lemma {:induction false} CountFull<T>(s: seq<T>, x: T)
    ensures Count(s, x) == |s| <==> forall i :: 0 <= i < |s| ==> s[i] == x
  {
    if s != [] {
      CountFull(s[1..], x);
      if Count(s, x) == |s| {
        assert s[0] == x;
        forall i | 0 <= i < |s| ensures s[i] == x {
          if i > 0 { assert s[i] == s[1..][i - 1]; }
        }
      }
      if forall i :: 0 <= i < |s| ==> s[i] == x {
        assert forall i :: 0 <= i < |s[1..]| ==> s[1..][i] == s[i + 1];
      }
    }
  }

  /** A sequence in which `x` does not occur counts zero. */
  lemma {:induction false} CountAbsent<T>(s: seq<T>, x: T)
    requires forall i :: 0 <= i < |s| ==> s[i] != x
    ensures Count(s, x) == 0
  {
    if s != [] {
      assert forall i :: 0 <= i < |s[1..]| ==> s[1..][i] == s[i + 1];
      CountAbsent(s[1..], x);
    }
  }

  /** Overwriting one position changes the count of `x` by at most the
      two values involved. */
  lemma {:induction false} CountUpdate<T>(s: seq<T>, i: nat, y: T, x: T)
    requires i < |s|
    ensures Count(s[i := y], x) ==
            Count(s, x) - (if s[i] == x then 1 else 0) + (if y == x then 1 else 0)
  {
    if i == 0 {
      assert s[i := y][1..] == s[1..];
    } else {
      assert s[i := y][1..] == s[1..][i - 1 := y];
      CountUpdate(s[1..], i - 1, y, x);
    }
  }
}

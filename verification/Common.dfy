/** Result types shared by every module. An error carries the source's error code. */
module Common {

  datatype Option<+T> = None | Some(value: T)

  datatype Result<+T, +E> = Ok(value: T) | Err(error: E)
  {
    predicate IsFailure() { Err? }

    function PropagateFailure<U>(): (r: Result<U, E>)
      requires Err?
    {
      Err(error)
    }

    function Extract(): T
      requires Ok?
    {
      value
    }
  }

  function Max(a: int, b: int): (m: int) { if a < b then b else a }

  function MaxReal(a: real, b: real): (m: real) { if a < b then b else a }

  function MinReal(a: real, b: real): (m: real) { if b < a then b else a }

  function AbsReal(a: real): (m: real) { if a < 0.0 then -a else a }

  // ---- sums and counts over a sequence -------------------------------------

  function Total<T, K>(s: seq<T>, k: K, f: (T, K) -> real): (x: real) {
    if s == [] then 0.0 else Total(s[..|s| - 1], k, f) + f(s[|s| - 1], k)
  }

  function Tally<T, K>(s: seq<T>, k: K, f: (T, K) -> bool): (n: nat) {
    if s == [] then 0 else Tally(s[..|s| - 1], k, f) + (if f(s[|s| - 1], k) then 1 else 0)
  }

  lemma TotalAppend<T, K>(s: seq<T>, x: T, k: K, f: (T, K) -> real)
    ensures Total(s + [x], k, f) == Total(s, k, f) + f(x, k)
  {
    assert (s + [x])[..|s|] == s;
  }

  lemma {:induction false} TotalUpdate<T, K>(s: seq<T>, i: nat, x: T, k: K, f: (T, K) -> real)
    requires i < |s|
    ensures Total(s[i := x], k, f) == Total(s, k, f) - f(s[i], k) + f(x, k)
  {
    var t := s[i := x];
    if i == |s| - 1 {
      assert t[..i] == s[..i];
    } else {
      TotalUpdate(s[..|s| - 1], i, x, k, f);
      assert t[..|s| - 1] == s[..|s| - 1][i := x];
    }
  }

  lemma TallyAppend<T, K>(s: seq<T>, x: T, k: K, f: (T, K) -> bool)
    ensures Tally(s + [x], k, f) == Tally(s, k, f) + (if f(x, k) then 1 else 0)
  {
    assert (s + [x])[..|s|] == s;
  }

  lemma {:induction false} TallyUpdate<T, K>(s: seq<T>, i: nat, x: T, k: K, f: (T, K) -> bool)
    requires i < |s|
    ensures Tally(s[i := x], k, f) == Tally(s, k, f) - (if f(s[i], k) then 1 else 0) + (if f(x, k) then 1 else 0)
  {
    var t := s[i := x];
    if i == |s| - 1 {
      assert t[..i] == s[..i];
    } else {
      TallyUpdate(s[..|s| - 1], i, x, k, f);
      assert t[..|s| - 1] == s[..|s| - 1][i := x];
    }
  }

  /** A tally is positive exactly when some element counts. */
  lemma {:induction false} TallyPositive<T, K>(s: seq<T>, k: K, f: (T, K) -> bool)
    ensures Tally(s, k, f) > 0 <==> exists i :: 0 <= i < |s| && f(s[i], k)
  {
    if s != [] {
      var init := s[..|s| - 1];
      TallyPositive(init, k, f);
      if exists i :: 0 <= i < |s| && f(s[i], k) {
        var i :| 0 <= i < |s| && f(s[i], k);
        assert i < |init| ==> f(init[i], k);
      }
      if exists i :: 0 <= i < |init| && f(init[i], k) {
        var i :| 0 <= i < |init| && f(init[i], k);
        assert f(s[i], k);
      }
    }
  }
}

/** The few pieces of the Python runtime the valuation code leans on:
    the exceptions it raises or catches, a Result type standing for
    "returned a value or raised", and the string and dictionary helpers
    (`str.lower`, `startswith`, `endswith`, dict key collapsing). */
module PyCore {

  /** Python exception classes that the modelled code can raise. */
  datatype PyError =
    | KeyError
    | IndexError
    | TypeError
    | AttributeError
    | ValueError
    | ZeroDivisionError
    | StopIteration
    | RuntimeError
    | Exception

  datatype Option<+T> = None | Some(value: T)

  /** A computation that either returns a value or raises. */
  datatype Result<+T> = Ok(value: T) | Raised(error: PyError) {
    predicate IsFailure() { Raised? }

    function PropagateFailure<U>(): Result<U>
      requires Raised?
    {
      Raised(error)
    }

    function Extract(): T
      requires Ok?
    {
      value
    }
  }

  /** How a statement-level call ended: it returned normally, or an
      exception escaped it to the caller. */
  datatype Outcome = Returned | Propagated(error: PyError)

  predicate Distinct<T(==)>(s: seq<T>) {
    forall i, j :: 0 <= i < j < |s| ==> s[i] != s[j]
  }

  /** The keys of `{k: ... for k in s}` in iteration order: each key once,
      at the position of its first occurrence. */
  function Dedup<T(==,!new)>(s: seq<T>): (r: seq<T>)
    ensures Distinct(r)
    ensures forall x :: x in r <==> x in s
    ensures |r| <= |s|
    ensures s != [] ==> r != [] && r[0] == s[0]
  {
    if s == [] then []
    else
      var d := Dedup(s[..|s| - 1]);
      if s[|s| - 1] in d then d else d + [s[|s| - 1]]
  }

  /** `str.lower()` on ASCII text. */
  function LowerChar(c: char): char {
    if 'A' <= c <= 'Z' then (c as int - 'A' as int + 'a' as int) as char else c
  }

  function Lower(s: string): (r: string)
    ensures |r| == |s|
  {
    seq(|s|, i requires 0 <= i < |s| => LowerChar(s[i]))
  }

  /** Lowering twice is lowering once, so every spelling of a name
      dispatches like its lower-case form. */
  lemma LowerIdempotent(s: string)
    ensures Lower(Lower(s)) == Lower(s)
  {
    forall i | 0 <= i < |s|
      ensures Lower(Lower(s))[i] == Lower(s)[i]
    {
      var c := s[i];
      assert Lower(s)[i] == LowerChar(c);
    }
  }

  predicate StartsWith(s: string, prefix: string) {
    |prefix| <= |s| && s[..|prefix|] == prefix
  }

  predicate EndsWith(s: string, suffix: string) {
    |suffix| <= |s| && s[|s| - |suffix|..] == suffix
  }

  /** `n` copies of `x`, the shape of a list appended to `n` times. */
  function Repeat<T>(x: T, n: nat): (r: seq<T>)
    ensures |r| == n
    ensures forall i :: 0 <= i < n ==> r[i] == x
  {
    seq(n, _ => x)
  }

  lemma RepeatSnoc<T>(x: T, n: nat)
    ensures Repeat(x, n + 1) == Repeat(x, n) + [x]
  {
    assert forall i :: 0 <= i < n + 1 ==> (Repeat(x, n) + [x])[i] == x;
  }
}

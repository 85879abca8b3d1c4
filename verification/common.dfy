/**
  Small shared vocabulary: an optional value (standing for JavaScript's
  `null`/`undefined` where a value may be missing) and JavaScript's
  truthiness test on strings.
 */
module Common {

  datatype Option<+T> = None | Some(value: T) {
    function GetOr(default: T): T {
      match this
      case Some(v) => v
      case None => default
    }
  }

  /** `!!s` for a string: only the empty string is falsy. */
  predicate Truthy(s: string) {
    s != ""
  }

  /** `o` used in a boolean context when `o` is a string, null or undefined. */
  predicate TruthyOpt(o: Option<string>) {
    o.Some? && o.value != ""
  }

  /** JavaScript's `a || b` where `a` is a possibly missing string and `b` a string. */
  function OrElse(a: Option<string>, b: string): (r: string)
    ensures TruthyOpt(a) ==> r == a.value
    ensures !TruthyOpt(a) ==> r == b
  {
    if TruthyOpt(a) then a.value else b
  }

  /** The first `n` entries of `s`, or all of them: JavaScript's `s.slice(0, n)`. */
  function Take<T>(s: seq<T>, n: nat): (r: seq<T>)
    ensures |r| <= n && |r| <= |s|
    ensures r == s[..|r|]
    ensures |s| <= n ==> r == s
    ensures |s| > n ==> |r| == n
  {
    if |s| <= n then s else s[..n]
  }

  /** `xs.filter(Boolean)` over strings that may be missing: the present, non-empty ones, in order. */
  function Truthies(xs: seq<Option<string>>): (r: seq<string>)
    ensures |r| <= |xs|
    ensures forall i :: 0 <= i < |r| ==> r[i] != ""
    decreases |xs|
  {
    if xs == [] then []
    else (if TruthyOpt(xs[0]) then [xs[0].value] else []) + Truthies(xs[1..])
  }

  /** A string survives the filter exactly when it is non-empty and present in the input. */
  lemma {:induction false} TruthiesMembers(xs: seq<Option<string>>)
    ensures forall x :: x in Truthies(xs) <==> x != "" && Some(x) in xs
    decreases |xs|
  {
    if xs != [] {
      TruthiesMembers(xs[1..]);
      assert xs == [xs[0]] + xs[1..];
    }
  }

  /** The filter keeps order: filtering a concatenation concatenates the filtered parts. */
  lemma {:induction false} TruthiesAppend(a: seq<Option<string>>, b: seq<Option<string>>)
    ensures Truthies(a + b) == Truthies(a) + Truthies(b)
    decreases |a|
  {
    if a == [] {
      assert a + b == b;
    } else {
      assert (a + b)[1..] == a[1..] + b;
      TruthiesAppend(a[1..], b);
    }
  }

  /** What a JavaScript outcome can be: a thrown error with its message, or a returned value. */
  datatype Outcome<T> = Threw(message: string) | Returned(value: T)
}

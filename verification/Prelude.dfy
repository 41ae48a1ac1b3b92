/** Shared vocabulary: optional values, results, and the Python values a graph computes with. */
module Prelude {

  datatype Option<+T> = None | Some(value: T)

  datatype Result<+T, +E> = Ok(value: T) | Err(error: E) {
    predicate IsFailure() { Err? }

    function PropagateFailure<U>(): Result<U, E>
      requires Err?
    {
      Err(error)
    }

    function Extract(): T
      requires Ok?
    {
      value
    }
  }

  /** A Python value as the runtime sees it: a `dict` keeps its insertion order. */
  datatype Value =
    | Null
    | Num(n: int)
    | Text(s: string)
    | List(items: seq<Value>)
    | Dict(entries: seq<(string, Value)>)

  type Key = string

  /** Why a run fails. */
  datatype Error = InvalidUpdate | NotIterable | UnknownNode | UnmappedRoute | EmptyInput | NodeFailed

  /** `list(value)`: what Python iterates over, or nothing when the value is not iterable. */
  function Iterate(v: Value): Option<seq<Value>> {
    match v
    case List(items) => Some(items)
    case Text(s) => Some(seq(|s|, i requires 0 <= i < |s| => Text([s[i]])))
    case Dict(entries) => Some(seq(|entries|, i requires 0 <= i < |entries| => Text(entries[i].0)))
    case _ => None
  }

  /** The reserved names of the entry and the end of a graph. */
  const START := "__start__"
  const END := "__end__"

  function Chosen(names: seq<string>): set<string> { set n | n in names }

  predicate Distinct<T(==)>(s: seq<T>) {
    forall i, j :: 0 <= i < j < |s| ==> s[i] != s[j]
  }

  /** Two outcomes agree when both fail or both succeed with the same value. */
  predicate Agree<T(==), E>(a: Result<T, E>, b: Result<T, E>) {
    (a.Err? && b.Err?) || (a.Ok? && b.Ok? && a.value == b.value)
  }

  function Remove<T>(s: seq<T>, i: nat): seq<T>
    requires i < |s|
  {
    s[..i] + s[i + 1..]
  }

  lemma {:induction false} RemoveCounts<T>(s: seq<T>, i: nat)
    requires i < |s|
    ensures multiset(s) == multiset(Remove(s, i)) + multiset{s[i]}
  {
    assert s == s[..i] + ([s[i]] + s[i + 1..]);
  }

  /** Two permutations of each other: the first element of one is somewhere in the other, and what is
      left are permutations again. */
  lemma {:induction false} Permuted<T>(us: seq<T>, vs: seq<T>) returns (i: nat)
    requires us != [] && multiset(us) == multiset(vs)
    ensures i < |vs| && vs[i] == us[0]
    ensures multiset(us[1..]) == multiset(Remove(vs, i))
  {
    assert us[0] in multiset(vs);
    i :| i < |vs| && vs[i] == us[0];
    RemoveCounts(us, 0);
    RemoveCounts(vs, i);
    assert Remove(us, 0) == us[1..];
    assert multiset(us[1..]) == multiset(us) - multiset{us[0]};
    assert multiset(Remove(vs, i)) == multiset(vs) - multiset{us[0]};
  }

  lemma {:induction false} SameLength<T>(us: seq<T>, vs: seq<T>)
    requires multiset(us) == multiset(vs)
    ensures |us| == |vs|
    ensures forall x :: x in us <==> x in vs
  {
    assert |multiset(us)| == |multiset(vs)|;
    assert forall x :: x in us <==> x in multiset(us);
    assert forall x :: x in vs <==> x in multiset(vs);
  }

  lemma {:induction false} ChosenSize(names: seq<string>)
    requires Distinct(names)
    ensures |Chosen(names)| == |names|
  {
    if names != [] {
      var n := |names| - 1;
      ChosenSize(names[..n]);
      assert Chosen(names) == Chosen(names[..n]) + {names[n]};
    }
  }

  // ----- identifiers built as text --------------------------------------------------------

  /** Decimal rendering of an index, as Python's f-strings print it. */
  function Digits(n: nat): (text: string)
    ensures |text| >= 1
    ensures forall c :: c in text ==> '0' <= c <= '9'
  {
    if n < 10 then [('0' as int + n) as char]
    else Digits(n / 10) + [('0' as int + n % 10) as char]
  }

  lemma {:induction false} DigitsInjective(m: nat, n: nat)
    requires Digits(m) == Digits(n)
    ensures m == n
  {
    var a, b := Digits(m), Digits(n);
    assert a[|a| - 1] as int == '0' as int + m % 10;
    assert b[|b| - 1] as int == '0' as int + n % 10;
    if m >= 10 && n >= 10 {
      assert a[..|a| - 1] == Digits(m / 10) && b[..|b| - 1] == Digits(n / 10);
      DigitsInjective(m / 10, n / 10);
    }
  }

  /** In a text that ends in a separator and digits, that separator is the last one. */
  lemma {:induction false} LastSeparator(a: string, n: nat, sep: char)
    requires !('0' <= sep <= '9')
    ensures var x := a + [sep] + Digits(n);
            x[|a|] == sep && forall k :: |a| < k < |x| ==> x[k] != sep
  {
    var x := a + [sep] + Digits(n);
    forall k | |a| < k < |x|
      ensures x[k] != sep
    {
      assert x[k] == Digits(n)[k - |a| - 1] && x[k] in Digits(n);
    }
  }

  /** Such a text determines what comes before its last separator and after it. */
  lemma {:induction false} SplitAtSeparator(a: string, m: nat, b: string, n: nat, sep: char)
    requires !('0' <= sep <= '9')
    requires a + [sep] + Digits(m) == b + [sep] + Digits(n)
    ensures a == b && m == n
  {
    var x, y := a + [sep] + Digits(m), b + [sep] + Digits(n);
    LastSeparator(a, m, sep);
    LastSeparator(b, n, sep);
    assert a == x[..|a|] && b == y[..|b|];
    assert Digits(m) == x[|a| + 1..] && Digits(n) == y[|b| + 1..];
    DigitsInjective(m, n);
  }
}

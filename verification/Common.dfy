/** Results, bytes and sequence helpers shared by every module. */
module Common {

  type Byte = b: int | 0 <= b < 256

  datatype Option<+T> = None | Some(value: T)

  /** The error values the modelled code returns; `External` stands for errors of outside crates. */
  datatype Error =
    | TooManyBlocks
    | CapacityNotEnough
    | DegreeTooSmall(needed: nat)
    | InvalidHexCharacter(c: Byte, index: nat)
    | InvalidParamsLength(found: nat)
    | Io
    | Json
    | External(code: int)

  /** What a Rust call can do: return a value, return an error, or panic. */
  datatype Outcome<+T> = Ok(value: T) | Err(error: Error) | Panic {

    predicate IsFailure() {
      !Ok?
    }

    function PropagateFailure<U>(): Outcome<U>
      requires IsFailure()
    {
      if Err? then Err(error) else Panic
    }

    function Extract(): T
      requires Ok?
    {
      value
    }

    /** `.unwrap()` and `.expect(..)`: an error becomes a panic. */
    function Unwrap(): Outcome<T> {
      if Err? then Panic else this
    }
  }

  /** `assert!`, `.unwrap()` on an option, and out-of-range indexing. */
  function Require(condition: bool): Outcome<()> {
    if condition then Ok(()) else Panic
  }

  /** A text format of an outside library (JSON here): a printer and a parser. */
  datatype Format<!T> = Format(encode: T -> seq<Byte>, decode: seq<Byte> -> Option<T>)

  ghost predicate RoundTrips<T(!new)>(format: Format<T>) {
    forall t :: format.decode(format.encode(t)) == Some(t)
  }

  /** `iter().map(f).collect()` for an `f` that can fail. */
  function TryMap<A, B>(f: A -> Outcome<B>, xs: seq<A>): Outcome<seq<B>> {
    if xs == [] then Ok([])
    else
      var y :- f(xs[0]);
      var ys :- TryMap(f, xs[1..]);
      Ok([y] + ys)
  }

  function Map<A, B>(f: A -> B, xs: seq<A>): seq<B> {
    seq(|xs|, i requires 0 <= i < |xs| => f(xs[i]))
  }

  lemma {:induction false} TryMapElements<A, B>(f: A -> Outcome<B>, xs: seq<A>)
    ensures TryMap(f, xs).Ok? <==> forall i :: 0 <= i < |xs| ==> f(xs[i]).Ok?
    ensures TryMap(f, xs).Ok? ==>
              && |TryMap(f, xs).value| == |xs|
              && forall i :: 0 <= i < |xs| ==> f(xs[i]) == Ok(TryMap(f, xs).value[i])
  {
    if xs != [] {
      TryMapElements(f, xs[1..]);
      assert forall i :: 0 < i < |xs| ==> xs[i] == xs[1..][i - 1];
      if f(xs[0]).Ok? && TryMap(f, xs[1..]).Ok? {
      } else if f(xs[0]).Ok? {
        var i :| 0 <= i < |xs[1..]| && !f(xs[1..][i]).Ok?;
        assert xs[i + 1] == xs[1..][i];
      }
    }
  }

  /** A left inverse lifts through one level of nesting. */
  lemma LiftLeftInverse<A(!new), B>(enc: A -> B, dec: B -> Outcome<A>, xs: seq<A>)
    requires forall x :: dec(enc(x)) == Ok(x)
    ensures TryMap(dec, Map(enc, xs)) == Ok(xs)
  {
    var ys := Map(enc, xs);
    TryMapElements(dec, ys);
    assert forall i :: 0 <= i < |xs| ==> dec(ys[i]) == Ok(xs[i]);
    assert TryMap(dec, ys).value == xs;
  }

  /** A right inverse on accepted inputs lifts through one level of nesting. */
  lemma LiftRightInverse<A, B(!new)>(enc: A -> B, dec: B -> Outcome<A>, ys: seq<B>)
    requires forall y :: dec(y).Ok? ==> enc(dec(y).value) == y
    requires TryMap(dec, ys).Ok?
    ensures Map(enc, TryMap(dec, ys).value) == ys
  {
    TryMapElements(dec, ys);
  }

  /** Pointwise equal functions collect to equal results, failures included. */
  lemma {:induction false} TryMapExtensional<A(!new), B>(f: A -> Outcome<B>, g: A -> Outcome<B>, xs: seq<A>)
    requires forall x :: f(x) == g(x)
    ensures TryMap(f, xs) == TryMap(g, xs)
  {
    if xs != [] {
      TryMapExtensional(f, g, xs[1..]);
    }
  }

  /** What has been produced already, in front of what the rest yields. */
  function Prepend<T>(done: seq<T>, rest: Outcome<seq<T>>): Outcome<seq<T>> {
    var more :- rest;
    Ok(done + more)
  }

  lemma PrependNothing<T>(rest: Outcome<seq<T>>)
    ensures Prepend([], rest) == rest
  {
    if rest.Ok? {
      assert [] + rest.value == rest.value;
    }
  }

  /** Two productions in a row, the first failure deciding. */
  function Then<T>(first: Outcome<seq<T>>, rest: Outcome<seq<T>>): Outcome<seq<T>> {
    var done :- first;
    Prepend(done, rest)
  }

  lemma ThenElements<T>(first: Outcome<seq<T>>, rest: Outcome<seq<T>>)
    ensures Then(first, rest).Ok? <==> first.Ok? && rest.Ok?
    ensures Then(first, rest).Ok? ==> forall x :: x in Then(first, rest).value <==> x in first.value || x in rest.value
  {
  }

  lemma ThenAssociates<T>(a: Outcome<seq<T>>, b: Outcome<seq<T>>, c: Outcome<seq<T>>)
    ensures Then(Then(a, b), c) == Then(a, Then(b, c))
  {
    if a.Ok? {
      PrependThen(a.value, b, c);
    }
  }

  /** One production more has been done. */
  lemma PrependThen<T>(done: seq<T>, first: Outcome<seq<T>>, rest: Outcome<seq<T>>)
    ensures Prepend(done, Then(first, rest))
            == if first.Ok? then Prepend(done + first.value, rest) else first
  {
    if first.Ok? && rest.Ok? {
      assert done + (first.value + rest.value) == (done + first.value) + rest.value;
    }
  }

  lemma {:induction false} TryMapNeverErrs<A(!new), B>(f: A -> Outcome<B>, xs: seq<A>)
    requires forall x :: !f(x).Err?
    ensures !TryMap(f, xs).Err?
  {
    if xs != [] {
      TryMapNeverErrs(f, xs[1..]);
    }
  }

  /** Concatenation of a list of lists, by its last element so that loops can follow it. */
  function Flatten<T>(xss: seq<seq<T>>): seq<T> {
    if xss == [] then [] else Flatten(xss[..|xss| - 1]) + xss[|xss| - 1]
  }

  function Pow2(n: nat): (p: nat)
    ensures p >= 1
  {
    if n == 0 then 1 else 2 * Pow2(n - 1)
  }

  lemma {:induction false} Pow2Add(m: nat, n: nat)
    ensures Pow2(m + n) == Pow2(m) * Pow2(n)
  {
    if m > 0 {
      Pow2Add(m - 1, n);
    }
  }

  lemma Pow2Of63()
    ensures Pow2(63) == 0x8000_0000_0000_0000
  {
    assert Pow2(8) == 0x100 && Pow2(16) == 0x1_0000;
    assert Pow2(24) == 0x100_0000;
    assert Pow2(32) == 0x1_0000_0000;
    assert Pow2(40) == 0x100_0000_0000;
    assert Pow2(48) == 0x1_0000_0000_0000;
    assert Pow2(56) == 0x100_0000_0000_0000;
  }

  lemma {:induction false} Pow2Monotone(m: nat, n: nat)
    requires m <= n
    ensures Pow2(m) <= Pow2(n)
  {
    if m < n {
      Pow2Monotone(m, n - 1);
    }
  }
}

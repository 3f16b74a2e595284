/** Types and sequence helpers shared by every module of the model. */
module Common {

  datatype Option<+T> = None | Some(value: T)

  /** The service's error type carries a message for the log (rust/service/src/error.rs). */
  datatype Result<+T> = Ok(value: T) | Err(message: string)

  type Byte = b: int | 0 <= b < 256
  type Bytes = seq<Byte>

  /** Walking through a sequence element by element. */
  lemma Prefixes<T>(xs: seq<T>)
    ensures xs[..|xs|] == xs
    ensures forall j :: 0 <= j < |xs| ==> xs[..j + 1] == xs[..j] + [xs[j]]
  {
  }

  /** First occurrences only: what a loop of `if !out.contains(&x) { out.push(x) }` builds. */
  function Distinct<T(==, !new)>(xs: seq<T>): (r: seq<T>)
    ensures forall x :: x in r <==> x in xs
    ensures r == [] <==> xs == []
  {
    if xs == [] then []
    else
      var r := Distinct(xs[..|xs| - 1]);
      assert xs == xs[..|xs| - 1] + [xs[|xs| - 1]];
      if xs[|xs| - 1] in r then r else r + [xs[|xs| - 1]]
  }

  /** One step of that loop: the test is made on what was built so far. */
  lemma {:induction false} DistinctPush<T(!new)>(xs: seq<T>, x: T)
    ensures Distinct(xs + [x]) == if x in Distinct(xs) then Distinct(xs) else Distinct(xs) + [x]
  {
    assert (xs + [x])[..|xs|] == xs;
  }

  predicate NoneTwice<T(==)>(xs: seq<T>) {
    forall i, j :: 0 <= i < j < |xs| ==> xs[i] != xs[j]
  }

  lemma NoneTwicePush<T>(xs: seq<T>, x: T)
    requires NoneTwice(xs) && x !in xs
    ensures NoneTwice(xs + [x])
  {
  }

  lemma {:induction false} DistinctHasNoneTwice<T(!new)>(xs: seq<T>)
    ensures NoneTwice(Distinct(xs))
  {
    if xs != [] {
      var init, x := xs[..|xs| - 1], xs[|xs| - 1];
      DistinctHasNoneTwice(init);
      assert xs == init + [x];
      DistinctPush(init, x);
      if x !in Distinct(init) {
        NoneTwicePush(Distinct(init), x);
      }
    }
  }

  /** Where nothing repeats, nothing is dropped or moved. */
  lemma {:induction false} DistinctOfDistinct<T(!new)>(xs: seq<T>)
    requires NoneTwice(xs)
    ensures Distinct(xs) == xs
  {
    if xs != [] {
      var init, x := xs[..|xs| - 1], xs[|xs| - 1];
      DistinctOfDistinct(init);
      assert xs == init + [x] && x !in init;
      DistinctPush(init, x);
    }
  }
}

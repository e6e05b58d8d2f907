/** Helper datatypes and sequence functions shared by the whole model. */
module Wrappers {

  /** Python's `None` versus a present value. */
  datatype Option<+T> = None | Some(value: T)

  /** A value, or the exception that was raised instead. */
  datatype Result<+R, +E> = Ok(value: R) | Err(error: E)

  /** Every value wrapped in `Some`, in order. */
  function Somes<T>(xs: seq<T>): (ys: seq<Option<T>>)
    ensures |ys| == |xs|
    ensures forall i :: 0 <= i < |xs| ==> ys[i] == Some(xs[i])
  {
    if xs == [] then [] else [Some(xs[0])] + Somes(xs[1..])
  }

  /** The pieces laid end to end. */
  function Flatten<T>(pieces: seq<seq<T>>): seq<T>
  {
    if pieces == [] then [] else pieces[0] + Flatten(pieces[1..])
  }

  /** Flattening distributes over concatenation. */
  lemma {:induction false} FlattenAppend<T>(a: seq<seq<T>>, b: seq<seq<T>>)
    ensures Flatten(a + b) == Flatten(a) + Flatten(b)
  {
    if a != [] {
      assert (a + b)[1..] == a[1..] + b;
      FlattenAppend(a[1..], b);
    } else {
      assert a + b == b;
    }
  }

  /** Concatenation regrouped. */
  lemma AppendAssoc<T>(a: seq<T>, b: seq<T>, c: seq<T>)
    ensures a + (b + c) == (a + b) + c
  {
  }

  /** Dropping the head and then `m` items drops `m + 1`. */
  lemma DropAfterHead<T>(items: seq<T>, m: nat)
    requires m < |items|
    ensures items[1..][m..] == items[m + 1..]
  {
  }

  /** Taking the head and then `n` more items takes `n + 1`. */
  lemma TakeAfterHead<T>(items: seq<T>, n: nat)
    requires n < |items|
    ensures items[..n + 1] == [items[0]] + items[1..][..n]
  {
  }

  /** Wrapping distributes over concatenation. */
  lemma SomesAppend<T>(a: seq<T>, c: seq<T>)
    ensures Somes(a + c) == Somes(a) + Somes(c)
  {
    assert |Somes(a + c)| == |Somes(a) + Somes(c)|;
    forall i | 0 <= i < |a + c| ensures Somes(a + c)[i] == (Somes(a) + Somes(c))[i] {
      if i < |a| {
        assert (a + c)[i] == a[i];
      } else {
        assert (a + c)[i] == c[i - |a|];
      }
    }
  }
}

/** The values that keyword-argument dictionaries (`vars(args)`, `setup_kwargs`) hold. */
module PyValues {

  datatype Value =
    | NoneValue
    | Bool(b: bool)
    | Int(i: int)
    | Str(s: string)
    | Dict(entries: map<string, Value>)

  /** A keyword-argument dictionary, as passed with `**kwargs`. */
  type Kwargs = map<string, Value>

  /** Python truthiness: `None`, `False`, `0`, `""` and `{}` are false. */
  predicate Truthy(v: Value)
  {
    match v
    case NoneValue => false
    case Bool(b) => b
    case Int(i) => i != 0
    case Str(s) => s != ""
    case Dict(m) => m != map[]
  }
}

/** The optional value every fallible step of the model returns: a tier that
    fails, a block that yields no entry, a pattern that does not match. */
module Wrappers {

  datatype Option<+T> = None | Some(value: T)

  /** JavaScript's `.filter(Boolean)` after a `.map` whose callback returns
      an object or `null`: the carried values, in order. */
  function Somes<T>(xs: seq<Option<T>>): (r: seq<T>)
    ensures |r| <= |xs|
    ensures forall i :: 0 <= i < |xs| && xs[i].Some? ==> xs[i].value in r
    ensures forall k :: 0 <= k < |r| ==> Some(r[k]) in xs
    ensures r == [] <==> forall i :: 0 <= i < |xs| ==> xs[i].None?
  {
    if xs == [] then []
    else
      var rest := Somes(xs[1..]);
      assert forall i :: 1 <= i < |xs| ==> xs[i] == xs[1..][i - 1];
      match xs[0]
      case Some(v) => [v] + rest
      case None => rest
  }

  /** Filtering distributes over concatenation, so it keeps the order of
      the values it keeps. */
  lemma {:induction false} SomesAppend<T>(a: seq<Option<T>>, b: seq<Option<T>>)
    ensures Somes(a + b) == Somes(a) + Somes(b)
  {
    if a == [] {
      assert a + b == b;
    } else {
      assert (a + b)[1..] == a[1..] + b;
      SomesAppend(a[1..], b);
    }
  }

  /** A single element contributes its value, or nothing. */
  lemma SomesSingle<T>(x: Option<T>)
    ensures Somes([x]) == if x.Some? then [x.value] else []
  {
    assert [x][1..] == [];
  }

  /** `xs.map(f)`. */
  function Map<A, B>(f: A -> B, xs: seq<A>): (r: seq<B>)
    ensures |r| == |xs|
    ensures forall i :: 0 <= i < |xs| ==> r[i] == f(xs[i])
  {
    seq(|xs|, i requires 0 <= i < |xs| => f(xs[i]))
  }

  /** `xs.map(f).filter(Boolean)` for a callback that returns an object or
      `null`: the values of the calls that returned one. */
  function FilterMap<A, B>(f: A -> Option<B>, xs: seq<A>): (r: seq<B>)
    ensures |r| <= |xs|
    ensures forall i :: 0 <= i < |xs| && f(xs[i]).Some? ==> f(xs[i]).value in r
    ensures forall k :: 0 <= k < |r| ==> exists i :: 0 <= i < |xs| && f(xs[i]) == Some(r[k])
    ensures r == [] <==> forall i :: 0 <= i < |xs| ==> f(xs[i]).None?
  {
    var m := Map(f, xs);
    var r := Somes(m);
    assert forall k :: 0 <= k < |r| ==> exists i :: 0 <= i < |xs| && f(xs[i]) == Some(r[k]) by {
      forall k | 0 <= k < |r| ensures exists i :: 0 <= i < |xs| && f(xs[i]) == Some(r[k]) {
        var i :| 0 <= i < |m| && m[i] == Some(r[k]);
      }
    }
    r
  }

  /** Wherever an element stands, it contributes exactly the value of its
      own call, or nothing: the kept values are in input order. */
  lemma FilterMapInPlace<A, B>(f: A -> Option<B>, before: seq<A>, x: A, after: seq<A>)
    ensures FilterMap(f, before + [x] + after)
         == FilterMap(f, before) + (if f(x).Some? then [f(x).value] else []) + FilterMap(f, after)
  {
    assert Map(f, before + [x] + after) == Map(f, before) + [f(x)] + Map(f, after);
    SomesAppend(Map(f, before) + [f(x)], Map(f, after));
    SomesAppend(Map(f, before), [f(x)]);
    SomesSingle(f(x));
  }

  /** A one-element list keeps the value of its call, or nothing. */
  lemma FilterMapSingle<A, B>(f: A -> Option<B>, x: A)
    ensures FilterMap(f, [x]) == if f(x).Some? then [f(x).value] else []
  {
    assert Map(f, [x]) == [f(x)];
    SomesSingle(f(x));
  }
}

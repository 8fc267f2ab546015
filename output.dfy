/**
 * Where the generator writes: a PrintWriter recording what was printed, and the
 * `cacheDecls` list the method emitters share. The abstract hooks that subclasses
 * implement (genCSMethod, genConsumerMethod, genReadStream, genToObservable) are
 * recorded as calls, since their text is not known here.
 */
module Output {
  import opened Types
  import opened Text

  /** A call of one of the abstract generator hooks. */
  datatype HookCall =
    | CSMethod(decl: bool, m: MethodInfo)
    | ConsumerMethod(decl: bool, m: MethodInfo)
    | ReadStream(typeParams: seq<string>)
    | ToObservable(streamType: TypeInfo)

  /** One piece of output: printed text, a line end, or whatever a hook writes. */
  datatype Chunk = Text(s: string) | NewLine | Hook(call: HookCall)

  /** The PrintWriter: everything written so far, in order. */
  class Writer {
    var out: seq<Chunk>

    constructor ()
      ensures out == []
    {
      out := [];
    }

    /** `print(s)`. */
    method Print(s: string)
      modifies this
      ensures out == old(out) + [Text(s)]
    {
      out := out + [Text(s)];
    }

    /** `println(s)`. */
    method Println(s: string)
      modifies this
      ensures out == old(out) + [Text(s), NewLine]
    {
      out := out + [Text(s), NewLine];
    }

    /** `println()`. */
    method EndLine()
      modifies this
      ensures out == old(out) + [NewLine]
    {
      out := out + [NewLine];
    }

    /** A subclass hook writing to this writer. */
    method Call(h: HookCall)
      modifies this
      ensures out == old(out) + [Hook(h)]
    {
      out := out + [Hook(h)];
    }
  }

  /** The `List<String> cacheDecls` the method emitters append to. */
  class StringList {
    var items: seq<string>

    constructor ()
      ensures items == []
    {
      items := [];
    }

    method Add(s: string)
      modifies this
      ensures items == old(items) + [s]
    {
      items := items + [s];
    }
  }

  /** What a `for` loop over `0..n-1` prints when iteration `i` prints `f(i)`. */
  function Repeat(f: nat -> seq<Chunk>, n: nat): seq<Chunk> {
    if n == 0 then [] else Repeat(f, n - 1) + f(n - 1)
  }

  /** Every iteration's output occurs in the loop's output. */
  lemma {:induction false} RepeatContains(f: nat -> seq<Chunk>, n: nat, i: nat)
    requires i < n
    ensures Contains(Repeat(f, n), f(i))
  {
    if i == n - 1 {
      ContainsInfix(Repeat(f, n - 1), f(i), []);
      assert Repeat(f, n - 1) + f(i) + [] == Repeat(f, n);
    } else {
      RepeatContains(f, n - 1, i);
      ContainsPrefix(Repeat(f, n - 1), f(i), f(n - 1));
    }
  }

  /** What a loop over `xs` prints when each element `x` prints `f(x)`. */
  function Flatten<T>(xs: seq<T>, f: T --> seq<Chunk>): seq<Chunk>
    requires forall i :: 0 <= i < |xs| ==> f.requires(xs[i])
    decreases |xs|, 1
  {
    if xs == [] then [] else FlattenLast(xs, f)
  }

  /** A non-empty list: all but its last element, then the last one. Kept apart from Flatten
      so that the solver unfolds the pieces of a long list one element at a time. */
  function FlattenLast<T>(xs: seq<T>, f: T --> seq<Chunk>): seq<Chunk>
    requires xs != [] && forall i :: 0 <= i < |xs| ==> f.requires(xs[i])
    decreases |xs|, 0
  {
    Flatten(xs[..|xs| - 1], f) + f(xs[|xs| - 1])
  }

  /** One more element prints one more piece. */
  lemma FlattenPrefix<T>(xs: seq<T>, f: T --> seq<Chunk>, k: nat)
    requires forall i :: 0 <= i < |xs| ==> f.requires(xs[i])
    requires k < |xs|
    ensures Flatten(xs[..k + 1], f) == Flatten(xs[..k], f) + f(xs[k])
  {
    assert Flatten(xs[..k + 1], f) == FlattenLast(xs[..k + 1], f);
    assert xs[..k + 1][..k] == xs[..k];
  }

  lemma FlattenOne<T>(x: T, f: T --> seq<Chunk>)
    requires f.requires(x)
    ensures Flatten([x], f) == f(x)
  {
    assert [x][..0] == [];
    assert Flatten([x], f) == FlattenLast([x], f) == Flatten([], f) + f(x);
  }

  /** Printing two lists one after the other prints their concatenation. */
  lemma {:induction false} FlattenAppend<T>(a: seq<T>, b: seq<T>, f: T --> seq<Chunk>)
    requires forall i :: 0 <= i < |a| ==> f.requires(a[i])
    requires forall i :: 0 <= i < |b| ==> f.requires(b[i])
    ensures forall i :: 0 <= i < |a + b| ==> f.requires((a + b)[i])
    ensures Flatten(a + b, f) == Flatten(a, f) + Flatten(b, f)
    decreases |b|
  {
    if b == [] {
      assert a + b == a;
    } else {
      var b' := b[..|b| - 1];
      assert (a + b)[..|a + b| - 1] == a + b';
      FlattenAppend(a, b', f);
      assert Flatten(a + b, f) == FlattenLast(a + b, f);
      assert Flatten(b, f) == FlattenLast(b, f);
    }
  }

  /** Regrouping what was printed in three steps. */
  lemma Assoc3<T>(o: seq<T>, a: seq<T>, b: seq<T>)
    ensures o + a + b == o + (a + b)
  {
  }

  lemma Assoc4<T>(o: seq<T>, a: seq<T>, b: seq<T>, c: seq<T>)
    ensures o + a + b + c == o + (a + b + c)
  {
  }

  lemma Assoc5<T>(o: seq<T>, a: seq<T>, b: seq<T>, c: seq<T>, d: seq<T>)
    ensures o + a + b + c + d == o + (a + b + c + d)
  {
  }
}

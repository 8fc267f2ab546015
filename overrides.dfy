/**
 * Override resolution (AbstractAxleGenerator.isOverride and getGenMethods): two
 * passes that remove, in place, the methods whose capability is covered by a
 * future-style twin, from the model's method list and its any-Java-type list.
 */
module Overrides {
  import opened Types

  /** isOverride(s1, s2): same name, `s2` has exactly one more parameter, and the
      parameter types agree position by position on all of `s1`'s parameters. */
  predicate Overrides(s1: MethodInfo, s2: MethodInfo) {
    && s1.name == s2.name
    && |s1.params| == |s2.params| - 1
    && forall i :: 0 <= i < |s1.params| ==> s1.params[i].typ == s2.params[i].typ
  }

  /** The source's loop: stops at the first position whose types differ. */
  method IsOverride(s1: MethodInfo, s2: MethodInfo) returns (b: bool)
    ensures b == Overrides(s1, s2)
  {
    if s1.name == s2.name && |s1.params| == |s2.params| - 1 {
      var i := 0;
      while i < |s1.params|
        invariant 0 <= i <= |s1.params|
        invariant forall j :: 0 <= j < i ==> s1.params[j].typ == s2.params[j].typ
      {
        if s1.params[i].typ != s2.params[i].typ {
          return false;
        }
        i := i + 1;
      }
      return true;
    }
    return false;
  }

  lemma OverridesIrreflexive(m: MethodInfo)
    ensures !Overrides(m, m)
  {
  }

  lemma OverridesAsymmetric(s1: MethodInfo, s2: MethodInfo)
    requires Overrides(s1, s2)
    ensures !Overrides(s2, s1)
  {
  }

  /** The elements of `s` that `keep` accepts, in their original order. */
  function Filter<T(!new)>(s: seq<T>, keep: T -> bool): (r: seq<T>)
    ensures |r| <= |s|
    ensures forall x :: x in r <==> x in s && keep(x)
  {
    if s == [] then [] else (if keep(s[0]) then [s[0]] else []) + Filter(s[1..], keep)
  }

  lemma {:induction false} FilterSnoc<T(!new)>(s: seq<T>, x: T, keep: T -> bool)
    ensures Filter(s + [x], keep) == Filter(s, keep) + (if keep(x) then [x] else [])
  {
    if s != [] {
      assert (s + [x])[1..] == s[1..] + [x];
      FilterSnoc(s[1..], x, keep);
    } else {
      assert s + [x] == [x];
    }
  }

  lemma {:induction false} FilterAllKept<T(!new)>(s: seq<T>, keep: T -> bool)
    requires forall x :: x in s ==> keep(x)
    ensures Filter(s, keep) == s
  {
    if s != [] {
      FilterAllKept(s[1..], keep);
    }
  }

  /** `a` can be obtained from `b` by deleting elements. */
  ghost predicate Subsequence<T>(a: seq<T>, b: seq<T>)
    decreases |b|
  {
    if a == [] then true
    else if b == [] then false
    else (a[0] == b[0] && Subsequence(a[1..], b[1..])) || Subsequence(a, b[1..])
  }

  lemma {:induction false} FilterSubsequence<T(!new)>(s: seq<T>, keep: T -> bool)
    ensures Subsequence(Filter(s, keep), s)
  {
    if s != [] {
      FilterSubsequence(s[1..], keep);
      var r := Filter(s, keep);
      if keep(s[0]) {
        assert r[0] == s[0] && r[1..] == Filter(s[1..], keep);
      } else {
        assert r == Filter(s[1..], keep);
      }
    }
  }

  lemma {:induction false} FilterFilter<T(!new)>(s: seq<T>, p: T -> bool, q: T -> bool, pq: T -> bool)
    requires forall x :: pq(x) == (p(x) && q(x))
    ensures Filter(Filter(s, p), q) == Filter(s, pq)
  {
    if s != [] {
      FilterFilter(s[1..], p, q, pq);
      if p(s[0]) {
        assert Filter(s, p) == [s[0]] + Filter(s[1..], p);
        assert Filter(s, p)[1..] == Filter(s[1..], p);
      } else {
        assert Filter(s, p) == Filter(s[1..], p);
      }
    }
  }

  // ---------------------------------------------------------------------------
  // First pass

  predicate IsFuture(m: MethodInfo) {
    KindOf(m) == FutureMethod
  }

  /** Some FUTURE method of `ms` is `c` with one more (trailing) parameter. */
  predicate OverriddenByFuture(c: MethodInfo, ms: seq<MethodInfo>) {
    exists f :: f in ms && IsFuture(f) && Overrides(c, f)
  }

  /** First pass: a non-FUTURE method survives unless a FUTURE method of the same list
      overrides it. Both of the source's ownership branches use this same test. */
  predicate Pass1Keeps(c: MethodInfo, ms: seq<MethodInfo>) {
    IsFuture(c) || !OverriddenByFuture(c, ms)
  }

  function Pass1Keep(ms: seq<MethodInfo>): MethodInfo -> bool {
    c => Pass1Keeps(c, ms)
  }

  function Pass1(ms: seq<MethodInfo>): seq<MethodInfo> {
    Filter(ms, Pass1Keep(ms))
  }

  /** The FUTURE methods of two lists coincide. */
  ghost predicate SameFutures(a: seq<MethodInfo>, b: seq<MethodInfo>) {
    forall f :: IsFuture(f) ==> (f in a <==> f in b)
  }

  /**
   * The state of an in-place filtering loop after it has looked at the first `j`
   * elements of `s0`: what was kept so far, then the part not yet looked at; `i` is
   * the position of the next element to look at.
   */
  ghost predicate FilterLoopState<T(!new)>(s0: seq<T>, keep: T -> bool, j: nat, s: seq<T>, i: nat) {
    && j <= |s0|
    && s == Filter(s0[..j], keep) + s0[j..]
    && i == |Filter(s0[..j], keep)|
  }

  /** Keeping the element under the cursor: advance past it. */
  lemma FilterLoopKeep<T(!new)>(s0: seq<T>, keep: T -> bool, j: nat, s: seq<T>, i: nat)
    requires FilterLoopState(s0, keep, j, s, i) && j < |s0| && keep(s0[j])
    ensures i < |s| && s[i] == s0[j]
    ensures FilterLoopState(s0, keep, j + 1, s, i + 1)
  {
    assert s0[..j + 1] == s0[..j] + [s0[j]];
    FilterSnoc(s0[..j], s0[j], keep);
    assert s == Filter(s0[..j], keep) + [s0[j]] + s0[j + 1..];
  }

  /** Removing the element under the cursor: the cursor stays where it is. */
  lemma FilterLoopDrop<T(!new)>(s0: seq<T>, keep: T -> bool, j: nat, s: seq<T>, i: nat)
    requires FilterLoopState(s0, keep, j, s, i) && j < |s0| && !keep(s0[j])
    ensures i < |s| && s[i] == s0[j]
    ensures FilterLoopState(s0, keep, j + 1, s[..i] + s[i + 1..], i)
  {
    assert s0[..j + 1] == s0[..j] + [s0[j]];
    FilterSnoc(s0[..j], s0[j], keep);
    assert s[..i] == Filter(s0[..j], keep);
    assert s[i + 1..] == s0[j + 1..];
  }

  /** The loop has run off the end exactly when every element has been looked at. */
  lemma FilterLoopEnd<T(!new)>(s0: seq<T>, keep: T -> bool, j: nat, s: seq<T>, i: nat)
    requires FilterLoopState(s0, keep, j, s, i)
    ensures i < |s| <==> j < |s0|
    ensures j == |s0| ==> s == Filter(s0, keep)
  {
    if j == |s0| {
      assert s0[..j] == s0;
    }
  }

  /** Mid-loop, the list still holds every element `keep` accepts. */
  lemma FilterLoopMembers<T(!new)>(s0: seq<T>, keep: T -> bool, j: nat, s: seq<T>, i: nat, x: T)
    requires FilterLoopState(s0, keep, j, s, i) && keep(x)
    ensures x in s <==> x in s0
  {
    assert s0 == s0[..j] + s0[j..];
  }

  lemma OverriddenByFutureCongruent(c: MethodInfo, a: seq<MethodInfo>, b: seq<MethodInfo>)
    requires SameFutures(a, b)
    ensures OverriddenByFuture(c, a) == OverriddenByFuture(c, b)
  {
  }

  /**
   * The first `while` loop: walks the list with an iterator and removes, in place, every
   * non-FUTURE method that a FUTURE method of the (current) list overrides.
   */
  method RemoveOverriddenMethods(ms0: seq<MethodInfo>) returns (ms: seq<MethodInfo>)
    ensures ms == Pass1(ms0)
  {
    ghost var keep := Pass1Keep(ms0);
    ms := ms0;
    var i: nat := 0;
    ghost var j := 0;
    FilterLoopStart(ms0, keep);
    while i < |ms|
      invariant FilterLoopState(ms0, keep, j, ms, i)
      decreases |ms0| - j
    {
      FilterLoopEnd(ms0, keep, j, ms, i);
      ms, i := RemoveIfOverridden(ms0, j, ms, i);
      j := j + 1;
    }
    FilterLoopEnd(ms0, keep, j, ms, i);
  }

  /** One iteration of the first loop: the method under the cursor is removed when a FUTURE
      method of the current list overrides it, and the cursor moves past it otherwise. */
  method RemoveIfOverridden(ghost ms0: seq<MethodInfo>, ghost j: nat, ms: seq<MethodInfo>, i: nat)
    returns (ms': seq<MethodInfo>, i': nat)
    requires FilterLoopState(ms0, Pass1Keep(ms0), j, ms, i) && i < |ms|
    ensures FilterLoopState(ms0, Pass1Keep(ms0), j + 1, ms', i')
  {
    ghost var keep := Pass1Keep(ms0);
    FilterLoopEnd(ms0, keep, j, ms, i);
    var current := ms[i];
    assert current == ms0[j] by { FilterLoopKeepOrDropCursor(ms0, keep, j, ms, i); }
    var remove := !IsFuture(current) && OverriddenByFuture(current, ms);
    Pass1Decision(ms0, j, ms, i, current);
    if remove {
      FilterLoopDrop(ms0, keep, j, ms, i);
      ms', i' := ms[..i] + ms[i + 1..], i;
    } else {
      FilterLoopKeep(ms0, keep, j, ms, i);
      ms', i' := ms, i + 1;
    }
  }

  /** Before the first iteration nothing has been decided. */
  lemma FilterLoopStart<T(!new)>(s0: seq<T>, keep: T -> bool)
    ensures FilterLoopState(s0, keep, 0, s0, 0)
  {
    assert s0[..0] == [];
  }

  /** The element under the cursor is the next element of the original list. */
  lemma FilterLoopKeepOrDropCursor<T(!new)>(s0: seq<T>, keep: T -> bool, j: nat, s: seq<T>, i: nat)
    requires FilterLoopState(s0, keep, j, s, i) && j < |s0|
    ensures i < |s| && s[i] == s0[j]
  {
  }

  lemma SameFuturesMidLoop(ms0: seq<MethodInfo>, j: nat, ms: seq<MethodInfo>, i: nat)
    requires FilterLoopState(ms0, Pass1Keep(ms0), j, ms, i)
    ensures SameFutures(ms, ms0)
  {
    forall f | IsFuture(f)
      ensures f in ms <==> f in ms0
    {
      FilterLoopMembers(ms0, Pass1Keep(ms0), j, ms, i, f);
    }
  }

  /** Mid-loop, testing the element under the cursor against the current list decides
      as testing it against the original list would. */
  lemma Pass1Decision(ms0: seq<MethodInfo>, j: nat, ms: seq<MethodInfo>, i: nat, current: MethodInfo)
    requires FilterLoopState(ms0, Pass1Keep(ms0), j, ms, i)
    ensures Pass1Keep(ms0)(current) == !(!IsFuture(current) && OverriddenByFuture(current, ms))
  {
    SameFuturesMidLoop(ms0, j, ms, i);
    OverriddenByFutureCongruent(current, ms, ms0);
  }

  // ---------------------------------------------------------------------------
  // Second pass

  /** `getMethodMap().getOrDefault(name, emptyList())`. */
  function Group(methodMap: map<string, seq<MethodInfo>>, name: string): seq<MethodInfo> {
    if name in methodMap then methodMap[name] else []
  }

  /**
   * Second pass, for a FUTURE method `f` of the current list `cur` of the class `owner`.
   * Owned: some non-FUTURE `m` of its name group with isOverride(m, f) that is inherited
   * or still in the list. Not owned: some non-FUTURE `o` of the group with
   * isOverride(f, o) (the source's argument order) sharing an owner type with `f`.
   */
  predicate Pass2Removes(f: MethodInfo, cur: seq<MethodInfo>, owner: string, methodMap: map<string, seq<MethodInfo>>) {
    var group := Group(methodMap, f.name);
    if owner in f.owners then
      exists m :: m in group && !IsFuture(m) && Overrides(m, f) && (owner !in m.owners || m in cur)
    else
      exists o :: o in group && !IsFuture(o) && Overrides(f, o) && o.owners * f.owners != {}
  }

  predicate Pass2Keeps(f: MethodInfo, cur: seq<MethodInfo>, owner: string, methodMap: map<string, seq<MethodInfo>>) {
    !IsFuture(f) || !Pass2Removes(f, cur, owner, methodMap)
  }

  function Pass2Keep(cur: seq<MethodInfo>, owner: string, methodMap: map<string, seq<MethodInfo>>): MethodInfo -> bool {
    f => Pass2Keeps(f, cur, owner, methodMap)
  }

  function Pass2(ms: seq<MethodInfo>, owner: string, methodMap: map<string, seq<MethodInfo>>): seq<MethodInfo> {
    Filter(ms, Pass2Keep(ms, owner, methodMap))
  }

  /** The non-FUTURE methods of two lists coincide. */
  ghost predicate SameNonFutures(a: seq<MethodInfo>, b: seq<MethodInfo>) {
    forall m :: !IsFuture(m) ==> (m in a <==> m in b)
  }

  lemma Pass2RemovesCongruent(f: MethodInfo, a: seq<MethodInfo>, b: seq<MethodInfo>, owner: string,
                              methodMap: map<string, seq<MethodInfo>>)
    requires SameNonFutures(a, b)
    ensures Pass2Removes(f, a, owner, methodMap) == Pass2Removes(f, b, owner, methodMap)
  {
  }

  lemma SameNonFuturesMidLoop(ms0: seq<MethodInfo>, owner: string, methodMap: map<string, seq<MethodInfo>>,
                              j: nat, ms: seq<MethodInfo>, i: nat)
    requires FilterLoopState(ms0, Pass2Keep(ms0, owner, methodMap), j, ms, i)
    ensures SameNonFutures(ms, ms0)
  {
    forall m | !IsFuture(m)
      ensures m in ms <==> m in ms0
    {
      FilterLoopMembers(ms0, Pass2Keep(ms0, owner, methodMap), j, ms, i, m);
    }
  }

  /** Mid-loop, testing the element under the cursor against the current list decides
      as testing it against the original list would. */
  lemma Pass2Decision(ms0: seq<MethodInfo>, owner: string, methodMap: map<string, seq<MethodInfo>>,
                      j: nat, ms: seq<MethodInfo>, i: nat, meth: MethodInfo)
    requires FilterLoopState(ms0, Pass2Keep(ms0, owner, methodMap), j, ms, i)
    ensures Pass2Keep(ms0, owner, methodMap)(meth) == !(IsFuture(meth) && Pass2Removes(meth, ms, owner, methodMap))
  {
    SameNonFuturesMidLoop(ms0, owner, methodMap, j, ms, i);
    Pass2RemovesCongruent(meth, ms, ms0, owner, methodMap);
  }

  /**
   * The second `while` loop: removes, in place, every FUTURE method that conflicts with a
   * non-FUTURE method of its name group.
   */
  method RemoveConflictingFutures(ms0: seq<MethodInfo>, owner: string, methodMap: map<string, seq<MethodInfo>>)
    returns (ms: seq<MethodInfo>)
    ensures ms == Pass2(ms0, owner, methodMap)
  {
    ghost var keep := Pass2Keep(ms0, owner, methodMap);
    ms := ms0;
    var i: nat := 0;
    ghost var j := 0;
    FilterLoopStart(ms0, keep);
    while i < |ms|
      invariant FilterLoopState(ms0, keep, j, ms, i)
      decreases |ms0| - j
    {
      FilterLoopEnd(ms0, keep, j, ms, i);
      ms, i := RemoveIfConflicting(ms0, owner, methodMap, j, ms, i);
      j := j + 1;
    }
    FilterLoopEnd(ms0, keep, j, ms, i);
  }

  /** One iteration of the second loop: the method under the cursor is removed when it is a
      FUTURE method in conflict with its name group, and the cursor moves past it otherwise. */
  method RemoveIfConflicting(ghost ms0: seq<MethodInfo>, owner: string, methodMap: map<string, seq<MethodInfo>>,
                             ghost j: nat, ms: seq<MethodInfo>, i: nat)
    returns (ms': seq<MethodInfo>, i': nat)
    requires FilterLoopState(ms0, Pass2Keep(ms0, owner, methodMap), j, ms, i) && i < |ms|
    ensures FilterLoopState(ms0, Pass2Keep(ms0, owner, methodMap), j + 1, ms', i')
  {
    ghost var keep := Pass2Keep(ms0, owner, methodMap);
    FilterLoopEnd(ms0, keep, j, ms, i);
    var meth := ms[i];
    assert meth == ms0[j] by { FilterLoopKeepOrDropCursor(ms0, keep, j, ms, i); }
    var remove := IsFuture(meth) && Pass2Removes(meth, ms, owner, methodMap);
    Pass2Decision(ms0, owner, methodMap, j, ms, i, meth);
    if remove {
      FilterLoopDrop(ms0, keep, j, ms, i);
      ms', i' := ms[..i] + ms[i + 1..], i;
    } else {
      FilterLoopKeep(ms0, keep, j, ms, i);
      ms', i' := ms, i + 1;
    }
  }

  /** What getGenMethods leaves of one list of the class `owner`. */
  function Resolve(ms: seq<MethodInfo>, owner: string, methodMap: map<string, seq<MethodInfo>>): seq<MethodInfo> {
    Pass2(Pass1(ms), owner, methodMap)
  }

  /** The class model of the class being translated; the generator edits its two method lists in place. */
  class ClassModel {
    const info: ClassInfo
    var methods: seq<MethodInfo>
    var anyJavaTypeMethods: seq<MethodInfo>

    constructor (info: ClassInfo, methods: seq<MethodInfo>, anyJavaTypeMethods: seq<MethodInfo>)
      ensures this.info == info && this.methods == methods && this.anyJavaTypeMethods == anyJavaTypeMethods
    {
      this.info := info;
      this.methods := methods;
      this.anyJavaTypeMethods := anyJavaTypeMethods;
    }
  }

  /**
   * getGenMethods: filters `getMethods()` and then `getAnyJavaTypeMethods()`, each in
   * place, and returns the two lists one after the other.
   */
  method GetGenMethods(model: ClassModel) returns (r: seq<MethodInfo>)
    modifies model
    ensures model.methods == Resolve(old(model.methods), model.info.typeName, model.info.methodMap)
    ensures model.anyJavaTypeMethods == Resolve(old(model.anyJavaTypeMethods), model.info.typeName, model.info.methodMap)
    ensures r == model.methods + model.anyJavaTypeMethods
  {
    var owner, methodMap := model.info.typeName, model.info.methodMap;
    var ms := RemoveOverriddenMethods(model.methods);
    ms := RemoveConflictingFutures(ms, owner, methodMap);
    model.methods := ms;
    ms := RemoveOverriddenMethods(model.anyJavaTypeMethods);
    ms := RemoveConflictingFutures(ms, owner, methodMap);
    model.anyJavaTypeMethods := ms;
    r := model.methods + model.anyJavaTypeMethods;
  }

  // ---------------------------------------------------------------------------
  // Properties of the resolution

  /** First pass, exactly: FUTURE methods always stay; any other method goes iff a
      FUTURE method of the list overrides it. Ownership plays no part. */
  lemma Pass1Members(ms: seq<MethodInfo>, x: MethodInfo)
    ensures IsFuture(x) ==> (x in Pass1(ms) <==> x in ms)
    ensures !IsFuture(x) ==> (x in Pass1(ms) <==> x in ms && !OverriddenByFuture(x, ms))
  {
  }

  /** Second pass, exactly: it only ever removes FUTURE methods, and removes one iff
      Pass2Removes holds of it against the list it starts from. */
  lemma Pass2Members(ms: seq<MethodInfo>, owner: string, methodMap: map<string, seq<MethodInfo>>, x: MethodInfo)
    ensures !IsFuture(x) ==> (x in Pass2(ms, owner, methodMap) <==> x in ms)
    ensures IsFuture(x) ==> (x in Pass2(ms, owner, methodMap) <==> x in ms && !Pass2Removes(x, ms, owner, methodMap))
  {
  }

  /** The result keeps the relative order of the list it came from. */
  lemma ResolveIsSubsequence(ms: seq<MethodInfo>, owner: string, methodMap: map<string, seq<MethodInfo>>)
    ensures Subsequence(Resolve(ms, owner, methodMap), ms)
  {
    var p, q := Pass1Keep(ms), Pass2Keep(Pass1(ms), owner, methodMap);
    var pq := x => p(x) && q(x);
    FilterFilter(ms, p, q, pq);
    FilterSubsequence(ms, pq);
  }

  /** Running the resolution on its own result changes nothing. The source relies on this:
      for an abstract class getGenMethods runs twice on the same model, once for the
      interface and once for its Impl class. */
  lemma ResolveIdempotent(ms: seq<MethodInfo>, owner: string, methodMap: map<string, seq<MethodInfo>>)
    ensures Resolve(Resolve(ms, owner, methodMap), owner, methodMap) == Resolve(ms, owner, methodMap)
  {
    var p1 := Pass1(ms);
    var r := Pass2(p1, owner, methodMap);
    assert forall x :: x in r ==> Pass1Keeps(x, r);
    FilterAllKept(r, Pass1Keep(r));
    assert Pass1(r) == r;
    assert SameNonFutures(r, p1);
    forall x | x in r
      ensures Pass2Keeps(x, r, owner, methodMap)
    {
      Pass2RemovesCongruent(x, r, p1, owner, methodMap);
    }
    FilterAllKept(r, Pass2Keep(r, owner, methodMap));
  }

  /** A non-owned FUTURE method is never removed because of a callback twin with one
      parameter fewer: the source tests isOverride(meth, other), which asks `other`
      to have one parameter MORE than `meth`. */
  lemma NonOwnedFutureIgnoresShorterTwins(f: MethodInfo, cur: seq<MethodInfo>, owner: string,
                                          methodMap: map<string, seq<MethodInfo>>)
    requires owner !in f.owners
    requires forall o :: o in Group(methodMap, f.name) ==> |o.params| <= |f.params|
    ensures !Pass2Removes(f, cur, owner, methodMap)
  {
  }

  // ---------------------------------------------------------------------------
  // Worked cases: `send(a)` and `send(a, Handler<AsyncResult<Void>>)`

  function SimpleType(kind: ClassKind, name: string): TypeInfo {
    TypeInfo(kind, name, name, name, RawType(name, name, name), None, [])
  }

  function StringType(): TypeInfo {
    SimpleType(String, "java.lang.String")
  }

  function AsyncHandlerType(): TypeInfo {
    var v := SimpleType(Void, "java.lang.Void");
    var ar := TypeInfo(AsyncResult, "io.vertx.core.AsyncResult<java.lang.Void>", "AsyncResult<Void>",
                       "io.vertx.core.AsyncResult<java.lang.Void>",
                       RawType("io.vertx.core.AsyncResult", "AsyncResult", "io.vertx.core.AsyncResult"), None, [v]);
    TypeInfo(Handler, "io.vertx.core.Handler<io.vertx.core.AsyncResult<java.lang.Void>>",
             "Handler<AsyncResult<Void>>", "io.vertx.core.Handler<io.vertx.core.AsyncResult<java.lang.Void>>",
             RawType("io.vertx.core.Handler", "Handler", "io.vertx.core.Handler"), None, [ar])
  }

  function Send(owners: set<string>): MethodInfo {
    MethodInfo("send", [ParamInfo("a", StringType())], SimpleType(Void, "void"),
               false, false, false, false, owners, [], map[])
  }

  function SendAsync(owners: set<string>): MethodInfo {
    MethodInfo("send", [ParamInfo("a", StringType()), ParamInfo("handler", AsyncHandlerType())],
               SimpleType(Void, "void"), false, false, false, false, owners, [], map[])
  }

  /** Both declared by the class: exactly the future-style method is generated. */
  lemma OwnedPairKeepsFuture()
    ensures Resolve([Send({"T"}), SendAsync({"T"})], "T", map["send" := [Send({"T"}), SendAsync({"T"})]])
         == [SendAsync({"T"})]
  {
    var c, f := Send({"T"}), SendAsync({"T"});
    var mm := map["send" := [c, f]];
    assert !IsFuture(c) && IsFuture(f) && Overrides(c, f);
    assert Pass1([c, f]) == [f] by {
      assert !Pass1Keeps(c, [c, f]);
      assert Filter([c, f], x => Pass1Keeps(x, [c, f])) == Filter([f], x => Pass1Keeps(x, [c, f]));
    }
    assert !Pass2Removes(f, [f], "T", mm);
    assert Filter([f], x => Pass2Keeps(x, [f], "T", mm)) == [f] + Filter([], x => Pass2Keeps(x, [f], "T", mm));
  }

  /** The callback-less method inherited, its future-style twin declared by the class:
      both are dropped and the capability is not generated at all. */
  lemma InheritedPairDropsBoth()
    ensures Resolve([Send({"S"}), SendAsync({"T"})], "T", map["send" := [Send({"S"}), SendAsync({"T"})]]) == []
  {
    var c, f := Send({"S"}), SendAsync({"T"});
    var mm := map["send" := [c, f]];
    assert !IsFuture(c) && IsFuture(f) && Overrides(c, f);
    assert Pass1([c, f]) == [f] by {
      assert !Pass1Keeps(c, [c, f]);
      assert Filter([c, f], x => Pass1Keeps(x, [c, f])) == Filter([f], x => Pass1Keeps(x, [c, f]));
    }
    assert Pass2Removes(f, [f], "T", mm) by {
      assert c in Group(mm, "send");
    }
    assert Filter([f], x => Pass2Keeps(x, [f], "T", mm)) == [] + Filter([], x => Pass2Keeps(x, [f], "T", mm));
  }
}

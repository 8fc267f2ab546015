/**
 * The text of one generated method (startMethodTemplate, genInvokeDelegate and
 * genSimpleMethod of AbstractAxleGenerator), and what the generated body does when
 * it runs: forwarding to the delegate, returning `this` for fluent methods, and
 * memoizing the result in a `cached_<n>` field for cache-return methods.
 */
module Body {
  import opened Types
  import opened Text
  import opened Convert

  // ---------------------------------------------------------------------------
  // Calling the delegate

  /** The Java name of the raw type of a stream parameter bridged from a reactive stream. */
  const RxObservable := "rx.Observable"
  const Publisher := "org.reactivestreams.Publisher"

  /** The function mapping each element of a bridged stream back to a delegate object:
      the identity for a type variable, `getDelegate()` otherwise. */
  function StreamAdapter(t: TypeInfo): string
    requires |t.args| > 0
  {
    if t.args[0].variable.Some? then "java.util.function.Function.identity()"
    else "obj -> (" + t.args[0].raw.name + ")obj.getDelegate()"
  }

  /** A parameter whose type is a parameterized `rx.Observable` or `Publisher`. */
  predicate IsBridgedStream(t: TypeInfo) {
    |t.args| > 0 && (t.raw.name == RxObservable || t.raw.name == Publisher)
  }

  /** The argument passed to the delegate for one parameter of the generated method. */
  function ParamArg(m: MethodInfo, p: ParamInfo): string
    requires WellFormed(p.typ)
  {
    var t := p.typ;
    if |t.args| > 0 && t.raw.name == RxObservable then
      SubscribeStream("io.vertx.axle.java.", p.name, StreamAdapter(t))
    else if |t.args| > 0 && t.raw.name == Publisher then
      SubscribeStream("io.vertx.axle.", p.name, StreamAdapter(t))
    else GenConvParam(t, m, p.name)
  }

  /** Adapts a reactive stream parameter into a delegate ReadStream, using the subscriber
      class of package `pkg`. */
  function SubscribeStream(pkg: string, name: string, adapter: string): string {
    pkg + "ReadStreamSubscriber.asReadStream(" + name + "," + adapter + ").resume()"
  }

  /** One argument per parameter, in order. */
  function ParamArgs(m: MethodInfo): (r: seq<string>)
    requires MethodWellFormed(m)
    ensures |r| == |m.params|
    ensures forall i :: 0 <= i < |m.params| ==> r[i] == ParamArg(m, m.params[i])
  {
    seq(|m.params|, i requires 0 <= i < |m.params| => ParamArg(m, m.params[i]))
  }

  /** The receiver of the call: the delegate, or the non-generic interface for a static method. */
  function InvokeTarget(info: ClassInfo, m: MethodInfo): string {
    if m.isStatic then info.nonGenericIface else "delegate"
  }

  /** `receiver.name(arg, arg, ...)`: the call on the delegate API. */
  function InvokeExpr(info: ClassInfo, m: MethodInfo): string
    requires MethodWellFormed(m)
  {
    InvokeTarget(info, m) + "." + m.name + "(" + Join(", ", ParamArgs(m)) + ")"
  }

  /** Joining one more element. */
  lemma JoinStep(sep: string, xs: seq<string>, i: nat)
    requires i < |xs|
    ensures Join(sep, xs[..i + 1]) == if i == 0 then xs[0] else Join(sep, xs[..i]) + sep + xs[i]
  {
    assert xs[..i + 1][..i] == xs[..i];
  }

  /** genInvokeDelegate: builds the call with a StringBuilder, one parameter at a time. */
  method GenInvokeDelegate(info: ClassInfo, m: MethodInfo) returns (r: string)
    requires MethodWellFormed(m)
    ensures r == InvokeExpr(info, m)
  {
    var ret := if m.isStatic then info.nonGenericIface else "delegate";
    ret := ret + "." + m.name + "(";
    ghost var head := ret;
    ghost var args := ParamArgs(m);
    var index := 0;
    while index < |m.params|
      invariant 0 <= index <= |m.params|
      invariant ret == head + Join(", ", args[..index])
    {
      var arg := ParamArg(m, m.params[index]);
      ret := AppendArg(ret, index > 0, arg);
      ArgAppended(head, args, index);
      index := index + 1;
    }
    assert args[..index] == args;
    r := ret + ")";
  }

  /** One step of the StringBuilder: the separator before every argument but the first. */
  function AppendArg(built: string, sep: bool, arg: string): string {
    if sep then built + ", " + arg else built + arg
  }

  lemma ArgAppended(head: string, args: seq<string>, i: nat)
    requires i < |args|
    ensures AppendArg(head + Join(", ", args[..i]), i > 0, args[i]) == head + Join(", ", args[..i + 1])
  {
    JoinStep(", ", args, i);
    if i == 0 {
      assert Join(", ", args[..0]) == "";
      assert head + "" == head;
    }
  }

  /** The parameters' own names, in order. */
  function ParamNames(m: MethodInfo): (r: seq<string>)
    ensures |r| == |m.params|
  {
    seq(|m.params|, i requires 0 <= i < |m.params| => m.params[i].name)
  }

  /** When no parameter needs converting or bridging, the call forwards the parameters
      by name, unchanged and in order. */
  lemma ForwardingUnchanged(info: ClassInfo, m: MethodInfo)
    requires MethodWellFormed(m)
    requires forall i :: 0 <= i < |m.params| ==> !IsBridgedStream(m.params[i].typ) && IsSameType(m.params[i].typ, m)
    ensures InvokeExpr(info, m) == InvokeTarget(info, m) + "." + m.name + "(" + Join(", ", ParamNames(m)) + ")"
  {
    assert ParamArgs(m) == ParamNames(m);
  }

  /** A bridged stream parameter is subscribed to, and then resumed, by name. */
  lemma BridgedStreamArg(m: MethodInfo, p: ParamInfo)
    requires WellFormed(p.typ) && IsBridgedStream(p.typ)
    ensures var a := ParamArg(m, p);
      Contains(a, "ReadStreamSubscriber.asReadStream(" + p.name + ",") && EndsWith(a, ").resume()")
  {
    var pkg := if p.typ.raw.name == RxObservable then "io.vertx.axle.java." else "io.vertx.axle.";
    assert ParamArg(m, p) == SubscribeStream(pkg, p.name, StreamAdapter(p.typ));
    SubscribeStreamShape(pkg, p.name, StreamAdapter(p.typ));
  }

  lemma SubscribeStreamShape(pkg: string, name: string, adapter: string)
    ensures var a := SubscribeStream(pkg, name, adapter);
      Contains(a, "ReadStreamSubscriber.asReadStream(" + name + ",") && EndsWith(a, ").resume()")
  {
    var mid := "ReadStreamSubscriber.asReadStream(" + name + ",";
    assert SubscribeStream(pkg, name, adapter) == pkg + mid + adapter + ").resume()";
    InfixAndSuffix(pkg, mid, adapter, ").resume()");
  }

  lemma InfixAndSuffix(x: string, mid: string, y: string, z: string)
    ensures Contains(x + mid + y + z, mid) && EndsWith(x + mid + y + z, z)
  {
    ContainsInfix(x, mid, y + z);
    assert x + mid + (y + z) == x + mid + y + z;
    EndsWithAppend(x + mid + y, z);
  }

  // ---------------------------------------------------------------------------
  // The method header

  /** `Type name` for each parameter. */
  function ParamDecls(m: MethodInfo): (r: seq<string>)
    ensures |r| == |m.params|
  {
    seq(|m.params|, i requires 0 <= i < |m.params| => GenTypeName(m.params[i].typ) + " " + m.params[i].name)
  }

  /**
   * startMethodTemplate, without documentation: the `@Deprecated()` line for a deprecated
   * method, then the visibility, `static`, the type parameters, the return type, the
   * name and the parameter list.
   */
  function MethodHeader(isPrivate: bool, methodName: string, m: MethodInfo): string {
    (if m.isDeprecated then "  @Deprecated()\n" else "")
    + Signature(isPrivate, methodName, m)
  }

  function Signature(isPrivate: bool, methodName: string, m: MethodInfo): string {
    Declaration(Modifiers(isPrivate, m), GenTypeName(m.returnType), methodName, Join(", ", ParamDecls(m)))
  }

  /** Visibility, `static` and the type parameters, each followed by a space. */
  function Modifiers(isPrivate: bool, m: MethodInfo): (r: string)
    ensures (if isPrivate then "  private " else "  public ") <= r
  {
    Visibility(isPrivate)
    + (if m.isStatic then "static " else "")
    + (if |m.typeParams| > 0 then "<" + Join(", ", m.typeParams) + "> " else "")
  }

  function Visibility(isPrivate: bool): string {
    if isPrivate then "  private " else "  public "
  }

  function Declaration(modifiers: string, returnType: string, methodName: string, params: string): string {
    modifiers + returnType + " " + methodName + "(" + params + ")"
  }

  /** The header declares the method under the given name, with the requested visibility,
      and is annotated deprecated exactly when the method is. */
  lemma MethodHeaderShape(isPrivate: bool, methodName: string, m: MethodInfo)
    ensures var h := MethodHeader(isPrivate, methodName, m);
      && Contains(h, " " + methodName + "(")
      && (m.isDeprecated <==> "  @Deprecated()\n" <= h)
      && (!m.isDeprecated ==> Visibility(isPrivate) <= h)
  {
    var h := MethodHeader(isPrivate, methodName, m);
    var mods := Modifiers(isPrivate, m);
    var rt, ps := GenTypeName(m.returnType), Join(", ", ParamDecls(m));
    var sig := Signature(isPrivate, methodName, m);
    DeclarationNames(mods, rt, methodName, ps);
    assert Visibility(isPrivate) <= sig;
    if m.isDeprecated {
      ContainsSuffix("  @Deprecated()\n", sig, " " + methodName + "(");
    } else {
      assert h == sig;
      assert sig[2] == Visibility(isPrivate)[2] != "  @Deprecated()\n"[2];
    }
  }

  lemma DeclarationNames(modifiers: string, returnType: string, methodName: string, params: string)
    ensures Contains(Declaration(modifiers, returnType, methodName, params), " " + methodName + "(")
    ensures modifiers <= Declaration(modifiers, returnType, methodName, params)
  {
    var mid := " " + methodName + "(";
    assert Declaration(modifiers, returnType, methodName, params) == modifiers + returnType + mid + (params + ")");
    ContainsInfix(modifiers + returnType, mid, params + ")");
  }

  // ---------------------------------------------------------------------------
  // The method body

  /** The statements genSimpleMethod writes into a method body. */
  datatype Stmt =
    | Call(invoke: string)                 // `invoke;`
    | ReturnThis(cast: Option<string>)     // `return this;` or `return (T) this;`
    | ReturnCachedIfSet(slot: nat)         // `if (cached_n != null) { return cached_n; }`
    | AssignRet(typeName: string, value: string)  // `T ret = value;`
    | StoreCache(slot: nat)                // `cached_n = ret;`
    | ReturnRet                            // `return ret;`

  /** A method returns nothing when its return type is named `void`. */
  predicate ReturnsVoid(m: MethodInfo) {
    m.returnType.name == "void"
  }

  /** The method memoizes its result: a cache-return method that is neither fluent nor void. */
  predicate Caches(m: MethodInfo) {
    !m.isFluent && !ReturnsVoid(m) && m.isCacheReturn
  }

  /** The body of a generated method; `slot` is the number of cache fields declared before it. */
  function SimpleMethodBody(m: MethodInfo, invoke: string, slot: nat): seq<Stmt>
    requires WellFormed(m.returnType)
  {
    if m.isFluent then
      [Call(invoke), ReturnThis(if m.returnType.variable.Some? then Some(m.returnType.name) else None)]
    else if ReturnsVoid(m) then
      [Call(invoke)]
    else
      (if m.isCacheReturn then [ReturnCachedIfSet(slot)] else [])
      + [AssignRet(GenTypeName(m.returnType), GenConvReturn(m.returnType, m, invoke))]
      + (if m.isCacheReturn then [StoreCache(slot)] else [])
      + [ReturnRet]
  }

  function CacheField(slot: nat): string {
    "cached_" + NatToString(slot)
  }

  function RenderStmt(s: Stmt): string {
    match s
    case Call(invoke) => "    " + invoke + ";\n"
    case ReturnThis(None) => "    return this;\n"
    case ReturnThis(Some(t)) => "    return (" + t + ") this;\n"
    case ReturnCachedIfSet(k) =>
      "    if (" + CacheField(k) + " != null) {\n" + "      return " + CacheField(k) + ";\n" + "    }\n"
    case AssignRet(t, v) => "    " + t + " ret = " + v + ";\n"
    case StoreCache(k) => "    " + CacheField(k) + " = ret;\n"
    case ReturnRet => "    return ret;\n"
  }

  function RenderStmts(ss: seq<Stmt>): string {
    if ss == [] then "" else RenderStmt(ss[0]) + RenderStmts(ss[1..])
  }

  /** A cache field holds a boxed value: the boxed class of a primitive return type. */
  function BoxedName(primitive: string): string {
    match primitive
    case "boolean" => "java.lang.Boolean"
    case "byte" => "java.lang.Byte"
    case "short" => "java.lang.Short"
    case "int" => "java.lang.Integer"
    case "long" => "java.lang.Long"
    case "float" => "java.lang.Float"
    case "double" => "java.lang.Double"
    case "char" => "java.lang.Character"
    case _ => primitive
  }

  function CachedType(t: TypeInfo): string {
    if t.kind == Primitive then BoxedName(t.name) else GenTypeName(t)
  }

  /** The declaration of the field memoizing the result of `m` in cache slot `slot`. */
  function CacheDecl(m: MethodInfo, slot: nat): string {
    "private" + (if m.isStatic then " static" else "") + " " + CachedType(m.returnType) + " " + CacheField(slot)
  }

  /** The declaration names exactly the field the body reads and writes. */
  lemma CacheDeclNamesField(m: MethodInfo, slot: nat)
    ensures EndsWith(CacheDecl(m, slot), " " + CacheField(slot))
  {
    var d := CacheDecl(m, slot);
    var pre := "private" + (if m.isStatic then " static" else "") + " " + CachedType(m.returnType);
    assert d == pre + (" " + CacheField(slot));
    EndsWithAppend(pre, " " + CacheField(slot));
  }

  /** A field name ending a declaration determines its slot. */
  lemma CacheFieldSuffixInjective(d: string, i: nat, j: nat)
    requires EndsWith(d, " " + CacheField(i)) && EndsWith(d, " " + CacheField(j))
    ensures i == j
  {
    CacheFieldSlot(d, i);
    CacheFieldSlot(d, j);
    NatToStringInjective(i, j);
  }

  /** The slot number is the run of digits a declaration ends with. */
  lemma CacheFieldSlot(d: string, i: nat)
    requires EndsWith(d, " " + CacheField(i))
    ensures TrailingDigits(d) == NatToString(i)
  {
    var a := NatToString(i);
    var p := d[..|d| - |a|];
    assert d == p + a;
    assert p[|p| - 1] == '_';
    TrailingDigitsAfter(p, a);
  }

  // ---------------------------------------------------------------------------
  // What the generated body does

  /** What a variable of the generated code can hold: `null`, the object itself, or
      some other object. */
  datatype Val = Null | This | Obj(id: nat)

  /** The end of one run: the value returned (None for a void method), the cache fields
      (an absent slot is a field still `null`) and the number of delegate calls made. */
  datatype Outcome = Outcome(returned: Option<Val>, cache: map<nat, Val>, calls: nat)

  /** Runs a body whose delegate call (converted) yields `result`. */
  function Run(body: seq<Stmt>, cache: map<nat, Val>, result: Val, ret: Val, calls: nat): Outcome
    decreases |body|
  {
    if body == [] then Outcome(None, cache, calls)
    else
      var rest := body[1..];
      match body[0]
      case Call(_) => Run(rest, cache, result, ret, calls + 1)
      case ReturnThis(_) => Outcome(Some(This), cache, calls)
      case ReturnCachedIfSet(k) =>
        if k in cache && cache[k] != Null then Outcome(Some(cache[k]), cache, calls)
        else Run(rest, cache, result, ret, calls)
      case AssignRet(_, _) => Run(rest, cache, result, result, calls + 1)
      case StoreCache(k) => Run(rest, cache[k := ret], result, ret, calls)
      case ReturnRet => Outcome(Some(ret), cache, calls)
  }

  function Execute(body: seq<Stmt>, cache: map<nat, Val>, result: Val): Outcome {
    Run(body, cache, result, Null, 0)
  }

  /** A fluent method calls the delegate once and returns the object itself. */
  lemma FluentReturnsThis(m: MethodInfo, invoke: string, slot: nat, cache: map<nat, Val>, result: Val)
    requires WellFormed(m.returnType) && m.isFluent
    ensures Execute(SimpleMethodBody(m, invoke, slot), cache, result) == Outcome(Some(This), cache, 1)
  {
    var body := SimpleMethodBody(m, invoke, slot);
    assert body[0] == Call(invoke) && body[1..] == [body[1]] && body[1].ReturnThis?;
    assert Run(body, cache, result, Null, 0) == Run(body[1..], cache, result, Null, 1);
  }

  /** A void method calls the delegate once and returns nothing. */
  lemma VoidCallsOnce(m: MethodInfo, invoke: string, slot: nat, cache: map<nat, Val>, result: Val)
    requires WellFormed(m.returnType) && !m.isFluent && ReturnsVoid(m)
    ensures Execute(SimpleMethodBody(m, invoke, slot), cache, result) == Outcome(None, cache, 1)
  {
    var body := SimpleMethodBody(m, invoke, slot);
    assert body == [Call(invoke)] && body[1..] == [];
    assert Run(body, cache, result, Null, 0) == Run([], cache, result, Null, 1);
  }

  /** Any other method without caching calls the delegate once and returns the converted
      result, touching no cache field. */
  lemma PlainReturnsResult(m: MethodInfo, invoke: string, slot: nat, cache: map<nat, Val>, result: Val)
    requires WellFormed(m.returnType) && !m.isFluent && !ReturnsVoid(m) && !m.isCacheReturn
    ensures Execute(SimpleMethodBody(m, invoke, slot), cache, result) == Outcome(Some(result), cache, 1)
  {
    var body := SimpleMethodBody(m, invoke, slot);
    assert body[0].AssignRet? && body[1..] == [ReturnRet];
    assert Run(body, cache, result, Null, 0) == Run([ReturnRet], cache, result, result, 1);
  }

  /** A cache-return method whose field is still null calls the delegate once, stores the
      result in its own field only, and returns it. */
  lemma CacheMiss(m: MethodInfo, invoke: string, slot: nat, cache: map<nat, Val>, result: Val)
    requires WellFormed(m.returnType) && Caches(m)
    requires slot !in cache || cache[slot] == Null
    ensures Execute(SimpleMethodBody(m, invoke, slot), cache, result) == Outcome(Some(result), cache[slot := result], 1)
  {
    var body := SimpleMethodBody(m, invoke, slot);
    var a := AssignRet(GenTypeName(m.returnType), GenConvReturn(m.returnType, m, invoke));
    assert body == [ReturnCachedIfSet(slot), a, StoreCache(slot), ReturnRet];
    assert body[1..] == [a, StoreCache(slot), ReturnRet];
    assert body[1..][1..] == [StoreCache(slot), ReturnRet];
    assert body[1..][1..][1..] == [ReturnRet];
    assert Run(body, cache, result, Null, 0) == Run(body[1..], cache, result, Null, 0);
    assert Run(body[1..], cache, result, Null, 0) == Run([StoreCache(slot), ReturnRet], cache, result, result, 1);
    assert Run([StoreCache(slot), ReturnRet], cache, result, result, 1)
        == Run([ReturnRet], cache[slot := result], result, result, 1);
  }

  /** A cache-return method whose field is set returns the field without calling the delegate. */
  lemma CacheHit(m: MethodInfo, invoke: string, slot: nat, cache: map<nat, Val>, result: Val)
    requires WellFormed(m.returnType) && Caches(m)
    requires slot in cache && cache[slot] != Null
    ensures Execute(SimpleMethodBody(m, invoke, slot), cache, result) == Outcome(Some(cache[slot]), cache, 0)
  {
    var body := SimpleMethodBody(m, invoke, slot);
    assert body[0] == ReturnCachedIfSet(slot);
    assert Run(body, cache, result, Null, 0) == Outcome(Some(cache[slot]), cache, 0);
  }

  /** Memoization: after a first call that yields a non-null value, every later call
      returns that same value and never calls the delegate again. A null result is not
      remembered: the next call asks the delegate again. */
  lemma CacheMemoizes(m: MethodInfo, invoke: string, slot: nat, cache: map<nat, Val>, first: Val, later: Val)
    requires WellFormed(m.returnType) && Caches(m)
    requires slot !in cache || cache[slot] == Null
    ensures var body := SimpleMethodBody(m, invoke, slot);
      var o1 := Execute(body, cache, first);
      var o2 := Execute(body, o1.cache, later);
      && o1.returned == Some(first)
      && (first != Null ==> o2 == Outcome(Some(first), o1.cache, 0))
      && (first == Null ==> o2.calls == 1 && o2.returned == Some(later))
  {
    var body := SimpleMethodBody(m, invoke, slot);
    CacheMiss(m, invoke, slot, cache, first);
    var o1 := Execute(body, cache, first);
    if first != Null {
      CacheHit(m, invoke, slot, o1.cache, later);
    } else {
      CacheMiss(m, invoke, slot, o1.cache, later);
    }
  }

  /** A method only ever writes its own cache field. */
  lemma CacheSlotIsolation(m: MethodInfo, invoke: string, slot: nat, cache: map<nat, Val>, result: Val, other: nat)
    requires WellFormed(m.returnType) && other != slot
    ensures var o := Execute(SimpleMethodBody(m, invoke, slot), cache, result);
      (other in o.cache <==> other in cache) && (other in cache ==> o.cache[other] == cache[other])
  {
    if m.isFluent {
      FluentReturnsThis(m, invoke, slot, cache, result);
    } else if ReturnsVoid(m) {
      VoidCallsOnce(m, invoke, slot, cache, result);
    } else if !m.isCacheReturn {
      PlainReturnsResult(m, invoke, slot, cache, result);
    } else if slot !in cache || cache[slot] == Null {
      CacheMiss(m, invoke, slot, cache, result);
    } else {
      CacheHit(m, invoke, slot, cache, result);
    }
  }
}

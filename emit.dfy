/**
 * The generator's emitters, statement by statement: each prints to the Writer and,
 * for the method emitters, appends to the shared `cacheDecls` list. Every emitter is
 * proved to print exactly the text Layout gives for the members it writes.
 *
 * The `Write...` methods print one fixed fragment of a source method; the `Gen...`
 * methods are the source's own generators, put together from them.
 */
module Emit {
  import opened Types
  import opened Text
  import opened Convert
  import opened Body
  import opened Overrides
  import opened Output
  import opened Layout

  // ---------------------------------------------------------------------------
  // One method

  /** genSimpleMethod: the header, then `;` for a declaration, or the forwarding body;
      a memoizing method takes the next cache slot and records its field. */
  method GenSimpleMethod(decl: bool, info: ClassInfo, isPrivate: bool, methodName: string, m: MethodInfo,
                         cacheDecls: StringList, w: Writer)
    requires MethodWellFormed(m)
    modifies w, cacheDecls
    ensures w.out == old(w.out) + SimpleChunks(info, decl, isPrivate, methodName, m, |old(cacheDecls.items)|)
    ensures cacheDecls.items == old(cacheDecls.items) + CacheAdded(decl, m, |old(cacheDecls.items)|)
  {
    ghost var o := w.out;
    var header := MethodHeader(isPrivate, methodName, m);
    w.Print(header);
    if decl {
      w.Println(";");
      Assoc3(o, [Text(header)], DeclEnd());
      return;
    }
    GenForwardingBody(info, m, cacheDecls, w);
    Assoc3(o, [Text(header)], BodyChunks(info, m, |old(cacheDecls.items)|));
  }

  /** The body of a generated method: the statements forwarding to the delegate, taking the
      next cache slot for a memoizing method. */
  method GenForwardingBody(info: ClassInfo, m: MethodInfo, cacheDecls: StringList, w: Writer)
    requires MethodWellFormed(m)
    modifies w, cacheDecls
    ensures w.out == old(w.out) + BodyChunks(info, m, |old(cacheDecls.items)|)
    ensures cacheDecls.items == old(cacheDecls.items) + CacheAdded(false, m, |old(cacheDecls.items)|)
  {
    ghost var o := w.out;
    w.Println(" { ");
    var invoke := GenInvokeDelegate(info, m);
    var slot := |cacheDecls.items|;
    var body := RenderStmts(SimpleMethodBody(m, invoke, slot));
    w.Print(body);
    if Caches(m) {
      cacheDecls.Add(CacheDecl(m, slot));
    }
    w.Println("  }");
    w.EndLine();
    Assoc5(o, [Text(" { "), NewLine], [Text(body)], [Text("  }"), NewLine], [NewLine]);
  }

  /** genMethod: FUTURE and HANDLER methods become a private `__name` method plus the hook's form. */
  method GenMethod(info: ClassInfo, m: MethodInfo, cacheDecls: StringList, w: Writer)
    requires MethodWellFormed(m)
    modifies w, cacheDecls
    ensures w.out == old(w.out) + MethodChunks(info, m, |old(cacheDecls.items)|)
    ensures cacheDecls.items == old(cacheDecls.items) + CacheAdded(false, m, |old(cacheDecls.items)|)
  {
    ghost var o, slot := w.out, |cacheDecls.items|;
    match KindOf(m)
    case FutureMethod =>
      GenSimpleMethod(false, info, true, "__" + m.name, m, cacheDecls, w);
      w.Call(CSMethod(false, m));
      Assoc3(o, SimpleChunks(info, false, true, "__" + m.name, m, slot), [Hook(CSMethod(false, m))]);
    case HandlerMethod =>
      GenSimpleMethod(false, info, true, "__" + m.name, m, cacheDecls, w);
      w.Call(ConsumerMethod(false, m));
      Assoc3(o, SimpleChunks(info, false, true, "__" + m.name, m, slot), [Hook(ConsumerMethod(false, m))]);
    case OtherMethod =>
      GenSimpleMethod(false, info, false, m.name, m, cacheDecls, w);
  }

  /** genMethodDecl, with the empty list the abstract class passes as `cacheDecls`. */
  method GenMethodDecl(info: ClassInfo, m: MethodInfo, w: Writer)
    requires MethodWellFormed(m)
    modifies w
    ensures w.out == old(w.out) + MethodDeclChunks(info, m)
  {
    match KindOf(m)
    case FutureMethod =>
      w.Call(CSMethod(true, m));
    case HandlerMethod =>
      w.Call(ConsumerMethod(true, m));
    case OtherMethod =>
      var none := new StringList();
      GenSimpleMethod(true, info, false, m.name, m, none, w);
  }

  /** genConstant: `public static final` only in a concrete class. */
  method GenConstant(info: ClassInfo, c: ConstantInfo, w: Writer)
    requires WellFormed(c.typ)
    modifies w
    ensures w.out == old(w.out) + ConstantChunks(info, c)
  {
    w.Print(if info.concrete then "  public static final" else "");
    w.Println(ConstantLine(info, c));
  }

  // ---------------------------------------------------------------------------
  // Fragments of generateClassBody and of the constructor generators

  method WriteTypeArgConstant(simpleName: string, typeName: string, w: Writer)
    modifies w
    ensures w.out == old(w.out) + TypeArgConstantChunks(simpleName, typeName)
  {
    ghost var o := w.out;
    w.Print("  public static final io.vertx.lang.axle.TypeArg<");
    w.Print(simpleName);
    w.Print("> __TYPE_ARG = new io.vertx.lang.axle.TypeArg<>(");
    assert w.out == o + TypeArgDecl(simpleName);
    w.Print("    obj -> new ");
    w.Print(simpleName);
    w.Print("((");
    w.Print(typeName);
    w.Println(") obj),");
    Assoc3(o, TypeArgDecl(simpleName), TypeArgWrap(simpleName, typeName));
    ghost var p := TypeArgDecl(simpleName) + TypeArgWrap(simpleName, typeName);
    w.Print("    ");
    w.Print(simpleName);
    w.Println("::getDelegate");
    w.Println("  );");
    w.EndLine();
    Assoc3(o, p, TypeArgUnwrap(simpleName));
  }

  method WriteDelegateField(iface: string, typeParams: seq<string>, w: Writer)
    modifies w
    ensures w.out == old(w.out) + DelegateFieldChunks(iface, typeParams)
  {
    w.Print("  private final ");
    w.Print(iface);
    if |typeParams| > 0 {
      w.Print(GenOptTypeParamsDecl(typeParams, ""));
    }
    w.Println(" delegate;");
  }

  method WriteTokenField(param: string, i: nat, w: Writer)
    modifies w
    ensures w.out == old(w.out) + TokenFieldChunks(param, i)
  {
    w.Print("  public final io.vertx.lang.axle.TypeArg<");
    w.Print(param);
    w.Print("> __typeArg_");
    w.Print(NatToString(i));
    w.Println(";");
  }

  /** The statements after `super(...)`: the delegate, then the closing brace. */
  method WriteDelegateInit(callsSuper: bool, w: Writer)
    modifies w
    ensures w.out == old(w.out) + DelegateInit(callsSuper)
  {
    if callsSuper {
      w.Println("    super(delegate);");
    }
    w.Println("    this.delegate = delegate;");
  }

  method WriteNullInit(callsSuper: bool, w: Writer)
    modifies w
    ensures w.out == old(w.out) + NullInit(callsSuper)
  {
    if callsSuper {
      w.Println("    super(null);");
    }
    w.Println("    this.delegate = null;");
  }

  method WriteCtorClose(w: Writer)
    modifies w
    ensures w.out == old(w.out) + CtorClose()
  {
    w.Println("  }");
    w.EndLine();
  }

  method WriteParamsClose(w: Writer)
    modifies w
    ensures w.out == old(w.out) + ParamsClose()
  {
    w.Println(") {");
  }

  method WriteUnknownToken(i: nat, w: Writer)
    modifies w
    ensures w.out == old(w.out) + UnknownToken(i)
  {
    w.Print("    this.__typeArg_");
    w.Print(NatToString(i));
    w.Print(" = io.vertx.lang.axle.TypeArg.unknown();");
  }

  /** The loop giving each of the first `n` tokens the unknown type argument. */
  method WriteUnknownTokens(n: nat, w: Writer)
    modifies w
    ensures w.out == old(w.out) + Repeat(UnknownToken, n)
  {
    ghost var o := w.out;
    var i := 0;
    while i < n
      invariant 0 <= i <= n
      invariant w.out == o + Repeat(UnknownToken, i)
    {
      WriteUnknownToken(i, w);
      Assoc3(o, Repeat(UnknownToken, i), UnknownToken(i));
      i := i + 1;
    }
  }

  method WriteTokenParam(typeParams: seq<string>, i: nat, w: Writer)
    requires i < |typeParams|
    modifies w
    ensures w.out == old(w.out) + TokenParam(typeParams)(i)
  {
    w.Print(", io.vertx.lang.axle.TypeArg<");
    w.Print(typeParams[i]);
    w.Print("> typeArg_");
    w.Print(NatToString(i));
  }

  method WriteTokenAssign(i: nat, w: Writer)
    modifies w
    ensures w.out == old(w.out) + TokenAssign(i)
  {
    w.Print("    this.__typeArg_");
    w.Print(NatToString(i));
    w.Print(" = typeArg_");
    w.Print(NatToString(i));
    w.Println(";");
  }

  method WriteDelegateConstructorOpen(ctor: string, iface: string, w: Writer)
    modifies w
    ensures w.out == old(w.out) + DelegateConstructorOpen(ctor, iface)
  {
    w.Print("  public ");
    w.Print(ctor);
    w.Print("(");
    w.Print(iface);
    w.Println(" delegate) {");
  }

  method WriteGenericConstructorOpen(ctor: string, iface: string, w: Writer)
    modifies w
    ensures w.out == old(w.out) + GenericConstructorOpen(ctor, iface)
  {
    w.Print("  public ");
    w.Print(ctor);
    w.Print("(");
    w.Print(iface);
    w.Print(" delegate");
  }

  method WriteEmptyConstructorOpen(ctor: string, w: Writer)
    modifies w
    ensures w.out == old(w.out) + EmptyConstructorOpen(ctor)
  {
    w.Println("  /**");
    w.Println("  * Empty constructor used by CDI, do not use this constructor directly.");
    w.Println("  **/");
    w.Print("  ");
    w.Print(ctor);
    w.Print("() {");
  }

  method WriteGetDelegate(typeName: string, w: Writer)
    modifies w
    ensures w.out == old(w.out) + GetDelegateChunks(typeName)
  {
    w.Print("  public ");
    w.Print(typeName);
    w.Println(" getDelegate() {");
    w.Println("    return delegate;");
    w.Println("  }");
    w.EndLine();
  }

  // ---------------------------------------------------------------------------
  // Fields and constructors (generateClassBody and the three constructor generators)

  /** The delegate field, one type-argument token field per class type parameter, a blank line. */
  method GenFields(info: ClassInfo, w: Writer)
    modifies w
    ensures w.out == old(w.out) + RenderMembers(Fields(info))
  {
    var typeParams := info.typeParams;
    ghost var o := w.out;
    WriteDelegateField(info.nonGenericIface, typeParams, w);
    ghost var p := DelegateFieldChunks(info.nonGenericIface, typeParams);
    ghost var tokens := TokenFields(typeParams);
    var i := 0;
    while i < |typeParams|
      invariant 0 <= i <= |typeParams|
      invariant w.out == o + p + RenderMembers(tokens[..i])
    {
      WriteTokenField(typeParams[i], i, w);
      RenderTokenFieldsStep(typeParams, i);
      Assoc3(o + p, RenderMembers(tokens[..i]), TokenFieldChunks(typeParams[i], i));
      i := i + 1;
    }
    assert tokens[..i] == tokens;
    w.Println("  ");
    RenderFieldsParts(info);
    Assoc4(o, p, RenderMembers(tokens), FieldsEndChunks());
  }

  /** generateConstructorWithDelegateParameter: every token starts out unknown. */
  method GenerateConstructorWithDelegateParameter(info: ClassInfo, ctor: string, w: Writer)
    modifies w
    ensures w.out == old(w.out) + RenderMembers([DelegateConstructor(ctor, info.nonGenericIface, CallsSuper(info), |info.typeParams|)])
  {
    ghost var o := w.out;
    var open := DelegateConstructorOpen(ctor, info.nonGenericIface);
    WriteDelegateConstructorOpen(ctor, info.nonGenericIface, w);
    WriteDelegateInit(CallsSuper(info), w);
    Assoc3(o, open, DelegateInit(CallsSuper(info)));
    ghost var p := open + DelegateInit(CallsSuper(info));
    WriteUnknownTokens(|info.typeParams|, w);
    Assoc3(o, p, Repeat(UnknownToken, |info.typeParams|));
    p := p + Repeat(UnknownToken, |info.typeParams|);
    WriteCtorClose(w);
    Assoc3(o, p, CtorClose());
    RenderDelegateConstructor(ctor, info.nonGenericIface, CallsSuper(info), |info.typeParams|);
  }

  /** The loop declaring one `TypeArg<T> typeArg_i` parameter per type parameter. */
  method WriteTokenParams(typeParams: seq<string>, w: Writer)
    modifies w
    ensures w.out == old(w.out) + Repeat(TokenParam(typeParams), |typeParams|)
  {
    ghost var o := w.out;
    var i := 0;
    while i < |typeParams|
      invariant 0 <= i <= |typeParams|
      invariant w.out == o + Repeat(TokenParam(typeParams), i)
    {
      WriteTokenParam(typeParams, i, w);
      Assoc3(o, Repeat(TokenParam(typeParams), i), TokenParam(typeParams)(i));
      i := i + 1;
    }
  }

  /** The loop storing each token parameter in its field. */
  method WriteTokenAssigns(n: nat, w: Writer)
    modifies w
    ensures w.out == old(w.out) + Repeat(TokenAssign, n)
  {
    ghost var o := w.out;
    var i := 0;
    while i < n
      invariant 0 <= i <= n
      invariant w.out == o + Repeat(TokenAssign, i)
    {
      WriteTokenAssign(i, w);
      Assoc3(o, Repeat(TokenAssign, i), TokenAssign(i));
      i := i + 1;
    }
  }

  /** generateConstructorWithGenericType: one token parameter per type parameter, each stored. */
  method GenerateConstructorWithGenericType(info: ClassInfo, ctor: string, w: Writer)
    requires |info.typeParams| > 0
    modifies w
    ensures w.out == old(w.out) + RenderMembers(GenericConstructors(info, ctor))
  {
    var typeParams := info.typeParams;
    ghost var o := w.out;
    WriteGenericConstructorOpen(ctor, info.nonGenericIface, w);
    ghost var p := GenericConstructorOpen(ctor, info.nonGenericIface);
    WriteTokenParams(typeParams, w);
    Assoc3(o, p, Repeat(TokenParam(typeParams), |typeParams|));
    p := p + Repeat(TokenParam(typeParams), |typeParams|);
    WriteParamsClose(w);
    Assoc3(o, p, ParamsClose());
    p := p + ParamsClose();
    WriteDelegateInit(CallsSuper(info), w);
    Assoc3(o, p, DelegateInit(CallsSuper(info)));
    p := p + DelegateInit(CallsSuper(info));
    WriteTokenAssigns(|typeParams|, w);
    Assoc3(o, p, Repeat(TokenAssign, |typeParams|));
    p := p + Repeat(TokenAssign, |typeParams|);
    WriteCtorClose(w);
    Assoc3(o, p, CtorClose());
    RenderGenericConstructor(ctor, info.nonGenericIface, CallsSuper(info), typeParams);
  }

  /** generateEmptyConstructor: a null delegate, unknown tokens, then `getDelegate()`. */
  method GenerateEmptyConstructor(info: ClassInfo, ctor: string, w: Writer)
    modifies w
    ensures w.out == old(w.out) + RenderMembers([EmptyConstructor(ctor, CallsSuper(info), |info.typeParams|, info.typeName)])
  {
    ghost var o := w.out;
    WriteEmptyConstructorOpen(ctor, w);
    ghost var p := EmptyConstructorOpen(ctor);
    WriteNullInit(CallsSuper(info), w);
    Assoc3(o, p, NullInit(CallsSuper(info)));
    p := p + NullInit(CallsSuper(info));
    WriteUnknownTokens(|info.typeParams|, w);
    Assoc3(o, p, Repeat(UnknownToken, |info.typeParams|));
    p := p + Repeat(UnknownToken, |info.typeParams|);
    WriteCtorClose(w);
    Assoc3(o, p, CtorClose());
    p := p + CtorClose();
    WriteGetDelegate(info.typeName, w);
    Assoc3(o, p, GetDelegateChunks(info.typeName));
    RenderEmptyConstructor(ctor, CallsSuper(info), |info.typeParams|, info.typeName);
  }

  /** The three constructors, the generic one only for a generic type. */
  method GenConstructors(info: ClassInfo, ctor: string, w: Writer)
    modifies w
    ensures w.out == old(w.out) + RenderMembers(Constructors(info, ctor))
  {
    ghost var o := w.out;
    GenerateConstructorWithDelegateParameter(info, ctor, w);
    ghost var o1 := w.out;
    if |info.typeParams| > 0 {
      GenerateConstructorWithGenericType(info, ctor, w);
    }
    assert w.out == o1 + RenderMembers(GenericConstructors(info, ctor));
    GenerateEmptyConstructor(info, ctor, w);
    RenderConstructorsParts(info, ctor);
    Assoc4(o, RenderMembers([DelegateConstructor(ctor, info.nonGenericIface, CallsSuper(info), |info.typeParams|)]),
           RenderMembers(GenericConstructors(info, ctor)),
           RenderMembers([EmptyConstructor(ctor, CallsSuper(info), |info.typeParams|, info.typeName)]));
  }

  /** Everything generateClassBody writes before the methods. */
  method GenBodyPrologue(info: ClassInfo, ctor: string, w: Writer)
    modifies w
    ensures w.out == old(w.out) + RenderMembers(BodyPrologue(info, ctor))
  {
    ghost var o := w.out;
    if info.concrete {
      WriteTypeArgConstant(info.simpleName, info.typeName, w);
      RenderTypeArgConstant(info.simpleName, info.typeName);
    }
    assert w.out == o + RenderMembers(TypeArgMembers(info));
    GenFields(info, w);
    GenConstructors(info, ctor, w);
    ghost var o3 := w.out;
    if info.readStreamArg.Some? {
      w.Call(ToObservable(info.readStreamArg.value));
      RenderObservableHook(info.readStreamArg.value);
    }
    assert w.out == o3 + RenderMembers(ObservableMembers(info));
    RenderPrologueParts(info, ctor);
    Assoc5(o, RenderMembers(TypeArgMembers(info)), RenderMembers(Fields(info)), RenderMembers(Constructors(info, ctor)),
           RenderMembers(ObservableMembers(info)));
  }

  // ---------------------------------------------------------------------------
  // generateClassBody

  /** One pass of the loop over the generated methods: method `k` after the first `k`. */
  method GenMethodStep(info: ClassInfo, ms: seq<MethodInfo>, k: nat, ghost o: seq<Chunk>, cacheDecls: StringList, w: Writer)
    requires AllMethodsOk(ms) && k < |ms|
    requires AllOk(GeneratedMethods(info, ms)[..k])
    requires w.out == o + RenderMembers(GeneratedMethods(info, ms)[..k])
    requires cacheDecls.items == CacheDeclsOf(ms[..k])
    modifies w, cacheDecls
    ensures AllOk(GeneratedMethods(info, ms)[..k + 1])
    ensures w.out == o + RenderMembers(GeneratedMethods(info, ms)[..k + 1])
    ensures cacheDecls.items == CacheDeclsOf(ms[..k + 1])
  {
    ghost var gen := GeneratedMethods(info, ms);
    RenderGeneratedStep(info, ms, k);
    assert ms[..k + 1][..k] == ms[..k];
    GenMethod(info, ms[k], cacheDecls, w);
    Assoc3(o, RenderMembers(gen[..k]), MethodChunks(info, ms[k], CachingCount(ms[..k])));
  }

  /** The loop over the generated methods, all sharing one `cacheDecls` list. */
  method GenAllMethods(info: ClassInfo, ms: seq<MethodInfo>, cacheDecls: StringList, w: Writer)
    requires AllMethodsOk(ms) && cacheDecls.items == []
    modifies w, cacheDecls
    ensures w.out == old(w.out) + RenderMembers(GeneratedMethods(info, ms))
    ensures cacheDecls.items == CacheDeclsOf(ms)
  {
    ghost var gen := GeneratedMethods(info, ms);
    ghost var o := w.out;
    var k: nat := 0;
    while k < |ms|
      invariant k <= |ms|
      invariant AllOk(gen[..k])
      invariant w.out == o + RenderMembers(gen[..k])
      invariant cacheDecls.items == CacheDeclsOf(ms[..k])
    {
      GenMethodStep(info, ms, k, o, cacheDecls, w);
      k := k + 1;
    }
    assert gen[..k] == gen && ms[..k] == ms;
  }

  method GenConstants(info: ClassInfo, w: Writer)
    requires ClassWellFormed(info)
    modifies w
    ensures w.out == old(w.out) + RenderMembers(Constants(info, info.constants))
  {
    ghost var cons := Constants(info, info.constants);
    ghost var o := w.out;
    var k := 0;
    while k < |info.constants|
      invariant 0 <= k <= |info.constants|
      invariant w.out == o + RenderMembers(cons[..k])
    {
      GenConstant(info, info.constants[k], w);
      RenderConstantsStep(info, info.constants, k);
      Assoc3(o, RenderMembers(cons[..k]), ConstantChunks(info, info.constants[k]));
      k := k + 1;
    }
    assert cons[..k] == cons;
  }

  /** The cache fields, in the order the methods asked for them. */
  method GenCacheFields(items: seq<string>, w: Writer)
    modifies w
    ensures w.out == old(w.out) + RenderMembers(CacheFields(items))
  {
    ghost var fields := CacheFields(items);
    ghost var o := w.out;
    var k := 0;
    while k < |items|
      invariant 0 <= k <= |items|
      invariant w.out == o + RenderMembers(fields[..k])
    {
      w.Print("  ");
      w.Print(items[k]);
      w.Println(";");
      RenderCacheFieldsStep(items, k);
      Assoc3(o, RenderMembers(fields[..k]), CacheFieldChunks(items[k]));
      k := k + 1;
    }
    assert fields[..k] == fields;
  }

  /** generateClassBody: the prologue, every generated method, the constants, and last the
      cache fields the methods asked for. */
  method GenerateClassBody(model: ClassModel, ctor: string, w: Writer)
    requires ClassWellFormed(model.info) && AllMethodsOk(model.methods) && AllMethodsOk(model.anyJavaTypeMethods)
    modifies model, w
    ensures model.methods == Resolve(old(model.methods), model.info.typeName, model.info.methodMap)
    ensures model.anyJavaTypeMethods == Resolve(old(model.anyJavaTypeMethods), model.info.typeName, model.info.methodMap)
    ensures AllMethodsOk(GenMethods(model.info, old(model.methods), old(model.anyJavaTypeMethods)))
    ensures w.out == old(w.out) + RenderMembers(BodyLayout(model.info, ctor,
                                                GenMethods(model.info, old(model.methods), old(model.anyJavaTypeMethods))))
  {
    var info := model.info;
    GenMethodsOk(info, model.methods, model.anyJavaTypeMethods);
    ghost var o := w.out;
    GenBodyPrologue(info, ctor, w);
    var cacheDecls := new StringList();
    var ms := GetGenMethods(model);
    GenAllMethods(info, ms, cacheDecls, w);
    GenConstants(info, w);
    GenCacheFields(cacheDecls.items, w);
    RenderBodyParts(info, ctor, ms);
    Assoc5(o, RenderMembers(BodyPrologue(info, ctor)), RenderMembers(GeneratedMethods(info, ms)),
           RenderMembers(Constants(info, info.constants)), RenderMembers(CacheFields(CacheDeclsOf(ms))));
  }

  // ---------------------------------------------------------------------------
  // generateClass, from the members on

  method WriteToString(w: Writer)
    modifies w
    ensures w.out == old(w.out) + ForwardingMethodChunks("  public String toString() {", "    return delegate.toString();")
  {
    w.Println("  @Override");
    w.Println("  public String toString() {");
    w.Println("    return delegate.toString();");
    w.Println("  }");
    w.EndLine();
  }

  method WriteEquals(simpleName: string, w: Writer)
    modifies w
    ensures w.out == old(w.out) + EqualsChunks(simpleName)
  {
    ghost var o := w.out;
    ghost var head := [Text("  @Override"), NewLine, Text("  public boolean equals(Object o) {"), NewLine,
                      Text("    if (this == o) return true;"), NewLine,
                      Text("    if (o == null || getClass() != o.getClass()) return false;"), NewLine];
    ghost var cast := [Text("    "), Text(simpleName), Text(" that = ("), Text(simpleName), Text(") o;"), NewLine];
    ghost var tail := [Text("    return delegate.equals(that.delegate);"), NewLine, Text("  }"), NewLine, Text("  "), NewLine];
    WriteEqualsHead(w);
    WriteEqualsCast(simpleName, w);
    Assoc3(o, head, cast);
    WriteEqualsTail(w);
    Assoc3(o, head + cast, tail);
  }

  method WriteEqualsHead(w: Writer)
    modifies w
    ensures w.out == old(w.out) + [Text("  @Override"), NewLine, Text("  public boolean equals(Object o) {"), NewLine,
                                  Text("    if (this == o) return true;"), NewLine,
                                  Text("    if (o == null || getClass() != o.getClass()) return false;"), NewLine]
  {
    w.Println("  @Override");
    w.Println("  public boolean equals(Object o) {");
    w.Println("    if (this == o) return true;");
    w.Println("    if (o == null || getClass() != o.getClass()) return false;");
  }

  method WriteEqualsCast(simpleName: string, w: Writer)
    modifies w
    ensures w.out == old(w.out) + [Text("    "), Text(simpleName), Text(" that = ("), Text(simpleName), Text(") o;"), NewLine]
  {
    w.Print("    ");
    w.Print(simpleName);
    w.Print(" that = (");
    w.Print(simpleName);
    w.Println(") o;");
  }

  method WriteEqualsTail(w: Writer)
    modifies w
    ensures w.out == old(w.out) + [Text("    return delegate.equals(that.delegate);"), NewLine, Text("  }"), NewLine, Text("  "), NewLine]
  {
    w.Println("    return delegate.equals(that.delegate);");
    w.Println("  }");
    w.Println("  ");
  }

  method WriteHashCode(w: Writer)
    modifies w
    ensures w.out == old(w.out) + ForwardingMethodChunks("  public int hashCode() {", "    return delegate.hashCode();")
  {
    w.Println("  @Override");
    w.Println("  public int hashCode() {");
    w.Println("    return delegate.hashCode();");
    w.Println("  }");
    w.EndLine();
  }

  /** `toString` forwarding to the delegate, unless the type declares one without parameters. */
  method GenToStringUnlessDeclared(methods: seq<MethodInfo>, w: Writer)
    modifies w
    ensures w.out == old(w.out) + RenderMembers(ToStringMembers(methods))
  {
    if !DeclaresToString(methods) {
      WriteToString(w);
      RenderToString();
    } else {
      assert ToStringMembers(methods) == [];
    }
  }

  /** The identity methods of a concrete class: `toString` unless the type declares one
      without parameters, then `equals` and `hashCode`. */
  method GenIdentityMethods(info: ClassInfo, methods: seq<MethodInfo>, w: Writer)
    modifies w
    ensures w.out == old(w.out) + RenderMembers(IdentityMembers(info, methods))
  {
    ghost var o := w.out;
    GenToStringUnlessDeclared(methods, w);
    WriteEquals(info.simpleName, w);
    RenderEquals(info.simpleName);
    WriteHashCode(w);
    RenderHashCode();
    RenderIdentityParts(info, methods);
    Assoc4(o, RenderMembers(ToStringMembers(methods)), RenderMembers([EqualsMethod(info.simpleName)]),
           RenderMembers([HashCodeMethod]));
  }

  method WriteGetDelegateDecl(typeName: string, w: Writer)
    modifies w
    ensures w.out == old(w.out) + GetDelegateDeclChunks(typeName)
  {
    w.Print("  ");
    w.Print(typeName);
    w.Println(" getDelegate();");
    w.EndLine();
  }

  /** The loop declaring each generated method, with the empty `cacheDecls` list of an interface. */
  method GenMethodDecls(info: ClassInfo, ms: seq<MethodInfo>, w: Writer)
    requires AllMethodsOk(ms)
    modifies w
    ensures w.out == old(w.out) + RenderMembers(MethodDecls(info, ms))
  {
    ghost var o := w.out;
    ghost var decls := MethodDecls(info, ms);
    var k := 0;
    while k < |ms|
      invariant 0 <= k <= |ms|
      invariant w.out == o + RenderMembers(decls[..k])
    {
      GenMethodDecl(info, ms[k], w);
      RenderDeclStep(info, ms, k);
      Assoc3(o, RenderMembers(decls[..k]), MethodDeclChunks(info, ms[k]));
      k := k + 1;
    }
    assert decls[..k] == decls;
  }

  /** genReadStream, called only when the type is ReadStream itself. */
  method GenReadStreamMembers(info: ClassInfo, w: Writer)
    modifies w
    ensures w.out == old(w.out) + RenderMembers(ReadStreamMembers(info))
  {
    if info.rawTypeName == ReadStreamType {
      w.Call(ReadStream(info.typeParams));
      RenderReadStreamHook(info.typeParams);
    } else {
      assert RenderMembers(ReadStreamMembers(info)) == [];
    }
  }

  /** The interface of an abstract class: `getDelegate()`, a declaration per generated method,
      and the ReadStream methods for ReadStream itself. */
  method GenAbstractMembers(info: ClassInfo, ms: seq<MethodInfo>, w: Writer)
    requires AllMethodsOk(ms)
    modifies w
    ensures w.out == old(w.out) + RenderMembers(AbstractMembers(info, ms))
  {
    ghost var o := w.out;
    WriteGetDelegateDecl(info.typeName, w);
    RenderGetDelegateDecl(info.typeName);
    GenMethodDecls(info, ms, w);
    GenReadStreamMembers(info, w);
    RenderAbstractParts(info, ms);
    Assoc4(o, RenderMembers([GetDelegateDecl(info.typeName)]), RenderMembers(MethodDecls(info, ms)),
           RenderMembers(ReadStreamMembers(info)));
  }

  method WriteFactoryHead(simpleName: string, typeName: string, typeParams: seq<string>, w: Writer)
    modifies w
    ensures w.out == old(w.out) + FactoryHead(simpleName, typeName, typeParams)
  {
    w.EndLine();
    w.Print("  public static ");
    w.Print(GenOptTypeParamsDecl(typeParams, " "));
    w.Print(simpleName);
    w.Print(GenOptTypeParamsDecl(typeParams, ""));
    w.Print(" newInstance(");
    w.Print(typeName);
  }

  method WriteNullGuardedNew(simpleName: string, impl: bool, typeParams: seq<string>, w: Writer)
    modifies w
    ensures w.out == old(w.out) + NullGuardedNew(simpleName, impl, typeParams)
  {
    ghost var o := w.out;
    w.Print("    return arg != null ? new ");
    w.Print(simpleName);
    ghost var o1 := w.out;
    if impl {
      w.Print("Impl");
    }
    assert w.out == o1 + ImplSuffix(impl);
    w.Print(GenOptTypeParamsDecl(typeParams, ""));
  }

  method WriteFactoryClose(end: string, w: Writer)
    modifies w
    ensures w.out == old(w.out) + FactoryClose(end)
  {
    w.Println(end);
    w.Println("  }");
  }

  method WriteFactoryParam(typeParams: seq<string>, i: nat, w: Writer)
    requires i < |typeParams|
    modifies w
    ensures w.out == old(w.out) + FactoryParam(typeParams)(i)
  {
    w.Print(", io.vertx.lang.axle.TypeArg<");
    w.Print(typeParams[i]);
    w.Print("> __typeArg_");
    w.Print(typeParams[i]);
  }

  method WriteFactoryArg(typeParams: seq<string>, i: nat, w: Writer)
    requires i < |typeParams|
    modifies w
    ensures w.out == old(w.out) + FactoryArg(typeParams)(i)
  {
    w.Print(", __typeArg_");
    w.Print(typeParams[i]);
  }

  /** `newInstance(arg)`: a new wrapper (of the Impl class for an abstract type), or null. */
  method GenFactory(info: ClassInfo, w: Writer)
    modifies w
    ensures w.out == old(w.out) + RenderMembers([Factory(info.simpleName, info.typeName, !info.concrete, info.typeParams)])
  {
    var sn, tn, impl, tps := info.simpleName, info.typeName, !info.concrete, info.typeParams;
    ghost var o := w.out;
    WriteFactoryHead(sn, tn, tps, w);
    w.Println(" arg) {");
    Assoc3(o, FactoryHead(sn, tn, tps), FactoryOpen());
    ghost var p := FactoryHead(sn, tn, tps) + FactoryOpen();
    WriteNullGuardedNew(sn, impl, tps, w);
    Assoc3(o, p, NullGuardedNew(sn, impl, tps));
    p := p + NullGuardedNew(sn, impl, tps);
    WriteFactoryClose("(arg) : null;", w);
    Assoc3(o, p, FactoryClose("(arg) : null;"));
    RenderFactory(sn, tn, impl, tps);
  }

  /** The loop adding a token parameter per type parameter to the generic factory. */
  method WriteFactoryParams(typeParams: seq<string>, w: Writer)
    modifies w
    ensures w.out == old(w.out) + Repeat(FactoryParam(typeParams), |typeParams|)
  {
    ghost var o := w.out;
    var i := 0;
    while i < |typeParams|
      invariant 0 <= i <= |typeParams|
      invariant w.out == o + Repeat(FactoryParam(typeParams), i)
    {
      WriteFactoryParam(typeParams, i, w);
      Assoc3(o, Repeat(FactoryParam(typeParams), i), FactoryParam(typeParams)(i));
      i := i + 1;
    }
  }

  /** The loop passing each token on to the constructor. */
  method WriteFactoryArgs(typeParams: seq<string>, w: Writer)
    modifies w
    ensures w.out == old(w.out) + Repeat(FactoryArg(typeParams), |typeParams|)
  {
    ghost var o := w.out;
    var i := 0;
    while i < |typeParams|
      invariant 0 <= i <= |typeParams|
      invariant w.out == o + Repeat(FactoryArg(typeParams), i)
    {
      WriteFactoryArg(typeParams, i, w);
      Assoc3(o, Repeat(FactoryArg(typeParams), i), FactoryArg(typeParams)(i));
      i := i + 1;
    }
  }

  /** `newInstance(arg, tokens...)`, for a generic type: the tokens are passed on to the constructor. */
  method GenGenericFactory(info: ClassInfo, w: Writer)
    requires |info.typeParams| > 0
    modifies w
    ensures w.out == old(w.out) + RenderMembers(GenericFactories(info))
  {
    var sn, tn, impl, tps := info.simpleName, info.typeName, !info.concrete, info.typeParams;
    ghost var o := w.out;
    WriteFactoryHead(sn, tn, tps, w);
    w.Print(" arg");
    Assoc3(o, FactoryHead(sn, tn, tps), DelegateArg());
    ghost var p := FactoryHead(sn, tn, tps) + DelegateArg();
    WriteFactoryParams(tps, w);
    Assoc3(o, p, Repeat(FactoryParam(tps), |tps|));
    p := p + Repeat(FactoryParam(tps), |tps|);
    WriteParamsClose(w);
    Assoc3(o, p, ParamsClose());
    p := p + ParamsClose();
    WriteNullGuardedNew(sn, impl, tps, w);
    Assoc3(o, p, NullGuardedNew(sn, impl, tps));
    p := p + NullGuardedNew(sn, impl, tps);
    w.Print("(arg");
    Assoc3(o, p, ForwardDelegate());
    p := p + ForwardDelegate();
    WriteFactoryArgs(tps, w);
    Assoc3(o, p, Repeat(FactoryArg(tps), |tps|));
    p := p + Repeat(FactoryArg(tps), |tps|);
    WriteFactoryClose(") : null;", w);
    Assoc3(o, p, FactoryClose(") : null;"));
    RenderGenericFactory(sn, tn, impl, tps);
  }

  /** Both factories, the generic one only for a generic type. */
  method GenFactories(info: ClassInfo, w: Writer)
    modifies w
    ensures w.out == old(w.out) + RenderMembers(Factories(info))
  {
    ghost var o := w.out;
    GenFactory(info, w);
    ghost var o1 := w.out;
    if |info.typeParams| > 0 {
      GenGenericFactory(info, w);
    }
    assert w.out == o1 + RenderMembers(GenericFactories(info));
    RenderFactoriesParts(info);
    Assoc3(o, RenderMembers([Factory(info.simpleName, info.typeName, !info.concrete, info.typeParams)]),
           RenderMembers(GenericFactories(info)));
  }

  method WriteImplStart(simpleName: string, typeParams: seq<string>, iface: string, w: Writer)
    modifies w
    ensures w.out == old(w.out) + ImplStartChunks(simpleName, typeParams, iface)
  {
    w.EndLine();
    w.Print("class ");
    w.Print(simpleName);
    w.Print("Impl");
    w.Print(GenOptTypeParamsDecl(typeParams, ""));
    w.Print(" implements ");
    w.Print(iface);
    w.Println(" {");
  }

  /** The `NameImpl` class of an abstract type: its own class body, with constructors named after it. */
  method GenImplClass(model: ClassModel, w: Writer)
    requires ClassWellFormed(model.info) && AllMethodsOk(model.methods) && AllMethodsOk(model.anyJavaTypeMethods)
    modifies model, w
    ensures model.methods == Resolve(old(model.methods), model.info.typeName, model.info.methodMap)
    ensures model.anyJavaTypeMethods == Resolve(old(model.anyJavaTypeMethods), model.info.typeName, model.info.methodMap)
    ensures AllMethodsOk(GenMethods(model.info, old(model.methods), old(model.anyJavaTypeMethods)))
    ensures w.out == old(w.out) + RenderMembers(ImplMembers(model.info,
                                                GenMethods(model.info, old(model.methods), old(model.anyJavaTypeMethods))))
  {
    var info := model.info;
    GenMethodsOk(info, model.methods, model.anyJavaTypeMethods);
    ghost var ms := GenMethods(info, model.methods, model.anyJavaTypeMethods);
    ghost var start := ImplStart(info.simpleName, info.typeParams, info.ifaceSimpleName);
    RenderMembersOne(start);
    RenderMembersOne(TypeEnd);
    RenderImplParts(info, ms);
    ghost var o := w.out;
    WriteImplStart(info.simpleName, info.typeParams, info.ifaceSimpleName, w);
    RenderImplStart(info.simpleName, info.typeParams, info.ifaceSimpleName);
    GenerateClassBody(model, info.simpleName + "Impl", w);
    WriteTypeEnd(w);
    Assoc4(o, RenderMembers([start]), RenderMembers(BodyLayout(info, info.simpleName + "Impl", ms)), RenderMembers([TypeEnd]));
  }

  /** generateClass from the members on: the identity methods and class body of a concrete type,
      or the interface of an abstract one; the factories; the closing brace; and for an abstract
      type the Impl class. */
  method GenerateClass(model: ClassModel, w: Writer)
    requires ClassWellFormed(model.info) && AllMethodsOk(model.methods) && AllMethodsOk(model.anyJavaTypeMethods)
    modifies model, w
    ensures model.methods == Resolve(old(model.methods), model.info.typeName, model.info.methodMap)
    ensures model.anyJavaTypeMethods == Resolve(old(model.anyJavaTypeMethods), model.info.typeName, model.info.methodMap)
    ensures w.out == old(w.out) + RenderMembers(ClassLayout(model.info, old(model.methods), old(model.anyJavaTypeMethods)))
  {
    if model.info.concrete {
      GenConcreteClass(model, w);
    } else {
      GenAbstractClass(model, w);
    }
  }

  /** The concrete branch of generateClass. */
  method GenConcreteClass(model: ClassModel, w: Writer)
    requires ClassWellFormed(model.info) && AllMethodsOk(model.methods) && AllMethodsOk(model.anyJavaTypeMethods)
    requires model.info.concrete
    modifies model, w
    ensures model.methods == Resolve(old(model.methods), model.info.typeName, model.info.methodMap)
    ensures model.anyJavaTypeMethods == Resolve(old(model.anyJavaTypeMethods), model.info.typeName, model.info.methodMap)
    ensures w.out == old(w.out) + RenderMembers(ClassLayout(model.info, old(model.methods), old(model.anyJavaTypeMethods)))
  {
    var info := model.info;
    ghost var m0, a0 := model.methods, model.anyJavaTypeMethods;
    GenMethodsOk(info, m0, a0);
    ghost var ms := GenMethods(info, m0, a0);
    ghost var o := w.out;
    GenConcreteMembers(model, w);
    GenFactories(info, w);
    WriteTypeEnd(w);
    ConcreteLayout(info, m0, a0);
    RenderMembersOne(TypeEnd);
    RenderMembers3(ConcreteMembers(info, m0, ms), Factories(info), [TypeEnd]);
    Assoc4(o, RenderMembers(ConcreteMembers(info, m0, ms)), RenderMembers(Factories(info)), RenderMembers([TypeEnd]));
  }

  /** The members of a concrete class before its factories: toString, equals and hashCode, then the body. */
  method GenConcreteMembers(model: ClassModel, w: Writer)
    requires ClassWellFormed(model.info) && AllMethodsOk(model.methods) && AllMethodsOk(model.anyJavaTypeMethods)
    modifies model, w
    ensures model.methods == Resolve(old(model.methods), model.info.typeName, model.info.methodMap)
    ensures model.anyJavaTypeMethods == Resolve(old(model.anyJavaTypeMethods), model.info.typeName, model.info.methodMap)
    ensures AllMethodsOk(GenMethods(model.info, old(model.methods), old(model.anyJavaTypeMethods)))
    ensures w.out == old(w.out) + RenderMembers(ConcreteMembers(model.info, old(model.methods),
                                                GenMethods(model.info, old(model.methods), old(model.anyJavaTypeMethods))))
  {
    var info := model.info;
    ghost var m0, a0 := model.methods, model.anyJavaTypeMethods;
    GenMethodsOk(info, m0, a0);
    ghost var ms := GenMethods(info, m0, a0);
    ghost var o := w.out;
    GenIdentityMethods(info, model.methods, w);
    GenerateClassBody(model, info.ifaceSimpleName, w);
    RenderConcreteParts(info, m0, ms);
    Assoc3(o, RenderMembers(IdentityMembers(info, m0)), RenderMembers(BodyLayout(info, info.ifaceSimpleName, ms)));
  }

  /** The closing brace of the generated type. */
  method WriteTypeEnd(w: Writer)
    modifies w
    ensures w.out == old(w.out) + RenderMembers([TypeEnd])
  {
    w.Println("}");
    RenderTypeEnd();
  }

  /** The abstract branch of generateClass: the interface, the factories, then the Impl class,
      whose body filters the already filtered method lists again to the same result. */
  method GenAbstractClass(model: ClassModel, w: Writer)
    requires ClassWellFormed(model.info) && AllMethodsOk(model.methods) && AllMethodsOk(model.anyJavaTypeMethods)
    requires !model.info.concrete
    modifies model, w
    ensures model.methods == Resolve(old(model.methods), model.info.typeName, model.info.methodMap)
    ensures model.anyJavaTypeMethods == Resolve(old(model.anyJavaTypeMethods), model.info.typeName, model.info.methodMap)
    ensures w.out == old(w.out) + RenderMembers(ClassLayout(model.info, old(model.methods), old(model.anyJavaTypeMethods)))
  {
    var info := model.info;
    ghost var m0, a0 := model.methods, model.anyJavaTypeMethods;
    GenMethodsOk(info, m0, a0);
    ghost var ms := GenMethods(info, m0, a0);
    ghost var o := w.out;
    var ms1 := GetGenMethods(model);
    assert ms1 == ms;
    GenAbstractMembers(info, ms1, w);
    GenFactories(info, w);
    WriteTypeEnd(w);
    ResolveIdempotent(m0, info.typeName, info.methodMap);
    ResolveIdempotent(a0, info.typeName, info.methodMap);
    ResolveOk(m0, info.typeName, info.methodMap);
    ResolveOk(a0, info.typeName, info.methodMap);
    assert GenMethods(info, model.methods, model.anyJavaTypeMethods) == ms;
    GenImplClass(model, w);
    AbstractLayout(info, m0, a0);
    RenderMembersOne(TypeEnd);
    RenderMembers3(AbstractMembers(info, ms), Factories(info), [TypeEnd]);
    RenderMembersAppend(AbstractMembers(info, ms) + Factories(info) + [TypeEnd], ImplMembers(info, ms));
    Assoc5(o, RenderMembers(AbstractMembers(info, ms)), RenderMembers(Factories(info)), RenderMembers([TypeEnd]),
           RenderMembers(ImplMembers(info, ms)));
  }
}

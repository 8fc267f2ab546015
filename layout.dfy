/**
 * What generateClass and generateClassBody write, member by member: the identity
 * methods, the `__TYPE_ARG` constant, the delegate and token fields, the three
 * constructors, the generated methods, the constants, the cache fields and the
 * `newInstance` factories. Each member is rendered to the chunks its emitter prints.
 */
module Layout {
  import opened Types
  import opened Text
  import opened Convert
  import opened Body
  import opened Overrides
  import opened Output

  // ---------------------------------------------------------------------------
  // One method: genSimpleMethod, genMethod, genMethodDecl, genConstant

  /** genSimpleMethod's output: the header, then `;` for a declaration, or the body. */
  function SimpleChunks(info: ClassInfo, decl: bool, isPrivate: bool, methodName: string, m: MethodInfo, slot: nat)
    : seq<Chunk>
    requires MethodWellFormed(m)
  {
    [Text(MethodHeader(isPrivate, methodName, m))] + (if decl then DeclEnd() else BodyChunks(info, m, slot))
  }

  function DeclEnd(): seq<Chunk> {
    [Text(";"), NewLine]
  }

  /** The method body: the statements of SimpleMethodBody, forwarding to the delegate. */
  function BodyChunks(info: ClassInfo, m: MethodInfo, slot: nat): seq<Chunk>
    requires MethodWellFormed(m)
  {
    [Text(" { "), NewLine] + [Text(RenderStmts(SimpleMethodBody(m, InvokeExpr(info, m), slot)))]
    + [Text("  }"), NewLine] + [NewLine]
  }

  /** What genSimpleMethod appends to `cacheDecls`. */
  function CacheAdded(decl: bool, m: MethodInfo, slot: nat): seq<string> {
    if !decl && Caches(m) then [CacheDecl(m, slot)] else []
  }

  /** genMethod: a FUTURE or HANDLER method gets a private `__name` helper followed by the
      public form its subclass hook writes; any other method is generated under its own name. */
  function MethodChunks(info: ClassInfo, m: MethodInfo, slot: nat): seq<Chunk>
    requires MethodWellFormed(m)
  {
    match KindOf(m)
    case FutureMethod => SimpleChunks(info, false, true, "__" + m.name, m, slot) + [Hook(CSMethod(false, m))]
    case HandlerMethod => SimpleChunks(info, false, true, "__" + m.name, m, slot) + [Hook(ConsumerMethod(false, m))]
    case OtherMethod => SimpleChunks(info, false, false, m.name, m, slot)
  }

  /** genMethodDecl: the interface declaration of a method. */
  function MethodDeclChunks(info: ClassInfo, m: MethodInfo): seq<Chunk>
    requires MethodWellFormed(m)
  {
    match KindOf(m)
    case FutureMethod => [Hook(CSMethod(true, m))]
    case HandlerMethod => [Hook(ConsumerMethod(true, m))]
    case OtherMethod => SimpleChunks(info, true, false, m.name, m, 0)
  }

  /** A FUTURE method becomes a private `__name` method followed by the completion-stage form. */
  lemma FutureDispatch(info: ClassInfo, m: MethodInfo, slot: nat)
    requires MethodWellFormed(m) && KindOf(m) == FutureMethod
    ensures MethodChunks(info, m, slot)[0] == Text(MethodHeader(true, "__" + m.name, m))
    ensures MethodChunks(info, m, slot)[|MethodChunks(info, m, slot)| - 1] == Hook(CSMethod(false, m))
    ensures MethodDeclChunks(info, m) == [Hook(CSMethod(true, m))]
  {
  }

  /** A HANDLER method becomes a private `__name` method followed by the consumer form. */
  lemma HandlerDispatch(info: ClassInfo, m: MethodInfo, slot: nat)
    requires MethodWellFormed(m) && KindOf(m) == HandlerMethod
    ensures MethodChunks(info, m, slot)[0] == Text(MethodHeader(true, "__" + m.name, m))
    ensures MethodChunks(info, m, slot)[|MethodChunks(info, m, slot)| - 1] == Hook(ConsumerMethod(false, m))
    ensures MethodDeclChunks(info, m) == [Hook(ConsumerMethod(true, m))]
  {
  }

  /** Any other method is generated public under its own name, with no hook: in the class
      it has a body, in the interface its declaration ends with `;`. */
  lemma OtherDispatch(info: ClassInfo, m: MethodInfo, slot: nat)
    requires MethodWellFormed(m) && KindOf(m) == OtherMethod
    ensures MethodChunks(info, m, slot)[0] == Text(MethodHeader(false, m.name, m))
    ensures forall c :: c in MethodChunks(info, m, slot) ==> !c.Hook?
    ensures Text(" { ") in MethodChunks(info, m, slot)
    ensures MethodDeclChunks(info, m)[0] == Text(MethodHeader(false, m.name, m))
    ensures forall c :: c in MethodDeclChunks(info, m) ==> !c.Hook?
    ensures |MethodDeclChunks(info, m)| == 3 && MethodDeclChunks(info, m)[1] == Text(";")
  {
    var h := Text(MethodHeader(false, m.name, m));
    var b := BodyChunks(info, m, slot);
    assert MethodChunks(info, m, slot) == [h] + b;
    BodyChunksShape(info, m, slot);
    assert MethodDeclChunks(info, m) == [h, Text(";"), NewLine];
  }

  /** A forwarding body opens with ` { ` and holds text only. */
  lemma BodyChunksShape(info: ClassInfo, m: MethodInfo, slot: nat)
    requires MethodWellFormed(m)
    ensures BodyChunks(info, m, slot)[0] == Text(" { ")
    ensures forall c :: c in BodyChunks(info, m, slot) ==> !c.Hook?
  {
    var t := RenderStmts(SimpleMethodBody(m, InvokeExpr(info, m), slot));
    assert BodyChunks(info, m, slot) == [Text(" { "), NewLine, Text(t), Text("  }"), NewLine, NewLine];
  }

  /** genConstant runs conversions without a method: no type variable can be resolved. */
  const NoMethod := MethodInfo("", [], TypeInfo(Void, "void", "void", "void", RawType("void", "void", "void"), None, []),
                               false, false, false, false, {}, [], map[])

  /** ` Type NAME = value;` where the value reads the delegate's constant through genConvReturn. */
  function ConstantLine(info: ClassInfo, c: ConstantInfo): string
    requires WellFormed(c.typ)
  {
    " " + GenTypeName(c.typ) + " " + c.name + " = " + GenConvReturn(c.typ, NoMethod, info.typeName + "." + c.name) + ";"
  }

  /** A constant that needs no conversion is the delegate's constant itself. */
  lemma ConstantUnconverted(info: ClassInfo, c: ConstantInfo)
    requires WellFormed(c.typ) && c.typ.kind != Object && IsSameType(c.typ, NoMethod)
    ensures ConstantLine(info, c) == " " + GenTypeName(c.typ) + " " + c.name + " = " + info.typeName + "." + c.name + ";"
  {
    ConvReturnIdentityIff(c.typ, NoMethod, info.typeName + "." + c.name);
  }

  /** An API-typed constant is the delegate's constant wrapped with `newInstance`. */
  lemma ConstantWrapped(info: ClassInfo, c: ConstantInfo)
    requires WellFormed(c.typ) && c.typ.kind == Api
    ensures ConstantLine(info, c)
      == " " + GenTypeName(c.typ) + " " + c.name + " = " + NewInstance(c.typ, NoMethod, info.typeName + "." + c.name) + ";"
  {
    ConvApi(c.typ, NoMethod, info.typeName + "." + c.name);
  }

  // ---------------------------------------------------------------------------
  // Members of the generated type

  datatype Member =
    | ToStringMethod
    | EqualsMethod(simpleName: string)
    | HashCodeMethod
    | TypeArgConstant(simpleName: string, typeName: string)
    | DelegateField(iface: string, typeParams: seq<string>)
    | TokenField(param: string, index: nat)
    | FieldsEnd
    | DelegateConstructor(ctor: string, iface: string, callsSuper: bool, tokens: nat)
    | GenericConstructor(ctor: string, iface: string, callsSuper: bool, typeParams: seq<string>)
    | EmptyConstructor(ctor: string, callsSuper: bool, tokens: nat, typeName: string)
    | ToObservableHook(streamType: TypeInfo)
    | GeneratedMethod(info: ClassInfo, m: MethodInfo, slot: nat)
    | Constant(info: ClassInfo, c: ConstantInfo)
    | CacheFieldDecl(decl: string)
    | GetDelegateDecl(typeName: string)
    | MethodDeclaration(info: ClassInfo, m: MethodInfo)
    | ReadStreamHook(typeParams: seq<string>)
    | Factory(simpleName: string, typeName: string, impl: bool, typeParams: seq<string>)
    | GenericFactory(simpleName: string, typeName: string, impl: bool, typeParams: seq<string>)
    | TypeEnd
    | ImplStart(simpleName: string, typeParams: seq<string>, iface: string)

  predicate MemberOk(x: Member) {
    match x
    case GeneratedMethod(_, m, _) => MethodWellFormed(m)
    case MethodDeclaration(_, m) => MethodWellFormed(m)
    case Constant(_, c) => WellFormed(c.typ)
    case _ => true
  }

  /** `super(arg);` as the constructor's first statement when a concrete class has a concrete super type. */
  function SuperLine(callsSuper: bool, line: string): seq<Chunk> {
    if callsSuper then [Text(line), NewLine] else []
  }

  /** `this.__typeArg_i = io.vertx.lang.axle.TypeArg.unknown();` (printed without a line end). */
  function UnknownToken(i: nat): seq<Chunk> {
    [Text("    this.__typeArg_"), Text(NatToString(i)), Text(" = io.vertx.lang.axle.TypeArg.unknown();")]
  }

  /** `this.__typeArg_i = typeArg_i;` */
  function TokenAssign(i: nat): seq<Chunk> {
    [Text("    this.__typeArg_"), Text(NatToString(i)), Text(" = typeArg_"), Text(NatToString(i)), Text(";"), NewLine]
  }

  /** `, io.vertx.lang.axle.TypeArg<T> typeArg_i` in the generic constructor's parameter list. */
  function TokenParam(typeParams: seq<string>): nat -> seq<Chunk> {
    (i: nat) => if i < |typeParams| then
           [Text(", io.vertx.lang.axle.TypeArg<"), Text(typeParams[i]), Text("> typeArg_"), Text(NatToString(i))]
         else []
  }

  /** `, io.vertx.lang.axle.TypeArg<T> __typeArg_T` in the generic factory's parameter list. */
  function FactoryParam(typeParams: seq<string>): nat -> seq<Chunk> {
    (i: nat) => if i < |typeParams| then
           [Text(", io.vertx.lang.axle.TypeArg<"), Text(typeParams[i]), Text("> __typeArg_"), Text(typeParams[i])]
         else []
  }

  /** `, __typeArg_T`: the generic factory passing its token on to the constructor. */
  function FactoryArg(typeParams: seq<string>): nat -> seq<Chunk> {
    (i: nat) => if i < |typeParams| then [Text(", __typeArg_"), Text(typeParams[i])] else []
  }

  function ImplSuffix(impl: bool): seq<Chunk> {
    if impl then [Text("Impl")] else []
  }

  /** `public static <T> Name<T> newInstance(Delegate`: the common head of both factories. */
  function FactoryHead(simpleName: string, typeName: string, typeParams: seq<string>): seq<Chunk> {
    [NewLine, Text("  public static "), Text(GenOptTypeParamsDecl(typeParams, " ")), Text(simpleName),
     Text(GenOptTypeParamsDecl(typeParams, "")), Text(" newInstance("), Text(typeName)]
  }

  /** `return arg != null ? new Name`: the factories wrap only a non-null delegate. */
  function NewPrefix(simpleName: string): seq<Chunk> {
    [Text("    return arg != null ? new "), Text(simpleName)]
  }

  /** `return arg != null ? new Name[Impl]<T>`. */
  function NullGuardedNew(simpleName: string, impl: bool, typeParams: seq<string>): seq<Chunk> {
    NewPrefix(simpleName) + ImplSuffix(impl) + [Text(GenOptTypeParamsDecl(typeParams, ""))]
  }

  /** `) {` closing a parameter list. */
  function ParamsClose(): seq<Chunk> {
    [Text(") {"), NewLine]
  }

  function CtorClose(): seq<Chunk> {
    [Text("  }"), NewLine, NewLine]
  }

  /** The delegate assignment, after `super(delegate)` where the super type takes one. */
  function DelegateInit(callsSuper: bool): seq<Chunk> {
    SuperLine(callsSuper, "    super(delegate);") + [Text("    this.delegate = delegate;"), NewLine]
  }

  function DelegateConstructorOpen(ctor: string, iface: string): seq<Chunk> {
    [Text("  public "), Text(ctor), Text("("), Text(iface), Text(" delegate) {"), NewLine]
  }

  function GenericConstructorOpen(ctor: string, iface: string): seq<Chunk> {
    [Text("  public "), Text(ctor), Text("("), Text(iface), Text(" delegate")]
  }

  function DelegateConstructorChunks(ctor: string, iface: string, callsSuper: bool, n: nat): seq<Chunk> {
    DelegateConstructorOpen(ctor, iface) + DelegateInit(callsSuper) + Repeat(UnknownToken, n) + CtorClose()
  }

  function GenericConstructorChunks(ctor: string, iface: string, callsSuper: bool, typeParams: seq<string>): seq<Chunk> {
    GenericConstructorOpen(ctor, iface) + Repeat(TokenParam(typeParams), |typeParams|) + ParamsClose()
    + DelegateInit(callsSuper) + Repeat(TokenAssign, |typeParams|) + CtorClose()
  }

  function EmptyConstructorOpen(ctor: string): seq<Chunk> {
    [Text("  /**"), NewLine, Text("  * Empty constructor used by CDI, do not use this constructor directly."), NewLine,
     Text("  **/"), NewLine, Text("  "), Text(ctor), Text("() {")]
  }

  /** The null delegate of the empty constructor. */
  function NullInit(callsSuper: bool): seq<Chunk> {
    SuperLine(callsSuper, "    super(null);") + [Text("    this.delegate = null;"), NewLine]
  }

  function GetDelegateChunks(typeName: string): seq<Chunk> {
    [Text("  public "), Text(typeName), Text(" getDelegate() {"), NewLine, Text("    return delegate;"), NewLine,
     Text("  }"), NewLine, NewLine]
  }

  function EmptyConstructorChunks(ctor: string, callsSuper: bool, n: nat, typeName: string): seq<Chunk> {
    EmptyConstructorOpen(ctor) + NullInit(callsSuper) + Repeat(UnknownToken, n) + CtorClose()
    + GetDelegateChunks(typeName)
  }

  function FactoryOpen(): seq<Chunk> {
    [Text(" arg) {"), NewLine]
  }

  function DelegateArg(): seq<Chunk> {
    [Text(" arg")]
  }

  function ForwardDelegate(): seq<Chunk> {
    [Text("(arg")]
  }

  /** The end of the wrapping expression, and of the factory. */
  function FactoryClose(end: string): seq<Chunk> {
    [Text(end), NewLine, Text("  }"), NewLine]
  }

  function FactoryChunks(simpleName: string, typeName: string, impl: bool, typeParams: seq<string>): seq<Chunk> {
    FactoryHead(simpleName, typeName, typeParams) + FactoryOpen()
    + NullGuardedNew(simpleName, impl, typeParams) + FactoryClose("(arg) : null;")
  }

  function GenericFactoryChunks(simpleName: string, typeName: string, impl: bool, typeParams: seq<string>): seq<Chunk> {
    FactoryHead(simpleName, typeName, typeParams) + DelegateArg()
    + Repeat(FactoryParam(typeParams), |typeParams|) + ParamsClose()
    + NullGuardedNew(simpleName, impl, typeParams) + ForwardDelegate()
    + Repeat(FactoryArg(typeParams), |typeParams|) + FactoryClose(") : null;")
  }

  /** An `@Override` method whose one statement forwards to the delegate (toString, hashCode). */
  function ForwardingMethodChunks(signature: string, statement: string): seq<Chunk> {
    [Text("  @Override"), NewLine, Text(signature), NewLine, Text(statement), NewLine, Text("  }"), NewLine, NewLine]
  }

  /** Equality compares the delegates of two wrappers of the same class. */
  function EqualsChunks(simpleName: string): seq<Chunk> {
    [Text("  @Override"), NewLine, Text("  public boolean equals(Object o) {"), NewLine,
     Text("    if (this == o) return true;"), NewLine,
     Text("    if (o == null || getClass() != o.getClass()) return false;"), NewLine]
    + [Text("    "), Text(simpleName), Text(" that = ("), Text(simpleName), Text(") o;"), NewLine]
    + [Text("    return delegate.equals(that.delegate);"), NewLine, Text("  }"), NewLine, Text("  "), NewLine]
  }

  /** `__TYPE_ARG`: wraps a delegate with the class's constructor, unwraps with getDelegate. */
  function TypeArgConstantChunks(simpleName: string, typeName: string): seq<Chunk> {
    TypeArgDecl(simpleName) + TypeArgWrap(simpleName, typeName) + TypeArgUnwrap(simpleName)
  }

  function TypeArgDecl(simpleName: string): seq<Chunk> {
    [Text("  public static final io.vertx.lang.axle.TypeArg<"), Text(simpleName),
     Text("> __TYPE_ARG = new io.vertx.lang.axle.TypeArg<>(")]
  }

  function TypeArgWrap(simpleName: string, typeName: string): seq<Chunk> {
    [Text("    obj -> new "), Text(simpleName), Text("(("), Text(typeName), Text(") obj),"), NewLine]
  }

  function TypeArgUnwrap(simpleName: string): seq<Chunk> {
    [Text("    "), Text(simpleName), Text("::getDelegate"), NewLine, Text("  );"), NewLine, NewLine]
  }

  function DelegateFieldChunks(iface: string, typeParams: seq<string>): seq<Chunk> {
    [Text("  private final "), Text(iface)]
    + (if |typeParams| > 0 then [Text(GenOptTypeParamsDecl(typeParams, ""))] else [])
    + [Text(" delegate;"), NewLine]
  }

  function TokenFieldChunks(param: string, i: nat): seq<Chunk> {
    [Text("  public final io.vertx.lang.axle.TypeArg<"), Text(param), Text("> __typeArg_"), Text(NatToString(i)),
     Text(";"), NewLine]
  }

  function ConstantChunks(info: ClassInfo, c: ConstantInfo): seq<Chunk>
    requires WellFormed(c.typ)
  {
    [Text(if info.concrete then "  public static final" else ""), Text(ConstantLine(info, c)), NewLine]
  }

  function ImplStartChunks(simpleName: string, typeParams: seq<string>, iface: string): seq<Chunk> {
    [NewLine, Text("class "), Text(simpleName), Text("Impl"), Text(GenOptTypeParamsDecl(typeParams, "")),
     Text(" implements "), Text(iface), Text(" {"), NewLine]
  }

  /** The interface's `getDelegate()` declaration. */
  function GetDelegateDeclChunks(typeName: string): seq<Chunk> {
    [Text("  "), Text(typeName), Text(" getDelegate();"), NewLine, NewLine]
  }

  function TypeEndChunks(): seq<Chunk> {
    [Text("}"), NewLine]
  }

  /** The blank line after the fields. */
  function FieldsEndChunks(): seq<Chunk> {
    [Text("  "), NewLine]
  }

  /** One cache field, declared from the text the method recorded. */
  function CacheFieldChunks(decl: string): seq<Chunk> {
    [Text("  "), Text(decl), Text(";"), NewLine]
  }

  function RenderMember(x: Member): seq<Chunk>
    requires MemberOk(x)
  {
    match x
    case ToStringMethod => ForwardingMethodChunks("  public String toString() {", "    return delegate.toString();")
    case EqualsMethod(sn) => EqualsChunks(sn)
    case HashCodeMethod => ForwardingMethodChunks("  public int hashCode() {", "    return delegate.hashCode();")
    case TypeArgConstant(sn, tn) => TypeArgConstantChunks(sn, tn)
    case DelegateField(iface, tps) => DelegateFieldChunks(iface, tps)
    case TokenField(p, i) => TokenFieldChunks(p, i)
    case FieldsEnd => FieldsEndChunks()
    case DelegateConstructor(ctor, iface, sup, n) => DelegateConstructorChunks(ctor, iface, sup, n)
    case GenericConstructor(ctor, iface, sup, tps) => GenericConstructorChunks(ctor, iface, sup, tps)
    case EmptyConstructor(ctor, sup, n, tn) => EmptyConstructorChunks(ctor, sup, n, tn)
    case ToObservableHook(t) => [Hook(ToObservable(t))]
    case GeneratedMethod(info, m, slot) => MethodChunks(info, m, slot)
    case Constant(info, c) => ConstantChunks(info, c)
    case CacheFieldDecl(d) => CacheFieldChunks(d)
    case GetDelegateDecl(tn) => GetDelegateDeclChunks(tn)
    case MethodDeclaration(info, m) => MethodDeclChunks(info, m)
    case ReadStreamHook(tps) => [Hook(ReadStream(tps))]
    case Factory(sn, tn, impl, tps) => FactoryChunks(sn, tn, impl, tps)
    case GenericFactory(sn, tn, impl, tps) => GenericFactoryChunks(sn, tn, impl, tps)
    case TypeEnd => TypeEndChunks()
    case ImplStart(sn, tps, iface) => ImplStartChunks(sn, tps, iface)
  }

  predicate AllOk(xs: seq<Member>) {
    forall i :: 0 <= i < |xs| ==> MemberOk(xs[i])
  }

  /** The members written one after the other. */
  function RenderMembers(xs: seq<Member>): seq<Chunk>
    requires AllOk(xs)
  {
    Flatten(xs, RenderMember)
  }

  lemma RenderMembersOne(x: Member)
    requires MemberOk(x)
    ensures AllOk([x]) && RenderMembers([x]) == RenderMember(x)
  {
    FlattenOne(x, RenderMember);
  }

  /** Writing one more member of `xs` after its first `k`. */
  lemma RenderMembersPrefix(xs: seq<Member>, k: nat)
    requires AllOk(xs) && k < |xs|
    ensures AllOk(xs[..k + 1]) && RenderMembers(xs[..k + 1]) == RenderMembers(xs[..k]) + RenderMember(xs[k])
  {
    FlattenPrefix(xs, RenderMember, k);
  }

  /** Writing two member lists one after the other writes their concatenation. */
  lemma RenderMembersAppend(a: seq<Member>, b: seq<Member>)
    requires AllOk(a) && AllOk(b)
    ensures AllOk(a + b) && RenderMembers(a + b) == RenderMembers(a) + RenderMembers(b)
  {
    FlattenAppend(a, b, RenderMember);
  }

  // ---------------------------------------------------------------------------
  // The class body (generateClassBody)

  predicate AllMethodsOk(ms: seq<MethodInfo>) {
    forall i :: 0 <= i < |ms| ==> MethodWellFormed(ms[i])
  }

  /** How many of `ms` memoize their result, i.e. take a cache slot. */
  function CachingCount(ms: seq<MethodInfo>): nat {
    if ms == [] then 0 else CachingCount(ms[..|ms| - 1]) + (if Caches(ms[|ms| - 1]) then 1 else 0)
  }

  /** The `cacheDecls` list after genMethod has run over `ms`. */
  function CacheDeclsOf(ms: seq<MethodInfo>): (r: seq<string>)
    ensures |r| == CachingCount(ms)
  {
    if ms == [] then []
    else CacheDeclsOf(ms[..|ms| - 1]) + CacheAdded(false, ms[|ms| - 1], CachingCount(ms[..|ms| - 1]))
  }

  function TokenFields(typeParams: seq<string>): (r: seq<Member>)
    ensures |r| == |typeParams| && AllOk(r)
  {
    seq(|typeParams|, i requires 0 <= i < |typeParams| => TokenField(typeParams[i], i))
  }

  /** Each method with the cache slot it would take: the number of caching methods before it. */
  function GeneratedMethods(info: ClassInfo, ms: seq<MethodInfo>): (r: seq<Member>)
    requires AllMethodsOk(ms)
    ensures |r| == |ms| && AllOk(r)
  {
    seq(|ms|, k requires 0 <= k < |ms| => GeneratedMethod(info, ms[k], CachingCount(ms[..k])))
  }

  function Constants(info: ClassInfo, cs: seq<ConstantInfo>): (r: seq<Member>)
    requires forall i :: 0 <= i < |cs| ==> WellFormed(cs[i].typ)
    ensures |r| == |cs| && AllOk(r)
  {
    seq(|cs|, k requires 0 <= k < |cs| => Constant(info, cs[k]))
  }

  function CacheFields(items: seq<string>): (r: seq<Member>)
    ensures |r| == |items| && AllOk(r)
  {
    seq(|items|, k requires 0 <= k < |items| => CacheFieldDecl(items[k]))
  }

  function CallsSuper(info: ClassInfo): bool {
    info.concrete && info.hasConcreteSuper
  }

  /** The delegate field, a token field per type parameter, and the blank line after them. */
  function Fields(info: ClassInfo): (r: seq<Member>)
    ensures AllOk(r)
  {
    [DelegateField(info.nonGenericIface, info.typeParams)] + TokenFields(info.typeParams) + [FieldsEnd]
  }

  /** The delegate constructor, the generic one for a generic type, and the empty one. */
  function Constructors(info: ClassInfo, ctor: string): (r: seq<Member>)
    ensures AllOk(r)
  {
    [DelegateConstructor(ctor, info.nonGenericIface, CallsSuper(info), |info.typeParams|)]
    + GenericConstructors(info, ctor)
    + [EmptyConstructor(ctor, CallsSuper(info), |info.typeParams|, info.typeName)]
  }

  /** The constructor taking one token per type parameter, for a generic type only. */
  function GenericConstructors(info: ClassInfo, ctor: string): (r: seq<Member>)
    ensures AllOk(r)
  {
    if |info.typeParams| > 0
    then [GenericConstructor(ctor, info.nonGenericIface, CallsSuper(info), info.typeParams)]
    else []
  }

  /** The `__TYPE_ARG` constant, in a concrete class only. */
  function TypeArgMembers(info: ClassInfo): (r: seq<Member>)
    ensures AllOk(r)
  {
    if info.concrete then [TypeArgConstant(info.simpleName, info.typeName)] else []
  }

  /** The `toObservable` hook, for a type that extends ReadStream only. */
  function ObservableMembers(info: ClassInfo): (r: seq<Member>)
    ensures AllOk(r)
  {
    if info.readStreamArg.Some? then [ToObservableHook(info.readStreamArg.value)] else []
  }

  /** The fields and the three constructors of a class body named `ctor`. */
  function BodyPrologue(info: ClassInfo, ctor: string): (r: seq<Member>)
    ensures AllOk(r)
  {
    TypeArgMembers(info) + Fields(info) + Constructors(info, ctor) + ObservableMembers(info)
  }

  /** generateClassBody over the generated method list `ms`. */
  function BodyLayout(info: ClassInfo, ctor: string, ms: seq<MethodInfo>): (r: seq<Member>)
    requires ClassWellFormed(info) && AllMethodsOk(ms)
    ensures AllOk(r)
  {
    BodyPrologue(info, ctor) + GeneratedMethods(info, ms) + Constants(info, info.constants)
    + CacheFields(CacheDeclsOf(ms))
  }

  // ---------------------------------------------------------------------------
  // The whole type (generateClass, from the members on)

  const ReadStreamType := "io.vertx.core.streams.ReadStream"

  /** A method without parameters named `toString` among `ms`. */
  predicate DeclaresToString(ms: seq<MethodInfo>) {
    exists m :: m in ms && m.params == [] && m.name == "toString"
  }

  function MethodDecls(info: ClassInfo, ms: seq<MethodInfo>): (r: seq<Member>)
    requires AllMethodsOk(ms)
    ensures |r| == |ms| && AllOk(r)
  {
    seq(|ms|, k requires 0 <= k < |ms| => MethodDeclaration(info, ms[k]))
  }

  /** The generated method list: getGenMethods over the model's two lists. */
  function GenMethods(info: ClassInfo, methods: seq<MethodInfo>, anyJava: seq<MethodInfo>): seq<MethodInfo> {
    Resolve(methods, info.typeName, info.methodMap) + Resolve(anyJava, info.typeName, info.methodMap)
  }

  lemma GenMethodsOk(info: ClassInfo, methods: seq<MethodInfo>, anyJava: seq<MethodInfo>)
    requires AllMethodsOk(methods) && AllMethodsOk(anyJava)
    ensures AllMethodsOk(GenMethods(info, methods, anyJava))
  {
    ResolveOk(methods, info.typeName, info.methodMap);
    ResolveOk(anyJava, info.typeName, info.methodMap);
  }

  /** Filtering keeps only methods of the list it filters. */
  lemma ResolveOk(ms: seq<MethodInfo>, owner: string, methodMap: map<string, seq<MethodInfo>>)
    requires AllMethodsOk(ms)
    ensures AllMethodsOk(Resolve(ms, owner, methodMap))
  {
    var r := Resolve(ms, owner, methodMap);
    forall i | 0 <= i < |r|
      ensures MethodWellFormed(r[i])
    {
      var x := r[i];
      Pass1Members(ms, x);
      Pass2Members(Pass1(ms), owner, methodMap, x);
    }
  }

  lemma AllOkAppend(a: seq<Member>, b: seq<Member>)
    requires AllOk(a) && AllOk(b)
    ensures AllOk(a + b)
  {
  }

  /** `toString` forwards to the delegate unless the type declares its own. */
  function ToStringMembers(methods: seq<MethodInfo>): (r: seq<Member>)
    ensures AllOk(r)
  {
    if DeclaresToString(methods) then [] else [ToStringMethod]
  }

  /** The identity methods of a concrete class. */
  function IdentityMembers(info: ClassInfo, methods: seq<MethodInfo>): (r: seq<Member>)
    ensures AllOk(r)
  {
    ToStringMembers(methods) + [EqualsMethod(info.simpleName)] + [HashCodeMethod]
  }

  /** The identity methods and the body of a concrete class. */
  function ConcreteMembers(info: ClassInfo, methods: seq<MethodInfo>, ms: seq<MethodInfo>): (r: seq<Member>)
    requires ClassWellFormed(info) && AllMethodsOk(ms)
    ensures AllOk(r)
  {
    AllOkAppend(IdentityMembers(info, methods), BodyLayout(info, info.ifaceSimpleName, ms));
    IdentityMembers(info, methods) + BodyLayout(info, info.ifaceSimpleName, ms)
  }

  /** The declarations of an abstract class's interface. */
  function AbstractMembers(info: ClassInfo, ms: seq<MethodInfo>): (r: seq<Member>)
    requires AllMethodsOk(ms)
    ensures AllOk(r)
  {
    AllOkAppend([GetDelegateDecl(info.typeName)], MethodDecls(info, ms));
    AllOkAppend([GetDelegateDecl(info.typeName)] + MethodDecls(info, ms), ReadStreamMembers(info));
    [GetDelegateDecl(info.typeName)] + MethodDecls(info, ms) + ReadStreamMembers(info)
  }

  /** The ReadStream methods, for a type whose raw type is ReadStream itself. */
  function ReadStreamMembers(info: ClassInfo): (r: seq<Member>)
    ensures AllOk(r)
  {
    if info.rawTypeName == ReadStreamType then [ReadStreamHook(info.typeParams)] else []
  }

  /** The `newInstance` factories, the generic one only for a generic type. */
  function Factories(info: ClassInfo): (r: seq<Member>)
    ensures AllOk(r)
  {
    [Factory(info.simpleName, info.typeName, !info.concrete, info.typeParams)] + GenericFactories(info)
  }

  /** The factory taking one token per type parameter, for a generic type only. */
  function GenericFactories(info: ClassInfo): (r: seq<Member>)
    ensures AllOk(r)
  {
    if |info.typeParams| > 0
    then [GenericFactory(info.simpleName, info.typeName, !info.concrete, info.typeParams)]
    else []
  }

  /** The `NameImpl` class that implements an abstract class's interface. */
  function ImplMembers(info: ClassInfo, ms: seq<MethodInfo>): (r: seq<Member>)
    requires ClassWellFormed(info) && AllMethodsOk(ms)
    ensures AllOk(r)
  {
    var body := BodyLayout(info, info.simpleName + "Impl", ms);
    AllOkAppend([ImplStart(info.simpleName, info.typeParams, info.ifaceSimpleName)], body);
    AllOkAppend([ImplStart(info.simpleName, info.typeParams, info.ifaceSimpleName)] + body, [TypeEnd]);
    [ImplStart(info.simpleName, info.typeParams, info.ifaceSimpleName)] + body + [TypeEnd]
  }

  /** The members of the generated type, given the model's method lists before filtering. */
  function ClassLayout(info: ClassInfo, methods: seq<MethodInfo>, anyJava: seq<MethodInfo>): (r: seq<Member>)
    requires ClassWellFormed(info) && AllMethodsOk(methods) && AllMethodsOk(anyJava)
    ensures AllOk(r)
  {
    GenMethodsOk(info, methods, anyJava);
    var ms := GenMethods(info, methods, anyJava);
    var head := if info.concrete then ConcreteMembers(info, methods, ms) else AbstractMembers(info, ms);
    AllOkAppend(head, Factories(info));
    AllOkAppend(head + Factories(info), [TypeEnd]);
    AllOkAppend(head + Factories(info) + [TypeEnd], ImplMembers(info, ms));
    if info.concrete then head + Factories(info) + [TypeEnd]
    else head + Factories(info) + [TypeEnd] + ImplMembers(info, ms)
  }

  // ---------------------------------------------------------------------------
  // The text of the body's parts, as the emitters write them

  lemma RenderTokenFieldsStep(tps: seq<string>, i: nat)
    requires i < |tps|
    ensures AllOk(TokenFields(tps)[..i]) && AllOk(TokenFields(tps)[..i + 1])
    ensures RenderMembers(TokenFields(tps)[..i + 1]) == RenderMembers(TokenFields(tps)[..i]) + TokenFieldChunks(tps[i], i)
  {
    RenderMembersPrefix(TokenFields(tps), i);
  }

  lemma RenderGeneratedStep(info: ClassInfo, ms: seq<MethodInfo>, k: nat)
    requires AllMethodsOk(ms) && k < |ms|
    ensures AllOk(GeneratedMethods(info, ms)[..k]) && AllOk(GeneratedMethods(info, ms)[..k + 1])
    ensures RenderMembers(GeneratedMethods(info, ms)[..k + 1])
         == RenderMembers(GeneratedMethods(info, ms)[..k]) + MethodChunks(info, ms[k], CachingCount(ms[..k]))
  {
    RenderMembersPrefix(GeneratedMethods(info, ms), k);
  }

  lemma RenderConstantsStep(info: ClassInfo, cs: seq<ConstantInfo>, k: nat)
    requires (forall i :: 0 <= i < |cs| ==> WellFormed(cs[i].typ)) && k < |cs|
    ensures AllOk(Constants(info, cs)[..k]) && AllOk(Constants(info, cs)[..k + 1])
    ensures RenderMembers(Constants(info, cs)[..k + 1]) == RenderMembers(Constants(info, cs)[..k]) + ConstantChunks(info, cs[k])
  {
    RenderMembersPrefix(Constants(info, cs), k);
  }

  lemma RenderCacheFieldsStep(items: seq<string>, k: nat)
    requires k < |items|
    ensures AllOk(CacheFields(items)[..k]) && AllOk(CacheFields(items)[..k + 1])
    ensures RenderMembers(CacheFields(items)[..k + 1]) == RenderMembers(CacheFields(items)[..k]) + CacheFieldChunks(items[k])
  {
    RenderMembersPrefix(CacheFields(items), k);
  }

  lemma RenderFieldsParts(info: ClassInfo)
    ensures RenderMembers(Fields(info))
         == DelegateFieldChunks(info.nonGenericIface, info.typeParams) + RenderMembers(TokenFields(info.typeParams))
            + FieldsEndChunks()
  {
    var field := DelegateField(info.nonGenericIface, info.typeParams);
    RenderMembersOne(field);
    RenderMembersOne(FieldsEnd);
    RenderMembersAppend([field], TokenFields(info.typeParams));
    RenderMembersAppend([field] + TokenFields(info.typeParams), [FieldsEnd]);
  }

  lemma RenderDelegateConstructor(ctor: string, iface: string, callsSuper: bool, tokens: nat)
    ensures RenderMembers([DelegateConstructor(ctor, iface, callsSuper, tokens)])
         == DelegateConstructorChunks(ctor, iface, callsSuper, tokens)
  {
    RenderMembersOne(DelegateConstructor(ctor, iface, callsSuper, tokens));
  }

  lemma RenderGenericConstructor(ctor: string, iface: string, callsSuper: bool, typeParams: seq<string>)
    ensures RenderMembers([GenericConstructor(ctor, iface, callsSuper, typeParams)])
         == GenericConstructorChunks(ctor, iface, callsSuper, typeParams)
  {
    RenderMembersOne(GenericConstructor(ctor, iface, callsSuper, typeParams));
  }

  lemma RenderEmptyConstructor(ctor: string, callsSuper: bool, tokens: nat, typeName: string)
    ensures RenderMembers([EmptyConstructor(ctor, callsSuper, tokens, typeName)])
         == EmptyConstructorChunks(ctor, callsSuper, tokens, typeName)
  {
    RenderMembersOne(EmptyConstructor(ctor, callsSuper, tokens, typeName));
  }

  lemma RenderConstructorsParts(info: ClassInfo, ctor: string)
    ensures RenderMembers(Constructors(info, ctor))
         == RenderMembers([DelegateConstructor(ctor, info.nonGenericIface, CallsSuper(info), |info.typeParams|)])
            + RenderMembers(GenericConstructors(info, ctor))
            + RenderMembers([EmptyConstructor(ctor, CallsSuper(info), |info.typeParams|, info.typeName)])
  {
    var first := [DelegateConstructor(ctor, info.nonGenericIface, CallsSuper(info), |info.typeParams|)];
    var last := [EmptyConstructor(ctor, CallsSuper(info), |info.typeParams|, info.typeName)];
    RenderMembersAppend(first, GenericConstructors(info, ctor));
    RenderMembersAppend(first + GenericConstructors(info, ctor), last);
  }

  lemma RenderTypeArgConstant(simpleName: string, typeName: string)
    ensures RenderMembers([TypeArgConstant(simpleName, typeName)]) == TypeArgConstantChunks(simpleName, typeName)
  {
    RenderMembersOne(TypeArgConstant(simpleName, typeName));
  }

  lemma RenderObservableHook(streamType: TypeInfo)
    ensures RenderMembers([ToObservableHook(streamType)]) == [Hook(ToObservable(streamType))]
  {
    RenderMembersOne(ToObservableHook(streamType));
  }

  lemma RenderPrologueParts(info: ClassInfo, ctor: string)
    ensures RenderMembers(BodyPrologue(info, ctor))
         == RenderMembers(TypeArgMembers(info)) + RenderMembers(Fields(info)) + RenderMembers(Constructors(info, ctor))
            + RenderMembers(ObservableMembers(info))
  {
    RenderMembersAppend(TypeArgMembers(info), Fields(info));
    RenderMembersAppend(TypeArgMembers(info) + Fields(info), Constructors(info, ctor));
    RenderMembersAppend(TypeArgMembers(info) + Fields(info) + Constructors(info, ctor), ObservableMembers(info));
  }

  lemma RenderBodyParts(info: ClassInfo, ctor: string, ms: seq<MethodInfo>)
    requires ClassWellFormed(info) && AllMethodsOk(ms)
    ensures RenderMembers(BodyLayout(info, ctor, ms))
         == RenderMembers(BodyPrologue(info, ctor)) + RenderMembers(GeneratedMethods(info, ms))
            + RenderMembers(Constants(info, info.constants)) + RenderMembers(CacheFields(CacheDeclsOf(ms)))
  {
    var prologue, gen := BodyPrologue(info, ctor), GeneratedMethods(info, ms);
    var cons, fields := Constants(info, info.constants), CacheFields(CacheDeclsOf(ms));
    RenderMembersAppend(prologue, gen);
    RenderMembersAppend(prologue + gen, cons);
    RenderMembersAppend(prologue + gen + cons, fields);
  }

  // ---------------------------------------------------------------------------
  // The text of the type's parts, as the emitters write them

  lemma RenderToString()
    ensures RenderMembers([ToStringMethod])
         == ForwardingMethodChunks("  public String toString() {", "    return delegate.toString();")
  {
    RenderMembersOne(ToStringMethod);
  }

  lemma RenderEquals(simpleName: string)
    ensures RenderMembers([EqualsMethod(simpleName)]) == EqualsChunks(simpleName)
  {
    RenderMembersOne(EqualsMethod(simpleName));
  }

  lemma RenderHashCode()
    ensures RenderMembers([HashCodeMethod])
         == ForwardingMethodChunks("  public int hashCode() {", "    return delegate.hashCode();")
  {
    RenderMembersOne(HashCodeMethod);
  }

  lemma RenderIdentityParts(info: ClassInfo, methods: seq<MethodInfo>)
    ensures RenderMembers(IdentityMembers(info, methods))
         == RenderMembers(ToStringMembers(methods)) + RenderMembers([EqualsMethod(info.simpleName)])
            + RenderMembers([HashCodeMethod])
  {
    RenderMembersAppend(ToStringMembers(methods), [EqualsMethod(info.simpleName)]);
    RenderMembersAppend(ToStringMembers(methods) + [EqualsMethod(info.simpleName)], [HashCodeMethod]);
  }

  lemma RenderConcreteParts(info: ClassInfo, methods: seq<MethodInfo>, ms: seq<MethodInfo>)
    requires ClassWellFormed(info) && AllMethodsOk(ms)
    ensures RenderMembers(ConcreteMembers(info, methods, ms))
         == RenderMembers(IdentityMembers(info, methods)) + RenderMembers(BodyLayout(info, info.ifaceSimpleName, ms))
  {
    RenderMembersAppend(IdentityMembers(info, methods), BodyLayout(info, info.ifaceSimpleName, ms));
  }

  lemma RenderGetDelegateDecl(typeName: string)
    ensures RenderMembers([GetDelegateDecl(typeName)]) == GetDelegateDeclChunks(typeName)
  {
    RenderMembersOne(GetDelegateDecl(typeName));
  }

  lemma RenderDeclStep(info: ClassInfo, ms: seq<MethodInfo>, k: nat)
    requires AllMethodsOk(ms) && k < |ms|
    ensures AllOk(MethodDecls(info, ms)[..k]) && AllOk(MethodDecls(info, ms)[..k + 1])
    ensures RenderMembers(MethodDecls(info, ms)[..k + 1])
         == RenderMembers(MethodDecls(info, ms)[..k]) + MethodDeclChunks(info, ms[k])
  {
    RenderMembersPrefix(MethodDecls(info, ms), k);
  }

  lemma RenderReadStreamHook(typeParams: seq<string>)
    ensures RenderMembers([ReadStreamHook(typeParams)]) == [Hook(ReadStream(typeParams))]
  {
    RenderMembersOne(ReadStreamHook(typeParams));
  }

  lemma RenderAbstractParts(info: ClassInfo, ms: seq<MethodInfo>)
    requires AllMethodsOk(ms)
    ensures RenderMembers(AbstractMembers(info, ms))
         == RenderMembers([GetDelegateDecl(info.typeName)]) + RenderMembers(MethodDecls(info, ms))
            + RenderMembers(ReadStreamMembers(info))
  {
    RenderMembersAppend([GetDelegateDecl(info.typeName)], MethodDecls(info, ms));
    RenderMembersAppend([GetDelegateDecl(info.typeName)] + MethodDecls(info, ms), ReadStreamMembers(info));
  }

  lemma RenderFactory(simpleName: string, typeName: string, impl: bool, typeParams: seq<string>)
    ensures RenderMembers([Factory(simpleName, typeName, impl, typeParams)])
         == FactoryChunks(simpleName, typeName, impl, typeParams)
  {
    RenderMembersOne(Factory(simpleName, typeName, impl, typeParams));
  }

  lemma RenderGenericFactory(simpleName: string, typeName: string, impl: bool, typeParams: seq<string>)
    ensures RenderMembers([GenericFactory(simpleName, typeName, impl, typeParams)])
         == GenericFactoryChunks(simpleName, typeName, impl, typeParams)
  {
    RenderMembersOne(GenericFactory(simpleName, typeName, impl, typeParams));
  }

  lemma RenderFactoriesParts(info: ClassInfo)
    ensures RenderMembers(Factories(info))
         == RenderMembers([Factory(info.simpleName, info.typeName, !info.concrete, info.typeParams)])
            + RenderMembers(GenericFactories(info))
  {
    RenderMembersAppend([Factory(info.simpleName, info.typeName, !info.concrete, info.typeParams)], GenericFactories(info));
  }

  lemma RenderImplStart(simpleName: string, typeParams: seq<string>, iface: string)
    ensures RenderMembers([ImplStart(simpleName, typeParams, iface)]) == ImplStartChunks(simpleName, typeParams, iface)
  {
    RenderMembersOne(ImplStart(simpleName, typeParams, iface));
  }

  lemma RenderTypeEnd()
    ensures RenderMembers([TypeEnd]) == TypeEndChunks()
  {
    RenderMembersOne(TypeEnd);
  }

  lemma RenderImplParts(info: ClassInfo, ms: seq<MethodInfo>)
    requires ClassWellFormed(info) && AllMethodsOk(ms)
    ensures RenderMembers(ImplMembers(info, ms))
         == RenderMembers([ImplStart(info.simpleName, info.typeParams, info.ifaceSimpleName)])
            + RenderMembers(BodyLayout(info, info.simpleName + "Impl", ms)) + RenderMembers([TypeEnd])
  {
    var start := [ImplStart(info.simpleName, info.typeParams, info.ifaceSimpleName)];
    RenderMembersAppend(start, BodyLayout(info, info.simpleName + "Impl", ms));
    RenderMembersAppend(start + BodyLayout(info, info.simpleName + "Impl", ms), [TypeEnd]);
  }

  /** Rendering three lists one after the other. */
  lemma RenderMembers3(a: seq<Member>, b: seq<Member>, c: seq<Member>)
    requires AllOk(a) && AllOk(b) && AllOk(c)
    ensures AllOk(a + b + c)
    ensures RenderMembers(a + b + c) == RenderMembers(a) + RenderMembers(b) + RenderMembers(c)
  {
    RenderMembersAppend(a, b);
    RenderMembersAppend(a + b, c);
  }

  /** A concrete class: its members, the factories, the closing brace. */
  lemma ConcreteLayout(info: ClassInfo, methods: seq<MethodInfo>, anyJava: seq<MethodInfo>)
    requires ClassWellFormed(info) && AllMethodsOk(methods) && AllMethodsOk(anyJava) && info.concrete
    ensures AllMethodsOk(GenMethods(info, methods, anyJava))
    ensures ClassLayout(info, methods, anyJava)
         == ConcreteMembers(info, methods, GenMethods(info, methods, anyJava)) + Factories(info) + [TypeEnd]
  {
    GenMethodsOk(info, methods, anyJava);
  }

  /** An abstract class: the declarations, the factories, the closing brace, then the Impl class. */
  lemma AbstractLayout(info: ClassInfo, methods: seq<MethodInfo>, anyJava: seq<MethodInfo>)
    requires ClassWellFormed(info) && AllMethodsOk(methods) && AllMethodsOk(anyJava) && !info.concrete
    ensures AllMethodsOk(GenMethods(info, methods, anyJava))
    ensures var ms := GenMethods(info, methods, anyJava);
      ClassLayout(info, methods, anyJava)
      == (AbstractMembers(info, ms) + Factories(info) + [TypeEnd]) + ImplMembers(info, ms)
  {
    GenMethodsOk(info, methods, anyJava);
  }
}

/**
 * The codegen model the generator consumes: type references, methods and the
 * class being translated, plus the classification of a method by the shape of
 * its last parameter (AbstractAxleGenerator.methodKind).
 */
module Types {

  datatype Option<T> = None | Some(value: T)

  /** The kinds of type the codegen model distinguishes (io.vertx.codegen.type.ClassKind). */
  datatype ClassKind =
    | String | BoxedPrimitive | Primitive
    | JsonObject | JsonArray
    | DataObject | Enum | Object | Throwable | Void | Other
    | Api | ClassType
    | Handler | AsyncResult | List | Set | Map | Function

  /** `ClassKind.basic`. */
  predicate IsBasic(k: ClassKind) {
    k == String || k == BoxedPrimitive || k == Primitive
  }

  /** `ClassKind.json`. */
  predicate IsJson(k: ClassKind) {
    k == JsonObject || k == JsonArray
  }

  /** The number of type arguments a parameterized kind always carries. */
  function Arity(k: ClassKind): Option<nat> {
    match k
    case Handler => Some(1)
    case AsyncResult => Some(1)
    case List => Some(1)
    case Set => Some(1)
    case Map => Some(2)
    case Function => Some(2)
    case _ => None
  }

  /** What a type variable is bound to: a parameter of the class (with its position) or of the method. */
  datatype TypeVar = ClassParam(index: nat) | MethodParam

  /** The erased class of a type (`getRaw()`), with its name in the output dialect. */
  datatype RawType = RawType(name: string, simpleName: string, translatedName: string)

  /**
   * A type reference (TypeInfo). `variable` is set for a TypeVariableInfo; `args`
   * are the arguments of a ParameterizedTypeInfo (empty when not parameterized);
   * `translatedName` is `translateName(id)` for the output dialect.
   */
  datatype TypeInfo = TypeInfo(
    kind: ClassKind,
    name: string,
    simpleName: string,
    translatedName: string,
    raw: RawType,
    variable: Option<TypeVar>,
    args: seq<TypeInfo>)

  /**
   * The shape the codegen model guarantees: a type variable has kind OBJECT and no
   * arguments, a parameterized kind has its fixed number of arguments, and a
   * non-parameterized class type is its own raw type.
   */
  predicate WellFormed(t: TypeInfo)
    decreases t
  {
    && (t.variable.Some? ==> t.kind == Object && t.args == [])
    && (Arity(t.kind).Some? ==> |t.args| == Arity(t.kind).value)
    && (t.args == [] && t.variable.None? ==> t.raw == RawType(t.name, t.simpleName, t.translatedName))
    && (forall i :: 0 <= i < |t.args| ==> WellFormed(t.args[i]))
  }

  /** How a method-level type variable is resolved (TypeArgExpression): from a `Class<T>`
      parameter, or from the `index`-th type argument of an API-typed parameter. */
  datatype TypeArgExpr = ClassTypeArg(param: string) | ApiTypeArg(param: string, index: nat)

  datatype ParamInfo = ParamInfo(name: string, typ: TypeInfo)

  /**
   * A method of the model (MethodInfo). `owners` is the set of owner types (by name),
   * `typeArgs` is `resolveTypeArg` tabulated by type-variable name.
   */
  datatype MethodInfo = MethodInfo(
    name: string,
    params: seq<ParamInfo>,
    returnType: TypeInfo,
    isStatic: bool,
    isFluent: bool,
    isCacheReturn: bool,
    isDeprecated: bool,
    owners: set<string>,
    typeParams: seq<string>,
    typeArgs: map<string, TypeArgExpr>)

  predicate MethodWellFormed(m: MethodInfo) {
    WellFormed(m.returnType) && forall i :: 0 <= i < |m.params| ==> WellFormed(m.params[i].typ)
  }

  datatype ConstantInfo = ConstantInfo(name: string, typ: TypeInfo)

  /**
   * The read-only part of the ClassModel of the class being translated.
   * `typeName` is `getType().getName()` and also identifies the class as an owner;
   * `typeParams` are the class's type parameter names, the index of each being its position.
   */
  datatype ClassInfo = ClassInfo(
    typeName: string,
    simpleName: string,
    rawTypeName: string,
    ifaceSimpleName: string,
    nonGenericIface: string,
    typeParams: seq<string>,
    concrete: bool,
    hasConcreteSuper: bool,
    readStreamArg: Option<TypeInfo>,
    methodMap: map<string, seq<MethodInfo>>,
    constants: seq<ConstantInfo>)

  predicate ClassWellFormed(info: ClassInfo) {
    && (info.readStreamArg.Some? ==> WellFormed(info.readStreamArg.value))
    && forall i :: 0 <= i < |info.constants| ==> WellFormed(info.constants[i].typ)
  }

  datatype MethodKind = FutureMethod | HandlerMethod | OtherMethod

  /** A `Handler<AsyncResult<...>>` type: the completion callback of an asynchronous method. */
  predicate IsAsyncHandler(t: TypeInfo) {
    t.kind == Handler && |t.args| > 0 && t.args[0].kind == AsyncResult
  }

  /**
   * methodKind: looks only at the type of the last parameter. A HANDLER type without
   * its argument is outside the codegen model (WellFormed rules it out); KindOf still
   * answers HANDLER for it, where the source's cast and `get(0)` would throw.
   */
  function KindOf(m: MethodInfo): MethodKind {
    var n := |m.params|;
    if n > 0 && m.params[n - 1].typ.kind == Handler then
      var last := m.params[n - 1].typ;
      if |last.args| > 0 && last.args[0].kind == AsyncResult then FutureMethod else HandlerMethod
    else
      OtherMethod
  }

  /** The classification rule in full, both directions of each case, for a method of the
      codegen model (whose HANDLER types carry their one type argument). */
  lemma KindOfCases(m: MethodInfo)
    requires MethodWellFormed(m)
    ensures |m.params| == 0 ==> KindOf(m) == OtherMethod
    ensures KindOf(m) == FutureMethod <==>
      |m.params| > 0 && m.params[|m.params| - 1].typ.kind == Handler
      && m.params[|m.params| - 1].typ.args[0].kind == AsyncResult
    ensures KindOf(m) == HandlerMethod <==>
      |m.params| > 0 && m.params[|m.params| - 1].typ.kind == Handler
      && m.params[|m.params| - 1].typ.args[0].kind != AsyncResult
    ensures KindOf(m) == OtherMethod <==> |m.params| == 0 || m.params[|m.params| - 1].typ.kind != Handler
  {
    if |m.params| > 0 {
      assert WellFormed(m.params[|m.params| - 1].typ);
    }
  }

  /** The name, the flags, the return type and all but the last parameter play no part. */
  lemma KindOfLastParamOnly(m1: MethodInfo, m2: MethodInfo)
    requires |m1.params| > 0 && |m2.params| > 0
    requires m1.params[|m1.params| - 1].typ == m2.params[|m2.params| - 1].typ
    ensures KindOf(m1) == KindOf(m2)
  {
  }

  lemma KindOfIgnoresName(m: MethodInfo, name: string)
    ensures KindOf(m.(name := name)) == KindOf(m)
  {
  }
}

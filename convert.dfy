/**
 * How the generator names types and converts values between the delegate API and the
 * generated API: isSameType, isReified, genTypeArg, genConvParam, genConvReturn,
 * genTypeName, genOptTypeParamsDecl and genCSMethodName of AbstractAxleGenerator.
 */
module Convert {
  import opened Types
  import opened Text

  // ---------------------------------------------------------------------------
  // Type variables

  /** isReified: a class type parameter always has a runtime token; a method type
      parameter has one when it is bound by a `Class<T>` parameter. */
  predicate IsReified(t: TypeInfo, m: MethodInfo)
    requires t.variable.Some?
  {
    match t.variable.value
    case ClassParam(_) => true
    case MethodParam => t.name in m.typeArgs && m.typeArgs[t.name].ClassTypeArg?
  }

  /** genTypeArg: the Java expression denoting the runtime token of a type variable, or
      None (the source's `null`) when the method gives no way to obtain one. */
  function GenTypeArg(t: TypeInfo, m: MethodInfo): Option<string>
    requires t.variable.Some?
  {
    match t.variable.value
    case ClassParam(index) => Some("__typeArg_" + NatToString(index))
    case MethodParam =>
      if t.name in m.typeArgs then
        match m.typeArgs[t.name]
        case ClassTypeArg(param) => Some("io.vertx.lang.axle.TypeArg.of(" + param + ")")
        case ApiTypeArg(param, index) => Some(param + ".__typeArg_" + NatToString(index))
      else None
  }

  /** A token is missing exactly for a method type variable the method does not bind. */
  lemma GenTypeArgNoneIff(t: TypeInfo, m: MethodInfo)
    requires t.variable.Some?
    ensures GenTypeArg(t, m).None? <==> t.variable.value == MethodParam && t.name !in m.typeArgs
  {
  }

  /** Every reified variable has a token; a class type parameter's token is the field
      `__typeArg_<index>` the generated class declares for it. */
  lemma ReifiedHasTypeArg(t: TypeInfo, m: MethodInfo)
    requires t.variable.Some? && IsReified(t, m)
    ensures GenTypeArg(t, m).Some?
    ensures t.variable.value.ClassParam? ==>
      GenTypeArg(t, m).value == "__typeArg_" + NatToString(t.variable.value.index)
  {
  }

  // ---------------------------------------------------------------------------
  // isSameType

  /**
   * isSameType: a value of this type can cross between the delegate API and the
   * generated API unchanged.
   */
  predicate IsSameType(t: TypeInfo, m: MethodInfo)
    requires WellFormed(t)
    decreases t
  {
    if IsBasic(t.kind) || IsJson(t.kind) || t.kind in {DataObject, Enum, Other, Throwable, Void} then true
    else if t.kind == Object then
      if t.variable.Some? then !IsReified(t, m) else true
    else if |t.args| > 0 then
      if t.kind in {List, Set, AsyncResult, Handler} then IsSameType(t.args[0], m)
      else if t.kind == Map then IsSameType(t.args[1], m)
      else if t.kind == Function then IsSameType(t.args[0], m) && IsSameType(t.args[1], m)
      else false
    else false
  }

  /** API types and `Class<T>` types always need converting. */
  lemma ApiNeverSameType(t: TypeInfo, m: MethodInfo)
    requires WellFormed(t) && t.kind in {Api, ClassType}
    ensures !IsSameType(t, m)
  {
  }

  /** Only the value type of a map is looked at: changing the key type changes nothing. */
  lemma MapKeysIgnored(t: TypeInfo, key: TypeInfo, m: MethodInfo)
    requires WellFormed(t) && WellFormed(key) && t.kind == Map
    ensures var t2 := t.(args := [key, t.args[1]]);
      WellFormed(t2) && IsSameType(t2, m) == IsSameType(t, m)
      && GenConvParam(t2, m, "x") == GenConvParam(t, m, "x")
      && GenConvReturn(t2, m, "x") == GenConvReturn(t, m, "x")
  {
    var t2 := t.(args := [key, t.args[1]]);
    assert t2.args[1] == t.args[1];
    assert WellFormed(t2);
  }

  // ---------------------------------------------------------------------------
  // genTypeName

  /**
   * genTypeName: the Java source text of a type in the generated API. A parameterized
   * type is its raw type's name followed by its arguments' names, comma separated, in
   * angle brackets; an API type is named in the output dialect (its translated name);
   * any other type by its simple name.
   */
  function GenTypeName(t: TypeInfo): string
    decreases t, 1
  {
    if |t.args| > 0 then
      (if t.kind == Api then t.raw.translatedName else t.raw.simpleName)
        + "<" + Join(", ", ArgTypeNames(t, 0)) + ">"
    else if t.kind == Api then t.translatedName
    else t.simpleName
  }

  /** genTypeName of each of `t.args[i..]`. */
  function ArgTypeNames(t: TypeInfo, i: nat): (r: seq<string>)
    requires i <= |t.args|
    ensures |r| == |t.args| - i
    decreases t, 0, |t.args| - i
  {
    if i == |t.args| then [] else [GenTypeName(t.args[i])] + ArgTypeNames(t, i + 1)
  }

  /** An API type occurs somewhere in `t`. */
  predicate MentionsApi(t: TypeInfo)
    decreases t
  {
    t.kind == Api || exists i :: 0 <= i < |t.args| && MentionsApi(t.args[i])
  }

  /** A reference rendering that never reads a translated name: raw simple names and
      simple names only. */
  function SourceName(t: TypeInfo): string
    decreases t, 1
  {
    if |t.args| > 0 then t.raw.simpleName + "<" + Join(", ", ArgSourceNames(t, 0)) + ">"
    else t.simpleName
  }

  function ArgSourceNames(t: TypeInfo, i: nat): (r: seq<string>)
    requires i <= |t.args|
    ensures |r| == |t.args| - i
    decreases t, 0, |t.args| - i
  {
    if i == |t.args| then [] else [SourceName(t.args[i])] + ArgSourceNames(t, i + 1)
  }

  /** The output dialect only matters where an API type occurs: elsewhere genTypeName
      is the plain Java name. */
  lemma {:induction false} GenTypeNameDialectFree(t: TypeInfo)
    requires !MentionsApi(t)
    ensures GenTypeName(t) == SourceName(t)
    decreases t, 1
  {
    if |t.args| > 0 {
      ArgNamesDialectFree(t, 0);
    }
  }

  lemma {:induction false} ArgNamesDialectFree(t: TypeInfo, i: nat)
    requires i <= |t.args| && !MentionsApi(t)
    ensures ArgTypeNames(t, i) == ArgSourceNames(t, i)
    decreases t, 0, |t.args| - i
  {
    if i < |t.args| {
      assert !MentionsApi(t.args[i]);
      GenTypeNameDialectFree(t.args[i]);
      ArgNamesDialectFree(t, i + 1);
    }
  }

  /** An API type is always named in the output dialect. */
  lemma GenTypeNameApi(t: TypeInfo)
    requires t.kind == Api
    ensures |t.args| == 0 ==> GenTypeName(t) == t.translatedName
    ensures |t.args| > 0 ==> t.raw.translatedName + "<" <= GenTypeName(t)
  {
  }

  // ---------------------------------------------------------------------------
  // Conversions

  /** The runtime token passed to `newInstance` for one type argument of an API type. */
  function TypeArgToken(arg: TypeInfo, m: MethodInfo): string {
    if arg.kind == Api then "(io.vertx.lang.axle.TypeArg)" + arg.raw.translatedName + ".__TYPE_ARG"
    else if arg.kind == Object && arg.variable.Some? && GenTypeArg(arg, m).Some? then GenTypeArg(arg, m).value
    else UnknownTypeArg
  }

  const UnknownTypeArg := "io.vertx.lang.axle.TypeArg.unknown()"

  /** The token falls back to `TypeArg.unknown()` exactly for a type argument that is neither
      an API type nor a type variable the method can resolve. */
  lemma TypeArgTokenUnknownIff(arg: TypeInfo, m: MethodInfo)
    requires WellFormed(arg)
    ensures TypeArgToken(arg, m) == UnknownTypeArg <==>
      arg.kind != Api && (arg.variable.None? || (arg.variable.value == MethodParam && arg.name !in m.typeArgs))
  {
    if arg.kind != Api && arg.variable.Some? && GenTypeArg(arg, m).Some? {
      var tok := GenTypeArg(arg, m).value;
      if arg.variable.value.ClassParam? {
        assert tok[0] == '_' != UnknownTypeArg[0];
      } else {
        match m.typeArgs[arg.name]
        case ClassTypeArg(param) =>
          assert tok == "io.vertx.lang.axle.TypeArg.of(" + param + ")";
          assert tok[27] == 'o' != UnknownTypeArg[27];
        case ApiTypeArg(param, index) =>
          var digits := NatToString(index);
          assert tok[|tok| - 1] == digits[|digits| - 1];
          assert IsDigit(tok[|tok| - 1]);
      }
    }
  }

  /** `, <token>` for each of `t.args[i..]`, in order. */
  function TypeArgTokens(t: TypeInfo, m: MethodInfo, i: nat): string
    requires i <= |t.args|
    decreases |t.args| - i
  {
    if i == |t.args| then "" else ", " + TypeArgToken(t.args[i], m) + TypeArgTokens(t, m, i + 1)
  }

  /** `T.newInstance(expr, tokens...)`: wrapping a delegate into the generated API type `t`. */
  function NewInstance(t: TypeInfo, m: MethodInfo, expr: string): string {
    t.raw.translatedName + ".newInstance(" + expr + TypeArgTokens(t, m, 0) + ")"
  }

  /**
   * The StringBuilder loop of genConvReturn's API case: appends one token per type
   * argument.
   */
  method BuildNewInstance(t: TypeInfo, m: MethodInfo, expr: string) returns (r: string)
    ensures r == NewInstance(t, m, expr)
  {
    var tmp := t.raw.translatedName + ".newInstance(" + expr;
    var i := 0;
    while i < |t.args|
      invariant 0 <= i <= |t.args|
      invariant tmp + TypeArgTokens(t, m, i) == t.raw.translatedName + ".newInstance(" + expr + TypeArgTokens(t, m, 0)
    {
      TokensAppend(tmp, t, m, i);
      tmp := tmp + ", " + TypeArgToken(t.args[i], m);
      i := i + 1;
    }
    r := tmp + ")";
  }

  /** Appending the next token to the prefix leaves the rest of the tokens to append. */
  lemma TokensAppend(prefix: string, t: TypeInfo, m: MethodInfo, i: nat)
    requires i < |t.args|
    ensures prefix + TypeArgTokens(t, m, i) == prefix + ", " + TypeArgToken(t.args[i], m) + TypeArgTokens(t, m, i + 1)
  {
    var tok, rest := TypeArgToken(t.args[i], m), TypeArgTokens(t, m, i + 1);
    assert TypeArgTokens(t, m, i) == ", " + tok + rest;
    assert prefix + (", " + tok + rest) == prefix + ", " + tok + rest;
  }

  /** A class type parameter is wrapped with the token held by the class's own field. */
  lemma NewInstanceClassParamToken(t: TypeInfo, m: MethodInfo, p: nat, index: nat)
    requires p < |t.args| && t.args[p].kind == Object && t.args[p].variable == Some(ClassParam(index))
    ensures Contains(TypeArgTokens(t, m, 0), ", __typeArg_" + NatToString(index))
  {
    TokensContain(t, m, 0, p);
    assert ", " + TypeArgToken(t.args[p], m) == ", __typeArg_" + NatToString(index);
  }

  lemma {:induction false} TokensContain(t: TypeInfo, m: MethodInfo, i: nat, k: nat)
    requires i <= k < |t.args|
    ensures Contains(TypeArgTokens(t, m, i), ", " + TypeArgToken(t.args[k], m))
    decreases k - i
  {
    var rest := TypeArgTokens(t, m, i + 1);
    var tok := ", " + TypeArgToken(t.args[k], m);
    if i == k {
      assert TypeArgTokens(t, m, i) == tok + rest;
      assert tok <= tok + rest;
    } else {
      TokensContain(t, m, i + 1, k);
      assert TypeArgTokens(t, m, i) == (", " + TypeArgToken(t.args[i], m)) + rest;
      ContainsSuffix(", " + TypeArgToken(t.args[i], m), rest, ", " + TypeArgToken(t.args[k], m));
    }
  }

  /** An anonymous `Handler<AsyncResult<R>>` completing `expr` with the converted result
      (`converted`) or with the failure. */
  function AsyncHandlerAdapter(resultType: string, expr: string, converted: string): (r: string)
    ensures |r| > |expr|
  {
    "new Handler<AsyncResult<" + resultType + ">>() {\n" +
    "      public void handle(AsyncResult<" + resultType + "> ar) {\n" +
    "        if (ar.succeeded()) {\n" +
    "          " + expr + ".handle(io.vertx.core.Future.succeededFuture(" + converted + "));\n" +
    "        } else {\n" +
    "          " + expr + ".handle(io.vertx.core.Future.failedFuture(ar.cause()));\n" +
    "        }\n" +
    "      }\n" +
    "    }"
  }

  /** An anonymous `Handler<E>` passing the converted event on to `expr`. */
  function HandlerAdapter(eventType: string, expr: string, converted: string, indent: string): (r: string)
    ensures |r| > |expr|
  {
    "new Handler<" + eventType + ">() {\n" +
    "      public void handle(" + eventType + " event) {\n" +
    indent + expr + ".handle(" + converted + ");\n" +
    "      }\n" +
    "    }"
  }

  /** An anonymous `Function<A,R>` converting its argument in and its result out of `expr`. */
  function FunctionAdapter(argType: string, retType: string, retTypeName: string, expr: string,
                           convertedArg: string, convertedRet: string): (r: string)
    ensures |r| > |expr|
  {
    "new java.util.function.Function<" + argType + "," + retType + ">() {\n" +
    "      public " + retType + " apply(" + argType + " arg) {\n" +
    "        " + retTypeName + " ret = " + expr + ".apply(" + convertedArg + ");\n" +
    "        return " + convertedRet + ";\n" +
    "      }\n" +
    "    }"
  }

  /** `expr` with each element converted, collected back into a List or Set. */
  function StreamMap(expr: string, converted: string, collection: string): (r: string)
    ensures |r| > |expr|
  {
    expr + ".stream().map(elt -> " + converted + ").collect(java.util.stream.Collectors.to" + collection + "())"
  }

  /** `expr` with each value converted, keys kept. */
  function MapValues(expr: string, converted: string): (r: string)
    ensures |r| > |expr|
  {
    expr + ".entrySet().stream().collect(java.util.stream.Collectors.toMap(e -> e.getKey(), e -> " + converted + "))"
  }

  /**
   * genConvParam: turns an argument `expr` of the generated API into what the delegate
   * expects (unwrapping API objects, adapting handlers and functions element by element).
   */
  function GenConvParam(t: TypeInfo, m: MethodInfo, expr: string): string
    requires WellFormed(t)
    decreases t, 0
  {
    if IsSameType(t, m) then expr
    else if t.kind == Object then
      if t.variable.Some? && GenTypeArg(t, m).Some? then GenTypeArg(t, m).value + ".<" + t.name + ">unwrap(" + expr + ")"
      else expr
    else if t.kind == Api then expr + ".getDelegate()"
    else if t.kind == ClassType then "io.vertx.lang.axle.Helper.unwrap(" + expr + ")"
    else if |t.args| > 0 then
      if t.kind == Handler then
        var eventType := t.args[0];
        assert WellFormed(eventType);
        if eventType.kind == AsyncResult then
          var resultType := eventType.args[0];
          AsyncHandlerAdapter(resultType.name, expr, GenConvReturn(resultType, m, "ar.result()"))
        else
          HandlerAdapter(eventType.name, expr, GenConvReturn(eventType, m, "event"), "        ")
      else if t.kind == Function then
        var argType, retType := t.args[0], t.args[1];
        FunctionAdapter(argType.name, retType.name, GenTypeName(retType), expr,
                        GenConvReturn(argType, m, "arg"), GenConvParam(retType, m, "ret"))
      else if t.kind in {List, Set} then
        StreamMap(expr, GenConvParam(t.args[0], m, "elt"), t.raw.simpleName)
      else if t.kind == Map then
        MapValues(expr, GenConvParam(t.args[1], m, "e.getValue()"))
      else expr
    else expr
  }

  /**
   * genConvReturn: turns a value `expr` obtained from the delegate into a value of the
   * generated API (wrapping API objects, casting type variables, adapting handlers and
   * collections).
   */
  function GenConvReturn(t: TypeInfo, m: MethodInfo, expr: string): string
    requires WellFormed(t)
    decreases t, 0
  {
    if t.kind == Object then
      if t.variable.Some? && GenTypeArg(t, m).Some? then "(" + t.name + ")" + GenTypeArg(t, m).value + ".wrap(" + expr + ")"
      else "(" + t.simpleName + ") " + expr
    else if IsSameType(t, m) then expr
    else if t.kind == Api then NewInstance(t, m, expr)
    else if |t.args| > 0 then
      if t.kind == Handler then
        var abc := t.args[0];
        assert WellFormed(abc);
        if abc.kind == AsyncResult then
          var tutu := abc.args[0];
          AsyncHandlerAdapter(GenTypeName(tutu), expr, GenConvParam(tutu, m, "ar.result()"))
        else
          HandlerAdapter(GenTypeName(abc), expr, GenConvParam(abc, m, "event"), "          ")
      else if t.kind in {List, Set} then
        StreamMap(expr, GenConvReturn(t.args[0], m, "elt"), t.raw.simpleName)
      else expr
    else expr
  }

  /** A parameter is forwarded untouched exactly when its type needs no conversion, or
      is an AsyncResult (for which no conversion is written). */
  lemma ConvParamIdentityIff(t: TypeInfo, m: MethodInfo, expr: string)
    requires WellFormed(t)
    ensures GenConvParam(t, m, expr) == expr <==> IsSameType(t, m) || t.kind == AsyncResult
  {
    if !IsSameType(t, m) && t.kind != AsyncResult {
      ConvParamGrows(t, m, expr);
    }
  }

  /** Any conversion actually written is longer than the expression it converts. */
  lemma ConvParamGrows(t: TypeInfo, m: MethodInfo, expr: string)
    requires WellFormed(t) && !IsSameType(t, m) && t.kind != AsyncResult
    ensures |GenConvParam(t, m, expr)| > |expr|
  {
    if t.kind == Object {
      ReifiedHasTypeArg(t, m);
    } else if t.kind == Handler {
      assert WellFormed(t.args[0]);
    }
  }

  /** A result is returned untouched exactly when it is not a type variable or Object
      (those are always cast) and either needs no conversion or is a map, a function, an
      AsyncResult or a `Class<T>` (for which no conversion is written). */
  lemma ConvReturnIdentityIff(t: TypeInfo, m: MethodInfo, expr: string)
    requires WellFormed(t)
    ensures GenConvReturn(t, m, expr) == expr <==>
      t.kind != Object && (IsSameType(t, m) || t.kind in {Map, Function, AsyncResult, ClassType})
  {
    if t.kind == Object || !(IsSameType(t, m) || t.kind in {Map, Function, AsyncResult, ClassType}) {
      ConvReturnGrows(t, m, expr);
    }
  }

  /** Any conversion actually written around a result is longer than the result. */
  lemma ConvReturnGrows(t: TypeInfo, m: MethodInfo, expr: string)
    requires WellFormed(t)
    requires t.kind == Object || !(IsSameType(t, m) || t.kind in {Map, Function, AsyncResult, ClassType})
    ensures |GenConvReturn(t, m, expr)| > |expr|
  {
    if t.kind == Handler {
      assert WellFormed(t.args[0]);
    }
  }

  /** A type variable's value is converted through its token in both directions; without
      a token it is forwarded as is, and returned behind a cast. */
  lemma ConvVariable(t: TypeInfo, m: MethodInfo, expr: string)
    requires WellFormed(t) && t.variable.Some?
    ensures IsReified(t, m) ==>
      GenConvParam(t, m, expr) == GenTypeArg(t, m).value + ".<" + t.name + ">unwrap(" + expr + ")"
    ensures IsReified(t, m) ==>
      GenConvReturn(t, m, expr) == "(" + t.name + ")" + GenTypeArg(t, m).value + ".wrap(" + expr + ")"
    ensures !IsReified(t, m) ==> GenConvParam(t, m, expr) == expr
  {
    if IsReified(t, m) {
      ReifiedHasTypeArg(t, m);
    }
  }

  /** An API value is unwrapped on the way in and wrapped on the way out. */
  lemma ConvApi(t: TypeInfo, m: MethodInfo, expr: string)
    requires WellFormed(t) && t.kind == Api
    ensures GenConvParam(t, m, expr) == expr + ".getDelegate()"
    ensures GenConvReturn(t, m, expr) == NewInstance(t, m, expr)
  {
  }

  // ---------------------------------------------------------------------------
  // genOptTypeParamsDecl and genCSMethodName

  /** genOptTypeParamsDecl: `<A,B>` for a generic class, `deflt` otherwise. */
  function GenOptTypeParamsDecl(typeParams: seq<string>, deflt: string): string {
    if |typeParams| > 0 then "<" + Join(",", typeParams) + ">" else deflt
  }

  /** The declaration is bracketed and lists the parameter names back, in order. */
  lemma OptTypeParamsDeclRoundTrip(typeParams: seq<string>, deflt: string)
    requires forall i :: 0 <= i < |typeParams| ==> ',' !in typeParams[i]
    ensures |typeParams| == 0 ==> GenOptTypeParamsDecl(typeParams, deflt) == deflt
    ensures |typeParams| > 0 ==>
      var r := GenOptTypeParamsDecl(typeParams, deflt);
      |r| >= 2 && r[0] == '<' && r[|r| - 1] == '>' && Split(r[1..|r| - 1], ',') == typeParams
  {
    if |typeParams| > 0 {
      var r := GenOptTypeParamsDecl(typeParams, deflt);
      assert r[1..|r| - 1] == Join([','], typeParams);
      SplitJoin(typeParams, ',');
    }
  }

  /** Character.toUpperCase on the ASCII letters; every other character is unchanged. */
  function ToUpper(c: char): char {
    if 'a' <= c <= 'z' then (c as int - 32) as char else c
  }

  /** genCSMethodName: `_` then the method name with its first letter upper-cased. */
  function GenCSMethodName(name: string): string
    requires |name| > 0
  {
    "_" + [ToUpper(name[0])] + name[1..]
  }

  /** Two names give the same helper name exactly when they differ at most in the case
      of their first letter. */
  lemma CSMethodNameCollisionIff(a: string, b: string)
    requires |a| > 0 && |b| > 0
    ensures GenCSMethodName(a) == GenCSMethodName(b) <==> ToUpper(a[0]) == ToUpper(b[0]) && a[1..] == b[1..]
  {
    var ra, rb := GenCSMethodName(a), GenCSMethodName(b);
    if ra == rb {
      assert ra[1] == rb[1];
      assert ra[2..] == a[1..] && rb[2..] == b[1..];
    }
  }

  /** The helper name of `send` is `_Send`, which `Send` shares. */
  lemma CSMethodNameExample()
    ensures GenCSMethodName("send") == "_Send" == GenCSMethodName("Send")
  {
  }
}

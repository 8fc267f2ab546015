# Axle generator core, modelled in Dafny

This project models the translation core of the Vert.x "Axle" code generator
(`AbstractAxleGenerator`). The generator reads the codegen model of one callback-style
Vert.x API class and writes a wrapper class. In the wrapper, asynchronous operations
return future-like handles. The model covers five parts:

- **Classification.** `methodKind` labels each method FUTURE, HANDLER or OTHER from the
  type of its last parameter (`types.dfy`, `Types.KindOf`).
- **Override resolution.** `isOverride` and the two in-place filtering loops of
  `getGenMethods`. They run over the model's method list and its any-Java-type list,
  held in a `ClassModel` class whose two `seq` fields the loops reassign
  (`overrides.dfy`).
- **Type-directed conversion.** `isSameType`, `isReified`, `genTypeArg`,
  `genConvParam`, `genConvReturn`, `genTypeName`, `genOptTypeParamsDecl` and
  `genCSMethodName`. Each is a function over the `TypeInfo` tree, and the output is a
  `string` (`convert.dfy`).
- **Method bodies.** `genInvokeDelegate` is a `StringBuilder` loop proved equal to
  `InvokeExpr`. The fluent, void and cache-return bodies of `genSimpleMethod` are a
  statement list (`Body.Stmt`). A small execution semantics for that list states what a
  generated body does when it runs: one delegate call, `this` returned, the memoized
  field (`body.dfy`).
- **Emission.** The emitters write to a `Writer` class, a `PrintWriter` recording a
  sequence of chunks (`output.dfy`). Every emitter is a method proved to print exactly
  the rendering of a list of `Layout.Member` values (`layout.dfy`, `emit.dfy`).
  Covered: `genSimpleMethod`, `genMethod`, `genMethodDecl`, `genConstant`, the
  `__TYPE_ARG` constant, fields, the three constructors, `toString`/`equals`/`hashCode`,
  the two `newInstance` factories, the abstract interface and its `Impl` class.
  `properties.dfy` proves what the generated type contains.

The subclass hooks `genCSMethod`, `genConsumerMethod`, `genReadStream` and
`genToObservable` have no body in this file. Each is recorded as a `Hook` chunk naming
the call and its arguments.

Points where the code is followed rather than the design description:

- Pass 1 of `getGenMethods` uses `isOverride(method, other)` in both ownership branches.
  The commented-out ownership test is dead code, so ownership never affects pass 1
  (`Overrides.Pass1Members`).
- Pass 2 for a FUTURE method the class does not own tests `isOverride(meth, other)`,
  with the arguments reversed (source line 546). So `other` must have one parameter
  MORE than the FUTURE method. A shorter callback twin never removes it
  (`Overrides.NonOwnedFutureIgnoresShorterTwins`).
- `genConvReturn` writes no conversion for MAP, FUNCTION, ASYNC_RESULT and CLASS_TYPE.
  Those values are returned unchanged even when their elements would need converting
  (`Convert.ConvReturnIdentityIff`).
- Of the identity methods, only `toString` is skipped when the API declares a
  parameterless `toString`. `equals` and `hashCode` are emitted in every concrete
  class (`Properties.IdentityMethods`).
- A null result of a cache-return method is not remembered: the field stays null, and
  the next call asks the delegate again (`Body.CacheMemoizes`).

## Model

| member | source | states |
|---|---|---|
| Types.KindOfCases | vertx-axle-clients/vertx-axle-generator/src/main/java/io/vertx/lang/axle/AbstractAxleGenerator.java:32-47 | For a method whose HANDLER types carry their type argument: an empty parameter list gives OTHER. A last parameter of kind HANDLER gives FUTURE if its argument is ASYNC_RESULT and HANDLER otherwise. Any other last parameter gives OTHER. Each case is stated in both directions. |
| Types.KindOfLastParamOnly | vertx-axle-clients/vertx-axle-generator/src/main/java/io/vertx/lang/axle/AbstractAxleGenerator.java:32-47 | Two methods whose last parameters have the same type get the same kind, whatever their names, flags, return types and earlier parameters. |
| Types.KindOfIgnoresName | vertx-axle-clients/vertx-axle-generator/src/main/java/io/vertx/lang/axle/AbstractAxleGenerator.java:32-47 | Renaming a method never changes its kind. |
| Overrides.IsOverride | vertx-axle-clients/vertx-axle-generator/src/main/java/io/vertx/lang/axle/AbstractAxleGenerator.java:570-580 | The early-exit loop returns true exactly when the names are equal, the second method has one more parameter, and the parameter types agree at every position of the first. |
| Overrides.OverridesIrreflexive | vertx-axle-clients/vertx-axle-generator/src/main/java/io/vertx/lang/axle/AbstractAxleGenerator.java:570-580 | No method overrides itself. |
| Overrides.OverridesAsymmetric | vertx-axle-clients/vertx-axle-generator/src/main/java/io/vertx/lang/axle/AbstractAxleGenerator.java:570-580 | If s1 overrides s2, then s2 does not override s1. |
| Overrides.RemoveOverriddenMethods | vertx-axle-clients/vertx-axle-generator/src/main/java/io/vertx/lang/axle/AbstractAxleGenerator.java:500-526 | The first in-place ListIterator loop leaves exactly Pass1 of the list. Removing entries while scanning decides as scanning the original list would. |
| Overrides.RemoveConflictingFutures | vertx-axle-clients/vertx-axle-generator/src/main/java/io/vertx/lang/axle/AbstractAxleGenerator.java:529-555 | The second in-place loop leaves exactly Pass2 of the list it starts from. |
| Overrides.Pass1Members | vertx-axle-clients/vertx-axle-generator/src/main/java/io/vertx/lang/axle/AbstractAxleGenerator.java:500-526 | Pass 1 keeps every FUTURE method. It removes a non-FUTURE method exactly when some FUTURE method of the list has it as an override, whatever the ownership. |
| Overrides.Pass2Members | vertx-axle-clients/vertx-axle-generator/src/main/java/io/vertx/lang/axle/AbstractAxleGenerator.java:529-555 | Pass 2 keeps every non-FUTURE method. An owned FUTURE method goes iff a non-FUTURE method of its name group overrides it and is inherited or still listed. A non-owned one goes iff isOverride(meth, other) holds for a non-FUTURE method of the group that shares an owner type with it. |
| Overrides.GetGenMethods | vertx-axle-clients/vertx-axle-generator/src/main/java/io/vertx/lang/axle/AbstractAxleGenerator.java:493-557 | Each of the two model lists is filtered in place by pass 1 then pass 2. The result is the filtered method list followed by the filtered any-Java-type list. |
| Overrides.ResolveIsSubsequence | vertx-axle-clients/vertx-axle-generator/src/main/java/io/vertx/lang/axle/AbstractAxleGenerator.java:494-557 | Each filtered list is a subsequence of the list it came from: relative order is kept and nothing is added. |
| Overrides.ResolveIdempotent | vertx-axle-clients/vertx-axle-generator/src/main/java/io/vertx/lang/axle/AbstractAxleGenerator.java:181-189 | Filtering a filtered list again changes nothing. An abstract type relies on this, since its interface and its Impl class each call getGenMethods on the same model. |
| Overrides.NonOwnedFutureIgnoresShorterTwins | vertx-axle-clients/vertx-axle-generator/src/main/java/io/vertx/lang/axle/AbstractAxleGenerator.java:539-547 | Because of the reversed argument order, a non-owned FUTURE method is never removed when no method of its name group has more parameters than it. |
| Overrides.OwnedPairKeepsFuture | vertx-axle-clients/vertx-axle-generator/src/main/java/io/vertx/lang/axle/AbstractAxleGenerator.java:500-555 | send(a) and send(a, Handler<AsyncResult<Void>>), both declared by the class: exactly the future-style method is generated. |
| Overrides.InheritedPairDropsBoth | vertx-axle-clients/vertx-axle-generator/src/main/java/io/vertx/lang/axle/AbstractAxleGenerator.java:500-555 | send(a) inherited, with its future-style twin declared by the class: both are dropped and nothing named send is generated. |
| Convert.GenTypeArgNoneIff | vertx-axle-clients/vertx-axle-generator/src/main/java/io/vertx/lang/axle/AbstractAxleGenerator.java:930-944 | genTypeArg returns null exactly for a method type variable that the method does not bind through resolveTypeArg. |
| Convert.ReifiedHasTypeArg | vertx-axle-clients/vertx-axle-generator/src/main/java/io/vertx/lang/axle/AbstractAxleGenerator.java:921-944 | Every reified variable has a token. A class type parameter's token is the field __typeArg_<index>. |
| Convert.ApiNeverSameType | vertx-axle-clients/vertx-axle-generator/src/main/java/io/vertx/lang/axle/AbstractAxleGenerator.java:833-858 | API and CLASS_TYPE values always need converting. |
| Convert.MapKeysIgnored | vertx-axle-clients/vertx-axle-generator/src/main/java/io/vertx/lang/axle/AbstractAxleGenerator.java:848-849 | Only a map's value type matters: changing the key type changes neither isSameType nor either conversion. |
| Convert.GenTypeNameDialectFree | vertx-axle-clients/vertx-axle-generator/src/main/java/io/vertx/lang/axle/AbstractAxleGenerator.java:668-678 | Where no API type occurs, genTypeName is the plain raw-simple-name rendering. The output dialect never matters there. |
| Convert.GenTypeNameApi | vertx-axle-clients/vertx-axle-generator/src/main/java/io/vertx/lang/axle/AbstractAxleGenerator.java:668-678 | An API type is named by its translated name. A parameterized API type starts with its raw type's translated name and an angle bracket. |
| Convert.TypeArgTokenUnknownIff | vertx-axle-clients/vertx-axle-generator/src/main/java/io/vertx/lang/axle/AbstractAxleGenerator.java:972-989 | The token passed for a type argument is TypeArg.unknown() exactly when the argument is neither an API type nor a type variable the method can resolve. |
| Convert.BuildNewInstance | vertx-axle-clients/vertx-axle-generator/src/main/java/io/vertx/lang/axle/AbstractAxleGenerator.java:966-994 | The StringBuilder loop of the API case builds newInstance(expr, tokens...), with one token per type argument, in order. |
| Convert.NewInstanceClassParamToken | vertx-axle-clients/vertx-axle-generator/src/main/java/io/vertx/lang/axle/AbstractAxleGenerator.java:977-989 | A class type parameter used as a type argument is passed as the class's own __typeArg_<index> token. |
| Convert.ConvParamIdentityIff | vertx-axle-clients/vertx-axle-generator/src/main/java/io/vertx/lang/axle/AbstractAxleGenerator.java:860-918 | genConvParam returns expr unchanged exactly when isSameType holds or the type is an ASYNC_RESULT, for which no conversion is written. |
| Convert.ConvParamGrows | vertx-axle-clients/vertx-axle-generator/src/main/java/io/vertx/lang/axle/AbstractAxleGenerator.java:860-918 | Every conversion genConvParam actually writes is longer than the expression it converts. |
| Convert.ConvReturnIdentityIff | vertx-axle-clients/vertx-axle-generator/src/main/java/io/vertx/lang/axle/AbstractAxleGenerator.java:955-1020 | genConvReturn returns expr unchanged exactly when the kind is not OBJECT, and the type either needs no conversion or is a MAP, FUNCTION, ASYNC_RESULT or CLASS_TYPE. OBJECT is always cast. |
| Convert.ConvReturnGrows | vertx-axle-clients/vertx-axle-generator/src/main/java/io/vertx/lang/axle/AbstractAxleGenerator.java:955-1020 | Every conversion genConvReturn actually writes is longer than the expression it converts. |
| Convert.ConvVariable | vertx-axle-clients/vertx-axle-generator/src/main/java/io/vertx/lang/axle/AbstractAxleGenerator.java:864-871 | A reified type variable is unwrapped through its token on the way in and cast-wrapped through it on the way out. An unresolved one is passed in unchanged. |
| Convert.ConvApi | vertx-axle-clients/vertx-axle-generator/src/main/java/io/vertx/lang/axle/AbstractAxleGenerator.java:872-873 | An API value becomes expr.getDelegate() on the way in and T.newInstance(expr, tokens) on the way out. |
| Convert.OptTypeParamsDeclRoundTrip | vertx-axle-clients/vertx-axle-generator/src/main/java/io/vertx/lang/axle/AbstractAxleGenerator.java:1023-1029 | A generic type gives the parameter names back, in order, between < and >, split at commas. A non-generic type gives the default. |
| Convert.CSMethodNameCollisionIff | vertx-axle-clients/vertx-axle-generator/src/main/java/io/vertx/lang/axle/AbstractAxleGenerator.java:680-682 | Two names give the same helper name exactly when they differ at most in the case of their first letter. |
| Convert.CSMethodNameExample | vertx-axle-clients/vertx-axle-generator/src/main/java/io/vertx/lang/axle/AbstractAxleGenerator.java:680-682 | send and Send both give _Send. |
| Body.GenInvokeDelegate | vertx-axle-clients/vertx-axle-generator/src/main/java/io/vertx/lang/axle/AbstractAxleGenerator.java:789-831 | The StringBuilder loop builds target.name(arg, ...). The target is the delegate, or the interface for a static method. There is one converted or bridged argument per parameter, comma separated. |
| Body.ForwardingUnchanged | vertx-axle-clients/vertx-axle-generator/src/main/java/io/vertx/lang/axle/AbstractAxleGenerator.java:789-831 | When no parameter needs converting or bridging, the call passes the parameters by name, unchanged and in order. |
| Body.BridgedStreamArg | vertx-axle-clients/vertx-axle-generator/src/main/java/io/vertx/lang/axle/AbstractAxleGenerator.java:801-822 | A parameterized rx.Observable or Publisher parameter is passed as ReadStreamSubscriber.asReadStream(name, adapter).resume(). |
| Body.MethodHeaderShape | vertx-axle-clients/vertx-axle-generator/src/main/java/io/vertx/lang/axle/AbstractAxleGenerator.java:618-666 | The header declares the method under the requested name with the requested visibility. It carries @Deprecated() exactly when the method is deprecated. |
| Body.CacheDeclNamesField | vertx-axle-clients/vertx-axle-generator/src/main/java/io/vertx/lang/axle/AbstractAxleGenerator.java:738-744 | A cache declaration ends with the name of the field cached_<slot> that the body reads and writes. |
| Body.FluentReturnsThis | vertx-axle-clients/vertx-axle-generator/src/main/java/io/vertx/lang/axle/AbstractAxleGenerator.java:701-711 | A fluent body calls the delegate once and returns the object itself, never the delegate's result. |
| Body.VoidCallsOnce | vertx-axle-clients/vertx-axle-generator/src/main/java/io/vertx/lang/axle/AbstractAxleGenerator.java:712-715 | A void body calls the delegate once and returns nothing. |
| Body.PlainReturnsResult | vertx-axle-clients/vertx-axle-generator/src/main/java/io/vertx/lang/axle/AbstractAxleGenerator.java:716-748 | A body without caching calls the delegate once, returns the converted result and touches no cache field. |
| Body.CacheMiss | vertx-axle-clients/vertx-axle-generator/src/main/java/io/vertx/lang/axle/AbstractAxleGenerator.java:717-744 | A cache-return body whose field is null calls the delegate once. It stores the result in its own field and returns it. |
| Body.CacheHit | vertx-axle-clients/vertx-axle-generator/src/main/java/io/vertx/lang/axle/AbstractAxleGenerator.java:717-725 | A cache-return body whose field is set returns the field without calling the delegate. |
| Body.CacheMemoizes | vertx-axle-clients/vertx-axle-generator/src/main/java/io/vertx/lang/axle/AbstractAxleGenerator.java:717-744 | After a first call with a non-null result, the next call returns that value with no delegate call. A null result is not memoized. |
| Body.CacheSlotIsolation | vertx-axle-clients/vertx-axle-generator/src/main/java/io/vertx/lang/axle/AbstractAxleGenerator.java:717-744 | A body never writes any cache field but its own. |
| Body.CacheFieldSuffixInjective | vertx-axle-clients/vertx-axle-generator/src/main/java/io/vertx/lang/axle/AbstractAxleGenerator.java:738-744 | A cache declaration determines its slot number. |
| Layout.FutureDispatch | vertx-axle-clients/vertx-axle-generator/src/main/java/io/vertx/lang/axle/AbstractAxleGenerator.java:582-598 | A FUTURE method becomes a private __name method followed by the genCSMethod hook. Its declaration is the hook alone. |
| Layout.HandlerDispatch | vertx-axle-clients/vertx-axle-generator/src/main/java/io/vertx/lang/axle/AbstractAxleGenerator.java:582-599 | A HANDLER method becomes a private __name method followed by the genConsumerMethod hook. Its declaration is the hook alone. |
| Layout.OtherDispatch | vertx-axle-clients/vertx-axle-generator/src/main/java/io/vertx/lang/axle/AbstractAxleGenerator.java:582-602 | Any other method is generated under its own name with a public header, has a body, and emits no hook. Its interface declaration is the same header ending in ;, also with no hook. |
| Layout.ConstantUnconverted | vertx-axle-clients/vertx-axle-generator/src/main/java/io/vertx/lang/axle/AbstractAxleGenerator.java:604-616 | A constant that needs no conversion is the delegate's constant itself. |
| Layout.ConstantWrapped | vertx-axle-clients/vertx-axle-generator/src/main/java/io/vertx/lang/axle/AbstractAxleGenerator.java:604-616 | An API-typed constant is the delegate's constant wrapped with newInstance. |
| Properties.FactoriesCloseType | vertx-axle-clients/vertx-axle-generator/src/main/java/io/vertx/lang/axle/AbstractAxleGenerator.java:196-259 | In the generated type, the factories form one block after every other member of the type and right before its closing brace. A concrete type ends there. An abstract type is followed by its Impl class, which holds no factory and ends with its own closing brace. |
| Emit.GenSimpleMethod | vertx-axle-clients/vertx-axle-generator/src/main/java/io/vertx/lang/axle/AbstractAxleGenerator.java:688-750 | Writes the header, then ; for a declaration or the forwarding body. The cache list grows by one entry, CacheDecl(m, \|cacheDecls\|), exactly for a memoizing method. |
| Emit.GenMethod | vertx-axle-clients/vertx-axle-generator/src/main/java/io/vertx/lang/axle/AbstractAxleGenerator.java:582-592 | Writes MethodChunks of the method's kind and appends at most its own cache declaration. |
| Emit.GenMethodDecl | vertx-axle-clients/vertx-axle-generator/src/main/java/io/vertx/lang/axle/AbstractAxleGenerator.java:594-602 | Writes the declaration form of the method's kind. |
| Emit.GenConstant | vertx-axle-clients/vertx-axle-generator/src/main/java/io/vertx/lang/axle/AbstractAxleGenerator.java:604-616 | Writes the constant, public static final only in a concrete class, its value converted by genConvReturn. |
| Emit.GenFields | vertx-axle-clients/vertx-axle-generator/src/main/java/io/vertx/lang/axle/AbstractAxleGenerator.java:362-377 | Writes the delegate field and one token field __typeArg_<index> per type parameter. |
| Emit.GenerateConstructorWithDelegateParameter | vertx-axle-clients/vertx-axle-generator/src/main/java/io/vertx/lang/axle/AbstractAxleGenerator.java:466-485 | Writes the delegate constructor, which sets every token to TypeArg.unknown(). |
| Emit.GenerateConstructorWithGenericType | vertx-axle-clients/vertx-axle-generator/src/main/java/io/vertx/lang/axle/AbstractAxleGenerator.java:435-464 | Writes the token-taking constructor for a generic type only. |
| Emit.GenerateEmptyConstructor | vertx-axle-clients/vertx-axle-generator/src/main/java/io/vertx/lang/axle/AbstractAxleGenerator.java:407-433 | Writes the no-argument constructor, which sets the delegate to null and every token to unknown, and then getDelegate. |
| Emit.GenAllMethods | vertx-axle-clients/vertx-axle-generator/src/main/java/io/vertx/lang/axle/AbstractAxleGenerator.java:393-394 | The loop over the generated methods writes each in order. Method k takes the cache slot equal to the number of memoizing methods before it, and the cache list ends as CacheDeclsOf. This holds with genMethod standing for the abstract genMethods. |
| Emit.GenerateClassBody | vertx-axle-clients/vertx-axle-generator/src/main/java/io/vertx/lang/axle/AbstractAxleGenerator.java:349-405 | Filters the model's lists in place, then writes the prologue, every generated method, the constants and the cache fields. This holds with genMethod standing for the abstract genMethods. |
| Emit.GenIdentityMethods | vertx-axle-clients/vertx-axle-generator/src/main/java/io/vertx/lang/axle/AbstractAxleGenerator.java:143-169 | Writes toString unless declared, then equals and hashCode. |
| Emit.GenFactory | vertx-axle-clients/vertx-axle-generator/src/main/java/io/vertx/lang/axle/AbstractAxleGenerator.java:196-211 | Writes newInstance(arg), building Name or NameImpl. |
| Emit.GenGenericFactory | vertx-axle-clients/vertx-axle-generator/src/main/java/io/vertx/lang/axle/AbstractAxleGenerator.java:213-242 | Writes the token-taking newInstance for a generic type only. |
| Emit.GenImplClass | vertx-axle-clients/vertx-axle-generator/src/main/java/io/vertx/lang/axle/AbstractAxleGenerator.java:245-258 | Writes the NameImpl class with a class body whose constructors are named after it. |
| Emit.GenerateClass | vertx-axle-clients/vertx-axle-generator/src/main/java/io/vertx/lang/axle/AbstractAxleGenerator.java:68-259 | Filters the model's lists in place and writes exactly the rendering of ClassLayout for the original lists. |
| Properties.IdentityMethods | vertx-axle-clients/vertx-axle-generator/src/main/java/io/vertx/lang/axle/AbstractAxleGenerator.java:143-169 | toString appears iff the type is concrete and the API has no parameterless toString. equals and hashCode appear iff the type is concrete. |
| Properties.BodyTokenFields | vertx-axle-clients/vertx-axle-generator/src/main/java/io/vertx/lang/axle/AbstractAxleGenerator.java:371-377 | A class body has a token field for each type parameter, in order, and no other token field. |
| Properties.BodyConstructors | vertx-axle-clients/vertx-axle-generator/src/main/java/io/vertx/lang/axle/AbstractAxleGenerator.java:379-386 | Every body has the delegate and the empty constructor. It has the generic constructor iff the type is generic, and __TYPE_ARG iff the type is concrete. |
| Properties.AbstractImplementsInterface | vertx-axle-clients/vertx-axle-generator/src/main/java/io/vertx/lang/axle/AbstractAxleGenerator.java:181-259 | Every generated method is implemented in the type or in its Impl class. An abstract type's interface declares exactly those methods. A concrete type declares none. This holds with genMethod standing for the abstract genMethods. |
| Properties.ConstantsGenerated | vertx-axle-clients/vertx-axle-generator/src/main/java/io/vertx/lang/axle/AbstractAxleGenerator.java:396-398 | Every constant of the class is generated in the body. |
| Properties.DelegateConstructorTokens | vertx-axle-clients/vertx-axle-generator/src/main/java/io/vertx/lang/axle/AbstractAxleGenerator.java:476-481 | The delegate constructor sets token i to TypeArg.unknown() for every type parameter i. |
| Properties.EmptyConstructorTokens | vertx-axle-clients/vertx-axle-generator/src/main/java/io/vertx/lang/axle/AbstractAxleGenerator.java:419-424 | The empty constructor sets token i to TypeArg.unknown() for every type parameter i. |
| Properties.GenericConstructorTokens | vertx-axle-clients/vertx-axle-generator/src/main/java/io/vertx/lang/axle/AbstractAxleGenerator.java:442-459 | The generic constructor takes typeArg_i for each type parameter and stores it in field __typeArg_i. |
| Properties.GenericFactoryParams | vertx-axle-clients/vertx-axle-generator/src/main/java/io/vertx/lang/axle/AbstractAxleGenerator.java:221-226 | The generic factory's i-th extra parameter is the token of the i-th type parameter. |
| Properties.GenericFactoryArgs | vertx-axle-clients/vertx-axle-generator/src/main/java/io/vertx/lang/axle/AbstractAxleGenerator.java:234-237 | The generic factory passes its tokens to the constructor in order. |
| Properties.FactoryGuardsNull | vertx-axle-clients/vertx-axle-generator/src/main/java/io/vertx/lang/axle/AbstractAxleGenerator.java:205-210 | newInstance(arg) constructs only behind arg != null, building NameImpl for an abstract type. |
| Properties.GenericFactoryGuardsNull | vertx-axle-clients/vertx-axle-generator/src/main/java/io/vertx/lang/axle/AbstractAxleGenerator.java:229-238 | The token-taking newInstance guards the delegate the same way. |
| Properties.FactoriesOfType | vertx-axle-clients/vertx-axle-generator/src/main/java/io/vertx/lang/axle/AbstractAxleGenerator.java:196-242 | The plain factory always appears, and the generic one iff the type is generic. Both build the Impl class iff the type is abstract. |
| Properties.CacheSlotOfMethod | vertx-axle-clients/vertx-axle-generator/src/main/java/io/vertx/lang/axle/AbstractAxleGenerator.java:717-744 | A memoizing method owns the cache declaration at its slot, and distinct memoizing methods get distinct slots. This holds with genMethod standing for the abstract genMethods. |
| Properties.CacheDeclsNameSlots | vertx-axle-clients/vertx-axle-generator/src/main/java/io/vertx/lang/axle/AbstractAxleGenerator.java:738-744 | The i-th cache declaration names the field cached_i, so the indices are 0..n-1. |
| Properties.CacheDeclsDistinct | vertx-axle-clients/vertx-axle-generator/src/main/java/io/vertx/lang/axle/AbstractAxleGenerator.java:738-744 | No two cache declarations coincide. |
| Properties.BodyCacheFields | vertx-axle-clients/vertx-axle-generator/src/main/java/io/vertx/lang/axle/AbstractAxleGenerator.java:399-404 | For each memoizing method, the body holds the method and exactly the field declaration for its slot. This holds with genMethod standing for the abstract genMethods. |

## Left out

- License header, Javadoc (`generateDoc`, the doc block of `startMethodTemplate`, `renderLinkToHtml`), `genRxImports`/`addImport`, `annotations`, `filename` and `render`: text formatting and framework plumbing. Documentation is treated as absent.
- The type declaration line of `generateClass` (package, `@Gen`, `class`/`interface`, the `extends`/`implements` list) and the `io.vertx.core.buffer.Buffer` special case: fixed text with no logic.
- `generateIterableMethod`, `generateIteratorMethods` and `generateFunctionMethod`: the capability adapters are not part of this model.
- `genReadStream`, `genToObservable`, `genCSMethod` and `genConsumerMethod` are abstract, and their bodies live in subclasses. Each is recorded as a hook call with its arguments.
- Types.KindOf: a last parameter of kind HANDLER without a type argument is outside the codegen model, and `KindOfCases` requires well-formed types. `KindOf` classifies such a parameter as HANDLER, where the source's cast and `get(0)` would throw.
- `genMethods` is abstract too. `generateClassBody` calls it once per method, and the model calls `genMethod` in its place.
- The codegen model is taken as given input: `ClassModel`, `TypeInfo`, `MethodInfo`, `isOwnedBy` (membership of the type name in the owner set), `getMethodMap`, and `resolveTypeArg` (a map from type-variable name to its binding). Equality of types and methods is Dafny value equality.
- `translateName` and the dialect `id` are not modelled. Each type carries its translated name as data.
- `ToUpper` upper-cases ASCII letters only. `Character.toUpperCase` on other letters is not modelled.
- Exact whitespace: the body text is modelled as printed, but properties are stated over members and key fragments.
- Runtime behaviour of the emitted Java, such as futures completing once, non-blocking calls, stream backpressure and cache-field races. None of it runs in the generator. The execution semantics in `body.dfy` covers only single-threaded memoization.

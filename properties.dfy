/**
 * What the generated type is promised to contain: the identity methods of concrete
 * classes, a token field per type parameter that every constructor sets, factories
 * whose tokens reach the constructor's, one cache field per memoizing method, and for
 * an abstract class an implementation of every method its interface declares.
 */
module Properties {
  import opened Types
  import opened Text
  import opened Convert
  import opened Body
  import opened Output
  import opened Layout

  // ---------------------------------------------------------------------------
  // Which members appear

  predicate IsIdentity(x: Member) {
    x.ToStringMethod? || x.EqualsMethod? || x.HashCodeMethod?
  }

  predicate IsFactory(x: Member) {
    x.Factory? || x.GenericFactory?
  }

  /** What a class body may hold: neither identity methods nor interface declarations, and
      none of the members that close a type (the factories, the closing brace, the `Impl` header). */
  predicate InBody(x: Member) {
    !IsIdentity(x) && !x.MethodDeclaration? && !IsFactory(x) && !x.TypeEnd? && !x.ImplStart?
  }

  lemma FieldsMembers(info: ClassInfo)
    ensures var f, tps := Fields(info), info.typeParams;
      && (forall i :: 0 <= i < |tps| ==> TokenField(tps[i], i) in f)
      && (forall p: string, i: nat :: TokenField(p, i) in f ==> i < |tps| && p == tps[i])
      && (forall x :: x in f ==> x.DelegateField? || x.TokenField? || x.FieldsEnd?)
  {
    var tps := info.typeParams;
    var t := TokenFields(tps);
    assert Fields(info) == [DelegateField(info.nonGenericIface, tps)] + t + [FieldsEnd];
    forall i | 0 <= i < |tps|
      ensures TokenField(tps[i], i) in Fields(info)
    {
      assert t[i] == TokenField(tps[i], i);
    }
    forall p: string, i: nat | TokenField(p, i) in Fields(info)
      ensures i < |tps| && p == tps[i]
    {
      assert TokenField(p, i) in t;
    }
    assert forall x :: x in t ==> x.TokenField?;
  }

  lemma ConstructorsMembers(info: ClassInfo, ctor: string)
    ensures var c, tps := Constructors(info, ctor), info.typeParams;
      && DelegateConstructor(ctor, info.nonGenericIface, CallsSuper(info), |tps|) in c
      && EmptyConstructor(ctor, CallsSuper(info), |tps|, info.typeName) in c
      && ((exists x :: x in c && x.GenericConstructor?) <==> |tps| > 0)
      && (forall x :: x in c ==> x.DelegateConstructor? || x.GenericConstructor? || x.EmptyConstructor?)
  {
    var tps := info.typeParams;
    if |tps| > 0 {
      assert GenericConstructor(ctor, info.nonGenericIface, CallsSuper(info), tps) in Constructors(info, ctor);
    }
  }

  /** The prologue has a token field per type parameter, in order, and no other. */
  lemma PrologueTokenFields(info: ClassInfo, ctor: string)
    ensures var p, tps := BodyPrologue(info, ctor), info.typeParams;
      && (forall i :: 0 <= i < |tps| ==> TokenField(tps[i], i) in p)
      && (forall p': string, i: nat :: TokenField(p', i) in p ==> i < |tps| && p' == tps[i])
  {
    PrologueParts(info, ctor);
    FieldsMembers(info);
    ConstructorsMembers(info, ctor);
  }

  /** The prologue has the delegate and empty constructors, the generic one exactly for a
      generic type, and the `__TYPE_ARG` constant exactly for a concrete class. */
  lemma PrologueConstructors(info: ClassInfo, ctor: string)
    ensures var p, tps := BodyPrologue(info, ctor), info.typeParams;
      && DelegateConstructor(ctor, info.nonGenericIface, CallsSuper(info), |tps|) in p
      && EmptyConstructor(ctor, CallsSuper(info), |tps|, info.typeName) in p
      && ((exists x :: x in p && x.GenericConstructor?) <==> |tps| > 0)
      && ((exists x :: x in p && x.TypeArgConstant?) <==> info.concrete)
  {
    PrologueParts(info, ctor);
    FieldsMembers(info);
    ConstructorsMembers(info, ctor);
    if info.concrete {
      assert TypeArgConstant(info.simpleName, info.typeName) in TypeArgMembers(info);
    }
  }

  /** The prologue holds neither identity methods nor declarations. */
  lemma PrologueKinds(info: ClassInfo, ctor: string)
    ensures forall x :: x in BodyPrologue(info, ctor) ==> InBody(x)
  {
    PrologueParts(info, ctor);
    FieldsMembers(info);
    ConstructorsMembers(info, ctor);
  }

  /** A member of the prologue is a member of one of its four parts, whose first and last
      hold only the `__TYPE_ARG` constant and the toObservable hook. */
  lemma PrologueParts(info: ClassInfo, ctor: string)
    ensures forall x :: x in BodyPrologue(info, ctor) <==>
      x in TypeArgMembers(info) || x in Fields(info) || x in Constructors(info, ctor) || x in ObservableMembers(info)
    ensures forall x :: x in TypeArgMembers(info) ==> x.TypeArgConstant?
    ensures forall x :: x in ObservableMembers(info) ==> x.ToObservableHook?
  {
    var head, fields, ctors, hook := TypeArgMembers(info), Fields(info), Constructors(info, ctor), ObservableMembers(info);
    assert BodyPrologue(info, ctor) == head + fields + ctors + hook;
  }

  /** After the prologue a body holds only methods, constants and cache fields. */
  lemma BodyRestKinds(info: ClassInfo, ms: seq<MethodInfo>)
    requires ClassWellFormed(info) && AllMethodsOk(ms)
    ensures forall x :: x in GeneratedMethods(info, ms) ==> x.GeneratedMethod?
    ensures forall x :: x in Constants(info, info.constants) ==> x.Constant?
    ensures forall x :: x in CacheFields(CacheDeclsOf(ms)) ==> x.CacheFieldDecl?
  {
  }

  /** A token field per type parameter, in order, and no other. */
  lemma BodyTokenFields(info: ClassInfo, ctor: string, ms: seq<MethodInfo>)
    requires ClassWellFormed(info) && AllMethodsOk(ms)
    ensures var body, tps := BodyLayout(info, ctor, ms), info.typeParams;
      && (forall i :: 0 <= i < |tps| ==> TokenField(tps[i], i) in body)
      && (forall p: string, i: nat :: TokenField(p, i) in body ==> i < |tps| && p == tps[i])
  {
    PrologueTokenFields(info, ctor);
    BodyRestKinds(info, ms);
  }

  /** The delegate and empty constructors always; the generic one exactly for a generic type;
      the `__TYPE_ARG` constant exactly in a concrete class. */
  lemma BodyConstructors(info: ClassInfo, ctor: string, ms: seq<MethodInfo>)
    requires ClassWellFormed(info) && AllMethodsOk(ms)
    ensures var body, tps := BodyLayout(info, ctor, ms), info.typeParams;
      && DelegateConstructor(ctor, info.nonGenericIface, CallsSuper(info), |tps|) in body
      && EmptyConstructor(ctor, CallsSuper(info), |tps|, info.typeName) in body
      && ((exists x :: x in body && x.GenericConstructor?) <==> |tps| > 0)
      && ((exists x :: x in body && x.TypeArgConstant?) <==> info.concrete)
  {
    PrologueConstructors(info, ctor);
    BodyRestKinds(info, ms);
  }

  /** A class body holds neither identity methods nor interface declarations. */
  lemma BodyKinds(info: ClassInfo, ctor: string, ms: seq<MethodInfo>)
    requires ClassWellFormed(info) && AllMethodsOk(ms)
    ensures forall x :: x in BodyLayout(info, ctor, ms) ==> InBody(x)
  {
    PrologueKinds(info, ctor);
    BodyRestKinds(info, ms);
  }

  lemma AbstractMembersKinds(info: ClassInfo, ms: seq<MethodInfo>)
    requires AllMethodsOk(ms)
    ensures forall x :: x in AbstractMembers(info, ms) ==> x.GetDelegateDecl? || x.MethodDeclaration? || x.ReadStreamHook?
  {
    assert forall x :: x in MethodDecls(info, ms) ==> x.MethodDeclaration?;
  }

  lemma ImplMembersKinds(info: ClassInfo, ms: seq<MethodInfo>)
    requires ClassWellFormed(info) && AllMethodsOk(ms)
    ensures forall x :: x in ImplMembers(info, ms) ==> !IsIdentity(x) && !x.MethodDeclaration? && !IsFactory(x)
  {
    BodyKinds(info, info.simpleName + "Impl", ms);
  }

  lemma ConcreteMembersKinds(info: ClassInfo, methods: seq<MethodInfo>, ms: seq<MethodInfo>)
    requires ClassWellFormed(info) && AllMethodsOk(ms)
    ensures ToStringMethod in ConcreteMembers(info, methods, ms) <==> !DeclaresToString(methods)
    ensures EqualsMethod(info.simpleName) in ConcreteMembers(info, methods, ms)
    ensures HashCodeMethod in ConcreteMembers(info, methods, ms)
    ensures forall x :: x in ConcreteMembers(info, methods, ms) ==> !x.MethodDeclaration? && !IsFactory(x) && !x.TypeEnd?
  {
    BodyKinds(info, info.ifaceSimpleName, ms);
  }

  /** The parts of the layout of a class. */
  lemma LayoutParts(info: ClassInfo, methods: seq<MethodInfo>, anyJava: seq<MethodInfo>)
    requires ClassWellFormed(info) && AllMethodsOk(methods) && AllMethodsOk(anyJava)
    ensures AllMethodsOk(GenMethods(info, methods, anyJava))
    ensures var ms := GenMethods(info, methods, anyJava);
      ClassLayout(info, methods, anyJava)
      == (if info.concrete then ConcreteMembers(info, methods, ms) else AbstractMembers(info, ms))
         + (Factories(info) + [TypeEnd])
         + (if info.concrete then [] else ImplMembers(info, ms))
  {
    GenMethodsOk(info, methods, anyJava);
  }

  /** `l[k]` is the type's closing brace: the factories form one block right before it, after
      every other member of the type; for an abstract class the `Impl` class follows, holding no
      factory and ending with its own closing brace. */
  predicate ClosedByFactories(l: seq<Member>, concrete: bool, k: int) {
    && 0 < k < |l| && l[k] == TypeEnd
    && IsFactory(l[k - 1])
    && (forall i :: 0 <= i < k ==> l[i] != TypeEnd)
    && (forall i, j :: 0 <= i < j < k && IsFactory(l[i]) ==> IsFactory(l[j]))
    && (forall i :: k < i < |l| ==> !IsFactory(l[i]))
    && (concrete <==> k == |l| - 1)
    && (!concrete ==> l[k + 1].ImplStart? && l[|l| - 1] == TypeEnd)
  }

  /** The factories close the type (generateClass emits them after the body and before `}`,
      and only then the `Impl` class). */
  lemma FactoriesCloseType(info: ClassInfo, methods: seq<MethodInfo>, anyJava: seq<MethodInfo>)
    requires ClassWellFormed(info) && AllMethodsOk(methods) && AllMethodsOk(anyJava)
    ensures exists k :: ClosedByFactories(ClassLayout(info, methods, anyJava), info.concrete, k)
  {
    LayoutParts(info, methods, anyJava);
    var ms := GenMethods(info, methods, anyJava);
    if info.concrete {
      ConcreteMembersKinds(info, methods, ms);
      ClosedBySplit(ConcreteMembers(info, methods, ms), Factories(info), [], true);
    } else {
      AbstractMembersKinds(info, ms);
      ImplMembersKinds(info, ms);
      ClosedBySplit(AbstractMembers(info, ms), Factories(info), ImplMembers(info, ms), false);
    }
  }

  /** The layout shape behind FactoriesCloseType, for any head, factory block and tail. */
  lemma ClosedBySplit(head: seq<Member>, f: seq<Member>, rest: seq<Member>, concrete: bool)
    requires forall x :: x in head ==> !IsFactory(x) && !x.TypeEnd?
    requires |f| > 0 && forall x :: x in f ==> IsFactory(x)
    requires forall x :: x in rest ==> !IsFactory(x)
    requires concrete <==> rest == []
    requires !concrete ==> rest[0].ImplStart? && rest[|rest| - 1] == TypeEnd
    ensures ClosedByFactories(head + (f + [TypeEnd]) + rest, concrete, |head| + |f|)
  {
    var l := head + (f + [TypeEnd]) + rest;
    var k := |head| + |f|;
    assert l[k] == TypeEnd;
    assert l[k - 1] == f[|f| - 1];
    forall i | 0 <= i < k
      ensures l[i] != TypeEnd
    {
      if i < |head| {
        assert l[i] == head[i] && head[i] in head;
      } else {
        assert l[i] == f[i - |head|] && f[i - |head|] in f;
      }
    }
    forall i, j | 0 <= i < j < k && IsFactory(l[i])
      ensures IsFactory(l[j])
    {
      assert l[j] == f[j - |head|];
    }
    forall i | k < i < |l|
      ensures !IsFactory(l[i])
    {
      assert l[i] == rest[i - k - 1];
    }
    if !concrete {
      assert l[k + 1] == rest[0];
      assert l[|l| - 1] == rest[|rest| - 1];
    }
  }

  lemma AbstractLayoutHasNoIdentity(info: ClassInfo, ms: seq<MethodInfo>)
    requires ClassWellFormed(info) && AllMethodsOk(ms)
    ensures forall x :: x in AbstractMembers(info, ms) + (Factories(info) + [TypeEnd]) + ImplMembers(info, ms) ==> !IsIdentity(x)
  {
    AbstractMembersKinds(info, ms);
    ImplMembersKinds(info, ms);
  }

  lemma ConcreteLayoutIdentity(info: ClassInfo, methods: seq<MethodInfo>, ms: seq<MethodInfo>)
    requires ClassWellFormed(info) && AllMethodsOk(ms)
    ensures var l := ConcreteMembers(info, methods, ms) + (Factories(info) + [TypeEnd]) + [];
      && (ToStringMethod in l <==> !DeclaresToString(methods))
      && EqualsMethod(info.simpleName) in l
      && HashCodeMethod in l
  {
    ConcreteMembersKinds(info, methods, ms);
  }

  /** toString is generated for a concrete class whose API does not declare a parameterless
      `toString`; equals and hashCode for every concrete class; none of them for an abstract one. */
  lemma IdentityMethods(info: ClassInfo, methods: seq<MethodInfo>, anyJava: seq<MethodInfo>)
    requires ClassWellFormed(info) && AllMethodsOk(methods) && AllMethodsOk(anyJava)
    ensures ToStringMethod in ClassLayout(info, methods, anyJava) <==> info.concrete && !DeclaresToString(methods)
    ensures EqualsMethod(info.simpleName) in ClassLayout(info, methods, anyJava) <==> info.concrete
    ensures HashCodeMethod in ClassLayout(info, methods, anyJava) <==> info.concrete
  {
    LayoutParts(info, methods, anyJava);
    var ms := GenMethods(info, methods, anyJava);
    if info.concrete {
      ConcreteLayoutIdentity(info, methods, ms);
    } else {
      AbstractLayoutHasNoIdentity(info, ms);
    }
  }

  /** The generated methods appear in a class body, each with the cache slot it owns. */
  lemma BodyHasMethods(info: ClassInfo, ctor: string, ms: seq<MethodInfo>)
    requires ClassWellFormed(info) && AllMethodsOk(ms)
    ensures forall k :: 0 <= k < |ms| ==> GeneratedMethod(info, ms[k], CachingCount(ms[..k])) in BodyLayout(info, ctor, ms)
  {
    var g := GeneratedMethods(info, ms);
    var rest := Constants(info, info.constants) + CacheFields(CacheDeclsOf(ms));
    assert BodyLayout(info, ctor, ms) == BodyPrologue(info, ctor) + g + rest;
    forall k | 0 <= k < |ms|
      ensures GeneratedMethod(info, ms[k], CachingCount(ms[..k])) in BodyLayout(info, ctor, ms)
    {
      assert g[k] == GeneratedMethod(info, ms[k], CachingCount(ms[..k]));
    }
  }

  /** Every generated method is implemented in the type (a concrete class) or in its `Impl`
      class (an abstract one); an abstract class's interface declares exactly those methods,
      and a concrete class declares none. */
  lemma AbstractImplementsInterface(info: ClassInfo, methods: seq<MethodInfo>, anyJava: seq<MethodInfo>)
    requires ClassWellFormed(info) && AllMethodsOk(methods) && AllMethodsOk(anyJava)
    ensures var ms, l := GenMethods(info, methods, anyJava), ClassLayout(info, methods, anyJava);
      && (forall k :: 0 <= k < |ms| ==> GeneratedMethod(info, ms[k], CachingCount(ms[..k])) in l)
      && (!info.concrete ==> forall k :: 0 <= k < |ms| ==> MethodDeclaration(info, ms[k]) in l)
      && (info.concrete ==> forall x :: x in l ==> !x.MethodDeclaration?)
      && (forall x :: x in l && x.MethodDeclaration? ==> exists s :: GeneratedMethod(x.info, x.m, s) in l)
  {
    LayoutParts(info, methods, anyJava);
    var ms := GenMethods(info, methods, anyJava);
    if info.concrete {
      ConcreteImplements(info, methods, ms);
    } else {
      AbstractDeclaresGenerated(info, ms);
    }
  }

  /** The concrete half: the body holds every generated method and nothing is only declared. */
  lemma ConcreteImplements(info: ClassInfo, methods: seq<MethodInfo>, ms: seq<MethodInfo>)
    requires ClassWellFormed(info) && AllMethodsOk(ms)
    ensures var l := ConcreteMembers(info, methods, ms) + (Factories(info) + [TypeEnd]) + [];
      && (forall k :: 0 <= k < |ms| ==> GeneratedMethod(info, ms[k], CachingCount(ms[..k])) in l)
      && (forall x :: x in l ==> !x.MethodDeclaration?)
  {
    ConcreteMembersKinds(info, methods, ms);
    BodyHasMethods(info, info.ifaceSimpleName, ms);
    assert forall x :: x in Factories(info) + [TypeEnd] ==> !x.MethodDeclaration?;
    assert ConcreteMembers(info, methods, ms) == IdentityMembers(info, methods) + BodyLayout(info, info.ifaceSimpleName, ms);
  }

  /** The `Impl` class implements every generated method, each with its own cache slot. */
  lemma ImplHasMethods(info: ClassInfo, ms: seq<MethodInfo>)
    requires ClassWellFormed(info) && AllMethodsOk(ms)
    ensures forall k :: 0 <= k < |ms| ==> GeneratedMethod(info, ms[k], CachingCount(ms[..k])) in ImplMembers(info, ms)
  {
    var ctor := info.simpleName + "Impl";
    BodyHasMethods(info, ctor, ms);
    assert ImplMembers(info, ms) == [ImplStart(info.simpleName, info.typeParams, info.ifaceSimpleName)]
                                    + BodyLayout(info, ctor, ms) + [TypeEnd];
  }

  /** The interface of an abstract class declares exactly the generated methods. */
  lemma AbstractDecls(info: ClassInfo, ms: seq<MethodInfo>)
    requires AllMethodsOk(ms)
    ensures forall k :: 0 <= k < |ms| ==> MethodDeclaration(info, ms[k]) in AbstractMembers(info, ms)
    ensures forall x :: x in AbstractMembers(info, ms) && x.MethodDeclaration? ==> x.info == info && x.m in ms
  {
    var d := MethodDecls(info, ms);
    forall k | 0 <= k < |ms|
      ensures MethodDeclaration(info, ms[k]) in AbstractMembers(info, ms)
    {
      assert d[k] == MethodDeclaration(info, ms[k]);
    }
    forall x | x in AbstractMembers(info, ms) && x.MethodDeclaration?
      ensures x.info == info && x.m in ms
    {
      assert x in d;
      var k :| 0 <= k < |d| && d[k] == x;
      assert ms[k] == x.m;
    }
  }

  lemma AbstractDeclaresGenerated(info: ClassInfo, ms: seq<MethodInfo>)
    requires ClassWellFormed(info) && AllMethodsOk(ms)
    ensures var l := AbstractMembers(info, ms) + (Factories(info) + [TypeEnd]) + ImplMembers(info, ms);
      && (forall k :: 0 <= k < |ms| ==> GeneratedMethod(info, ms[k], CachingCount(ms[..k])) in l)
      && (forall k :: 0 <= k < |ms| ==> MethodDeclaration(info, ms[k]) in l)
      && (forall x :: x in l && x.MethodDeclaration? ==> exists s :: GeneratedMethod(x.info, x.m, s) in l)
  {
    ImplHasMethods(info, ms);
    AbstractDecls(info, ms);
    ImplMembersKinds(info, ms);
    var l := AbstractMembers(info, ms) + (Factories(info) + [TypeEnd]) + ImplMembers(info, ms);
    assert forall x :: x in Factories(info) + [TypeEnd] ==> !x.MethodDeclaration?;
    forall x | x in l && x.MethodDeclaration?
      ensures exists s :: GeneratedMethod(x.info, x.m, s) in l
    {
      var k :| 0 <= k < |ms| && ms[k] == x.m;
      assert GeneratedMethod(info, ms[k], CachingCount(ms[..k])) in l;
    }
  }

  /** Every constant of the class is generated. */
  lemma ConstantsGenerated(info: ClassInfo, ctor: string, ms: seq<MethodInfo>, c: ConstantInfo)
    requires ClassWellFormed(info) && AllMethodsOk(ms) && c in info.constants
    ensures Constant(info, c) in BodyLayout(info, ctor, ms)
  {
    var cs := Constants(info, info.constants);
    var k :| 0 <= k < |info.constants| && info.constants[k] == c;
    assert cs[k] == Constant(info, c);
    assert BodyLayout(info, ctor, ms)
        == BodyPrologue(info, ctor) + GeneratedMethods(info, ms) + cs + CacheFields(CacheDeclsOf(ms));
  }

  // ---------------------------------------------------------------------------
  // Type tokens: each constructor sets every token field; the generic factory passes its
  // i-th token to the generic constructor's i-th parameter, which stores it in field i.

  lemma DelegateConstructorTokens(ctor: string, iface: string, sup: bool, n: nat, i: nat)
    requires i < n
    ensures Contains(RenderMember(DelegateConstructor(ctor, iface, sup, n)),
                     [Text("    this.__typeArg_"), Text(NatToString(i)), Text(" = io.vertx.lang.axle.TypeArg.unknown();")])
  {
    RepeatContains(UnknownToken, n, i);
    ContainsWithin(DelegateConstructorOpen(ctor, iface) + DelegateInit(sup), Repeat(UnknownToken, n), CtorClose(),
                   UnknownToken(i));
  }

  lemma EmptyConstructorTokens(ctor: string, sup: bool, n: nat, typeName: string, i: nat)
    requires i < n
    ensures Contains(RenderMember(EmptyConstructor(ctor, sup, n, typeName)),
                     [Text("    this.__typeArg_"), Text(NatToString(i)), Text(" = io.vertx.lang.axle.TypeArg.unknown();")])
  {
    RepeatContains(UnknownToken, n, i);
    ContainsWithin(EmptyConstructorOpen(ctor) + NullInit(sup), Repeat(UnknownToken, n), CtorClose(), UnknownToken(i));
    ContainsPrefix(EmptyConstructorOpen(ctor) + NullInit(sup) + Repeat(UnknownToken, n) + CtorClose(), UnknownToken(i),
                   GetDelegateChunks(typeName));
  }

  lemma GenericConstructorTokens(ctor: string, iface: string, sup: bool, tps: seq<string>, i: nat)
    requires i < |tps|
    ensures Contains(RenderMember(GenericConstructor(ctor, iface, sup, tps)),
                     [Text(", io.vertx.lang.axle.TypeArg<"), Text(tps[i]), Text("> typeArg_"), Text(NatToString(i))])
    ensures Contains(RenderMember(GenericConstructor(ctor, iface, sup, tps)),
                     [Text("    this.__typeArg_"), Text(NatToString(i)), Text(" = typeArg_"), Text(NatToString(i)),
                      Text(";"), NewLine])
  {
    var open, params := GenericConstructorOpen(ctor, iface), Repeat(TokenParam(tps), |tps|);
    var assigns := Repeat(TokenAssign, |tps|);
    RepeatContains(TokenParam(tps), |tps|, i);
    ContainsWithin(open, params, ParamsClose(), TokenParam(tps)(i));
    ContainsPrefix(open + params + ParamsClose(), TokenParam(tps)(i), DelegateInit(sup));
    ContainsPrefix(open + params + ParamsClose() + DelegateInit(sup), TokenParam(tps)(i), assigns);
    ContainsPrefix(open + params + ParamsClose() + DelegateInit(sup) + assigns, TokenParam(tps)(i), CtorClose());
    RepeatContains(TokenAssign, |tps|, i);
    ContainsWithin(open + params + ParamsClose() + DelegateInit(sup), assigns, CtorClose(), TokenAssign(i));
  }

  /** The generic factory's i-th parameter is the token of the i-th type parameter. */
  lemma GenericFactoryParams(sn: string, tn: string, impl: bool, tps: seq<string>, i: nat)
    requires i < |tps|
    ensures Contains(RenderMember(GenericFactory(sn, tn, impl, tps)),
                     [Text(", io.vertx.lang.axle.TypeArg<"), Text(tps[i]), Text("> __typeArg_"), Text(tps[i])])
  {
    var head := FactoryHead(sn, tn, tps) + DelegateArg();
    var params := Repeat(FactoryParam(tps), |tps|);
    var t := FactoryParam(tps)(i);
    RepeatContains(FactoryParam(tps), |tps|, i);
    ContainsWithin(head, params, ParamsClose(), t);
    var s1 := head + params + ParamsClose();
    ContainsPrefix(s1, t, NullGuardedNew(sn, impl, tps));
    var s2 := s1 + NullGuardedNew(sn, impl, tps);
    ContainsPrefix(s2, t, ForwardDelegate());
    ContainsPrefix(s2 + ForwardDelegate(), t, Repeat(FactoryArg(tps), |tps|));
    ContainsPrefix(s2 + ForwardDelegate() + Repeat(FactoryArg(tps), |tps|), t, FactoryClose(") : null;"));
  }

  /** The generic factory passes its i-th token, in order, to the constructor. */
  lemma GenericFactoryArgs(sn: string, tn: string, impl: bool, tps: seq<string>, i: nat)
    requires i < |tps|
    ensures Contains(RenderMember(GenericFactory(sn, tn, impl, tps)), [Text(", __typeArg_"), Text(tps[i])])
  {
    var head := FactoryHead(sn, tn, tps) + DelegateArg() + Repeat(FactoryParam(tps), |tps|) + ParamsClose()
                + NullGuardedNew(sn, impl, tps) + ForwardDelegate();
    RepeatContains(FactoryArg(tps), |tps|, i);
    ContainsWithin(head, Repeat(FactoryArg(tps), |tps|), FactoryClose(") : null;"), FactoryArg(tps)(i));
  }

  /** Text holding the guarded construction holds `new Name`, and `new NameImpl` for the `Impl` class. */
  lemma GuardedNewPrefixes(r: seq<Chunk>, sn: string, impl: bool, tps: seq<string>)
    requires Contains(r, NullGuardedNew(sn, impl, tps))
    ensures Contains(r, NewPrefix(sn))
    ensures impl ==> Contains(r, NewPrefix(sn) + [Text("Impl")])
  {
    var g := NullGuardedNew(sn, impl, tps);
    var p := NewPrefix(sn) + ImplSuffix(impl);
    assert p <= g;
    assert NewPrefix(sn) <= p;
    ContainsTransitive(r, g, p);
    ContainsTransitive(r, p, NewPrefix(sn));
  }

  /** `newInstance(arg)` wraps only a non-null delegate: `return arg != null ? new Name[Impl]...`. */
  lemma FactoryGuardsNull(sn: string, tn: string, impl: bool, tps: seq<string>)
    ensures Contains(RenderMember(Factory(sn, tn, impl, tps)), NewPrefix(sn))
    ensures impl ==> Contains(RenderMember(Factory(sn, tn, impl, tps)), NewPrefix(sn) + [Text("Impl")])
  {
    var g := NullGuardedNew(sn, impl, tps);
    assert g <= g;
    ContainsWithin(FactoryHead(sn, tn, tps) + FactoryOpen(), g, FactoryClose("(arg) : null;"), g);
    GuardedNewPrefixes(FactoryChunks(sn, tn, impl, tps), sn, impl, tps);
  }

  /** The generic `newInstance(arg, tokens...)` guards the delegate the same way. */
  lemma GenericFactoryGuardsNull(sn: string, tn: string, impl: bool, tps: seq<string>)
    ensures Contains(RenderMember(GenericFactory(sn, tn, impl, tps)), NewPrefix(sn))
    ensures impl ==> Contains(RenderMember(GenericFactory(sn, tn, impl, tps)), NewPrefix(sn) + [Text("Impl")])
  {
    var g := NullGuardedNew(sn, impl, tps);
    assert g <= g;
    var head := FactoryHead(sn, tn, tps) + DelegateArg() + Repeat(FactoryParam(tps), |tps|) + ParamsClose();
    ContainsWithin(head, g, ForwardDelegate(), g);
    ContainsPrefix(head + g + ForwardDelegate(), g, Repeat(FactoryArg(tps), |tps|));
    ContainsPrefix(head + g + ForwardDelegate() + Repeat(FactoryArg(tps), |tps|), g, FactoryClose(") : null;"));
    GuardedNewPrefixes(GenericFactoryChunks(sn, tn, impl, tps), sn, impl, tps);
  }

  /** The plain factory always, the generic one exactly for a generic type; both build the
      `Impl` class when the type is abstract (see FactoryGuardsNull and GenericFactoryGuardsNull for their text). */
  lemma FactoriesOfType(info: ClassInfo)
    ensures Factory(info.simpleName, info.typeName, !info.concrete, info.typeParams) in Factories(info)
    ensures (exists x :: x in Factories(info) && x.GenericFactory?) <==> |info.typeParams| > 0
    ensures forall x :: x in Factories(info) ==>
      && (x.Factory? || x.GenericFactory?)
      && x.simpleName == info.simpleName && x.typeParams == info.typeParams && x.impl == !info.concrete
  {
    if |info.typeParams| > 0 {
      assert GenericFactory(info.simpleName, info.typeName, !info.concrete, info.typeParams) in Factories(info);
    }
  }

  // ---------------------------------------------------------------------------
  // Cache fields: one per memoizing method, in order, each naming the method's own slot.

  lemma {:induction false} CountMonotone(ms: seq<MethodInfo>, a: nat, b: nat)
    requires a <= b <= |ms|
    ensures CachingCount(ms[..a]) <= CachingCount(ms[..b])
    ensures a < b && Caches(ms[a]) ==> CachingCount(ms[..a]) < CachingCount(ms[..b])
    decreases b - a
  {
    if a < b {
      CountMonotone(ms, a + 1, b);
      assert ms[..a + 1][..a] == ms[..a];
    }
  }

  lemma {:induction false} CacheDeclsPrefix(ms: seq<MethodInfo>, k: nat)
    requires k <= |ms|
    ensures CachingCount(ms[..k]) <= |CacheDeclsOf(ms)|
    ensures CacheDeclsOf(ms)[..CachingCount(ms[..k])] == CacheDeclsOf(ms[..k])
    decreases |ms| - k
  {
    if k == |ms| {
      assert ms[..k] == ms;
    } else {
      CacheDeclsPrefix(ms, k + 1);
      assert ms[..k + 1][..k] == ms[..k];
      var p := CacheDeclsOf(ms[..k]);
      assert CacheDeclsOf(ms[..k + 1]) == p + CacheAdded(false, ms[k], CachingCount(ms[..k]));
      assert CacheDeclsOf(ms)[..CachingCount(ms[..k])] == CacheDeclsOf(ms[..k + 1])[..|p|];
    }
  }

  /** The memoizing method at index k owns slot CachingCount(ms[..k]): the cache declaration
      at that position is its own, and distinct memoizing methods get distinct slots. */
  lemma CacheSlotOfMethod(ms: seq<MethodInfo>, k: nat)
    requires k < |ms| && Caches(ms[k])
    ensures var s := CachingCount(ms[..k]);
      s < |CacheDeclsOf(ms)| && CacheDeclsOf(ms)[s] == CacheDecl(ms[k], s)
    ensures forall j :: 0 <= j < |ms| && j != k && Caches(ms[j]) ==> CachingCount(ms[..j]) != CachingCount(ms[..k])
  {
    var s := CachingCount(ms[..k]);
    CacheDeclsPrefix(ms, k + 1);
    assert ms[..k + 1][..k] == ms[..k];
    assert CacheDeclsOf(ms[..k + 1]) == CacheDeclsOf(ms[..k]) + [CacheDecl(ms[k], s)];
    forall j | 0 <= j < |ms| && j != k && Caches(ms[j])
      ensures CachingCount(ms[..j]) != s
    {
      if j < k { CountMonotone(ms, j, k); } else { CountMonotone(ms, k, j); }
    }
  }

  /** The i-th cache declaration names field `cached_i`. */
  lemma {:induction false} CacheDeclsNameSlots(ms: seq<MethodInfo>)
    ensures forall j :: 0 <= j < |CacheDeclsOf(ms)| ==> EndsWith(CacheDeclsOf(ms)[j], " " + CacheField(j))
  {
    if ms != [] {
      var init := ms[..|ms| - 1];
      CacheDeclsNameSlots(init);
      CacheDeclNamesField(ms[|ms| - 1], CachingCount(init));
    }
  }

  /** No two cache declarations coincide: every memoizing method has a field of its own. */
  lemma CacheDeclsDistinct(ms: seq<MethodInfo>)
    ensures forall i, j :: 0 <= i < j < |CacheDeclsOf(ms)| ==> CacheDeclsOf(ms)[i] != CacheDeclsOf(ms)[j]
  {
    CacheDeclsNameSlots(ms);
    forall i, j | 0 <= i < j < |CacheDeclsOf(ms)|
      ensures CacheDeclsOf(ms)[i] != CacheDeclsOf(ms)[j]
    {
      if CacheDeclsOf(ms)[i] == CacheDeclsOf(ms)[j] {
        CacheFieldSuffixInjective(CacheDeclsOf(ms)[i], i, j);
      }
    }
  }

  /** The body declares, after the methods, exactly one field per memoizing method. */
  lemma BodyCacheFields(info: ClassInfo, ctor: string, ms: seq<MethodInfo>, k: nat)
    requires ClassWellFormed(info) && AllMethodsOk(ms) && k < |ms| && Caches(ms[k])
    ensures var s := CachingCount(ms[..k]);
      && GeneratedMethod(info, ms[k], s) in BodyLayout(info, ctor, ms)
      && CacheFieldDecl(CacheDecl(ms[k], s)) in BodyLayout(info, ctor, ms)
  {
    var s := CachingCount(ms[..k]);
    CacheSlotOfMethod(ms, k);
    var f := CacheFields(CacheDeclsOf(ms));
    assert f[s] == CacheFieldDecl(CacheDecl(ms[k], s));
    assert GeneratedMethods(info, ms)[k] == GeneratedMethod(info, ms[k], s);
  }
}

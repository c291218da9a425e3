/*
 * Finding `Self` inside a type and recognising the three shapes in which the
 * macro can forward it: `Self`, `*const Self`, `*mut Self` and `&'a [mut] Self`.
 * The definitions are identical in src/ty.rs, src/decl/sig.rs and
 * impl/src/decl/sig.rs (the oldest copy borrows the tokens instead of copying
 * them, which makes no difference for values), so they are stated once here.
 */
module SelfShape {
  import opened SynModel

  /** `SelfKind`: the shape around `Self`, with the tokens that shape carries. */
  datatype SelfKind = Value | Ptr(isConst: bool, isMut: bool) | Ref(lifetime: Option<string>, isMut: bool)
  {
    /** `SelfKind::to_type` (`into_type_for` in src/ty.rs): rebuild the shape around `elem`. */
    function ToType(elem: Ty): Ty
    {
      match this
      case Value => elem
      case Ptr(c, m) => TPtr(c, m, elem)
      case Ref(l, m) => TRef(l, m, elem)
    }
  }

  /** `TypeExt::contains_self`: does a path segment named `Self` occur anywhere the search looks? */
  predicate ContainsSelf(t: Ty)
    decreases t, 2
  {
    match t
    case TArray(elem, _) => ContainsSelf(elem)
    case TBareFn(inputs, output) => AnyContainsSelf(inputs) || ReturnContainsSelf(output)
    case TGroup(elem) => ContainsSelf(elem)
    case TParen(elem) => ContainsSelf(elem)
    case TPath(qself, path) =>
      (qself.Some? && ContainsSelf(qself.value)) || SegmentsContainSelf(path.segments)
    case TPtr(_, _, elem) => ContainsSelf(elem)
    case TRef(_, _, elem) => ContainsSelf(elem)
    case TSlice(elem) => ContainsSelf(elem)
    case TTuple(elems) => AnyContainsSelf(elems)
    case TOther(_) => false
  }

  /** `Self` itself mentions `Self`; verbatim tokens are not searched. */
  lemma ContainsSelfCases(t: Ty)
    ensures t == SelfTy ==> ContainsSelf(t)
    ensures t.TOther? ==> !ContainsSelf(t)
  {
    if t == SelfTy {
      assert SelfTy.path.segments[0].ident == "Self";
    }
  }

  /** A default return has no `Self`; `-> Self` has. */
  lemma ReturnContainsSelfCases(ret: ReturnTy)
    ensures ret.DefaultReturn? ==> !ReturnContainsSelf(ret)
    ensures ret == Returns(SelfTy) ==> ReturnContainsSelf(ret)
  {
    ContainsSelfCases(SelfTy);
  }

  /**
   * Path arguments: none have no `Self`; angle-bracketed ones have it iff
   * some argument has; parenthesized ones iff an input or the output has.
   */
  lemma ArgsContainSelfCases(a: PathArgs)
    ensures a.NoArgs? ==> !ArgsContainSelf(a)
    ensures a.Angle? ==> (ArgsContainSelf(a) <==> exists i :: 0 <= i < |a.args| && GenericArgContainsSelf(a.args[i]))
    ensures a.Parenthesized? ==>
              (ArgsContainSelf(a) <==> (exists i :: 0 <= i < |a.inputs| && ContainsSelf(a.inputs[i])) || ReturnContainsSelf(a.output))
  {
  }

  /** Lifetimes, bindings and constants are not searched; the type argument `Self` is found. */
  lemma GenericArgContainsSelfCases(a: GenericArg)
    ensures !a.GaType? ==> !GenericArgContainsSelf(a)
    ensures a == GaType(SelfTy) ==> GenericArgContainsSelf(a)
  {
    ContainsSelfCases(SelfTy);
  }

  /** A tuple mentions `Self` exactly when one of its elements does. */
  lemma TupleContainsSelf(elems: seq<Ty>)
    ensures ContainsSelf(TTuple(elems)) <==> exists i :: 0 <= i < |elems| && ContainsSelf(elems[i])
  {
    assert ContainsSelf(TTuple(elems)) == AnyContainsSelf(elems);
  }

  /** The early-return loop over a list of types (tuple elements, fn inputs). */
  predicate AnyContainsSelf(ts: seq<Ty>): (r: bool)
    ensures r <==> exists i :: 0 <= i < |ts| && ContainsSelf(ts[i])
    decreases ts, 1
  {
    if ts == [] then false
    else if ContainsSelf(ts[0]) then true
    else AnyContainsSelf(ts[1..])
  }

  predicate ReturnContainsSelf(ret: ReturnTy)
    decreases ret, 2
  {
    ret.Returns? && ContainsSelf(ret.ty)
  }

  /** The loop over path segments: a segment named `Self`, or `Self` in its arguments. */
  predicate SegmentsContainSelf(segs: seq<Segment>): (r: bool)
    ensures r <==> exists i :: 0 <= i < |segs| && (segs[i].ident == "Self" || ArgsContainSelf(segs[i].args))
    decreases segs, 1
  {
    if segs == [] then false
    else if segs[0].ident == "Self" then true
    else if ArgsContainSelf(segs[0].args) then true
    else SegmentsContainSelf(segs[1..])
  }

  predicate ArgsContainSelf(a: PathArgs)
    decreases a, 2
  {
    match a
    case NoArgs => false
    case Angle(args) => GenericArgsContainSelf(args)
    case Parenthesized(inputs, output) => AnyContainsSelf(inputs) || ReturnContainsSelf(output)
  }

  /** Only type arguments are searched: `Item = Self` and lifetimes are not. */
  predicate GenericArgsContainSelf(args: seq<GenericArg>): (r: bool)
    ensures r <==> exists i :: 0 <= i < |args| && GenericArgContainsSelf(args[i])
    decreases args, 1
  {
    if args == [] then false
    else if GenericArgContainsSelf(args[0]) then true
    else GenericArgsContainSelf(args[1..])
  }

  predicate GenericArgContainsSelf(a: GenericArg)
    decreases a, 2
  {
    a.GaType? && ContainsSelf(a.ty)
  }

  /**
   * `TypeExt::self_kind`: `Some` exactly for `Self`, `*_ Self` and `&_ Self`,
   * and the shape it returns rebuilds the type around `Self`.
   */
  function SelfKindOf(t: Ty): (r: Option<SelfKind>)
    ensures r == Some(Value) <==> t == SelfTy
    ensures r.Some? <==> t == SelfTy || ((t.TPtr? || t.TRef?) && t.elem == SelfTy)
    ensures r.Some? ==> r.value.ToType(SelfTy) == t
  {
    if t == SelfTy then Some(Value)
    else if t.TPtr? then
      if t.elem == SelfTy then Some(Ptr(t.isConst, t.isMut)) else None
    else if t.TRef? then
      if t.elem == SelfTy then Some(Ref(t.lifetime, t.isMut)) else None
    else None
  }

  /** `MaybeSelf`: a parameter or return type, either a recognised `Self` shape or a `Self`-free type. */
  datatype MaybeSelf = Self_(kind: SelfKind) | Typed(ty: Ty)
  {
    /** `MaybeSelf::to_type`: put `elem` in place of `Self`; a `Typed` type ignores it. */
    function ToType(elem: Ty): Ty
    {
      match this
      case Self_(k) => k.ToType(elem)
      case Typed(t) => t
    }

    /** `MaybeSelf::is_self_value`. */
    predicate IsSelfValue()
    {
      this == Self_(Value)
    }
  }

  /**
   * The classification both `try_new`s apply to a type: a type without `Self`
   * is kept verbatim, one of the three shapes is recognised, anything else
   * is "too complex". Classifying loses nothing: putting `Self` back gives the
   * original type.
   */
  function Classify(t: Ty): (r: Result<MaybeSelf, Diag>)
    ensures r.Ok? <==> !ContainsSelf(t) || SelfKindOf(t).Some?
    ensures r.Err? ==> r.error == TooComplexSelf
    ensures r.Ok? ==> r.value.ToType(SelfTy) == t
    ensures r.Ok? ==> (r.value.Typed? <==> !ContainsSelf(t))
  {
    if ContainsSelf(t) then
      match SelfKindOf(t)
      case Some(k) => Ok(Self_(k))
      case None => Err(TooComplexSelf)
    else Ok(Typed(t))
  }

  /** Putting `Self` into a shape gives back that shape. */
  lemma ToTypeRoundTrip(k: SelfKind)
    ensures SelfKindOf(k.ToType(SelfTy)) == Some(k)
    ensures ContainsSelf(k.ToType(SelfTy))
  {
    assert ContainsSelf(SelfTy) by {
      assert SelfTy.path.segments[0].ident == "Self";
    }
  }

  /** `Self` by value is the element itself; a pointer or reference wraps the element exactly once. */
  lemma SelfKindToType(k: SelfKind, elem: Ty)
    ensures k.Value? <==> k.ToType(elem) == elem
    ensures !k.Value? ==> (k.ToType(elem).TPtr? || k.ToType(elem).TRef?) && k.ToType(elem).elem == elem
  {
    if !k.Value? {
      assert elem < k.ToType(elem);
    }
  }

  /** A recognised shape always contains `Self`, so classification never sees `Some` without it. */
  lemma SelfKindImpliesContainsSelf(t: Ty)
    requires SelfKindOf(t).Some?
    ensures ContainsSelf(t)
  {
    ToTypeRoundTrip(SelfKindOf(t).value);
  }

  /** `MaybeSelf::to_type` on a `Typed` value ignores its argument; on `Self_(Value)` it is the argument. */
  lemma MaybeSelfToType(m: MaybeSelf, a: Ty, b: Ty)
    ensures m.Self_? ==> (m.ToType(a) == a <==> m.kind == Value)
    ensures m.Typed? ==> m.ToType(a) == m.ToType(b)
    ensures m.IsSelfValue() ==> m.ToType(a) == a
    ensures m.IsSelfValue() <==> m.Self_? && m.kind == Value
  {
    if m.Self_? {
      SelfKindToType(m.kind, a);
    }
  }

  /** Paths that mention `Self` other than as `Self` itself are too complex. */
  lemma TooComplexPaths()
    ensures Classify(TPath(None, Path(false, [Segment("Self", NoArgs), Segment("X", NoArgs)]))) == Err(TooComplexSelf)
    ensures Classify(TPath(None, Path(false, [Segment("Vec", Angle([GaType(SelfTy)]))]))) == Err(TooComplexSelf)
  {
    var selfX := TPath(None, Path(false, [Segment("Self", NoArgs), Segment("X", NoArgs)]));
    assert selfX.path.segments[0].ident == "Self";
    var vecSelf := TPath(None, Path(false, [Segment("Vec", Angle([GaType(SelfTy)]))]));
    assert ContainsSelf(SelfTy) by { assert SelfTy.path.segments[0].ident == "Self"; }
    assert GenericArgsContainSelf([GaType(SelfTy)]);
    assert vecSelf.path.segments[0].args == Angle([GaType(SelfTy)]);
  }

  /** `Self` behind two references, in parentheses or inside a tuple is too complex. */
  lemma TooComplexWrappers(x: Ty)
    ensures Classify(TRef(None, false, TRef(None, false, SelfTy))) == Err(TooComplexSelf)
    ensures Classify(TParen(SelfTy)) == Err(TooComplexSelf)
    ensures Classify(TTuple([x, SelfTy])) == Err(TooComplexSelf)
  {
    assert ContainsSelf(SelfTy) by { assert SelfTy.path.segments[0].ident == "Self"; }
    assert AnyContainsSelf([x, SelfTy]) by { assert [x, SelfTy][1] == SelfTy; }
  }

  /** The search is blind to associated-type bindings and to type forms it does not list. */
  lemma ContainsSelfBlindSpots(tokens: string)
    ensures !ContainsSelf(TPath(None, Path(false, [Segment("Iterator", Angle([GaAssocType("Item", SelfTy)]))])))
    ensures !ContainsSelf(TOther(tokens))
  {
    var args := [GaAssocType("Item", SelfTy)];
    assert !GenericArgsContainSelf(args);
  }
}

/*
 * impl/src/decl/supertraits.rs: the fixed catalog of standard traits the
 * proxy can implement by forwarding, and the generation of one relay impl
 * for a supertrait bound found in it.
 *
 * The catalog's `____i` placeholders are replaced in the printed signature
 * by the printed generic arguments and the result is parsed and verified
 * again, both with `unwrap`. The replacement is modelled on the syntax tree:
 * a placeholder that stands as a whole type is replaced by the argument, and
 * an argument that is not a type there (a lifetime, a binding, a constant)
 * does not parse, which is the procedure macro panicking.
 */
module ImplSupertraits {
  import opened SynModel
  import opened SelfShape
  import opened DeclSym
  import opened ImplCodegen
  import ImplSig

  datatype SuperTraitInfo = SuperTraitInfo(
    isUnsafe: bool,
    name: string,
    generics: nat,
    functions: seq<ImplSig.VerifiedSignature>)

  /** `____i`. */
  function Placeholder(i: nat): (s: string)
    ensures |s| >= 5 && s[..4] == "____"
  {
    "____" + Decimal(i)
  }

  lemma PlaceholderInjective(i: nat, j: nat)
    requires Placeholder(i) == Placeholder(j)
    ensures i == j
  {
    assert Decimal(i) == Placeholder(i)[4..] == Placeholder(j)[4..] == Decimal(j);
    DecimalInjective(i, j);
  }

  const RefSelf: MaybeSelf := Self_(Ref(None, false))
  const RefMutSelf: MaybeSelf := Self_(Ref(None, true))

  /** `&mut ::core::fmt::Formatter<'_>`. */
  const FormatterRef: Ty :=
    TRef(None, true, TPath(None, Path(true, [Segment("core", NoArgs), Segment("fmt", NoArgs),
                                             Segment("Formatter", Angle([GaLifetime("'_")]))])))

  /** `::core::fmt::Result`. */
  const FmtResult: Ty :=
    TPath(None, Path(true, [Segment("core", NoArgs), Segment("fmt", NoArgs), Segment("Result", NoArgs)]))

  function Method(ident: string, inputs: seq<MaybeSelf>, output: MaybeSelf): ImplSig.VerifiedSignature
  {
    ImplSig.VerifiedSignature(false, None, ident, inputs, Some(output))
  }

  /** A catalog method as written: safe, no ABI, no generics, a return type. */
  function Template(ident: string, inputs: seq<FnArg>, output: Ty): Signature
  {
    Signature(false, false, false, None, ident, [], false, inputs, false, Returns(output))
  }

  const FmtSig: ImplSig.VerifiedSignature := Method("fmt", [RefSelf, Typed(FormatterRef)], Typed(FmtResult))
  const CloneSig: ImplSig.VerifiedSignature := Method("clone", [RefSelf], Self_(Value))
  const DefaultSig: ImplSig.VerifiedSignature := Method("default", [], Self_(Value))
  const AsRefSig: ImplSig.VerifiedSignature := Method("as_ref", [RefSelf], Typed(TRef(None, false, PathTy(Placeholder(0)))))
  const AsMutSig: ImplSig.VerifiedSignature := Method("as_mut", [RefMutSelf], Typed(TRef(None, true, PathTy(Placeholder(0)))))

  /** `TRAITS`. */
  function Traits(): (ts: seq<SuperTraitInfo>)
    ensures |ts| == 10
  {
    [ SuperTraitInfo(true, "Send", 0, []),
      SuperTraitInfo(true, "Sync", 0, []),
      SuperTraitInfo(false, "Sized", 0, []),
      SuperTraitInfo(false, "Unpin", 0, []),
      SuperTraitInfo(false, "Copy", 0, []),
      SuperTraitInfo(false, "Debug", 0, [FmtSig]),
      SuperTraitInfo(false, "Clone", 0, [CloneSig]),
      SuperTraitInfo(false, "Default", 0, [DefaultSig]),
      SuperTraitInfo(false, "AsRef", 1, [AsRefSig]),
      SuperTraitInfo(false, "AsMut", 1, [AsMutSig])
    ]
  }

  /**
   * The shape of the catalog: distinct names, `unsafe` only for the first two
   * (`Send`, `Sync`), no methods for the five markers and one method for the
   * rest, and one generic parameter only for the last two (`AsRef`, `AsMut`).
   */
  lemma CatalogShape()
    ensures var ts := Traits();
            && (forall i, j :: 0 <= i < j < |ts| ==> ts[i].name != ts[j].name)
            && (forall i :: 0 <= i < |ts| ==> (ts[i].isUnsafe <==> i < 2))
            && (forall i :: 0 <= i < |ts| ==> (ts[i].functions == [] <==> i < 5) && |ts[i].functions| <= 1)
            && (forall i :: 0 <= i < |ts| ==> (ts[i].generics == 1 <==> 8 <= i) && ts[i].generics <= 1)
  {
  }

  /** The catalog's names, in order. */
  lemma CatalogNames()
    ensures var ts := Traits();
            && ts[0].name == "Send" && ts[1].name == "Sync" && ts[2].name == "Sized" && ts[3].name == "Unpin"
            && ts[4].name == "Copy" && ts[5].name == "Debug" && ts[6].name == "Clone" && ts[7].name == "Default"
            && ts[8].name == "AsRef" && ts[9].name == "AsMut"
  {
  }

  lemma FmtTypesSelfFree()
    ensures Classify(FormatterRef) == Ok(Typed(FormatterRef)) && Classify(FmtResult) == Ok(Typed(FmtResult))
  {
    FormatterSelfFree();
    FmtResultSelfFree();
  }

  /** `&mut ::core::fmt::Formatter<'_>` has no `Self`: the lifetime argument is not searched. */
  lemma FormatterSelfFree()
    ensures !ContainsSelf(FormatterRef)
  {
    var segs := FormatterRef.elem.path.segments;
    assert !GenericArgsContainSelf([GaLifetime("'_")]);
    assert !SegmentsContainSelf(segs[2..]);
    assert !SegmentsContainSelf(segs[1..]);
    assert !SegmentsContainSelf(segs);
  }

  lemma FmtResultSelfFree()
    ensures !ContainsSelf(FmtResult)
  {
    var rsegs := FmtResult.path.segments;
    assert !SegmentsContainSelf(rsegs[2..]);
    assert !SegmentsContainSelf(rsegs[1..]);
    assert !SegmentsContainSelf(rsegs);
  }

  /** `fn fmt(&self, f: &mut ::core::fmt::Formatter<'_>) -> ::core::fmt::Result` verifies to `FmtSig`. */
  lemma FmtVerifies()
    ensures ImplSig.TryNew(Template("fmt", [Receiver(TRef(None, false, SelfTy)), TypedArg("f", FormatterRef)], FmtResult)) == Ok(FmtSig)
  {
    ToTypeRoundTrip(Ref(None, false));
    FmtTypesSelfFree();
    var sig := Template("fmt", [Receiver(TRef(None, false, SelfTy)), TypedArg("f", FormatterRef)], FmtResult);
    var tys := [TRef(None, false, SelfTy), FormatterRef];
    assert Classify(tys[0]) == Ok(RefSelf);
    assert InputTypes(sig.inputs) == tys;
    assert Classify(tys[1]) == Ok(Typed(FormatterRef));
    var c := Collect(tys, Classify);
    assert c.Ok? && |c.value| == 2;
    assert c.value[0] == RefSelf && c.value[1] == Typed(FormatterRef);
    assert c.value == FmtSig.inputs;
  }

  /** `fn clone(&self) -> Self` and `fn default() -> Self` verify to `CloneSig` and `DefaultSig`. */
  lemma CloneDefaultVerify()
    ensures ImplSig.TryNew(Template("clone", [Receiver(TRef(None, false, SelfTy))], SelfTy)) == Ok(CloneSig)
    ensures ImplSig.TryNew(Template("default", [], SelfTy)) == Ok(DefaultSig)
  {
    ToTypeRoundTrip(Value);
    ToTypeRoundTrip(Ref(None, false));
    assert Collect([TRef(None, false, SelfTy)], Classify).value == CloneSig.inputs;
  }

  /** `fn as_ref(&self) -> &____0` and `fn as_mut(&mut self) -> &mut ____0` verify to `AsRefSig` and `AsMutSig`. */
  lemma AsRefAsMutVerify()
    ensures ImplSig.TryNew(Template("as_ref", [Receiver(TRef(None, false, SelfTy))], TRef(None, false, PathTy(Placeholder(0))))) == Ok(AsRefSig)
    ensures ImplSig.TryNew(Template("as_mut", [Receiver(TRef(None, true, SelfTy))], TRef(None, true, PathTy(Placeholder(0))))) == Ok(AsMutSig)
  {
    ToTypeRoundTrip(Ref(None, false));
    ToTypeRoundTrip(Ref(None, true));
    var p := PathTy(Placeholder(0));
    assert !ContainsSelf(p) by {
      assert p.path.segments[0].ident != "Self";
    }
    assert !ContainsSelf(TRef(None, false, p)) && !ContainsSelf(TRef(None, true, p));
    assert Collect([TRef(None, false, SelfTy)], Classify).value == AsRefSig.inputs;
    assert Collect([TRef(None, true, SelfTy)], Classify).value == AsMutSig.inputs;
  }

  /**
   * The name must agree and parenthesized arguments never fit; an entry
   * without generics takes `Name` or `Name<>`, one with generics exactly
   * that many arguments.
   */
  lemma MatchesArity(t: SuperTraitInfo, seg: Segment)
    ensures Matches(t, seg) <==>
              && t.name == seg.ident && !seg.args.Parenthesized?
              && (if seg.args.Angle? then |seg.args.args| else 0) == t.generics
  {
  }

  /** The `find` predicate: same name, and the arguments fit the arity. */
  predicate Matches(t: SuperTraitInfo, seg: Segment)
  {
    && t.name == seg.ident
    && match seg.args
       case NoArgs => t.generics == 0
       case Angle(args) => |args| == t.generics
       case Parenthesized(_, _) => false
  }

  /** `TRAITS.iter().find(..)`: the first entry that matches. */
  function Find(ts: seq<SuperTraitInfo>, seg: Segment): (r: Option<SuperTraitInfo>)
    ensures r.None? <==> forall i :: 0 <= i < |ts| ==> !Matches(ts[i], seg)
    ensures r.Some? ==> exists i :: 0 <= i < |ts| && ts[i] == r.value && Matches(ts[i], seg)
                          && forall j :: 0 <= j < i ==> !Matches(ts[j], seg)
  {
    if ts == [] then None
    else if Matches(ts[0], seg) then Some(ts[0])
    else
      var r := Find(ts[1..], seg);
      assert r.Some? ==> forall j :: 1 <= j < |ts| && ts[j] == r.value ==> ts[1..][j - 1] == ts[j];
      r
  }

  /**
   * The map from placeholder to argument, built by inserting `____i` for
   * the i-th angle-bracketed argument (nothing for other argument forms).
   */
  method BuildReplaceMap(arguments: PathArgs) returns (m: map<string, GenericArg>)
    ensures m == ReplaceMap(arguments)
  {
    m := map[];
    if arguments.Angle? {
      var args := arguments.args;
      var i := 0;
      while i < |args|
        invariant 0 <= i <= |args|
        invariant m == ReplaceArgs(args, i)
      {
        m := m[Placeholder(i) := args[i]];
        i := i + 1;
      }
    }
  }

  /** The map `BuildReplaceMap` builds: `____i` to the i-th angle-bracketed argument. */
  function ReplaceMap(arguments: PathArgs): (m: map<string, GenericArg>)
    ensures arguments.Angle? ==> m.Keys == set i | 0 <= i < |arguments.args| :: Placeholder(i)
    ensures arguments.Angle? ==> forall i :: 0 <= i < |arguments.args| ==> m[Placeholder(i)] == arguments.args[i]
    ensures !arguments.Angle? ==> m == map[]
  {
    if arguments.Angle? then ReplaceArgs(arguments.args, |arguments.args|) else map[]
  }

  /** One more insertion into the map of the first `n - 1` arguments gives the map of the first `n`. */
  lemma ReplaceArgsStep(args: seq<GenericArg>, n: nat, m: map<string, GenericArg>)
    requires 0 < n <= |args|
    requires m.Keys == set i | 0 <= i < n - 1 :: Placeholder(i)
    requires forall i :: 0 <= i < n - 1 ==> m[Placeholder(i)] == args[i]
    ensures m[Placeholder(n - 1) := args[n - 1]].Keys == set i | 0 <= i < n :: Placeholder(i)
    ensures forall i :: 0 <= i < n ==> m[Placeholder(n - 1) := args[n - 1]][Placeholder(i)] == args[i]
  {
    var m' := m[Placeholder(n - 1) := args[n - 1]];
    PlaceholderKeysStep(n);
    PlaceholderFresh(n - 1);
    forall i | 0 <= i < n - 1 ensures m'[Placeholder(i)] == args[i] {
      assert Placeholder(i) != Placeholder(n - 1);
    }
  }

  /** The first `n` placeholders are the first `n - 1` and one more. */
  lemma PlaceholderKeysStep(n: nat)
    requires 0 < n
    ensures (set i | 0 <= i < n :: Placeholder(i)) == (set i | 0 <= i < n - 1 :: Placeholder(i)) + {Placeholder(n - 1)}
  {
  }

  /** The `n`th placeholder differs from every earlier one. */
  lemma PlaceholderFresh(n: nat)
    ensures forall k :: 0 <= k < n ==> Placeholder(k) != Placeholder(n)
  {
    forall k | 0 <= k < n ensures Placeholder(k) != Placeholder(n) {
      if Placeholder(k) == Placeholder(n) {
        PlaceholderInjective(k, n);
      }
    }
  }

  /** The map after the first `n` insertions. */
  function ReplaceArgs(args: seq<GenericArg>, n: nat): (m: map<string, GenericArg>)
    requires n <= |args|
    ensures m.Keys == set i | 0 <= i < n :: Placeholder(i)
    ensures forall i :: 0 <= i < n ==> m[Placeholder(i)] == args[i]
  {
    if n == 0 then map[]
    else
      var m := ReplaceArgs(args, n - 1);
      ReplaceArgsStep(args, n, m);
      m[Placeholder(n - 1) := args[n - 1]]
  }

  /** The placeholder name when `t` is a bare one-segment path. */
  predicate IsHole(t: Ty, m: map<string, GenericArg>)
  {
    t.TPath? && t.qself.None? && !t.path.leadingColon && |t.path.segments| == 1
    && t.path.segments[0].args == NoArgs && t.path.segments[0].ident in m
  }

  /**
   * The printed signature is parsed again after the text replacement. After
   * `&` or `*const` syn reads a type without `+`, so an argument printed as
   * a bound list (`dyn X + Send`) leaves `+ Send` unparsed there.
   */
  predicate PlusBounds(t: Ty)
  {
    t.TOther? && TopLevelPlus(t.tokens, 0, 0)
  }

  /**
   * A `+` at index `i` or later, outside every bracket, parenthesis, brace
   * and angle bracket opened from `i` on (`->` closes nothing).
   */
  function TopLevelPlus(s: string, i: nat, depth: nat): (b: bool)
    requires i <= |s|
    ensures b ==> exists k :: i <= k < |s| && s[k] == '+'
    decreases |s| - i
  {
    if i == |s| then false
    else if s[i] == '+' && depth == 0 then true
    else if s[i] == '-' && i + 1 < |s| && s[i + 1] == '>' then TopLevelPlus(s, i + 2, depth)
    else if s[i] == '(' || s[i] == '[' || s[i] == '{' || s[i] == '<' then TopLevelPlus(s, i + 1, depth + 1)
    else if s[i] == ')' || s[i] == ']' || s[i] == '}' || s[i] == '>' then TopLevelPlus(s, i + 1, if depth == 0 then 0 else depth - 1)
    else TopLevelPlus(s, i + 1, depth)
  }

  /** Sample type texts: a bound list, a macro call with a sum inside, a closure type. */
  const DynSend: string := "dyn X + Send"
  const MacroSum: string := "m!(a+b)"
  const FnArrow: string := "Fn()->A"

  /** `dyn X + Send` is a bound list; `dyn X` is not. */
  lemma PlusBoundsExamples()
    ensures PlusBounds(TOther(DynSend))
    ensures !PlusBounds(TOther("dyn X"))
  {
    var s := DynSend;
    assert s[6] == '+';
    assert TopLevelPlus(s, 6, 0);
    assert TopLevelPlus(s, 3, 0);
    assert TopLevelPlus(s, 0, 0);
  }

  /** A `+` inside parentheses is not at the top level, and `->` does not close a bracket. */
  lemma PlusBoundsNested()
    ensures !PlusBounds(TOther(MacroSum))
    ensures !PlusBounds(TOther(FnArrow))
  {
    assert !TopLevelPlus(MacroSum, 3, 1);
    assert !TopLevelPlus(FnArrow, 4, 0);
  }

  /** Substitution in a type; `None` when a non-type argument lands in type position. */
  function SubstTy(t: Ty, m: map<string, GenericArg>): (r: Option<Ty>)
    decreases t, 2
  {
    if IsHole(t, m) then
      var a := m[t.path.segments[0].ident];
      if a.GaType? then Some(a.ty) else None
    else
      match t
      case TArray(e, n) => (match SubstTy(e, m) case Some(e') => Some(TArray(e', n)) case None => None)
      case TBareFn(ins, out) =>
        (match (SubstTys(ins, m), SubstReturn(out, m))
         case (Some(ins'), Some(out')) => Some(TBareFn(ins', out'))
         case _ => None)
      case TGroup(e) => (match SubstTy(e, m) case Some(e') => Some(TGroup(e')) case None => None)
      case TParen(e) => (match SubstTy(e, m) case Some(e') => Some(TParen(e')) case None => None)
      case TPath(q, p) =>
        (match (SubstQself(q, m), SubstSegments(p.segments, m))
         case (Some(q'), Some(segs)) => Some(TPath(q', Path(p.leadingColon, segs)))
         case _ => None)
      case TPtr(c, mu, e) =>
        (match SubstTy(e, m)
         case Some(e') => if IsHole(e, m) && PlusBounds(e') then None else Some(TPtr(c, mu, e'))
         case None => None)
      case TRef(l, mu, e) =>
        (match SubstTy(e, m)
         case Some(e') => if IsHole(e, m) && PlusBounds(e') then None else Some(TRef(l, mu, e'))
         case None => None)
      case TSlice(e) => (match SubstTy(e, m) case Some(e') => Some(TSlice(e')) case None => None)
      case TTuple(es) => (match SubstTys(es, m) case Some(es') => Some(TTuple(es')) case None => None)
      case TOther(_) => Some(t)
  }

  /**
   * A placeholder is replaced by its argument, which must be a type;
   * verbatim tokens are left alone; anywhere else the outer shape is kept.
   */
  lemma SubstTyShape(t: Ty, m: map<string, GenericArg>)
    ensures IsHole(t, m) ==> (SubstTy(t, m).Some? <==> m[t.path.segments[0].ident].GaType?)
    ensures IsHole(t, m) && SubstTy(t, m).Some? ==> SubstTy(t, m).value == m[t.path.segments[0].ident].ty
    ensures t.TOther? ==> SubstTy(t, m) == Some(t)
    ensures !IsHole(t, m) && SubstTy(t, m).Some? ==>
              && SubstTy(t, m).value.TPtr? == t.TPtr?
              && SubstTy(t, m).value.TRef? == t.TRef?
              && SubstTy(t, m).value.TTuple? == t.TTuple?
  {
  }

  function SubstQself(q: Option<Ty>, m: map<string, GenericArg>): (r: Option<Option<Ty>>)
    decreases q, 2
  {
    match q
    case None => Some(None)
    case Some(t) => (match SubstTy(t, m) case Some(t') => Some(Some(t')) case None => None)
  }

  function SubstTys(ts: seq<Ty>, m: map<string, GenericArg>): (r: Option<seq<Ty>>)
    ensures r.Some? ==> |r.value| == |ts|
    decreases ts, 1
  {
    if ts == [] then Some([])
    else
      match (SubstTy(ts[0], m), SubstTys(ts[1..], m))
      case (Some(t), Some(rest)) => Some([t] + rest)
      case _ => None
  }

  function SubstReturn(r: ReturnTy, m: map<string, GenericArg>): (o: Option<ReturnTy>)
    decreases r, 2
  {
    match r
    case DefaultReturn => Some(DefaultReturn)
    case Returns(t) => (match SubstTy(t, m) case Some(t') => Some(Returns(t')) case None => None)
  }

  function SubstSegments(segs: seq<Segment>, m: map<string, GenericArg>): (r: Option<seq<Segment>>)
    decreases segs, 1
  {
    if segs == [] then Some([])
    else
      match (SubstArgs(segs[0].args, m), SubstSegments(segs[1..], m))
      case (Some(a), Some(rest)) => Some([Segment(segs[0].ident, a)] + rest)
      case _ => None
  }

  function SubstArgs(a: PathArgs, m: map<string, GenericArg>): (r: Option<PathArgs>)
    decreases a, 2
  {
    match a
    case NoArgs => Some(NoArgs)
    case Angle(args) => (match SubstGenericArgs(args, m) case Some(args') => Some(Angle(args')) case None => None)
    case Parenthesized(ins, out) =>
      (match (SubstTys(ins, m), SubstReturn(out, m))
       case (Some(ins'), Some(out')) => Some(Parenthesized(ins', out'))
       case _ => None)
  }

  /** In argument position any argument form fits, so a whole-argument placeholder is replaced as it is. */
  function SubstGenericArgs(args: seq<GenericArg>, m: map<string, GenericArg>): (r: Option<seq<GenericArg>>)
    decreases args, 1
  {
    if args == [] then Some([])
    else
      match (SubstGenericArg(args[0], m), SubstGenericArgs(args[1..], m))
      case (Some(a), Some(rest)) => Some([a] + rest)
      case _ => None
  }

  function SubstGenericArg(a: GenericArg, m: map<string, GenericArg>): (r: Option<GenericArg>)
    decreases a, 2
  {
    match a
    case GaType(t) =>
      if IsHole(t, m) then Some(m[t.path.segments[0].ident])
      else (match SubstTy(t, m) case Some(t') => Some(GaType(t')) case None => None)
    case GaAssocType(n, t) => (match SubstTy(t, m) case Some(t') => Some(GaAssocType(n, t')) case None => None)
    case GaLifetime(_) => Some(a)
    case GaConst(_) => Some(a)
  }

  /** With nothing to replace, substitution changes nothing. */
  lemma {:induction false} SubstEmpty(t: Ty)
    ensures SubstTy(t, map[]) == Some(t)
    decreases t, 2
  {
    match t
    case TArray(e, _) => SubstEmpty(e);
    case TBareFn(ins, out) => SubstTysEmpty(ins); SubstReturnEmpty(out);
    case TGroup(e) => SubstEmpty(e);
    case TParen(e) => SubstEmpty(e);
    case TPath(q, p) =>
      if q.Some? { SubstEmpty(q.value); }
      SubstSegmentsEmpty(p.segments);
    case TPtr(_, _, e) => SubstEmpty(e);
    case TRef(_, _, e) => SubstEmpty(e);
    case TSlice(e) => SubstEmpty(e);
    case TTuple(es) => SubstTysEmpty(es);
    case TOther(_) =>
  }

  lemma {:induction false} SubstTysEmpty(ts: seq<Ty>)
    ensures SubstTys(ts, map[]) == Some(ts)
    decreases ts, 1
  {
    if ts != [] {
      SubstEmpty(ts[0]);
      SubstTysEmpty(ts[1..]);
      assert ts == [ts[0]] + ts[1..];
    }
  }

  lemma {:induction false} SubstReturnEmpty(r: ReturnTy)
    ensures SubstReturn(r, map[]) == Some(r)
    decreases r, 2
  {
    if r.Returns? {
      SubstEmpty(r.ty);
    }
  }

  lemma {:induction false} SubstSegmentsEmpty(segs: seq<Segment>)
    ensures SubstSegments(segs, map[]) == Some(segs)
    decreases segs, 1
  {
    if segs != [] {
      SubstArgsEmpty(segs[0].args);
      SubstSegmentsEmpty(segs[1..]);
      assert segs == [Segment(segs[0].ident, segs[0].args)] + segs[1..];
    }
  }

  lemma {:induction false} SubstArgsEmpty(a: PathArgs)
    ensures SubstArgs(a, map[]) == Some(a)
    decreases a, 2
  {
    match a
    case NoArgs =>
    case Angle(args) => SubstGenericArgsEmpty(args);
    case Parenthesized(ins, out) => SubstTysEmpty(ins); SubstReturnEmpty(out);
  }

  lemma {:induction false} SubstGenericArgsEmpty(args: seq<GenericArg>)
    ensures SubstGenericArgs(args, map[]) == Some(args)
    decreases args, 1
  {
    if args != [] {
      SubstGenericArgEmpty(args[0]);
      SubstGenericArgsEmpty(args[1..]);
      assert args == [args[0]] + args[1..];
    }
  }

  lemma {:induction false} SubstGenericArgEmpty(a: GenericArg)
    ensures SubstGenericArg(a, map[]) == Some(a)
    decreases a, 2
  {
    match a
    case GaType(t) => SubstEmpty(t);
    case GaAssocType(_, t) => SubstEmpty(t);
    case GaLifetime(_) =>
    case GaConst(_) =>
  }

  /** Substitution in every parameter type and in the return type of a printed signature. */
  function SubstSignature(sig: Signature, m: map<string, GenericArg>): (r: Option<Signature>)
    ensures r.Some? ==> |r.value.inputs| == |sig.inputs| && r.value.ident == sig.ident
  {
    match (SubstTys(InputTypes(sig.inputs), m), SubstReturn(sig.output, m))
    case (Some(tys), Some(out)) =>
      Some(sig.(inputs := seq(|sig.inputs|, i requires 0 <= i < |sig.inputs| =>
                                if sig.inputs[i].Receiver? then Receiver(tys[i]) else TypedArg(sig.inputs[i].pat, tys[i])),
                output := out))
    case _ => None
  }

  /** One catalog method after substitution: its verified signature, or the panic. */
  function Transform(vs: ImplSig.VerifiedSignature, m: map<string, GenericArg>): (r: Result<ImplSig.VerifiedSignature, Diag>)
    ensures r.Err? ==> r.error == ProcMacroPanic
    ensures r.Ok? ==> r.value.ident == vs.ident && r.value.isUnsafe == vs.isUnsafe && |r.value.inputs| == |vs.inputs|
  {
    match SubstSignature(ImplSig.Render(vs), m)
    case None => Err(ProcMacroPanic)
    case Some(sig) =>
      match ImplSig.TryNew(sig)
      case Ok(vs') => Ok(vs')
      case Err(_) => Err(ProcMacroPanic)
  }

  /** With no arguments to put in, a catalog method comes out as it went in. */
  lemma TransformEmpty(vs: ImplSig.VerifiedSignature)
    requires ImplSig.WellFormed(vs)
    ensures Transform(vs, map[]) == Ok(vs)
  {
    var sig := ImplSig.Render(vs);
    SubstTysEmpty(InputTypes(sig.inputs));
    SubstReturnEmpty(sig.output);
    var s' := SubstSignature(sig, map[]);
    assert s'.value.inputs == sig.inputs;
    ImplSig.RenderRoundTrip(vs);
  }

  /** The relay impl for one supertrait: `[unsafe] impl Seg for Proxy { .. }` and the exported functions. */
  datatype Relay = Relay(
    isUnsafe: bool,
    traitSegment: Segment,
    stubs: seq<ProxyFn>,
    definitions: seq<ExportFn>)

  datatype RelayOutcome = NotInCatalog | Relayed(relay: Relay) | Panics

  /** `format!("{}::{}", path.to_token_stream(), sig.ident)`, with the printing of the segment given. */
  function RelayName(printSegment: Segment -> string, seg: Segment, fnIdent: string): (n: string)
    ensures |n| == |printSegment(seg)| + 2 + |fnIdent|
    ensures n[..|printSegment(seg)|] == printSegment(seg) && n[|printSegment(seg)|..] == "::" + fnIdent
  {
    printSegment(seg) + "::" + fnIdent
  }

  /** `impl_content` and `macro_content` of `generate_impl`: one stub and one definition per method, under one name. */
  function BuildRelay(externTrait: Path, seg: Segment, proxyIdent: string, sym: Symbol, printSegment: Segment -> string,
                      isUnsafe: bool, transformed: seq<ImplSig.VerifiedSignature>): (r: Relay)
    ensures r.isUnsafe == isUnsafe && r.traitSegment == seg
    ensures |r.stubs| == |r.definitions| == |transformed|
    ensures forall i :: 0 <= i < |r.stubs| ==>
              && r.stubs[i].linkName == r.definitions[i].exportName
              && r.stubs[i].linkName == WithName(sym, RelayName(printSegment, seg, transformed[i].ident))
              && r.stubs[i].ident == r.definitions[i].ident == transformed[i].ident
              && r.definitions[i].traitPath == Some(seg)
  {
    Relay(
      isUnsafe,
      seg,
      seq(|transformed|, i requires 0 <= i < |transformed| =>
        GenerateProxyImpl(proxyIdent, WithName(sym, RelayName(printSegment, seg, transformed[i].ident)), transformed[i])),
      seq(|transformed|, i requires 0 <= i < |transformed| =>
        GenerateMacroRules(externTrait, Some(seg), WithName(sym, RelayName(printSegment, seg, transformed[i].ident)), transformed[i])))
  }

  /** `generate_impl`. */
  function GenerateImpl(externTrait: Path, seg: Segment, proxyIdent: string, sym: Symbol,
                        printSegment: Segment -> string): (r: RelayOutcome)
    ensures r.NotInCatalog? <==> Find(Traits(), seg).None?
    ensures r.Relayed? ==>
              var t := Find(Traits(), seg).value;
              && r.relay.isUnsafe == t.isUnsafe
              && r.relay.traitSegment == seg
              && |r.relay.stubs| == |r.relay.definitions| == |t.functions|
              && forall i :: 0 <= i < |r.relay.stubs| ==>
                   && r.relay.stubs[i].linkName == r.relay.definitions[i].exportName
                   && r.relay.stubs[i].linkName == WithName(sym, RelayName(printSegment, seg, t.functions[i].ident))
                   && r.relay.definitions[i].traitPath == Some(seg)
    ensures r.Panics? ==> Find(Traits(), seg).Some?
  {
    match Find(Traits(), seg)
    case None => NotInCatalog
    case Some(t) => RelayFor(externTrait, seg, proxyIdent, sym, printSegment, t)
  }

  /**
   * The rest of `generate_impl` once the catalog entry `t` is found: every
   * method of `t` is transformed with the placeholder map, and the first
   * failure panics.
   */
  function RelayFor(externTrait: Path, seg: Segment, proxyIdent: string, sym: Symbol,
                    printSegment: Segment -> string, t: SuperTraitInfo): (r: RelayOutcome)
    ensures !r.NotInCatalog?
    ensures r.Panics? <==> exists i :: 0 <= i < |t.functions| && Transform(t.functions[i], ReplaceMap(seg.args)).Err?
    ensures r.Relayed? ==>
              && r.relay.isUnsafe == t.isUnsafe
              && r.relay.traitSegment == seg
              && |r.relay.stubs| == |r.relay.definitions| == |t.functions|
              && forall i :: 0 <= i < |r.relay.stubs| ==>
                   && r.relay.stubs[i].linkName == r.relay.definitions[i].exportName
                   && r.relay.stubs[i].linkName == WithName(sym, RelayName(printSegment, seg, t.functions[i].ident))
                   && r.relay.definitions[i].traitPath == Some(seg)
  {
    var m := ReplaceMap(seg.args);
    match Collect(t.functions, vs => Transform(vs, m))
    case Err(_) => Panics
    case Ok(transformed) => Relayed(BuildRelay(externTrait, seg, proxyIdent, sym, printSegment, t.isUnsafe, transformed))
  }

  /** Catalog names are distinct, so a name picks one entry, and then only the arity decides. */
  lemma FindByName(seg: Segment, k: nat)
    requires k < |Traits()| && Traits()[k].name == seg.ident
    ensures Find(Traits(), seg).Some? <==> Matches(Traits()[k], seg)
    ensures Find(Traits(), seg).Some? ==> Find(Traits(), seg).value == Traits()[k]
  {
    var ts := Traits();
    CatalogShape();
    forall j | 0 <= j < |ts| && j != k ensures !Matches(ts[j], seg) {
      if j < k { assert ts[j].name != ts[k].name; } else { assert ts[k].name != ts[j].name; }
    }
  }

  /** Known names with the wrong arity or argument form are not relayed. */
  lemma LookupArity(a: GenericArg, b: GenericArg)
    ensures Find(Traits(), Segment("Send", Angle([]))) == Some(Traits()[0])
    ensures Find(Traits(), Segment("AsRef", NoArgs)).None?
    ensures Find(Traits(), Segment("AsRef", Angle([a, b]))).None?
    ensures Find(Traits(), Segment("Debug", Angle([a]))).None?
  {
    CatalogNames();
    FindByName(Segment("Send", Angle([])), 0);
    FindByName(Segment("AsRef", NoArgs), 8);
    FindByName(Segment("AsRef", Angle([a, b])), 8);
    FindByName(Segment("Debug", Angle([a])), 5);
  }

  /** Parenthesized arguments (`Fn(..)`) and names outside the catalog (`PartialEq`) are not relayed. */
  lemma LookupUnknown(ins: seq<Ty>)
    ensures Find(Traits(), Segment("Fn", Parenthesized(ins, DefaultReturn))).None?
    ensures Find(Traits(), Segment("PartialEq", NoArgs)).None?
  {
    CatalogNames();
    UnknownName(Segment("Fn", Parenthesized(ins, DefaultReturn)));
    UnknownName(Segment("PartialEq", NoArgs));
  }

  lemma UnknownName(seg: Segment)
    requires forall k :: 0 <= k < 10 ==> seg.ident != CatalogName(k)
    ensures Find(Traits(), seg).None?
  {
    var ts := Traits();
    forall i | 0 <= i < |ts| ensures !Matches(ts[i], seg) {
      CatalogNameAt(i);
    }
  }

  /** The catalog's names, by position. */
  function CatalogName(k: nat): string
    requires k < 10
  {
    ["Send", "Sync", "Sized", "Unpin", "Copy", "Debug", "Clone", "Default", "AsRef", "AsMut"][k]
  }

  lemma CatalogNameAt(k: nat)
    requires k < 10
    ensures Traits()[k].name == CatalogName(k)
  {
    CatalogNames();
  }

  /** A marker (`Send`, `Sync`, `Sized`, `Unpin`, `Copy`) gives an empty impl, `unsafe` exactly for `Send` and `Sync`. */
  lemma MarkerRelay(externTrait: Path, seg: Segment, proxyIdent: string, sym: Symbol, printSegment: Segment -> string, k: nat)
    requires k < 5 && seg.ident == Traits()[k].name && seg.args == NoArgs
    ensures GenerateImpl(externTrait, seg, proxyIdent, sym, printSegment) == Relayed(Relay(k < 2, seg, [], []))
  {
    FindByName(seg, k);
  }

  /** `Debug`, `Clone` and `Default` forward their one method unchanged. */
  lemma PlainRelay(externTrait: Path, seg: Segment, proxyIdent: string, sym: Symbol, printSegment: Segment -> string, k: nat)
    requires 5 <= k < 8 && seg.ident == Traits()[k].name && seg.args == NoArgs
    ensures var r := GenerateImpl(externTrait, seg, proxyIdent, sym, printSegment);
            var vs := [FmtSig, CloneSig, DefaultSig][k - 5];
            var name := WithName(sym, RelayName(printSegment, seg, vs.ident));
            && r.Relayed? && !r.relay.isUnsafe
            && r.relay.stubs == [GenerateProxyImpl(proxyIdent, name, vs)]
            && r.relay.definitions == [GenerateMacroRules(externTrait, Some(seg), name, vs)]
  {
    FindByName(seg, k);
    PlainEntry(k);
    var vs := Traits()[k].functions[0];
    assert vs == [FmtSig, CloneSig, DefaultSig][k - 5];
    TransformEmpty(vs);
    assert ReplaceMap(seg.args) == map[];
    SingleFunctionRelay(externTrait, seg, proxyIdent, sym, printSegment, Traits()[k]);
    BuildRelayOne(externTrait, seg, proxyIdent, sym, printSegment, false, vs);
  }

  /**
   * For a catalog entry with one method, the outcome is decided by
   * transforming that method alone.
   */
  lemma SingleFunctionRelay(externTrait: Path, seg: Segment, proxyIdent: string, sym: Symbol,
                            printSegment: Segment -> string, t: SuperTraitInfo)
    requires |t.functions| == 1
    ensures var r := RelayFor(externTrait, seg, proxyIdent, sym, printSegment, t);
            var tr := Transform(t.functions[0], ReplaceMap(seg.args));
            tr.Ok? ==> r == Relayed(BuildRelay(externTrait, seg, proxyIdent, sym, printSegment, t.isUnsafe, [tr.value]))
  {
    var m := ReplaceMap(seg.args);
    assert t.functions == [t.functions[0]];
    CollectOne(t.functions[0], vs => Transform(vs, m));
  }

  lemma CollectOne<A, B, E>(x: A, f: A -> Result<B, E>)
    ensures f(x).Ok? ==> Collect([x], f) == Ok([f(x).value])
    ensures f(x).Err? ==> Collect([x], f).Err?
  {
    assert [x][1..] == [];
    assert Collect([], f) == Ok([]);
    if f(x).Ok? {
      assert [f(x).value] + [] == [f(x).value];
    }
  }

  /** A relay of one method has that method's stub and definition. */
  lemma BuildRelayOne(externTrait: Path, seg: Segment, proxyIdent: string, sym: Symbol,
                      printSegment: Segment -> string, isUnsafe: bool, vs: ImplSig.VerifiedSignature)
    ensures var r := BuildRelay(externTrait, seg, proxyIdent, sym, printSegment, isUnsafe, [vs]);
            var name := WithName(sym, RelayName(printSegment, seg, vs.ident));
            && r.stubs == [GenerateProxyImpl(proxyIdent, name, vs)]
            && r.definitions == [GenerateMacroRules(externTrait, Some(seg), name, vs)]
  {
  }

  lemma PlainEntry(k: nat)
    requires 5 <= k < 8
    ensures !Traits()[k].isUnsafe && |Traits()[k].functions| == 1 && ImplSig.WellFormed(Traits()[k].functions[0])
  {
    FmtTypesSelfFree();
  }

  lemma SubstSelfRef(mu: bool, m: map<string, GenericArg>)
    requires "Self" !in m
    ensures SubstTy(SelfTy, m) == Some(SelfTy)
    ensures SubstTy(TRef(None, mu, SelfTy), m) == Some(TRef(None, mu, SelfTy))
  {
    var seg := Segment("Self", NoArgs);
    assert SelfTy == TPath(None, Path(false, [seg]));
    assert !IsHole(SelfTy, m);
    assert SubstArgs(NoArgs, m) == Some(NoArgs);
    assert [seg][1..] == [];
    assert SubstSegments([], m) == Some([]);
    assert SubstSegments([seg], m) == Some([seg]) by {
      assert [Segment(seg.ident, NoArgs)] + [] == [seg];
    }
    assert SubstQself(None, m) == Some(None);
  }

  /**
   * `AsRef<A>` and `AsMut<A>`: the macro panics exactly when `A` is not a type,
   * or a type that mentions `Self` other than `Self` itself (`&Vec<Self>` is
   * too complex); otherwise the relay's method returns `&A` (`&mut A`), with
   * the proxy in place of `A = Self`.
   */
  lemma ForwardingRelay(externTrait: Path, seg: Segment, proxyIdent: string, sym: Symbol, printSegment: Segment -> string, k: nat)
    requires 8 <= k < 10 && seg.ident == Traits()[k].name && seg.args.Angle? && |seg.args.args| == 1
    ensures var r := GenerateImpl(externTrait, seg, proxyIdent, sym, printSegment);
            var a := seg.args.args[0];
            && (r.Panics? <==> !a.GaType? || PlusBounds(a.ty) || (ContainsSelf(a.ty) && a.ty != SelfTy))
            && (r.Relayed? ==>
                  && !r.relay.isUnsafe && |r.relay.stubs| == 1
                  && r.relay.stubs[0].output == Returns(TRef(None, k == 9, if a.ty == SelfTy then PathTy(proxyIdent) else a.ty)))
  {
    FindByName(seg, k);
    ForwardingEntry(k);
    ForwardingRelayFor(externTrait, seg, proxyIdent, sym, printSegment, Traits()[k], k == 9);
  }

  /** `AsRef<dyn X + Send>` panics: the re-parsed `-> &dyn X + Send` leaves `+ Send` over. */
  lemma DynBoundsPanic(externTrait: Path, proxyIdent: string, sym: Symbol, printSegment: Segment -> string)
    ensures GenerateImpl(externTrait, Segment("AsRef", Angle([GaType(TOther(DynSend))])), proxyIdent, sym, printSegment).Panics?
  {
    CatalogNames();
    PlusBoundsExamples();
    ForwardingRelay(externTrait, Segment("AsRef", Angle([GaType(TOther(DynSend))])), proxyIdent, sym, printSegment, 8);
  }

  /** `ForwardingRelay` for the catalog entry once it is found. */
  lemma ForwardingRelayFor(externTrait: Path, seg: Segment, proxyIdent: string, sym: Symbol, printSegment: Segment -> string,
                           t: SuperTraitInfo, mu: bool)
    requires seg.args.Angle? && |seg.args.args| == 1
    requires !t.isUnsafe
    requires t.functions == [Method(if mu then "as_mut" else "as_ref", [Self_(Ref(None, mu))], Typed(TRef(None, mu, PathTy(Placeholder(0)))))]
    ensures var r := RelayFor(externTrait, seg, proxyIdent, sym, printSegment, t);
            var a := seg.args.args[0];
            && (r.Panics? <==> !a.GaType? || PlusBounds(a.ty) || (ContainsSelf(a.ty) && a.ty != SelfTy))
            && (r.Relayed? ==>
                  && !r.relay.isUnsafe && |r.relay.stubs| == 1
                  && r.relay.stubs[0].output == Returns(TRef(None, mu, if a.ty == SelfTy then PathTy(proxyIdent) else a.ty)))
  {
    var a := seg.args.args[0];
    var m := ReplaceMap(seg.args);
    ReplaceMapOne(a, seg.args);
    ForwardingTransform(t.functions[0], mu, m, a);
    SingleFunctionRelay(externTrait, seg, proxyIdent, sym, printSegment, t);
  }

  lemma ForwardingEntry(k: nat)
    requires 8 <= k < 10
    ensures !Traits()[k].isUnsafe
    ensures Traits()[k].functions
            == [Method(if k == 9 then "as_mut" else "as_ref", [Self_(Ref(None, k == 9))], Typed(TRef(None, k == 9, PathTy(Placeholder(0)))))]
  {
  }

  lemma ReplaceMapOne(a: GenericArg, args: PathArgs)
    requires args == Angle([a])
    ensures ReplaceMap(args).Keys == {Placeholder(0)} && ReplaceMap(args)[Placeholder(0)] == a
  {
    assert (set i | 0 <= i < 1 :: Placeholder(i)) == {Placeholder(0)};
  }

  /** The substitution and re-verification step for `as_ref` / `as_mut`. */
  lemma ForwardingTransform(vs: ImplSig.VerifiedSignature, mu: bool, m: map<string, GenericArg>, a: GenericArg)
    requires vs == Method(if mu then "as_mut" else "as_ref", [Self_(Ref(None, mu))], Typed(TRef(None, mu, PathTy(Placeholder(0)))))
    requires m.Keys == {Placeholder(0)} && m[Placeholder(0)] == a
    ensures Transform(vs, m).Err? <==> !a.GaType? || PlusBounds(a.ty) || (ContainsSelf(a.ty) && a.ty != SelfTy)
    ensures Transform(vs, m).Ok? ==>
              Transform(vs, m).value.output == Some(if a.ty == SelfTy then Self_(Ref(None, mu)) else Typed(TRef(None, mu, a.ty)))
  {
    ForwardingSubst(vs, mu, m, a);
    if a.GaType? && !PlusBounds(a.ty) {
      ForwardingVerify(ImplSig.Render(vs).(output := Returns(TRef(None, mu, a.ty))), mu, a.ty);
    }
  }

  /** Substituting the argument into `fn as_ref(&self) -> &____0`: only the return type changes. */
  lemma ForwardingSubst(vs: ImplSig.VerifiedSignature, mu: bool, m: map<string, GenericArg>, a: GenericArg)
    requires vs == Method(if mu then "as_mut" else "as_ref", [Self_(Ref(None, mu))], Typed(TRef(None, mu, PathTy(Placeholder(0)))))
    requires m.Keys == {Placeholder(0)} && m[Placeholder(0)] == a
    ensures var sig := ImplSig.Render(vs);
            && sig.inputs == [Receiver(TRef(None, mu, SelfTy))]
            && (a.GaType? && !PlusBounds(a.ty) ==> SubstSignature(sig, m) == Some(sig.(output := Returns(TRef(None, mu, a.ty)))))
            && (!a.GaType? || PlusBounds(a.ty) ==> SubstSignature(sig, m).None?)
  {
    assert "Self" != Placeholder(0);
    var sig := ImplSig.Render(vs);
    assert sig.inputs == [Receiver(TRef(None, mu, SelfTy))];
    assert sig.output == Returns(TRef(None, mu, PathTy(Placeholder(0))));
    SubstSelfRef(mu, m);
    var selfRef := TRef(None, mu, SelfTy);
    assert InputTypes(sig.inputs) == [selfRef];
    assert [selfRef][1..] == [];
    assert SubstTys([selfRef], m) == Some([selfRef] + []);
    assert [selfRef] + [] == [selfRef];
    var hole := PathTy(Placeholder(0));
    assert IsHole(hole, m);
    assert SubstTy(TRef(None, mu, hole), m) == if a.GaType? && !PlusBounds(a.ty) then Some(TRef(None, mu, a.ty)) else None;
    if a.GaType? && !PlusBounds(a.ty) {
      var sig' := SubstSignature(sig, m).value;
      assert sig'.inputs == sig.inputs;
    }
  }

  /** Re-verifying `fn as_ref(&self) -> &T`: rejected exactly when `T` mentions `Self` other than as `Self` itself. */
  lemma ForwardingVerify(sig: Signature, mu: bool, ty: Ty)
    requires sig.inputs == [Receiver(TRef(None, mu, SelfTy))] && sig.output == Returns(TRef(None, mu, ty))
    requires ImplSig.HeaderSupported(sig)
    ensures ImplSig.TryNew(sig).Ok? <==> !ContainsSelf(ty) || ty == SelfTy
    ensures ImplSig.TryNew(sig).Ok? ==>
              ImplSig.TryNew(sig).value.output == Some(if ty == SelfTy then Self_(Ref(None, mu)) else Typed(TRef(None, mu, ty)))
  {
    ToTypeRoundTrip(Ref(None, mu));
    var out := TRef(None, mu, ty);
    assert Classify(out).Ok? <==> !ContainsSelf(ty) || ty == SelfTy;
    assert Collect([TRef(None, mu, SelfTy)], Classify).Ok?;
  }
}

/*
 * impl/src/decl/sig.rs: the newest generation's signature normaliser.
 * `try_new` rejects const, async, generic, where-clause and variadic
 * methods, in that order, then classifies every parameter and the return
 * type; by-value `Self` is accepted everywhere.
 */
module ImplSig {
  import opened SynModel
  import opened SelfShape
  import DeclSig

  datatype VerifiedSignature = VerifiedSignature(
    isUnsafe: bool,
    abi: Option<Abi>,
    ident: string,
    inputs: seq<MaybeSelf>,
    output: Option<MaybeSelf>)

  /** The invariant every verified signature keeps: a `Typed` entry never mentions `Self`. */
  predicate WellFormed(vs: VerifiedSignature): (b: bool)
    // so each entry, with `Self` put back, classifies to itself
    ensures b ==> forall i :: 0 <= i < |vs.inputs| ==> Classify(vs.inputs[i].ToType(SelfTy)) == Ok(vs.inputs[i])
    ensures b && vs.output.Some? ==> Classify(vs.output.value.ToType(SelfTy)) == Ok(vs.output.value)
  {
    var b :=
      && (forall i :: 0 <= i < |vs.inputs| ==> vs.inputs[i].Typed? ==> !ContainsSelf(vs.inputs[i].ty))
      && (vs.output.Some? && vs.output.value.Typed? ==> !ContainsSelf(vs.output.value.ty));
    assert b ==> forall i :: 0 <= i < |vs.inputs| ==> Classify(vs.inputs[i].ToType(SelfTy)) == Ok(vs.inputs[i]) by {
      if b {
        forall i | 0 <= i < |vs.inputs| ensures Classify(vs.inputs[i].ToType(SelfTy)) == Ok(vs.inputs[i]) {
          ClassifyToType(vs.inputs[i]);
        }
      }
    }
    assert b && vs.output.Some? ==> Classify(vs.output.value.ToType(SelfTy)) == Ok(vs.output.value) by {
      if b && vs.output.Some? {
        ClassifyToType(vs.output.value);
      }
    }
    b
  }

  /** The checks `try_new` makes before it looks at any type. */
  predicate HeaderSupported(sig: Signature)
  {
    !sig.isConst && !sig.isAsync && sig.genericParams == [] && !sig.hasWhereClause && !sig.isVariadic
  }

  /** `VerifiedSignature::try_new`. */
  function TryNew(sig: Signature): (r: Result<VerifiedSignature, Diag>)
    // rejection order: the first applicable error wins
    ensures sig.isConst ==> r == Err(ConstFn)
    ensures !sig.isConst && sig.isAsync ==> r == Err(AsyncFn)
    ensures !sig.isConst && !sig.isAsync && sig.genericParams != [] ==> r == Err(GenericFn)
    ensures !sig.isConst && !sig.isAsync && sig.genericParams == [] && sig.hasWhereClause ==> r == Err(WhereClauseFn)
    ensures !sig.isConst && !sig.isAsync && sig.genericParams == [] && !sig.hasWhereClause && sig.isVariadic ==>
              r == Err(VariadicFn)
    // once the header passes, the only error left is a too complex `Self`
    ensures HeaderSupported(sig) && r.Err? ==> r.error == TooComplexSelf
    ensures r.Ok? <==>
              && HeaderSupported(sig)
              && (forall i :: 0 <= i < |sig.inputs| ==> Classify(sig.inputs[i].ty).Ok?)
              && (sig.output.Returns? ==> Classify(sig.output.ty).Ok?)
    // on success nothing is lost: same arity and order, `Self` put back gives the declared types
    ensures r.Ok? ==> WellFormed(r.value)
    ensures r.Ok? ==>
              && r.value.isUnsafe == sig.isUnsafe && r.value.abi == sig.abi && r.value.ident == sig.ident
              && |r.value.inputs| == |sig.inputs|
              && (forall i :: 0 <= i < |sig.inputs| ==> r.value.inputs[i].ToType(SelfTy) == sig.inputs[i].ty)
              && (r.value.output.None? <==> sig.output.DefaultReturn?)
              && (r.value.output.Some? ==> r.value.output.value.ToType(SelfTy) == sig.output.ty)
  {
    if sig.isConst then Err(ConstFn)
    else if sig.isAsync then Err(AsyncFn)
    else if sig.genericParams != [] then Err(GenericFn)
    else if sig.hasWhereClause then Err(WhereClauseFn)
    else if sig.isVariadic then Err(VariadicFn)
    else
      var tys := InputTypes(sig.inputs);
      match Collect(tys, Classify)
      case Err(e) => Err(e)
      case Ok(inputs) =>
        match sig.output
        case DefaultReturn => Ok(VerifiedSignature(sig.isUnsafe, sig.abi, sig.ident, inputs, None))
        case Returns(ty) =>
          match Classify(ty)
          case Err(e) => Err(e)
          case Ok(out) => Ok(VerifiedSignature(sig.isUnsafe, sig.abi, sig.ident, inputs, Some(out)))
  }

  /** `arg_names`: `self` only for a `Self` shape in first position, `_i` everywhere else. */
  function ArgNames(vs: VerifiedSignature): (names: seq<string>)
    ensures |names| == |vs.inputs|
    ensures forall i :: 0 <= i < |names| ==> (names[i] == "self" <==> i == 0 && vs.inputs[0].Self_?)
    ensures forall i :: 0 <= i < |names| && names[i] != "self" ==> names[i] == PositionalName(i)
  {
    seq(|vs.inputs|, i requires 0 <= i < |vs.inputs| =>
      if i == 0 && vs.inputs[i].Self_? then "self" else PositionalName(i))
  }

  /** The generated parameter names never clash. */
  lemma ArgNamesDistinct(vs: VerifiedSignature)
    ensures forall i, j :: 0 <= i < j < |ArgNames(vs)| ==> ArgNames(vs)[i] != ArgNames(vs)[j]
  {
    var names := ArgNames(vs);
    forall i, j | 0 <= i < j < |names| ensures names[i] != names[j] {
      if names[i] != "self" && names[j] != "self" && names[i] == names[j] {
        PositionalNameInjective(i, j);
      }
    }
  }

  /** `is_return_self_value` (after `MaybeSelf::is_self_value`). */
  predicate IsReturnSelfValue(vs: VerifiedSignature): (b: bool)
    ensures b <==> vs.output == Some(Self_(Value))
    // such a result is whatever type is put in place of `Self`
    ensures b ==> forall e :: vs.output.value.ToType(e) == e
  {
    vs.output.Some? && vs.output.value.IsSelfValue()
  }

  /**
   * `ToTokens for VerifiedSignature`, as syn parses the printed tokens back:
   * `unsafety abi fn ident(names: types) output` with `Self` put back; the
   * parameter printed as `self: T` is read back as a receiver.
   */
  function Render(vs: VerifiedSignature): (sig: Signature)
    ensures HeaderSupported(sig) && |sig.inputs| == |vs.inputs|
    ensures sig.isUnsafe == vs.isUnsafe && sig.abi == vs.abi && sig.ident == vs.ident
    ensures forall i :: 0 <= i < |sig.inputs| ==> sig.inputs[i].ty == vs.inputs[i].ToType(SelfTy)
  {
    var names := ArgNames(vs);
    var tys := DeclSig.ArgTypes(vs.inputs, SelfTy);
    Signature(false, false, vs.isUnsafe, vs.abi, vs.ident, [], false,
      seq(|vs.inputs|, i requires 0 <= i < |vs.inputs| =>
        if names[i] == "self" then Receiver(tys[i]) else TypedArg(names[i], tys[i])),
      false,
      DeclSig.ReturnType(vs.output, SelfTy))
  }

  /** Classifying a verified entry with `Self` put back gives the entry again. */
  lemma ClassifyToType(m: MaybeSelf)
    requires m.Typed? ==> !ContainsSelf(m.ty)
    ensures Classify(m.ToType(SelfTy)) == Ok(m)
  {
    if m.Self_? {
      ToTypeRoundTrip(m.kind);
    }
  }

  /** Printing a verified signature and verifying it again is the identity. */
  lemma {:induction false} RenderRoundTrip(vs: VerifiedSignature)
    requires WellFormed(vs)
    ensures TryNew(Render(vs)) == Ok(vs)
  {
    var sig := Render(vs);
    forall i | 0 <= i < |sig.inputs| ensures Classify(sig.inputs[i].ty) == Ok(vs.inputs[i]) {
      ClassifyToType(vs.inputs[i]);
    }
    var c := Collect(InputTypes(sig.inputs), Classify);
    assert c.Ok?;
    assert c.value == vs.inputs;
    if vs.output.Some? {
      ClassifyToType(vs.output.value);
    }
  }

  /** By-value `Self` is accepted as a parameter and as the return type. */
  lemma ByValueSelfAccepted(ident: string)
    ensures TryNew(Signature(false, false, false, None, ident, [], false,
                             [Receiver(SelfTy), TypedArg("other", SelfTy)], false, Returns(SelfTy)))
            == Ok(VerifiedSignature(false, None, ident, [Self_(Value), Self_(Value)], Some(Self_(Value))))
  {
    ClassifyToType(Self_(Value));
    var sig := Signature(false, false, false, None, ident, [], false,
                         [Receiver(SelfTy), TypedArg("other", SelfTy)], false, Returns(SelfTy));
    assert InputTypes(sig.inputs) == [SelfTy, SelfTy];
    assert Collect([SelfTy, SelfTy], Classify).value == [Self_(Value), Self_(Value)];
  }
}

/*
 * src/decl/sig.rs: the middle generation's signature normaliser. Compared
 * with the newest one it also insists on the Rust ABI, does not look at
 * where clauses, refuses `Self` passed by value as a parameter, and does not
 * keep the ABI in the verified signature. Its helpers `arg_names_no_self`,
 * `arg_types` and `return_type` are shared with the newest generation,
 * whose expansion calls them under the same names.
 */
module DeclSig {
  import opened SynModel
  import opened SelfShape

  datatype VerifiedSignature = VerifiedSignature(
    isUnsafe: bool,
    ident: string,
    inputs: seq<MaybeSelf>,
    output: Option<MaybeSelf>)

  /** `abi.name != Some(parse_quote!("Rust"))`: a bare `extern` counts as foreign too. */
  predicate ForeignAbi(abi: Option<Abi>): (b: bool)
    ensures abi.None? || abi == Some(Abi(Some("Rust"))) ==> !b
    ensures abi == Some(Abi(None)) || abi == Some(Abi(Some("C"))) ==> b
  {
    abi.Some? && abi.value.name != Some("Rust")
  }

  /** The checks `try_new` makes before it looks at any type. */
  predicate HeaderSupported(sig: Signature)
  {
    !sig.isConst && !sig.isAsync && !ForeignAbi(sig.abi) && sig.genericParams == [] && !sig.isVariadic
  }

  /** The per-parameter step of `try_new`: like `Classify`, but `Self` by value is an error. */
  function ClassifyInput(t: Ty): (r: Result<MaybeSelf, Diag>)
    ensures r == Err(ByValueSelfParam) <==> t == SelfTy
    ensures r.Ok? <==> Classify(t).Ok? && t != SelfTy
    ensures r.Ok? ==> r == Classify(t) && r.value != Self_(Value)
    ensures r.Err? ==> r.error == ByValueSelfParam || r.error == TooComplexSelf
  {
    if ContainsSelf(t) then
      match SelfKindOf(t)
      case Some(k) => if k == Value then Err(ByValueSelfParam) else Ok(Self_(k))
      case None => Err(TooComplexSelf)
    else Ok(Typed(t))
  }

  /** `VerifiedSignature::try_new`. */
  function TryNew(sig: Signature): (r: Result<VerifiedSignature, Diag>)
    // rejection order: the first applicable error wins
    ensures sig.isConst ==> r == Err(ConstFn)
    ensures !sig.isConst && sig.isAsync ==> r == Err(AsyncFn)
    ensures !sig.isConst && !sig.isAsync && ForeignAbi(sig.abi) ==> r == Err(RustAbiOnly)
    ensures !sig.isConst && !sig.isAsync && !ForeignAbi(sig.abi) && sig.genericParams != [] ==> r == Err(GenericFn)
    ensures !sig.isConst && !sig.isAsync && !ForeignAbi(sig.abi) && sig.genericParams == [] && sig.isVariadic ==>
              r == Err(VariadicFn)
    // after the header, parameters are checked in order before the return type
    ensures HeaderSupported(sig) && r.Err? ==> r.error == ByValueSelfParam || r.error == TooComplexSelf
    ensures HeaderSupported(sig) && r == Err(ByValueSelfParam) ==>
              exists i :: 0 <= i < |sig.inputs| && sig.inputs[i].ty == SelfTy
    ensures r.Ok? <==>
              && HeaderSupported(sig)
              && (forall i :: 0 <= i < |sig.inputs| ==> ClassifyInput(sig.inputs[i].ty).Ok?)
              && (sig.output.Returns? ==> Classify(sig.output.ty).Ok?)
    // on success: no by-value `Self` parameter, nothing lost
    ensures r.Ok? ==> forall i :: 0 <= i < |r.value.inputs| ==> r.value.inputs[i] != Self_(Value)
    ensures r.Ok? ==>
              && r.value.isUnsafe == sig.isUnsafe && r.value.ident == sig.ident
              && |r.value.inputs| == |sig.inputs|
              && (forall i :: 0 <= i < |sig.inputs| ==> r.value.inputs[i].ToType(SelfTy) == sig.inputs[i].ty)
              && (forall i :: 0 <= i < |sig.inputs| ==> (r.value.inputs[i].Typed? <==> !ContainsSelf(sig.inputs[i].ty)))
              && (r.value.output.None? <==> sig.output.DefaultReturn?)
              && (r.value.output.Some? ==> r.value.output.value.ToType(SelfTy) == sig.output.ty)
  {
    if sig.isConst then Err(ConstFn)
    else if sig.isAsync then Err(AsyncFn)
    else if ForeignAbi(sig.abi) then Err(RustAbiOnly)
    else if sig.genericParams != [] then Err(GenericFn)
    else if sig.isVariadic then Err(VariadicFn)
    else
      match Collect(InputTypes(sig.inputs), ClassifyInput)
      case Err(e) => Err(e)
      case Ok(inputs) =>
        match sig.output
        case DefaultReturn => Ok(VerifiedSignature(sig.isUnsafe, sig.ident, inputs, None))
        case Returns(ty) =>
          match Classify(ty)
          case Err(e) => Err(e)
          case Ok(out) => Ok(VerifiedSignature(sig.isUnsafe, sig.ident, inputs, Some(out)))
  }

  /** After the header, `try_new` reports the first parameter that fails. */
  lemma TryNewFirstFailingInput(sig: Signature)
    requires HeaderSupported(sig)
    ensures (exists i :: 0 <= i < |sig.inputs| && ClassifyInput(sig.inputs[i].ty).Err?) ==>
              && TryNew(sig).Err?
              && exists k :: 0 <= k < |sig.inputs| && ClassifyInput(sig.inputs[k].ty) == Err(TryNew(sig).error)
                             && forall j :: 0 <= j < k ==> ClassifyInput(sig.inputs[j].ty).Ok?
  {
    var c := Collect(InputTypes(sig.inputs), ClassifyInput);
    if c.Err? {
      assert TryNew(sig) == Err(c.error);
    }
  }

  /** `try_new` looks at the return type only when every parameter passes. */
  lemma TryNewOutputAfterInputs(sig: Signature)
    requires HeaderSupported(sig)
    requires forall i :: 0 <= i < |sig.inputs| ==> ClassifyInput(sig.inputs[i].ty).Ok?
    ensures sig.output.Returns? && Classify(sig.output.ty).Err? ==> TryNew(sig) == Err(TooComplexSelf)
  {
  }

  /**
   * `arg_names` as written: every `Self` shape is named `self`, wherever it
   * stands, and a `Self`-free parameter is named after its position.
   */
  function ArgNames(vs: VerifiedSignature): (names: seq<string>)
    ensures |names| == |vs.inputs|
    ensures forall i :: 0 <= i < |names| ==> (names[i] == "self" <==> vs.inputs[i].Self_?)
    ensures forall i :: 0 <= i < |names| && vs.inputs[i].Typed? ==> names[i] == PositionalName(i)
  {
    seq(|vs.inputs|, i requires 0 <= i < |vs.inputs| =>
      if vs.inputs[i].Self_? then "self" else PositionalName(i))
  }

  /**
   * `fn eq(&self, other: &Self)` is accepted, and then both of its parameters
   * are named `self`: the generated stub binds `self` twice.
   */
  lemma ArgNamesDuplicateSelf(ident: string)
    ensures var r := TryNew(Signature(false, false, false, None, ident, [], false,
                                      [Receiver(TRef(None, false, SelfTy)), TypedArg("other", TRef(None, false, SelfTy))],
                                      false, Returns(PathTy("bool"))));
            && r.Ok?
            && |r.value.inputs| == 2 && r.value.inputs[0].Self_? && r.value.inputs[1].Self_?
            && ArgNames(r.value) == ["self", "self"]
  {
    var refSelf := TRef(None, false, SelfTy);
    var sig := Signature(false, false, false, None, ident, [], false,
                         [Receiver(refSelf), TypedArg("other", refSelf)], false, Returns(PathTy("bool")));
    ToTypeRoundTrip(Ref(None, false));
    assert ClassifyInput(refSelf) == Ok(Self_(Ref(None, false)));
    assert !ContainsSelf(PathTy("bool")) by {
      assert PathTy("bool").path.segments[0].ident == "bool";
    }
    assert forall i :: 0 <= i < |sig.inputs| ==> sig.inputs[i].ty == refSelf;
    var r := TryNew(sig);
    assert r.Ok?;
    var names := ArgNames(r.value);
    assert !r.value.inputs[0].Typed? && !r.value.inputs[1].Typed?;
    assert names == ["self", "self"];
  }

  /** `arg_names_no_self`: `_0 .. _{n-1}`, pairwise distinct. */
  function ArgNamesNoSelf(inputs: seq<MaybeSelf>): (names: seq<string>)
    ensures |names| == |inputs|
    ensures forall i :: 0 <= i < |names| ==> names[i] == PositionalName(i)
    ensures forall i, j :: 0 <= i < j < |names| ==> names[i] != names[j]
  {
    var names := seq(|inputs|, i requires 0 <= i < |inputs| => PositionalName(i));
    assert forall i, j :: 0 <= i < j < |names| ==> names[i] != names[j] by {
      forall i, j | 0 <= i < j < |names| ensures names[i] != names[j] {
        if names[i] == names[j] {
          PositionalNameInjective(i, j);
        }
      }
    }
    names
  }

  /** `arg_types`: `selfType` in place of `Self` at the `Self` positions, other types verbatim. */
  function ArgTypes(inputs: seq<MaybeSelf>, selfType: Ty): (tys: seq<Ty>)
    ensures |tys| == |inputs|
    ensures forall i :: 0 <= i < |inputs| && inputs[i].Typed? ==> tys[i] == inputs[i].ty
    ensures forall i :: 0 <= i < |inputs| && inputs[i].Self_? ==> tys[i] == inputs[i].kind.ToType(selfType)
  {
    seq(|inputs|, i requires 0 <= i < |inputs| => inputs[i].ToType(selfType))
  }

  /** `return_type`: the default return exactly when there is no output. */
  function ReturnType(output: Option<MaybeSelf>, selfType: Ty): (r: ReturnTy)
    ensures r.DefaultReturn? <==> output.None?
    ensures output.Some? && output.value.Typed? ==> r == Returns(output.value.ty)
    ensures output.Some? && output.value.Self_? ==> r == Returns(output.value.kind.ToType(selfType))
  {
    match output
    case None => DefaultReturn
    case Some(out) => Returns(out.ToType(selfType))
  }

  /** Substituting `Self` itself undoes the classification of a signature `try_new` accepted. */
  lemma {:induction false} ArgTypesOfSelf(sig: Signature)
    requires TryNew(sig).Ok?
    ensures ArgTypes(TryNew(sig).value.inputs, SelfTy) == InputTypes(sig.inputs)
    ensures ReturnType(TryNew(sig).value.output, SelfTy) == sig.output
  {
    var vs := TryNew(sig).value;
    var a, b := ArgTypes(vs.inputs, SelfTy), InputTypes(sig.inputs);
    assert |a| == |b|;
    forall i | 0 <= i < |a| ensures a[i] == b[i] {
      assert a[i] == vs.inputs[i].ToType(SelfTy);
    }
  }

  /** An explicit `extern "Rust"` is accepted; a bare `extern` or any other ABI is not. */
  lemma AbiExamples(sig: Signature)
    requires !sig.isConst && !sig.isAsync && sig.genericParams == [] && !sig.isVariadic
    ensures TryNew(sig.(abi := Some(Abi(Some("Rust"))))).Ok? <==> TryNew(sig.(abi := None)).Ok?
    ensures TryNew(sig.(abi := Some(Abi(None)))) == Err(RustAbiOnly)
    ensures TryNew(sig.(abi := Some(Abi(Some("C"))))) == Err(RustAbiOnly)
  {
  }

  /** A where clause is not looked at. */
  lemma WhereClauseIgnored(sig: Signature)
    ensures TryNew(sig.(hasWhereClause := true)) == TryNew(sig.(hasWhereClause := false))
  {
  }

  /** `Self` by value is refused as a receiver but allowed as the return type. */
  lemma ByValueSelf(ident: string)
    ensures TryNew(Signature(false, false, false, None, ident, [], false, [Receiver(SelfTy)], false, DefaultReturn))
            == Err(ByValueSelfParam)
    ensures TryNew(Signature(false, false, false, None, ident, [], false, [], false, Returns(SelfTy)))
            == Ok(VerifiedSignature(false, ident, [], Some(Self_(Value))))
  {
    ToTypeRoundTrip(Value);
    assert InputTypes([Receiver(SelfTy)]) == [SelfTy];
  }
}

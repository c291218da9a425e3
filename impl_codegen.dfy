/*
 * impl/src/decl/mod.rs, `generate_proxy_impl` and `generate_macro_rules`:
 * the two halves generated for every verified method, as records instead of
 * tokens. The consumer half is a method of `impl Trait for Proxy` that calls
 * an imported symbol; the producer half is an exported function, emitted
 * inside the `macro_rules!` that the implementing crate expands, that calls
 * the implementation type's method. `$ty` stands for that implementation
 * type and `$trait` for the trait path the macro receives.
 */
module ImplCodegen {
  import opened SynModel
  import opened SelfShape
  import opened DeclSym
  import ImplSig
  import DeclSig

  /** The `$ty` metavariable of the generated macro, as a type. */
  const ImplTyHole: Ty := TOther("$ty")

  datatype Param = Param(name: string, ty: Ty)

  /** The method of `impl Trait for Proxy` that forwards to `linkName`. */
  datatype ProxyFn = ProxyFn(
    isUnsafe: bool,
    abi: Option<Abi>,
    ident: string,
    params: seq<Param>,
    output: ReturnTy,
    linkName: Symbol,          // `#[link_name]` of the imported function
    importParams: seq<Ty>,     // its parameter types (all named `_`)
    importOutput: ReturnTy,
    callArgs: seq<string>)     // the arguments it is called with

  /** The function exported as `exportName` from the implementing crate. */
  datatype ExportFn = ExportFn(
    exportName: Symbol,
    ident: string,
    params: seq<Param>,
    output: ReturnTy,
    traitPath: Option<Segment>,   // `None`: the macro's `$trait`
    unsafeCall: bool,             // the call sits in an `unsafe` block
    callArgs: seq<string>,
    repackWith: Option<Path>)     // `ExternSafe::into_repr` around the call

  /** `#name: #ty` pairs. */
  function Params(names: seq<string>, tys: seq<Ty>): (ps: seq<Param>)
    requires |names| == |tys|
    ensures |ps| == |names| && forall i :: 0 <= i < |ps| ==> ps[i].name == names[i] && ps[i].ty == tys[i]
  {
    seq(|names|, i requires 0 <= i < |names| => Param(names[i], tys[i]))
  }

  function Names(ps: seq<Param>): (names: seq<string>)
    ensures |names| == |ps| && forall i :: 0 <= i < |ps| ==> names[i] == ps[i].name
  {
    seq(|ps|, i requires 0 <= i < |ps| => ps[i].name)
  }

  function Types(ps: seq<Param>): (tys: seq<Ty>)
    ensures |tys| == |ps| && forall i :: 0 <= i < |ps| ==> tys[i] == ps[i].ty
  {
    seq(|ps|, i requires 0 <= i < |ps| => ps[i].ty)
  }

  /**
   * `generate_proxy_impl`: the verified signature with the proxy type in
   * place of `Self`, parameters named by `arg_names`, forwarding every
   * parameter in order to an import of the same shape and returning its
   * result unchanged.
   */
  function GenerateProxyImpl(proxyIdent: string, exportName: Symbol, vs: ImplSig.VerifiedSignature): (f: ProxyFn)
    ensures f.isUnsafe == vs.isUnsafe && f.abi == vs.abi && f.ident == vs.ident && f.linkName == exportName
    ensures |f.params| == |vs.inputs|
    ensures forall i :: 0 <= i < |f.params| ==> f.params[i].ty == vs.inputs[i].ToType(PathTy(proxyIdent))
    ensures forall i :: 0 <= i < |f.params| ==> (f.params[i].name == "self" <==> i == 0 && vs.inputs[0].Self_?)
    ensures forall i, j :: 0 <= i < j < |f.params| ==> f.params[i].name != f.params[j].name
    ensures f.importParams == Types(f.params) && f.importOutput == f.output && f.callArgs == Names(f.params)
    ensures f.output.DefaultReturn? <==> vs.output.None?
    ensures vs.output.Some? ==> f.output == Returns(vs.output.value.ToType(PathTy(proxyIdent)))
  {
    var names := ImplSig.ArgNames(vs);
    ImplSig.ArgNamesDistinct(vs);
    var tys := DeclSig.ArgTypes(vs.inputs, PathTy(proxyIdent));
    var output := DeclSig.ReturnType(vs.output, PathTy(proxyIdent));
    var params := Params(names, tys);
    ProxyFn(vs.isUnsafe, vs.abi, vs.ident, params, output, exportName, Types(params), output, Names(params))
  }

  /** `#extern_trait::Repr`. */
  function ReprPath(externTrait: Path): (p: Path)
    // `Repr` inside the configured crate, spelled from the same root
    ensures p.leadingColon == externTrait.leadingColon && |p.segments| == |externTrait.segments| + 1
    ensures p.segments[..|externTrait.segments|] == externTrait.segments
    ensures p.segments[|externTrait.segments|] == Segment("Repr", NoArgs)
  {
    Join(externTrait, "Repr")
  }

  /** `#extern_trait::ExternSafe::into_repr`. */
  function IntoReprPath(externTrait: Path): (p: Path)
    // `ExternSafe::into_repr` inside the configured crate, spelled from the same root
    ensures p.leadingColon == externTrait.leadingColon && |p.segments| == |externTrait.segments| + 2
    ensures p.segments[..|externTrait.segments|] == externTrait.segments
    ensures p.segments[|externTrait.segments|..] == [Segment("ExternSafe", NoArgs), Segment("into_repr", NoArgs)]
  {
    Join(Join(externTrait, "ExternSafe"), "into_repr")
  }

  /**
   * `generate_macro_rules`: every parameter named `_i`, `$ty` in place of
   * `Self`, and the call forwarded in order. A by-value `Self` result is
   * repacked with `into_repr` and declared as `Repr`; every other result is
   * declared as the trait declares it.
   */
  function GenerateMacroRules(externTrait: Path, trait_: Option<Segment>, exportName: Symbol, vs: ImplSig.VerifiedSignature): (f: ExportFn)
    ensures f.exportName == exportName && f.ident == vs.ident && f.traitPath == trait_ && f.unsafeCall == vs.isUnsafe
    ensures |f.params| == |vs.inputs|
    ensures forall i :: 0 <= i < |f.params| ==> f.params[i] == Param(PositionalName(i), vs.inputs[i].ToType(ImplTyHole))
    ensures forall i, j :: 0 <= i < j < |f.params| ==> f.params[i].name != f.params[j].name
    ensures f.callArgs == Names(f.params)
    ensures f.repackWith.Some? <==> ImplSig.IsReturnSelfValue(vs)
    ensures f.repackWith.Some? ==> f.repackWith.value == IntoReprPath(externTrait) && f.output == Returns(TPath(None, ReprPath(externTrait)))
    ensures f.repackWith.None? ==> f.output == DeclSig.ReturnType(vs.output, ImplTyHole)
  {
    var names := DeclSig.ArgNamesNoSelf(vs.inputs);
    var tys := DeclSig.ArgTypes(vs.inputs, ImplTyHole);
    var params := Params(names, tys);
    if ImplSig.IsReturnSelfValue(vs) then
      var repr := TPath(None, ReprPath(externTrait));
      ExportFn(exportName, vs.ident, params, DeclSig.ReturnType(vs.output, repr), trait_, vs.isUnsafe, Names(params),
               Some(IntoReprPath(externTrait)))
    else
      ExportFn(exportName, vs.ident, params, DeclSig.ReturnType(vs.output, ImplTyHole), trait_, vs.isUnsafe, Names(params), None)
  }

  /**
   * The two halves agree: the same arity, and parameter by parameter the
   * proxy's type and the implementation's type are the declared type with
   * the proxy or `$ty` in place of `Self`; the same holds for the result
   * unless it is `Self` by value, which crosses as `Repr`.
   */
  lemma HalvesAgree(proxyIdent: string, externTrait: Path, trait_: Option<Segment>, sym: Symbol, vs: ImplSig.VerifiedSignature)
    requires ImplSig.WellFormed(vs)
    ensures var p, e := GenerateProxyImpl(proxyIdent, sym, vs), GenerateMacroRules(externTrait, trait_, sym, vs);
            && p.linkName == e.exportName
            && |p.params| == |e.params|
            && (forall i :: 0 <= i < |p.params| && vs.inputs[i].Typed? ==> p.params[i].ty == e.params[i].ty)
            && (forall i :: 0 <= i < |p.params| && vs.inputs[i].Self_? ==>
                  p.params[i].ty == vs.inputs[i].kind.ToType(PathTy(proxyIdent))
                  && e.params[i].ty == vs.inputs[i].kind.ToType(ImplTyHole))
            && (p.output.DefaultReturn? <==> e.output.DefaultReturn?)
            && (vs.output.Some? && vs.output.value.Typed? ==> p.output == e.output)
  {
  }
}

/*
 * src/decl/mod.rs: the middle generation's `expand`, `generate_proxy_impl`
 * and `generate_macro_rules`. Compared with the newest generation, the trait
 * must also be `unsafe` and `'static`, there is no crate-path attribute and
 * no `ExternSafe` bound, stubs name their parameters with the middle
 * generation's `arg_names`, and a by-value `Self` result is not repacked.
 *
 * src/decl/supertraits.rs and src/decl/proxy.rs are not part of this model:
 * the supertrait loop records which segments it offers to `generate_impl`,
 * and the proxy is its identifier.
 */
module DeclExpand {
  import opened SynModel
  import opened SelfShape
  import opened DeclSym
  import opened ImplCodegen
  import DeclSig
  import ImplDecl

  /** `parse_quote!('static)`, as a bound. */
  const StaticBound: ImplDecl.Bound := ImplDecl.LifetimeBound("'static")

  datatype Expansion = Expansion(
    item: ImplDecl.ItemTrait,                // the trait, re-emitted unchanged
    proxyIdent: string,
    traitImpl: seq<ImplDecl.ImplMember>,     // `unsafe impl #trait_ident for #proxy_ident`
    offered: seq<Segment>,                   // the bounds handed to `supertraits::generate_impl`
    macroIdent: string,
    macroContent: seq<ExportFn>,
    dropName: Symbol,
    typeidName: Symbol)

  // ----- The two halves of a method -----

  /**
   * `generate_proxy_impl`: the verified signature with the proxy in place of
   * `Self`, parameters named by `arg_names`, forwarding every parameter in
   * order to an import of the same shape.
   */
  function ProxyImpl(proxyIdent: string, exportName: Symbol, vs: DeclSig.VerifiedSignature): (f: ProxyFn)
    ensures f.isUnsafe == vs.isUnsafe && f.abi == None && f.ident == vs.ident && f.linkName == exportName
    ensures |f.params| == |vs.inputs|
    ensures forall i :: 0 <= i < |f.params| ==> f.params[i].ty == vs.inputs[i].ToType(PathTy(proxyIdent))
    ensures forall i :: 0 <= i < |f.params| ==> (f.params[i].name == "self" <==> vs.inputs[i].Self_?)
    ensures forall i :: 0 <= i < |f.params| && vs.inputs[i].Typed? ==> f.params[i].name == PositionalName(i)
    ensures f.importParams == Types(f.params) && f.importOutput == f.output && f.callArgs == Names(f.params)
    ensures f.output == DeclSig.ReturnType(vs.output, PathTy(proxyIdent))
  {
    var names := DeclSig.ArgNames(vs);
    var tys := DeclSig.ArgTypes(vs.inputs, PathTy(proxyIdent));
    var output := DeclSig.ReturnType(vs.output, PathTy(proxyIdent));
    var params := Params(names, tys);
    ProxyFn(vs.isUnsafe, None, vs.ident, params, output, exportName, Types(params), output, Names(params))
  }

  /**
   * `generate_macro_rules` with no trait path: every parameter named `_i`,
   * `$ty` in place of `Self`, the call made through the macro's `$trait`,
   * and the result returned as declared, a by-value `Self` included.
   */
  function MacroRules(exportName: Symbol, vs: DeclSig.VerifiedSignature): (f: ExportFn)
    ensures f.exportName == exportName && f.ident == vs.ident && f.traitPath == None && f.unsafeCall == vs.isUnsafe
    ensures |f.params| == |vs.inputs|
    ensures forall i :: 0 <= i < |f.params| ==> f.params[i] == Param(PositionalName(i), vs.inputs[i].ToType(ImplTyHole))
    ensures forall i, j :: 0 <= i < j < |f.params| ==> f.params[i].name != f.params[j].name
    ensures f.callArgs == Names(f.params)
    ensures f.repackWith == None && f.output == DeclSig.ReturnType(vs.output, ImplTyHole)
  {
    var params := Params(DeclSig.ArgNamesNoSelf(vs.inputs), DeclSig.ArgTypes(vs.inputs, ImplTyHole));
    ExportFn(exportName, vs.ident, params, DeclSig.ReturnType(vs.output, ImplTyHole), None, vs.isUnsafe, Names(params), None)
  }

  /**
   * The halves agree on link name, arity and result shape; a parameter
   * without `Self` has the same type on both sides; a by-value `Self`
   * result is the proxy on one side and `$ty` on the other.
   */
  lemma HalvesAgree(proxyIdent: string, sym: Symbol, vs: DeclSig.VerifiedSignature)
    ensures var p, e := ProxyImpl(proxyIdent, sym, vs), MacroRules(sym, vs);
            && p.linkName == e.exportName
            && |p.params| == |e.params|
            && (forall i :: 0 <= i < |p.params| && vs.inputs[i].Typed? ==> p.params[i].ty == e.params[i].ty)
            && (p.output.DefaultReturn? <==> e.output.DefaultReturn?)
            && (vs.output.Some? && vs.output.value.Typed? ==> p.output == e.output)
            && (vs.output == Some(Self_(Value)) ==> p.output == Returns(PathTy(proxyIdent)) && e.output == Returns(ImplTyHole))
  {
  }

  // ----- The item loop -----

  /** The loop body for one trait item. */
  function ItemOutput(it: ImplDecl.TraitItem, proxyIdent: string, sym: Symbol): (r: (ImplDecl.ImplMember, seq<ExportFn>))
    ensures r.0.Reported? ==> r.1 == []
    ensures r.0.Forward? ==>
              && it.FnItem? && |r.1| == 1
              && r.0.f.linkName == r.1[0].exportName == WithName(sym, it.sig.ident)
              && r.0.f.ident == r.1[0].ident == it.sig.ident
  {
    match it
    case OtherItem(_) => (ImplDecl.Reported(OnlyMethods), [])
    case FnItem(sig) =>
      var exportName := WithName(sym, sig.ident);
      match DeclSig.TryNew(sig)
      case Ok(vs) => (ImplDecl.Forward(ProxyImpl(proxyIdent, exportName, vs)), [MacroRules(exportName, vs)])
      case Err(e) => (ImplDecl.Reported(e), [])
  }

  /** Which items are forwarded, and the error reported for the others. */
  lemma ItemOutputCases(it: ImplDecl.TraitItem, proxyIdent: string, sym: Symbol)
    ensures it.OtherItem? ==> ItemOutput(it, proxyIdent, sym).0 == ImplDecl.Reported(OnlyMethods)
    ensures it.FnItem? ==> (ItemOutput(it, proxyIdent, sym).0.Forward? <==> DeclSig.TryNew(it.sig).Ok?)
    ensures it.FnItem? && DeclSig.TryNew(it.sig).Err? ==>
              ItemOutput(it, proxyIdent, sym).0 == ImplDecl.Reported(DeclSig.TryNew(it.sig).error)
  {
  }

  /** The item loop: one impl entry per item, in order; the definitions of the verified methods, in order. */
  function ItemsOutput(items: seq<ImplDecl.TraitItem>, proxyIdent: string, sym: Symbol): (r: (seq<ImplDecl.ImplMember>, seq<ExportFn>))
    ensures |r.0| == |items|
    ensures forall i :: 0 <= i < |items| ==> r.0[i] == ItemOutput(items[i], proxyIdent, sym).0
    ensures |r.1| <= |items|
  {
    if items == [] then ([], [])
    else
      var (members, defs) := ItemsOutput(items[..|items| - 1], proxyIdent, sym);
      var (m, d) := ItemOutput(items[|items| - 1], proxyIdent, sym);
      (members + [m], defs + d)
  }

  // ----- The expansion -----

  /** What `expand` returns, for the build environment `env` and call site `callSite`. */
  function ExpandSpec(env: Env, hash: string -> U64, callSite: string, proxyIdent: string, input: ImplDecl.ItemTrait)
    : (r: Result<Expansion, Diag>)
    // the gates, in order
    ensures input.genericParams != [] ==> r == Err(TraitGenerics)
    ensures input.genericParams == [] && !input.isUnsafe ==> r == Err(TraitMustBeUnsafe)
    ensures input.genericParams == [] && input.isUnsafe && StaticBound !in input.supertraits ==> r == Err(TraitMustBeStatic)
    ensures r.Ok? <==> input.genericParams == [] && input.isUnsafe && StaticBound in input.supertraits
    ensures r.Ok? ==>
              var sym := New(env, hash, callSite, input.ident);
              && r.value.item == input && r.value.proxyIdent == proxyIdent
              && r.value.traitImpl == ItemsOutput(input.items, proxyIdent, sym).0
              && r.value.offered == ImplDecl.PlainSegments(input.supertraits)
              && r.value.macroIdent == "__extern_trait_" + input.ident
              && r.value.macroContent == ItemsOutput(input.items, proxyIdent, sym).1
              && r.value.dropName == WithName(sym, "drop") && r.value.typeidName == WithName(sym, "typeid")
  {
    if input.genericParams != [] then Err(TraitGenerics)
    else if !input.isUnsafe then Err(TraitMustBeUnsafe)
    else if StaticBound !in input.supertraits then Err(TraitMustBeStatic)
    else
      var sym := New(env, hash, callSite, input.ident);
      var (members, defs) := ItemsOutput(input.items, proxyIdent, sym);
      Ok(Expansion(input, proxyIdent, members, ImplDecl.PlainSegments(input.supertraits),
                   "__extern_trait_" + input.ident, defs, WithName(sym, "drop"), WithName(sym, "typeid")))
  }

  /** Extending the items by one appends that item's member and definitions. */
  lemma ItemsOutputSnoc(items: seq<ImplDecl.TraitItem>, i: nat, proxyIdent: string, sym: Symbol)
    requires i < |items|
    ensures ItemsOutput(items[..i + 1], proxyIdent, sym).0 == ItemsOutput(items[..i], proxyIdent, sym).0 + [ItemOutput(items[i], proxyIdent, sym).0]
    ensures ItemsOutput(items[..i + 1], proxyIdent, sym).1 == ItemsOutput(items[..i], proxyIdent, sym).1 + ItemOutput(items[i], proxyIdent, sym).1
  {
    assert items[..i + 1][..i] == items[..i];
  }

  /** The item loop of `expand`. */
  method GenerateItems(items: seq<ImplDecl.TraitItem>, proxyIdent: string, sym: Symbol)
    returns (implContent: seq<ImplDecl.ImplMember>, macroContent: seq<ExportFn>)
    ensures (implContent, macroContent) == ItemsOutput(items, proxyIdent, sym)
  {
    implContent := [];
    macroContent := [];
    var i := 0;
    while i < |items|
      invariant 0 <= i <= |items|
      invariant (implContent, macroContent) == ItemsOutput(items[..i], proxyIdent, sym)
    {
      ItemsOutputSnoc(items, i, proxyIdent, sym);
      match items[i] {
        case OtherItem(_) =>
          assert ItemOutput(items[i], proxyIdent, sym) == (ImplDecl.Reported(OnlyMethods), []);
          assert macroContent + [] == macroContent;
          implContent := implContent + [ImplDecl.Reported(OnlyMethods)];
        case FnItem(sig) =>
          var exportName := WithName(sym, sig.ident);
          var vs := DeclSig.TryNew(sig);
          if vs.Ok? {
            assert ItemOutput(items[i], proxyIdent, sym) == (ImplDecl.Forward(ProxyImpl(proxyIdent, exportName, vs.value)), [MacroRules(exportName, vs.value)]);
            implContent := implContent + [ImplDecl.Forward(ProxyImpl(proxyIdent, exportName, vs.value))];
            macroContent := macroContent + [MacroRules(exportName, vs.value)];
          } else {
            assert ItemOutput(items[i], proxyIdent, sym) == (ImplDecl.Reported(vs.error), []);
            assert macroContent + [] == macroContent;
            implContent := implContent + [ImplDecl.Reported(vs.error)];
          }
      }
      i := i + 1;
    }
    assert items[..i] == items;
  }

  /** The supertrait loop of `expand`: the plain bounds, in order. */
  method OfferSupertraits(bounds: seq<ImplDecl.Bound>) returns (offered: seq<Segment>)
    ensures offered == ImplDecl.PlainSegments(bounds)
  {
    offered := [];
    var j := 0;
    while j < |bounds|
      invariant 0 <= j <= |bounds|
      invariant offered == ImplDecl.PlainSegments(bounds[..j])
    {
      assert bounds[..j + 1][..j] == bounds[..j];
      if ImplDecl.Plain(bounds[j]) {
        offered := offered + [bounds[j].path.segments[0]];
      }
      j := j + 1;
    }
    assert bounds[..j] == bounds;
  }

  /** `expand`. */
  method Expand(env: Env, hash: string -> U64, callSite: string, proxyIdent: string, input: ImplDecl.ItemTrait)
    returns (r: Result<Expansion, Diag>)
    ensures r == ExpandSpec(env, hash, callSite, proxyIdent, input)
  {
    if input.genericParams != [] {
      return Err(TraitGenerics);
    }
    if !input.isUnsafe {
      return Err(TraitMustBeUnsafe);
    }
    if StaticBound !in input.supertraits {
      return Err(TraitMustBeStatic);
    }
    var sym := New(env, hash, callSite, input.ident);
    var implContent, macroContent := GenerateItems(input.items, proxyIdent, sym);
    var offered := OfferSupertraits(input.supertraits);
    r := Ok(Expansion(input, proxyIdent, implContent, offered, "__extern_trait_" + input.ident, macroContent,
                      WithName(sym, "drop"), WithName(sym, "typeid")));
  }

  // ----- Properties of the expansion -----

  /** Every forwarding stub has its definition, and every definition its stub. */
  lemma {:induction false} ItemsPairUp(items: seq<ImplDecl.TraitItem>, proxyIdent: string, sym: Symbol)
    ensures ImplDecl.PairedUp(ItemsOutput(items, proxyIdent, sym).0, ItemsOutput(items, proxyIdent, sym).1)
  {
    if items != [] {
      var init := items[..|items| - 1];
      ItemsPairUp(init, proxyIdent, sym);
      var out := ItemOutput(items[|items| - 1], proxyIdent, sym);
      ImplDecl.PairedUpStep(ItemsOutput(init, proxyIdent, sym).0, ItemsOutput(init, proxyIdent, sym).1, out.0, out.1);
    }
  }

  /** One bad item does not stop the others: replacing item `j` changes the impl entry at `j` only. */
  lemma ErrorsAreLocal(items: seq<ImplDecl.TraitItem>, j: nat, other: ImplDecl.TraitItem, proxyIdent: string, sym: Symbol)
    requires j < |items|
    ensures var before, after := ItemsOutput(items, proxyIdent, sym).0, ItemsOutput(items[j := other], proxyIdent, sym).0;
            forall i :: 0 <= i < |items| && i != j ==> after[i] == before[i]
  {
    var before, after := ItemsOutput(items, proxyIdent, sym).0, ItemsOutput(items[j := other], proxyIdent, sym).0;
    forall i | 0 <= i < |items| && i != j ensures after[i] == before[i] {
      assert items[j := other][i] == items[i];
    }
  }

  /**
   * The stub and the definition name their parameters differently: a `Self`
   * parameter after the receiver is `self` in the stub but `_1` in the
   * definition, and the stub then binds `self` twice.
   */
  lemma StubAndDefinitionNames(proxyIdent: string, sym: Symbol, ident: string)
    ensures var sig := Signature(false, false, false, None, ident, [], false,
                                 [Receiver(TRef(None, false, SelfTy)), TypedArg("other", TRef(None, false, SelfTy))],
                                 false, Returns(PathTy("bool")));
            var out := ItemOutput(ImplDecl.FnItem(sig), proxyIdent, sym);
            && out.0.Forward? && Names(out.0.f.params) == ["self", "self"]
            && Names(out.1[0].params) == [PositionalName(0), PositionalName(1)]
  {
    var refSelf := TRef(None, false, SelfTy);
    var sig := Signature(false, false, false, None, ident, [], false,
                         [Receiver(refSelf), TypedArg("other", refSelf)], false, Returns(PathTy("bool")));
    DeclSig.ArgNamesDuplicateSelf(ident);
    var vs := DeclSig.TryNew(sig).value;
    var exportName := WithName(sym, ident);
    assert ItemOutput(ImplDecl.FnItem(sig), proxyIdent, sym) == (ImplDecl.Forward(ProxyImpl(proxyIdent, exportName, vs)), [MacroRules(exportName, vs)]);
    SelfParamNames(proxyIdent, exportName, vs);
  }

  /** Both parameters of the stub are `self` when both verified inputs are `Self` shapes; the definition's are `_0, _1`. */
  lemma SelfParamNames(proxyIdent: string, exportName: Symbol, vs: DeclSig.VerifiedSignature)
    requires |vs.inputs| == 2 && vs.inputs[0].Self_? && vs.inputs[1].Self_?
    ensures Names(ProxyImpl(proxyIdent, exportName, vs).params) == ["self", "self"]
    ensures Names(MacroRules(exportName, vs).params) == [PositionalName(0), PositionalName(1)]
  {
    var f := ProxyImpl(proxyIdent, exportName, vs);
    var g := MacroRules(exportName, vs);
    assert Names(f.params)[0] == "self" && Names(f.params)[1] == "self";
    assert Names(g.params)[0] == PositionalName(0) && Names(g.params)[1] == PositionalName(1);
  }
}

/*
 * src/decl.rs with src/ty.rs: the oldest generation. Link names are plain
 * strings, `{prefix}_{name}` under a prefix made of the package, version,
 * crate and trait names. A method's signature is not checked beyond its
 * `Self` shapes: the stub is the trait's own signature with its typed
 * parameters renamed `_i`, and the import it calls has `Self` replaced by
 * the proxy. Of the supertraits, `Send` and `Sync` become marker impls and
 * `AsRef<T>` is forwarded; everything else is ignored.
 */
module OldDecl {
  import opened SynModel
  import opened SelfShape
  import opened DeclSym
  import ImplCodegen
  import ImplDecl
  import ImplSupertraits

  /** A method of `impl Trait for Proxy` (or of `impl AsRef<T> for Proxy`). */
  datatype Stub = Stub(
    sig: Signature,            // the declared signature, typed parameters renamed
    linkName: string,
    importParams: seq<Ty>,     // the imported function's parameter types, `Self` replaced by the proxy
    importOutput: ReturnTy,
    callArgs: seq<string>)

  /** The function the implementing crate exports as `exportName`. */
  datatype Definition = Definition(
    exportName: string,
    ident: string,
    params: seq<ImplCodegen.Param>,
    output: ReturnTy,
    traitPath: Option<Segment>,    // `None`: the macro's `$trait`
    callArgs: seq<string>)

  /** One of `#extra_impls`. */
  datatype ExtraImpl = MarkerImpl(traitName: string) | AsRefImpl(target: Ty, f: Stub)

  datatype ImplMember = Forward(f: Stub) | Reported(d: Diag)

  datatype Expansion = Expansion(
    item: ImplDecl.ItemTrait,
    proxyIdent: string,
    traitImpl: seq<ImplMember>,
    extraImpls: seq<ExtraImpl>,
    macroIdent: string,
    macroContent: seq<Definition>,
    dropName: string,
    reflectName: string)

  // ----- Names -----

  /** `__extern_trait_{pkg}_{ver}_{crate}_{trait}`, an unset variable printed as `<unknown>`. */
  function Prefix(env: Env, traitName: string): (p: string)
    // each variable independently: its value when set, `<unknown>` when not
    ensures p == "__extern_trait_"
                 + (if env.pkgName.Some? then env.pkgName.value else "<unknown>") + "_"
                 + (if env.pkgVersion.Some? then env.pkgVersion.value else "<unknown>") + "_"
                 + (if env.crateName.Some? then env.crateName.value else "<unknown>") + "_"
                 + traitName
  {
    "__extern_trait_" + VarOr(env.pkgName, Unknown) + "_" + VarOr(env.pkgVersion, Unknown) + "_"
      + VarOr(env.crateName, Unknown) + "_" + traitName
  }

  /** In one build environment, different traits get different prefixes. */
  lemma PrefixInjective(env: Env, a: string, b: string)
    ensures Prefix(env, a) == Prefix(env, b) <==> a == b
  {
    var head := Prefix(env, "");
    assert Prefix(env, a) == head + a && Prefix(env, b) == head + b;
    if Prefix(env, a) == Prefix(env, b) {
      assert a == (head + a)[|head|..];
    }
  }

  /** `{prefix}_{name}`. */
  function LinkName(prefix: string, name: string): (s: string)
    ensures |s| == |prefix| + 1 + |name| && s[..|prefix| + 1] == prefix + "_" && s[|prefix| + 1..] == name
  {
    prefix + "_" + name
  }

  /** Under one prefix, different names give different link names. */
  lemma LinkNameInjective(prefix: string, a: string, b: string)
    ensures LinkName(prefix, a) == LinkName(prefix, b) <==> a == b
  {
  }

  // ----- `generate_proxy_impl` -----

  /** The argument names: `self` for a receiver, `_i` for the typed parameter at index `i`. */
  function ArgNames(inputs: seq<FnArg>): (names: seq<string>)
    ensures |names| == |inputs|
    ensures forall i :: 0 <= i < |inputs| ==> (names[i] == "self" <==> inputs[i].Receiver?)
    ensures forall i :: 0 <= i < |inputs| && inputs[i].TypedArg? ==> names[i] == PositionalName(i)
    ensures forall i, j :: 0 <= i < j < |inputs| && inputs[j].TypedArg? ==> names[i] != names[j]
  {
    var names := seq(|inputs|, i requires 0 <= i < |inputs| => if inputs[i].Receiver? then "self" else PositionalName(i));
    assert forall i :: 0 <= i < |inputs| && inputs[i].TypedArg? ==> names[i] != "self" by {
      forall i | 0 <= i < |inputs| && inputs[i].TypedArg? ensures names[i] != "self" {
        assert names[i][0] == '_';
      }
    }
    forall i, j | 0 <= i < j < |inputs| && inputs[j].TypedArg? ensures names[i] != names[j] {
      if inputs[i].TypedArg? && names[i] == names[j] {
        PositionalNameInjective(i, j);
      }
    }
    names
  }

  /** The signature's parameters with every typed pattern replaced by `_i`; receivers stay. */
  function Renamed(inputs: seq<FnArg>): (r: seq<FnArg>)
    ensures |r| == |inputs| && InputTypes(r) == InputTypes(inputs)
    ensures forall i :: 0 <= i < |inputs| ==> (r[i].Receiver? <==> inputs[i].Receiver?)
    ensures forall i :: 0 <= i < |inputs| && inputs[i].TypedArg? ==> r[i].pat == PositionalName(i)
  {
    seq(|inputs|, i requires 0 <= i < |inputs| =>
      if inputs[i].Receiver? then inputs[i] else TypedArg(PositionalName(i), inputs[i].ty))
  }

  /** The in-place renaming loop of `generate_proxy_impl`, run on the clone of the signature. */
  method RenamePatterns(inputs: seq<FnArg>) returns (renamed: seq<FnArg>, args: seq<string>)
    ensures renamed == Renamed(inputs) && args == ArgNames(inputs)
  {
    renamed := inputs;
    args := [];
    ghost var spec, names := Renamed(inputs), ArgNames(inputs);
    var i := 0;
    while i < |renamed|
      invariant 0 <= i <= |renamed| == |inputs|
      invariant forall k :: 0 <= k < i ==> renamed[k] == spec[k]
      invariant forall k :: i <= k < |renamed| ==> renamed[k] == inputs[k]
      invariant |args| == i && forall k :: 0 <= k < i ==> args[k] == names[k]
    {
      if renamed[i].Receiver? {
        args := args + ["self"];
      } else {
        renamed := renamed[i := TypedArg(PositionalName(i), renamed[i].ty)];
        args := args + [PositionalName(i)];
      }
      i := i + 1;
    }
  }

  /** The return type with `Self` replaced by `proxy`; a `Self` the classification does not recognise is refused. */
  function ConvertOutput(output: ReturnTy, proxy: Ty): (r: Result<ReturnTy, Diag>)
    ensures r.Err? <==> output.Returns? && Classify(output.ty).Err?
    ensures r.Err? ==> r.error == OldTooComplexReturn
    ensures r.Ok? ==> (r.value.DefaultReturn? <==> output.DefaultReturn?)
    ensures r.Ok? && output.Returns? ==> r.value == Returns(Classify(output.ty).value.ToType(proxy))
  {
    match output
    case DefaultReturn => Ok(DefaultReturn)
    case Returns(ty) =>
      match Classify(ty)
      case Err(_) => Err(OldTooComplexReturn)
      case Ok(m) => Ok(Returns(m.ToType(proxy)))
  }

  /** A parameter type with `Self` replaced by `proxy`; `Self` by value and unrecognised shapes are refused. */
  function ConvertInput(t: Ty, proxy: Ty): (r: Result<Ty, Diag>)
    ensures r == Err(OldByValueSelf) <==> t == SelfTy
    ensures r == Err(OldTooComplexArg) <==> Classify(t).Err?
    ensures r.Ok? <==> Classify(t).Ok? && t != SelfTy
    ensures r.Ok? ==> r.value == Classify(t).value.ToType(proxy)
  {
    match Classify(t)
    case Err(_) => Err(OldTooComplexArg)
    case Ok(m) => if m == Self_(Value) then Err(OldByValueSelf) else Ok(m.ToType(proxy))
  }

  /**
   * `generate_proxy_impl`. The return type is checked first, then the
   * parameters in order; const, async, generics, ABI and variadics are not
   * looked at.
   */
  function GenerateProxyImpl(proxyIdent: string, exportName: string, sig: Signature): (r: Result<Stub, Diag>)
    ensures ConvertOutput(sig.output, PathTy(proxyIdent)).Err? ==> r == Err(OldTooComplexReturn)
    ensures ConvertOutput(sig.output, PathTy(proxyIdent)).Ok? && r.Err? ==>
              exists k :: 0 <= k < |sig.inputs| && ConvertInput(sig.inputs[k].ty, PathTy(proxyIdent)) == Err(r.error)
                          && forall j :: 0 <= j < k ==> ConvertInput(sig.inputs[j].ty, PathTy(proxyIdent)).Ok?
    ensures r.Ok? <==>
              && ConvertOutput(sig.output, PathTy(proxyIdent)).Ok?
              && forall i :: 0 <= i < |sig.inputs| ==> ConvertInput(sig.inputs[i].ty, PathTy(proxyIdent)).Ok?
    ensures r.Ok? ==>
              && r.value.sig == sig.(inputs := Renamed(sig.inputs))
              && r.value.linkName == exportName
              && r.value.callArgs == ArgNames(sig.inputs)
              && |r.value.importParams| == |sig.inputs|
              && (forall i :: 0 <= i < |sig.inputs| ==>
                    r.value.importParams[i] == ConvertInput(sig.inputs[i].ty, PathTy(proxyIdent)).value)
              && r.value.importOutput == ConvertOutput(sig.output, PathTy(proxyIdent)).value
  {
    var proxy := PathTy(proxyIdent);
    match ConvertOutput(sig.output, proxy)
    case Err(e) => Err(e)
    case Ok(output) =>
      match Collect(InputTypes(sig.inputs), t => ConvertInput(t, proxy))
      case Err(e) => Err(e)
      case Ok(inputs) => Ok(Stub(sig.(inputs := Renamed(sig.inputs)), exportName, inputs, output, ArgNames(sig.inputs)))
  }

  // ----- `generate_macro_rules` -----

  /** What the `unwrap()`s of `generate_macro_rules` need: every `Self` is one of the three shapes. */
  predicate Classifiable(sig: Signature)
  {
    && (forall i :: 0 <= i < |sig.inputs| ==> Classify(sig.inputs[i].ty).Ok?)
    && (sig.output.Returns? ==> Classify(sig.output.ty).Ok?)
  }

  /** Every `Self` in a classifiable signature sits in one of the three shapes. */
  lemma ClassifiableShapes(sig: Signature)
    requires Classifiable(sig)
    ensures forall i :: 0 <= i < |sig.inputs| && ContainsSelf(sig.inputs[i].ty) ==> SelfKindOf(sig.inputs[i].ty).Some?
    ensures sig.output.Returns? && ContainsSelf(sig.output.ty) ==> SelfKindOf(sig.output.ty).Some?
  {
  }

  /**
   * `generate_macro_rules`: every parameter named `_i`, `$ty` in place of
   * `Self` (a by-value `Self` result included), the call made through
   * `trait_`, or the macro's `$trait` when there is none.
   */
  function GenerateMacroRules(trait_: Option<Segment>, exportName: string, sig: Signature): (d: Definition)
    requires Classifiable(sig)
    ensures d.exportName == exportName && d.ident == sig.ident && d.traitPath == trait_
    ensures |d.params| == |sig.inputs|
    ensures forall i :: 0 <= i < |d.params| ==>
              d.params[i] == ImplCodegen.Param(PositionalName(i), Classify(sig.inputs[i].ty).value.ToType(ImplCodegen.ImplTyHole))
    ensures d.callArgs == ImplCodegen.Names(d.params)
    ensures d.output.DefaultReturn? <==> sig.output.DefaultReturn?
    ensures sig.output.Returns? ==> d.output == Returns(Classify(sig.output.ty).value.ToType(ImplCodegen.ImplTyHole))
  {
    var hole := ImplCodegen.ImplTyHole;
    var names := seq(|sig.inputs|, i requires 0 <= i < |sig.inputs| => PositionalName(i));
    var tys := seq(|sig.inputs|, i requires 0 <= i < |sig.inputs| => Classify(sig.inputs[i].ty).value.ToType(hole));
    var params := ImplCodegen.Params(names, tys);
    var output := match sig.output
      case DefaultReturn => DefaultReturn
      case Returns(ty) => Returns(Classify(ty).value.ToType(hole));
    Definition(exportName, sig.ident, params, output, trait_, ImplCodegen.Names(params))
  }

  /** Whatever `generate_proxy_impl` accepts, `generate_macro_rules` can unwrap. */
  lemma AcceptedIsClassifiable(proxyIdent: string, exportName: string, sig: Signature)
    requires GenerateProxyImpl(proxyIdent, exportName, sig).Ok?
    ensures Classifiable(sig)
  {
  }

  /**
   * The two halves agree: the same name, the same arity, and every
   * parameter and the result carry the same shape, with the proxy on one
   * side where `$ty` is on the other.
   */
  lemma HalvesAgree(proxyIdent: string, exportName: string, trait_: Option<Segment>, sig: Signature)
    requires GenerateProxyImpl(proxyIdent, exportName, sig).Ok?
    ensures Classifiable(sig)
    ensures var s, d := GenerateProxyImpl(proxyIdent, exportName, sig).value, GenerateMacroRules(trait_, exportName, sig);
            && s.linkName == d.exportName && s.sig.ident == d.ident
            && |s.importParams| == |d.params|
            && (forall i :: 0 <= i < |d.params| ==>
                  var m := Classify(sig.inputs[i].ty).value;
                  s.importParams[i] == m.ToType(PathTy(proxyIdent)) && d.params[i].ty == m.ToType(ImplCodegen.ImplTyHole))
            && (s.importOutput.DefaultReturn? <==> d.output.DefaultReturn?)
            && (sig.output.Returns? ==>
                  var m := Classify(sig.output.ty).value;
                  s.importOutput == Returns(m.ToType(PathTy(proxyIdent))) && d.output == Returns(m.ToType(ImplCodegen.ImplTyHole)))
  {
  }

  // ----- The item loop -----

  /** The loop body for one trait item. */
  function ItemOutput(it: ImplDecl.TraitItem, proxyIdent: string, prefix: string): (r: (ImplMember, seq<Definition>))
    ensures r.0.Reported? ==> r.1 == []
    ensures r.0.Forward? ==>
              && it.FnItem? && r.0.f.linkName == LinkName(prefix, it.sig.ident)
              && |r.1| == 1 && r.1[0].exportName == r.0.f.linkName && r.1[0].ident == it.sig.ident
    ensures it.OtherItem? ==> r.0 == Reported(OnlyMethods)
    ensures it.FnItem? ==> (r.0.Forward? <==> GenerateProxyImpl(proxyIdent, LinkName(prefix, it.sig.ident), it.sig).Ok?)
  {
    match it
    case OtherItem(_) => (Reported(OnlyMethods), [])
    case FnItem(sig) =>
      var exportName := LinkName(prefix, sig.ident);
      match GenerateProxyImpl(proxyIdent, exportName, sig)
      case Ok(stub) =>
        AcceptedIsClassifiable(proxyIdent, exportName, sig);
        (Forward(stub), [GenerateMacroRules(None, exportName, sig)])
      case Err(e) => (Reported(e), [])
  }

  /** The item loop: one impl entry per item, in order; the definitions of the accepted methods, in order. */
  function ItemsOutput(items: seq<ImplDecl.TraitItem>, proxyIdent: string, prefix: string): (r: (seq<ImplMember>, seq<Definition>))
    ensures |r.0| == |items|
    ensures forall i :: 0 <= i < |items| ==> r.0[i] == ItemOutput(items[i], proxyIdent, prefix).0
  {
    if items == [] then ([], [])
    else
      var (members, defs) := ItemsOutput(items[..|items| - 1], proxyIdent, prefix);
      var (m, d) := ItemOutput(items[|items| - 1], proxyIdent, prefix);
      (members + [m], defs + d)
  }

  /** The link names of the forwarding stubs, in order. */
  function ForwardedNames(members: seq<ImplMember>): (names: seq<string>)
    ensures |names| <= |members|
    // with nothing reported, every member's name is there, in place
    ensures (forall j :: 0 <= j < |members| ==> members[j].Forward?) ==>
              |names| == |members| && forall j :: 0 <= j < |members| ==> names[j] == members[j].f.linkName
  {
    if members == [] then []
    else
      var m := members[|members| - 1];
      ForwardedNames(members[..|members| - 1]) + if m.Forward? then [m.f.linkName] else []
  }

  /** The export names of the definitions, in order. */
  function ExportNames(defs: seq<Definition>): (names: seq<string>)
    ensures |names| == |defs| && forall k :: 0 <= k < |defs| ==> names[k] == defs[k].exportName
  {
    seq(|defs|, k requires 0 <= k < |defs| => defs[k].exportName)
  }

  /** Stubs and definitions match one to one and in order: the i-th definition is exported under the i-th stub's link name. */
  lemma {:induction false} ItemsPairUp(items: seq<ImplDecl.TraitItem>, proxyIdent: string, prefix: string)
    ensures var (members, defs) := ItemsOutput(items, proxyIdent, prefix);
            ExportNames(defs) == ForwardedNames(members)
  {
    if items != [] {
      var init := items[..|items| - 1];
      ItemsPairUp(init, proxyIdent, prefix);
      var out := ItemOutput(items[|items| - 1], proxyIdent, prefix);
      PairStep(ItemsOutput(init, proxyIdent, prefix).0, ItemsOutput(init, proxyIdent, prefix).1, out.0, out.1);
    }
  }

  /** Appending one item's output keeps the names matched. */
  lemma PairStep(members: seq<ImplMember>, defs: seq<Definition>, m: ImplMember, d: seq<Definition>)
    requires ExportNames(defs) == ForwardedNames(members)
    requires m.Reported? ==> d == []
    requires m.Forward? ==> |d| == 1 && d[0].exportName == m.f.linkName
    ensures ExportNames(defs + d) == ForwardedNames(members + [m])
  {
    assert (members + [m])[..|members|] == members;
    assert ExportNames(defs + d) == ExportNames(defs) + ExportNames(d);
  }

  /** One bad item does not stop the others: replacing item `j` changes the impl entry at `j` only. */
  lemma ErrorsAreLocal(items: seq<ImplDecl.TraitItem>, j: nat, other: ImplDecl.TraitItem, proxyIdent: string, prefix: string)
    requires j < |items|
    ensures var before, after := ItemsOutput(items, proxyIdent, prefix).0, ItemsOutput(items[j := other], proxyIdent, prefix).0;
            forall i :: 0 <= i < |items| && i != j ==> after[i] == before[i]
  {
    var before, after := ItemsOutput(items, proxyIdent, prefix).0, ItemsOutput(items[j := other], proxyIdent, prefix).0;
    forall i | 0 <= i < |items| && i != j ensures after[i] == before[i] {
      assert items[j := other][i] == items[i];
    }
  }

  /** The item loop of `expand`. */
  method GenerateItems(items: seq<ImplDecl.TraitItem>, proxyIdent: string, prefix: string)
    returns (implContent: seq<ImplMember>, macroContent: seq<Definition>)
    ensures (implContent, macroContent) == ItemsOutput(items, proxyIdent, prefix)
  {
    implContent := [];
    macroContent := [];
    var i := 0;
    while i < |items|
      invariant 0 <= i <= |items|
      invariant (implContent, macroContent) == ItemsOutput(items[..i], proxyIdent, prefix)
    {
      assert items[..i + 1][..i] == items[..i];
      assert macroContent + [] == macroContent;
      match items[i] {
        case OtherItem(_) =>
          implContent := implContent + [Reported(OnlyMethods)];
        case FnItem(sig) =>
          var exportName := LinkName(prefix, sig.ident);
          var stub := GenerateProxyImpl(proxyIdent, exportName, sig);
          if stub.Ok? {
            AcceptedIsClassifiable(proxyIdent, exportName, sig);
            implContent := implContent + [Forward(stub.value)];
            macroContent := macroContent + [GenerateMacroRules(None, exportName, sig)];
          } else {
            implContent := implContent + [Reported(stub.error)];
          }
      }
      i := i + 1;
    }
    assert items[..i] == items;
  }

  // ----- Supertraits -----

  /** The bounds looked at: a trait path without leading `::` and with one segment (modifiers and binders are not checked). */
  predicate Plain(b: ImplDecl.Bound)
  {
    b.TraitBound? && !b.path.leadingColon && |b.path.segments| == 1
  }

  /** `fn as_ref(&self) -> &T`. */
  function AsRefSig(target: Ty): Signature
  {
    Signature(false, false, false, None, "as_ref", [], false, [Receiver(TRef(None, false, SelfTy))], false,
              Returns(TRef(None, false, target)))
  }

  /** The target `T` of `AsRef<T, ..>`: the first generic argument, when it is a type. */
  function AsRefTarget(seg: Segment): (r: Option<Ty>)
    ensures r.Some? <==> seg.ident == "AsRef" && seg.args.Angle? && |seg.args.args| > 0 && seg.args.args[0].GaType?
    ensures r.Some? ==> r.value == seg.args.args[0].ty
  {
    if seg.ident == "AsRef" && seg.args.Angle? && |seg.args.args| > 0 && seg.args.args[0].GaType?
    then Some(seg.args.args[0].ty) else None
  }

  /**
   * One bound: the impls and definitions it adds. `printTy` is the token
   * rendering of a type, used in the `AsRef` link name. A forwarding `as_ref`
   * that cannot be generated aborts the whole expansion. Before that, the
   * signature `fn as_ref(&self) -> &T` is built by `parse_quote!`, which
   * panics when `T` is a bound list with a top-level `+` (`dyn X + Send`):
   * after `&` syn reads a type without `+`, and the rest is left over.
   */
  function BoundOutput(b: ImplDecl.Bound, proxyIdent: string, prefix: string, printTy: Ty -> string)
    : (r: Result<(seq<ExtraImpl>, seq<Definition>), Diag>)
    ensures !Plain(b) ==> r == Ok(([], []))
    ensures Plain(b) && b.path.segments[0].ident == "Send" ==> r == Ok(([MarkerImpl("Send")], []))
    ensures Plain(b) && b.path.segments[0].ident == "Sync" ==> r == Ok(([MarkerImpl("Sync")], []))
    ensures (Plain(b) && AsRefTarget(b.path.segments[0]).None? && b.path.segments[0].ident != "Send"
             && b.path.segments[0].ident != "Sync") ==> r == Ok(([], []))
    ensures r.Err? ==> r.error == OldTooComplexReturn || r.error == ProcMacroPanic
    // the `parse_quote!` panic, before the stub is generated
    ensures r == Err(ProcMacroPanic) <==>
              Plain(b) && AsRefTarget(b.path.segments[0]).Some? && ImplSupertraits.PlusBounds(AsRefTarget(b.path.segments[0]).value)
    ensures r.Ok? && |r.value.1| > 0 ==>
              && Plain(b) && AsRefTarget(b.path.segments[0]).Some?
              && var target := AsRefTarget(b.path.segments[0]).value;
              && !ImplSupertraits.PlusBounds(target)
              && |r.value.0| == 1 && r.value.0[0].AsRefImpl? && r.value.0[0].target == target
              && r.value.0[0].f.linkName == LinkName(prefix, "AsRef_" + printTy(target))
              && |r.value.1| == 1 && r.value.1[0].exportName == r.value.0[0].f.linkName
              && r.value.1[0].traitPath == Some(Segment("AsRef", Angle([GaType(target)])))
  {
    if !Plain(b) then Ok(([], []))
    else
      var seg := b.path.segments[0];
      if seg.ident == "Send" then Ok(([MarkerImpl("Send")], []))
      else if seg.ident == "Sync" then Ok(([MarkerImpl("Sync")], []))
      else
        match AsRefTarget(seg)
        case None => Ok(([], []))
        case Some(target) =>
          if ImplSupertraits.PlusBounds(target) then Err(ProcMacroPanic)
          else
            var exportName := LinkName(prefix, "AsRef_" + printTy(target));
            var sig := AsRefSig(target);
            match GenerateProxyImpl(proxyIdent, exportName, sig)
            case Err(e) => Err(e)
            case Ok(stub) =>
              AcceptedIsClassifiable(proxyIdent, exportName, sig);
              Ok(([AsRefImpl(target, stub)], [GenerateMacroRules(Some(Segment("AsRef", Angle([GaType(target)]))), exportName, sig)]))
  }

  /** The supertrait loop over `bounds`, stopping at the first error. */
  function ExtrasOutput(bounds: seq<ImplDecl.Bound>, proxyIdent: string, prefix: string, printTy: Ty -> string)
    : (r: Result<(seq<ExtraImpl>, seq<Definition>), Diag>)
    ensures r.Err? ==> r.error == OldTooComplexReturn || r.error == ProcMacroPanic
  {
    if bounds == [] then Ok(([], []))
    else
      match ExtrasOutput(bounds[..|bounds| - 1], proxyIdent, prefix, printTy)
      case Err(e) => Err(e)
      case Ok((impls, defs)) =>
        match BoundOutput(bounds[|bounds| - 1], proxyIdent, prefix, printTy)
        case Err(e) => Err(e)
        case Ok((i, d)) => Ok((impls + i, defs + d))
  }

  /** The supertrait loop of `expand`. */
  method GenerateExtras(bounds: seq<ImplDecl.Bound>, proxyIdent: string, prefix: string, printTy: Ty -> string)
    returns (r: Result<(seq<ExtraImpl>, seq<Definition>), Diag>)
    ensures r == ExtrasOutput(bounds, proxyIdent, prefix, printTy)
  {
    var extraImpls: seq<ExtraImpl> := [];
    var macroContent: seq<Definition> := [];
    var j := 0;
    while j < |bounds|
      invariant 0 <= j <= |bounds|
      invariant ExtrasOutput(bounds[..j], proxyIdent, prefix, printTy) == Ok((extraImpls, macroContent))
    {
      var out := BoundOutput(bounds[j], proxyIdent, prefix, printTy);
      ExtrasStep(bounds, j, proxyIdent, prefix, printTy, extraImpls, macroContent);
      if out.Err? {
        ExtrasFailAt(bounds, j + 1, proxyIdent, prefix, printTy);
        return Err(out.error);
      }
      extraImpls := extraImpls + out.value.0;
      macroContent := macroContent + out.value.1;
      j := j + 1;
    }
    assert bounds[..j] == bounds;
    r := Ok((extraImpls, macroContent));
  }

  /** One more bound, after a prefix that succeeded. */
  lemma ExtrasStep(bounds: seq<ImplDecl.Bound>, j: nat, proxyIdent: string, prefix: string, printTy: Ty -> string,
                   impls: seq<ExtraImpl>, defs: seq<Definition>)
    requires j < |bounds|
    requires ExtrasOutput(bounds[..j], proxyIdent, prefix, printTy) == Ok((impls, defs))
    ensures var out := BoundOutput(bounds[j], proxyIdent, prefix, printTy);
            ExtrasOutput(bounds[..j + 1], proxyIdent, prefix, printTy)
            == if out.Err? then Err(out.error) else Ok((impls + out.value.0, defs + out.value.1))
  {
    assert bounds[..j + 1][..j] == bounds[..j];
  }

  /** A prefix that failed decides the whole loop. */
  lemma ExtrasFailAt(bounds: seq<ImplDecl.Bound>, n: nat, proxyIdent: string, prefix: string, printTy: Ty -> string)
    requires n <= |bounds| && ExtrasOutput(bounds[..n], proxyIdent, prefix, printTy).Err?
    ensures ExtrasOutput(bounds, proxyIdent, prefix, printTy) == ExtrasOutput(bounds[..n], proxyIdent, prefix, printTy)
  {
    assert bounds[..n] + bounds[n..] == bounds;
    ExtrasErrorPersists(bounds[..n], bounds[n..], proxyIdent, prefix, printTy);
  }

  /** Once a bound has failed, later bounds do not matter. */
  lemma {:induction false} ExtrasErrorPersists(bounds: seq<ImplDecl.Bound>, more: seq<ImplDecl.Bound>, proxyIdent: string,
                                               prefix: string, printTy: Ty -> string)
    requires ExtrasOutput(bounds, proxyIdent, prefix, printTy).Err?
    ensures ExtrasOutput(bounds + more, proxyIdent, prefix, printTy) == ExtrasOutput(bounds, proxyIdent, prefix, printTy)
    decreases |more|
  {
    if more == [] {
      assert bounds + more == bounds;
    } else {
      var more' := more[..|more| - 1];
      assert (bounds + more)[..|bounds + more| - 1] == bounds + more';
      ExtrasErrorPersists(bounds, more', proxyIdent, prefix, printTy);
    }
  }

  // ----- The expansion -----

  /** What `expand` returns, for the build environment `env`. */
  function ExpandSpec(env: Env, printTy: Ty -> string, proxyIdent: string, input: ImplDecl.ItemTrait): (r: Result<Expansion, Diag>)
    ensures input.genericParams != [] ==> r == Err(TraitGenerics)
    ensures input.genericParams == [] && !input.isUnsafe ==> r == Err(TraitMustBeUnsafe)
    ensures r.Err? ==> r.error in {TraitGenerics, TraitMustBeUnsafe, OldTooComplexReturn, ProcMacroPanic}
    ensures input.genericParams == [] && input.isUnsafe ==>
              var prefix := Prefix(env, input.ident);
              (r.Err? <==> ExtrasOutput(input.supertraits, proxyIdent, prefix, printTy).Err?)
    ensures r.Ok? ==>
              var prefix := Prefix(env, input.ident);
              var (members, defs) := ItemsOutput(input.items, proxyIdent, prefix);
              && input.genericParams == [] && input.isUnsafe
              && r.value.item == input && r.value.proxyIdent == proxyIdent
              && r.value.traitImpl == members
              && r.value.extraImpls == ExtrasOutput(input.supertraits, proxyIdent, prefix, printTy).value.0
              && r.value.macroContent == defs + ExtrasOutput(input.supertraits, proxyIdent, prefix, printTy).value.1
              && r.value.macroIdent == "__extern_trait_" + input.ident
              && r.value.dropName == LinkName(prefix, "drop") && r.value.reflectName == LinkName(prefix, "reflect")
  {
    if input.genericParams != [] then Err(TraitGenerics)
    else if !input.isUnsafe then Err(TraitMustBeUnsafe)
    else
      var prefix := Prefix(env, input.ident);
      var (members, defs) := ItemsOutput(input.items, proxyIdent, prefix);
      match ExtrasOutput(input.supertraits, proxyIdent, prefix, printTy)
      case Err(e) => Err(e)
      case Ok((extras, extraDefs)) =>
        Ok(Expansion(input, proxyIdent, members, extras, "__extern_trait_" + input.ident, defs + extraDefs,
                     LinkName(prefix, "drop"), LinkName(prefix, "reflect")))
  }

  /** `expand`. */
  method Expand(env: Env, printTy: Ty -> string, proxyIdent: string, input: ImplDecl.ItemTrait) returns (r: Result<Expansion, Diag>)
    ensures r == ExpandSpec(env, printTy, proxyIdent, input)
  {
    if input.genericParams != [] {
      return Err(TraitGenerics);
    }
    if !input.isUnsafe {
      return Err(TraitMustBeUnsafe);
    }
    var prefix := Prefix(env, input.ident);
    var implContent, macroContent := GenerateItems(input.items, proxyIdent, prefix);
    var extras := GenerateExtras(input.supertraits, proxyIdent, prefix, printTy);
    if extras.Err? {
      return Err(extras.error);
    }
    r := Ok(Expansion(input, proxyIdent, implContent, extras.value.0, "__extern_trait_" + input.ident,
                      macroContent + extras.value.1, LinkName(prefix, "drop"), LinkName(prefix, "reflect")));
  }

  // ----- Properties -----

  /** Nothing of a signature's header is checked: only its `Self` shapes decide. */
  lemma HeaderNotChecked(proxyIdent: string, exportName: string, sig: Signature)
    ensures var bare := sig.(isConst := false, isAsync := false, abi := None, genericParams := [], hasWhereClause := false,
                             isVariadic := false);
            GenerateProxyImpl(proxyIdent, exportName, sig).Ok? <==> GenerateProxyImpl(proxyIdent, exportName, bare).Ok?
  {
  }

  /**
   * A by-value `self` is refused, a by-value `Self` result is allowed, and a
   * too complex result is reported before a bad parameter.
   */
  lemma SelfByValue(proxyIdent: string, exportName: string, ident: string)
    ensures GenerateProxyImpl(proxyIdent, exportName,
              Signature(false, false, false, None, ident, [], false, [Receiver(SelfTy)], false, DefaultReturn)) == Err(OldByValueSelf)
    ensures GenerateProxyImpl(proxyIdent, exportName,
              Signature(false, false, false, None, ident, [], false, [], false, Returns(SelfTy))).Ok?
    ensures GenerateProxyImpl(proxyIdent, exportName,
              Signature(false, false, false, None, ident, [], false, [Receiver(SelfTy)], false,
                        Returns(TRef(None, false, TRef(None, false, SelfTy))))) == Err(OldTooComplexReturn)
  {
    ToTypeRoundTrip(Value);
    TooComplexWrappers(SelfTy);
    assert InputTypes([Receiver(SelfTy)]) == [SelfTy];
  }

  /** `Send` and `Sync` become marker impls with nothing to export. */
  lemma SendSyncMarkers(proxyIdent: string, prefix: string, printTy: Ty -> string)
    ensures var send := ImplDecl.TraitBound(false, false, IdentPath("Send"));
            var sync := ImplDecl.TraitBound(false, false, IdentPath("Sync"));
            ExtrasOutput([send, sync], proxyIdent, prefix, printTy) == Ok(([MarkerImpl("Send"), MarkerImpl("Sync")], []))
  {
    var send := ImplDecl.TraitBound(false, false, IdentPath("Send"));
    var sync := ImplDecl.TraitBound(false, false, IdentPath("Sync"));
    var noDefs: seq<Definition> := [];
    assert BoundOutput(send, proxyIdent, prefix, printTy) == Ok(([MarkerImpl("Send")], noDefs));
    assert BoundOutput(sync, proxyIdent, prefix, printTy) == Ok(([MarkerImpl("Sync")], noDefs));
    assert [send][..0] == [];
    assert [] + [MarkerImpl("Send")] == [MarkerImpl("Send")] && noDefs + noDefs == noDefs;
    assert ExtrasOutput([send], proxyIdent, prefix, printTy) == Ok(([MarkerImpl("Send")], noDefs));
    assert [send, sync][..1] == [send] && [send, sync][1] == sync;
    assert [MarkerImpl("Send")] + [MarkerImpl("Sync")] == [MarkerImpl("Send"), MarkerImpl("Sync")];
  }

  /**
   * `AsRef<Vec<Self>>` makes the forwarded `as_ref` return a too complex
   * type, and the whole expansion fails, whatever the trait's items are.
   */
  lemma AsRefAborts(env: Env, printTy: Ty -> string, proxyIdent: string, input: ImplDecl.ItemTrait)
    requires input.genericParams == [] && input.isUnsafe
    requires input.supertraits == [ImplDecl.TraitBound(false, false, Path(false, [Segment("AsRef",
                                     Angle([GaType(TPath(None, Path(false, [Segment("Vec", Angle([GaType(SelfTy)]))])))]))]))]
    ensures ExpandSpec(env, printTy, proxyIdent, input) == Err(OldTooComplexReturn)
  {
    var vecSelf := TPath(None, Path(false, [Segment("Vec", Angle([GaType(SelfTy)]))]));
    TooComplexPaths();
    assert ContainsSelf(TRef(None, false, vecSelf));
    var prefix := Prefix(env, input.ident);
    var b := input.supertraits[0];
    assert AsRefTarget(b.path.segments[0]) == Some(vecSelf);
    assert !ImplSupertraits.PlusBounds(vecSelf);
    assert BoundOutput(b, proxyIdent, prefix, printTy) == Err(OldTooComplexReturn);
    assert input.supertraits[..0] == [];
    assert ExtrasOutput(input.supertraits, proxyIdent, prefix, printTy) == Err(OldTooComplexReturn);
  }

  /**
   * `unsafe trait T: AsRef<dyn X + Send>` panics in `parse_quote!`: the
   * printed `-> &dyn X + Send` leaves `+ Send` unparsed.
   */
  lemma DynBoundsPanic(env: Env, printTy: Ty -> string, proxyIdent: string, input: ImplDecl.ItemTrait)
    requires input.genericParams == [] && input.isUnsafe
    requires input.supertraits == [ImplDecl.TraitBound(false, false, Path(false, [Segment("AsRef",
                                     Angle([GaType(TOther(ImplSupertraits.DynSend))]))]))]
    ensures ExpandSpec(env, printTy, proxyIdent, input) == Err(ProcMacroPanic)
  {
    ImplSupertraits.PlusBoundsExamples();
    var prefix := Prefix(env, input.ident);
    var b := input.supertraits[0];
    assert AsRefTarget(b.path.segments[0]) == Some(TOther(ImplSupertraits.DynSend));
    assert BoundOutput(b, proxyIdent, prefix, printTy) == Err(ProcMacroPanic);
    assert input.supertraits[..0] == [];
    assert ExtrasOutput(input.supertraits, proxyIdent, prefix, printTy) == Err(ProcMacroPanic);
  }

  /**
   * A method named `drop` or `reflect` is linked under the lifecycle
   * symbol's own name, and a method named `AsRef_` followed by the printed
   * target of an `AsRef` bound under that bound's name.
   */
  lemma NameClashes(env: Env, traitName: string, printTy: Ty -> string, target: Ty, ident: string)
    ensures var prefix := Prefix(env, traitName);
            && (LinkName(prefix, ident) == LinkName(prefix, "drop") <==> ident == "drop")
            && (LinkName(prefix, ident) == LinkName(prefix, "reflect") <==> ident == "reflect")
            && (LinkName(prefix, ident) == LinkName(prefix, "AsRef_" + printTy(target)) <==> ident == "AsRef_" + printTy(target))
  {
    var prefix := Prefix(env, traitName);
    LinkNameInjective(prefix, ident, "drop");
    LinkNameInjective(prefix, ident, "reflect");
    LinkNameInjective(prefix, ident, "AsRef_" + printTy(target));
  }
}

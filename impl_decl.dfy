/*
 * impl/src/decl/mod.rs, `expand`: `#[extern_trait(Proxy)]` on a trait
 * declaration. After the generics gate and the crate-path attribute, every
 * trait item is turned into a forwarding method of `impl Trait for Proxy`
 * or into an error reported in its place; every plain supertrait bound is
 * offered to the relay catalog; the lifecycle symbols `drop` and `typeid`
 * are named; and everything the implementing crate must emit is gathered
 * into the `macro_rules!` exported under the trait's name.
 *
 * The generated items are records. The runtime behaviour of the emitted
 * proxy (`from_impl`, `into_impl`, the downcasts, `Drop`) is modelled in
 * module `ProxyRuntime`.
 */
module ImplDecl {
  import opened SynModel
  import opened DeclSym
  import opened ImplCodegen
  import ImplSig
  import ImplAttr
  import ImplArgs
  import ImplSupertraits

  datatype TraitItem = FnItem(sig: Signature) | OtherItem(text: string)

  /** A supertrait bound. `maybe` is the `?` modifier; `hasLifetimes` a `for<'a>` binder. */
  datatype Bound =
    | TraitBound(maybe: bool, hasLifetimes: bool, path: Path)
    | LifetimeBound(lifetime: string)

  /** `syn::ItemTrait`, reduced to what `expand` looks at. */
  datatype ItemTrait = ItemTrait(
    attrs: seq<ImplAttr.Attribute>,
    isUnsafe: bool,
    ident: string,
    genericParams: seq<string>,
    supertraits: seq<Bound>,
    items: seq<TraitItem>)

  /** One entry of `impl Trait for Proxy { .. }`: a forwarding method, or the error reported in its place. */
  datatype ImplMember = Forward(f: ProxyFn) | Reported(d: Diag)

  datatype Expansion = Expansion(
    item: ItemTrait,                            // the trait as re-emitted
    proxy: (ImplArgs.ProxyStruct, ImplArgs.MarkerImpl),
    traitImpl: seq<ImplMember>,                 // `#unsafety impl #trait_ident for #proxy_ident`
    superImpls: seq<ImplSupertraits.Relay>,
    macroIdent: string,
    macroContent: seq<ExportFn>,
    dropName: Symbol,
    typeidName: Symbol)

  /** What the per-item and per-bound steps share. */
  datatype Context = Context(externTrait: Path, proxyIdent: string, sym: Symbol, printSegment: Segment -> string)

  // ----- Trait items -----

  /** The loop body for one trait item: its entry in the impl and the definitions it adds to the macro. */
  function ItemOutput(it: TraitItem, ctx: Context): (r: (ImplMember, seq<ExportFn>))
    ensures r.0.Reported? ==> r.1 == []
    ensures r.0.Forward? ==>
              && it.FnItem? && |r.1| == 1
              && r.0.f.linkName == r.1[0].exportName == WithName(ctx.sym, it.sig.ident)
              && r.0.f.ident == r.1[0].ident == it.sig.ident
  {
    match it
    case OtherItem(_) => (Reported(OnlyMethods), [])
    case FnItem(sig) =>
      var exportName := WithName(ctx.sym, sig.ident);
      match ImplSig.TryNew(sig)
      case Ok(vs) =>
        (Forward(GenerateProxyImpl(ctx.proxyIdent, exportName, vs)),
         [GenerateMacroRules(ctx.externTrait, None, exportName, vs)])
      case Err(e) => (Reported(e), [])
  }

  /** Which items are forwarded, and the error reported for the others. */
  lemma ItemOutputCases(it: TraitItem, ctx: Context)
    ensures it.OtherItem? ==> ItemOutput(it, ctx).0 == Reported(OnlyMethods)
    ensures it.FnItem? ==> (ItemOutput(it, ctx).0.Forward? <==> ImplSig.TryNew(it.sig).Ok?)
    ensures it.FnItem? && ImplSig.TryNew(it.sig).Err? ==> ItemOutput(it, ctx).0 == Reported(ImplSig.TryNew(it.sig).error)
  {
  }

  /**
   * The item loop over `items`: one impl entry per item, in order, each
   * depending on its own item only; the definitions of the verified methods
   * in order.
   */
  function ItemsOutput(items: seq<TraitItem>, ctx: Context): (r: (seq<ImplMember>, seq<ExportFn>))
    ensures |r.0| == |items|
    ensures forall i :: 0 <= i < |items| ==> r.0[i] == ItemOutput(items[i], ctx).0
    ensures |r.1| <= |items|
  {
    if items == [] then ([], [])
    else
      var (members, defs) := ItemsOutput(items[..|items| - 1], ctx);
      var (m, d) := ItemOutput(items[|items| - 1], ctx);
      (members + [m], defs + d)
  }

  // ----- Supertraits -----

  /** The bounds offered to the relay: no modifier, no binder, no leading `::`, one segment. */
  predicate Plain(b: Bound)
  {
    b.TraitBound? && !b.maybe && !b.hasLifetimes && !b.path.leadingColon && |b.path.segments| == 1
  }

  /** A plain bound's path is exactly its one segment, arguments included, with no `::` in front. */
  lemma PlainPath(b: Bound)
    requires Plain(b)
    ensures b.TraitBound? && |b.path.segments| == 1 && b.path == Path(false, [b.path.segments[0]])
  {
  }

  /** The segments of the plain bounds, in order. */
  function PlainSegments(bounds: seq<Bound>): (segs: seq<Segment>)
    ensures |segs| <= |bounds|
    // a segment is offered exactly when some plain bound names it
    ensures forall s :: s in segs <==> exists i :: 0 <= i < |bounds| && Plain(bounds[i]) && bounds[i].path.segments[0] == s
    // all bounds plain: every bound offered, in place
    ensures (forall i :: 0 <= i < |bounds| ==> Plain(bounds[i])) ==>
              |segs| == |bounds| && forall i :: 0 <= i < |bounds| ==> segs[i] == bounds[i].path.segments[0]
  {
    if bounds == [] then []
    else
      var b := bounds[|bounds| - 1];
      PlainSegments(bounds[..|bounds| - 1]) + if Plain(b) then [b.path.segments[0]] else []
  }

  /** Offering distributes over the bound list, so the bounds' order is kept. */
  lemma {:induction false} PlainSegmentsAppend(a: seq<Bound>, b: seq<Bound>)
    ensures PlainSegments(a + b) == PlainSegments(a) + PlainSegments(b)
    decreases |b|
  {
    if b == [] {
      assert a + b == a;
    } else {
      assert (a + b)[..|a + b| - 1] == a + b[..|b| - 1];
      PlainSegmentsAppend(a, b[..|b| - 1]);
    }
  }

  /**
   * The supertrait loop over `bounds`: the relays generated, in order, and
   * the definitions they add. A catalog template that fails to substitute
   * makes the macro panic.
   */
  function SupersOutput(bounds: seq<Bound>, ctx: Context): (r: Result<(seq<ImplSupertraits.Relay>, seq<ExportFn>), Diag>)
    ensures r.Err? ==> r.error == ProcMacroPanic
    ensures r.Ok? ==> forall k :: 0 <= k < |r.value.0| ==> r.value.0[k].traitSegment in PlainSegments(bounds)
    ensures r.Ok? ==> |r.value.0| <= |PlainSegments(bounds)|
  {
    if bounds == [] then Ok(([], []))
    else
      match SupersOutput(bounds[..|bounds| - 1], ctx)
      case Err(e) => Err(e)
      case Ok((relays, defs)) =>
        var b := bounds[|bounds| - 1];
        if !Plain(b) then Ok((relays, defs))
        else
          match ImplSupertraits.GenerateImpl(ctx.externTrait, b.path.segments[0], ctx.proxyIdent, ctx.sym, ctx.printSegment)
          case NotInCatalog => Ok((relays, defs))
          case Panics => Err(ProcMacroPanic)
          case Relayed(rel) => Ok((relays + [rel], defs + rel.definitions))
  }

  /** `#extern_trait::ExternSafe`, the bound pushed onto the trait. */
  function ExternSafeBound(externTrait: Path): Bound
  {
    TraitBound(false, false, Join(externTrait, "ExternSafe"))
  }

  // ----- The expansion -----

  /** What `expand` returns, for the build environment `env` and call site `callSite`. */
  function ExpandSpec(env: Env, hash: string -> U64, callSite: string, printSegment: Segment -> string,
                      proxy: ImplArgs.Proxy, input: ItemTrait): (r: Result<Expansion, seq<Diag>>)
    // a generic trait is refused first; a bad crate attribute next
    ensures input.genericParams != [] ==> r == Err([TraitGenerics])
    ensures input.genericParams == [] && ImplAttr.Resolve(input.attrs).Err? ==> r == Err(ImplAttr.Resolve(input.attrs).error)
    ensures r.Ok? ==>
              && ImplAttr.Resolve(input.attrs).Ok?
              && var externTrait := ImplAttr.Resolve(input.attrs).value;
              && var sym := New(env, hash, callSite, input.ident);
              && r.value.item == input.(attrs := ImplAttr.Filter(input.attrs),
                                        supertraits := input.supertraits + [ExternSafeBound(externTrait)])
              && r.value.proxy == ImplArgs.ExpandProxy(proxy, externTrait)
              && r.value.dropName == WithName(sym, "drop") && r.value.typeidName == WithName(sym, "typeid")
              && r.value.macroIdent == "__extern_trait_" + input.ident
              && |r.value.traitImpl| == |input.items|
    // after the gates, the only failure left is a supertrait relay that panics
    ensures input.genericParams == [] && ImplAttr.Resolve(input.attrs).Ok? ==>
              var ctx := Context(ImplAttr.Resolve(input.attrs).value, proxy.ident,
                                 New(env, hash, callSite, input.ident), printSegment);
              && (r.Ok? <==> SupersOutput(input.supertraits, ctx).Ok?)
              && (SupersOutput(input.supertraits, ctx).Err? ==> r == Err([ProcMacroPanic]))
              && (r.Ok? ==>
                    && r.value.traitImpl == ItemsOutput(input.items, ctx).0
                    && r.value.superImpls == SupersOutput(input.supertraits, ctx).value.0
                    && r.value.macroContent == ItemsOutput(input.items, ctx).1 + SupersOutput(input.supertraits, ctx).value.1)
  {
    if input.genericParams != [] then Err([TraitGenerics])
    else
      match ImplAttr.Resolve(input.attrs)
      case Err(es) => Err(es)
      case Ok(externTrait) =>
        var sym := New(env, hash, callSite, input.ident);
        var ctx := Context(externTrait, proxy.ident, sym, printSegment);
        var (members, defs) := ItemsOutput(input.items, ctx);
        match SupersOutput(input.supertraits, ctx)
        case Err(e) => Err([e])
        case Ok((relays, superDefs)) =>
          Ok(Expansion(
            input.(attrs := ImplAttr.Filter(input.attrs), supertraits := input.supertraits + [ExternSafeBound(externTrait)]),
            ImplArgs.ExpandProxy(proxy, externTrait),
            members,
            relays,
            "__extern_trait_" + input.ident,
            defs + superDefs,
            WithName(sym, "drop"),
            WithName(sym, "typeid")))
  }

  /** Extending the items by one appends that item's member and definitions. */
  lemma ItemsOutputSnoc(items: seq<TraitItem>, i: nat, ctx: Context)
    requires i < |items|
    ensures ItemsOutput(items[..i + 1], ctx).0 == ItemsOutput(items[..i], ctx).0 + [ItemOutput(items[i], ctx).0]
    ensures ItemsOutput(items[..i + 1], ctx).1 == ItemsOutput(items[..i], ctx).1 + ItemOutput(items[i], ctx).1
  {
    assert items[..i + 1][..i] == items[..i];
  }

  /** The item loop of `expand`. */
  method GenerateItems(items: seq<TraitItem>, ctx: Context) returns (implContent: seq<ImplMember>, macroContent: seq<ExportFn>)
    ensures (implContent, macroContent) == ItemsOutput(items, ctx)
  {
    implContent := [];
    macroContent := [];
    var i := 0;
    while i < |items|
      invariant 0 <= i <= |items|
      invariant (implContent, macroContent) == ItemsOutput(items[..i], ctx)
    {
      ItemsOutputSnoc(items, i, ctx);
      match items[i] {
        case OtherItem(_) =>
          assert ItemOutput(items[i], ctx) == (Reported(OnlyMethods), []);
          assert macroContent + [] == macroContent;
          implContent := implContent + [Reported(OnlyMethods)];
        case FnItem(sig) =>
          var exportName := WithName(ctx.sym, sig.ident);
          var vs := ImplSig.TryNew(sig);
          if vs.Ok? {
            assert ItemOutput(items[i], ctx) == (Forward(GenerateProxyImpl(ctx.proxyIdent, exportName, vs.value)), [GenerateMacroRules(ctx.externTrait, None, exportName, vs.value)]);
            implContent := implContent + [Forward(GenerateProxyImpl(ctx.proxyIdent, exportName, vs.value))];
            macroContent := macroContent + [GenerateMacroRules(ctx.externTrait, None, exportName, vs.value)];
          } else {
            assert ItemOutput(items[i], ctx) == (Reported(vs.error), []);
            assert macroContent + [] == macroContent;
            implContent := implContent + [Reported(vs.error)];
          }
      }
      i := i + 1;
    }
    assert items[..i] == items;
  }

  /** The supertrait loop of `expand`. */
  method RelaySupertraits(bounds: seq<Bound>, ctx: Context)
    returns (r: Result<(seq<ImplSupertraits.Relay>, seq<ExportFn>), Diag>)
    ensures r == SupersOutput(bounds, ctx)
  {
    var superImpls: seq<ImplSupertraits.Relay> := [];
    var macroContent: seq<ExportFn> := [];
    var j := 0;
    while j < |bounds|
      invariant 0 <= j <= |bounds|
      invariant SupersOutput(bounds[..j], ctx) == Ok((superImpls, macroContent))
    {
      assert bounds[..j] + [bounds[j]] == bounds[..j + 1];
      var b := bounds[j];
      SupersStep(bounds[..j], b, ctx);
      if Plain(b) {
        var outcome := ImplSupertraits.GenerateImpl(ctx.externTrait, b.path.segments[0], ctx.proxyIdent, ctx.sym, ctx.printSegment);
        match outcome {
          case NotInCatalog =>
          case Panics =>
            SupersFailAt(bounds, j + 1, ctx);
            return Err(ProcMacroPanic);
          case Relayed(rel) =>
            superImpls := superImpls + [rel];
            macroContent := macroContent + rel.definitions;
        }
      }
      j := j + 1;
    }
    assert bounds[..j] == bounds;
    r := Ok((superImpls, macroContent));
  }

  /** `expand`. */
  method Expand(env: Env, hash: string -> U64, callSite: string, printSegment: Segment -> string,
                proxy: ImplArgs.Proxy, input: ItemTrait) returns (r: Result<Expansion, seq<Diag>>)
    ensures r == ExpandSpec(env, hash, callSite, printSegment, proxy, input)
  {
    if input.genericParams != [] {
      return Err([TraitGenerics]);
    }
    var kept, path := ImplAttr.ExternTraitPath(input.attrs);
    if path.Err? {
      return Err(path.error);
    }
    var externTrait := path.value;
    var sym := New(env, hash, callSite, input.ident);
    var ctx := Context(externTrait, proxy.ident, sym, printSegment);
    var implContent, macroContent := GenerateItems(input.items, ctx);
    var supers := RelaySupertraits(input.supertraits, ctx);
    if supers.Err? {
      return Err([supers.error]);
    }
    var (superImpls, superDefs) := supers.value;
    r := Ok(Expansion(
      input.(attrs := kept, supertraits := input.supertraits + [ExternSafeBound(externTrait)]),
      ImplArgs.ExpandProxy(proxy, externTrait),
      implContent,
      superImpls,
      "__extern_trait_" + input.ident,
      macroContent + superDefs,
      WithName(sym, "drop"),
      WithName(sym, "typeid")));
  }

  /** One step of the supertrait loop. */
  lemma SupersStep(bounds: seq<Bound>, b: Bound, ctx: Context)
    requires SupersOutput(bounds, ctx).Ok?
    ensures var prev := SupersOutput(bounds, ctx).value;
            var next := SupersOutput(bounds + [b], ctx);
            if !Plain(b) then next == Ok(prev)
            else
              var outcome := ImplSupertraits.GenerateImpl(ctx.externTrait, b.path.segments[0], ctx.proxyIdent, ctx.sym, ctx.printSegment);
              && (outcome.NotInCatalog? ==> next == Ok(prev))
              && (outcome.Panics? ==> next == Err(ProcMacroPanic))
              && (outcome.Relayed? ==> next == Ok((prev.0 + [outcome.relay], prev.1 + outcome.relay.definitions)))
  {
    assert (bounds + [b])[..|bounds|] == bounds;
  }

  /** A prefix that panicked decides the whole loop. */
  lemma SupersFailAt(bounds: seq<Bound>, n: nat, ctx: Context)
    requires n <= |bounds| && SupersOutput(bounds[..n], ctx).Err?
    ensures SupersOutput(bounds, ctx) == SupersOutput(bounds[..n], ctx)
  {
    assert bounds[..n] + bounds[n..] == bounds;
    SupersPanicPersists(bounds[..n], bounds[n..], ctx);
  }

  /** Once a relay has panicked, later bounds do not matter. */
  lemma {:induction false} SupersPanicPersists(bounds: seq<Bound>, more: seq<Bound>, ctx: Context)
    requires SupersOutput(bounds, ctx).Err?
    ensures SupersOutput(bounds + more, ctx).Err?
    decreases |more|
  {
    if more == [] {
      assert bounds + more == bounds;
    } else {
      var more' := more[..|more| - 1];
      assert (bounds + more)[..|bounds + more| - 1] == bounds + more';
      SupersPanicPersists(bounds, more', ctx);
    }
  }

  // ----- Properties of the expansion -----

  /** Some definition in `defs` is exported under the stub's link name, for the stub's method. */
  predicate HasDefinition(defs: seq<ExportFn>, f: ProxyFn)
  {
    exists k :: 0 <= k < |defs| && defs[k].exportName == f.linkName && defs[k].ident == f.ident
  }

  /** Some forwarding stub in `members` links to the definition's export name, for the same method. */
  predicate HasStub(members: seq<ImplMember>, d: ExportFn)
  {
    exists i :: 0 <= i < |members| && members[i].Forward? && d.exportName == members[i].f.linkName && d.ident == members[i].f.ident
  }

  /** Every forwarding stub has its definition, and every definition its stub. */
  predicate PairedUp(members: seq<ImplMember>, defs: seq<ExportFn>)
  {
    && (forall i :: 0 <= i < |members| && members[i].Forward? ==> HasDefinition(defs, members[i].f))
    && (forall k :: 0 <= k < |defs| ==> HasStub(members, defs[k]))
  }

  /** Appending one item's output keeps stubs and definitions paired. */
  lemma PairedUpStep(members: seq<ImplMember>, defs: seq<ExportFn>, m: ImplMember, d: seq<ExportFn>)
    requires PairedUp(members, defs)
    requires m.Reported? ==> d == []
    requires m.Forward? ==> |d| == 1 && d[0].exportName == m.f.linkName && d[0].ident == m.f.ident
    ensures PairedUp(members + [m], defs + d)
  {
    var members', defs' := members + [m], defs + d;
    forall i | 0 <= i < |members'| && members'[i].Forward? ensures HasDefinition(defs', members'[i].f) {
      if i < |members| {
        assert members'[i] == members[i];
        var k :| 0 <= k < |defs| && defs[k].exportName == members[i].f.linkName && defs[k].ident == members[i].f.ident;
        assert defs'[k] == defs[k];
      } else {
        assert defs'[|defs|] == d[0];
      }
    }
    forall k | 0 <= k < |defs'| ensures HasStub(members', defs'[k]) {
      if k < |defs| {
        assert defs'[k] == defs[k];
        var i :| 0 <= i < |members| && members[i].Forward? && defs[k].exportName == members[i].f.linkName && defs[k].ident == members[i].f.ident;
        assert members'[i] == members[i];
      } else {
        assert members'[|members|] == m;
      }
    }
  }

  /**
   * Stubs and definitions pair up: every forwarding stub links to a name that
   * some definition of the same method is exported under, and every
   * definition is the target of such a stub.
   */
  lemma {:induction false} ItemsPairUp(items: seq<TraitItem>, ctx: Context)
    ensures PairedUp(ItemsOutput(items, ctx).0, ItemsOutput(items, ctx).1)
  {
    if items != [] {
      var init := items[..|items| - 1];
      ItemsPairUp(init, ctx);
      var out := ItemOutput(items[|items| - 1], ctx);
      PairedUpStep(ItemsOutput(init, ctx).0, ItemsOutput(init, ctx).1, out.0, out.1);
    }
  }

  /**
   * One bad item does not stop the others: replacing item `j` changes the
   * impl entry at `j` only.
   */
  lemma ErrorsAreLocal(items: seq<TraitItem>, j: nat, other: TraitItem, ctx: Context)
    requires j < |items|
    ensures var before, after := ItemsOutput(items, ctx).0, ItemsOutput(items[j := other], ctx).0;
            forall i :: 0 <= i < |items| && i != j ==> after[i] == before[i]
  {
    var before, after := ItemsOutput(items, ctx).0, ItemsOutput(items[j := other], ctx).0;
    forall i | 0 <= i < |items| && i != j ensures after[i] == before[i] {
      assert items[j := other][i] == items[i];
    }
  }

  /** Methods with different names get different link names. */
  lemma LinkNamesDistinct(items: seq<TraitItem>, ctx: Context, i: nat, j: nat)
    requires i < j < |items|
    requires items[i].FnItem? && items[j].FnItem? && items[i].sig.ident != items[j].sig.ident
    requires ImplSig.TryNew(items[i].sig).Ok? && ImplSig.TryNew(items[j].sig).Ok?
    ensures var members := ItemsOutput(items, ctx).0;
            members[i].Forward? && members[j].Forward? && members[i].f.linkName != members[j].f.linkName
  {
    WithNameInjective(ctx.sym, items[i].sig.ident, items[j].sig.ident);
  }

  /**
   * A method named `drop` (or `typeid`) is linked under the very name of the
   * lifecycle symbol: the implementing crate then exports two items under
   * one name.
   */
  lemma LifecycleNameClash(env: Env, hash: string -> U64, callSite: string, printSegment: Segment -> string,
                           proxy: ImplArgs.Proxy, input: ItemTrait, i: nat)
    requires ExpandSpec(env, hash, callSite, printSegment, proxy, input).Ok?
    requires i < |input.items| && input.items[i].FnItem? && ImplSig.TryNew(input.items[i].sig).Ok?
    ensures var e := ExpandSpec(env, hash, callSite, printSegment, proxy, input).value;
            && e.traitImpl[i].Forward?
            && (e.traitImpl[i].f.linkName == e.dropName <==> input.items[i].sig.ident == "drop")
            && (e.traitImpl[i].f.linkName == e.typeidName <==> input.items[i].sig.ident == "typeid")
  {
    var externTrait := ImplAttr.Resolve(input.attrs).value;
    var sym := New(env, hash, callSite, input.ident);
    var ctx := Context(externTrait, proxy.ident, sym, printSegment);
    assert ExpandSpec(env, hash, callSite, printSegment, proxy, input).value.traitImpl == ItemsOutput(input.items, ctx).0;
    WithNameInjective(sym, input.items[i].sig.ident, "drop");
    WithNameInjective(sym, input.items[i].sig.ident, "typeid");
  }

  /** A bound that is not plain is never offered to the relay. */
  lemma NonPlainIgnored(bounds: seq<Bound>, b: Bound, ctx: Context)
    requires !Plain(b)
    ensures SupersOutput(bounds + [b], ctx) == SupersOutput(bounds, ctx)
  {
    assert (bounds + [b])[..|bounds|] == bounds;
  }
}

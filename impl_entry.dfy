/*
 * impl/src/lib.rs: the `#[extern_trait]` attribute itself. Empty arguments
 * mean an impl block; otherwise the arguments are tried as trait arguments
 * first and, when that fails, read again as impl arguments. An error the
 * expansion returns is turned into compile errors in the output. The one
 * failure that is not returned is the supertrait relay's `unwrap`
 * (impl/src/decl/supertraits.rs:115): it panics inside `decl::expand`, so
 * the conversion at the end of `extern_trait` never sees it.
 *
 * The entry point passes the parsed arguments on, but the expansions it
 * calls take none: `imp::expand` takes the impl block only and
 * `decl::expand` the proxy and the trait, and both read the crate path from
 * the item's own attributes. The routes below carry the parsed arguments;
 * the expansions get what their own signatures take.
 */
module ImplEntry {
  import opened SynModel
  import opened DeclSym
  import ImplArgs
  import ImplAttr
  import ImplImp
  import ImplDecl

  /** The item under the attribute, as `parse_macro_input!` reads it. */
  datatype Item = TraitDecl(trait_: ImplDecl.ItemTrait) | ImplBlock(impl_: ImplImp.ItemImpl) | OtherItem

  /** Which expansion the arguments select. */
  datatype Route = ToImpl(implArgs: ImplArgs.ImplArgs) | ToDecl(declArgs: ImplArgs.DeclArgs) | BadArgs(error: Diag)

  datatype Output =
    | DeclOutput(decl: ImplDecl.Expansion)
    | ImplOutput(impl_: ImplImp.Expansion)
    | CompileErrors(errors: seq<Diag>)   // `Error::into_compile_error`, or what `parse_macro_input!` returns
    | Panicked(message: Diag)            // the macro panics; no output is produced

  /**
   * The choice of expansion. Trying the trait arguments first and falling
   * back to the impl arguments is the same as trying each: no argument list
   * is accepted by both parsers. When neither accepts, the error reported is
   * the impl parser's.
   */
  function Dispatch(toks: seq<ImplArgs.Token>): (r: Route)
    ensures toks == [] ==> r == ToImpl(ImplArgs.ImplArgs(DefaultCratePath))
    ensures r.ToDecl? <==> ImplArgs.DeclArgsOf(toks).Ok?
    ensures r.ToDecl? ==> r.declArgs == ImplArgs.DeclArgsOf(toks).value
    ensures r.ToImpl? <==> ImplArgs.ImplArgsOf(toks).Ok?
    ensures r.ToImpl? ==> r.implArgs == ImplArgs.ImplArgsOf(toks).value
    ensures r.BadArgs? ==> ImplArgs.ImplArgsOf(toks) == Err(r.error)
  {
    ImplArgs.ImplArgsShape(toks);
    if toks == [] then ToImpl(ImplArgs.ImplArgs(DefaultCratePath))
    else
      match ImplArgs.DeclArgsOf(toks)
      case Ok(args) => ToDecl(args)
      case Err(_) =>
        match ImplArgs.ImplArgsOf(toks)
        case Ok(args) => ToImpl(args)
        case Err(e) => BadArgs(e)
  }

  /** `extern_trait(args, input)`. */
  function ExternTrait(env: Env, hash: string -> U64, callSite: string, printSegment: Segment -> string,
                       toks: seq<ImplArgs.Token>, item: Item): (out: Output)
    ensures out.DeclOutput? ==> Dispatch(toks).ToDecl? && item.TraitDecl?
    ensures out.ImplOutput? ==> Dispatch(toks).ToImpl? && item.ImplBlock?
    ensures Dispatch(toks).BadArgs? ==> out == CompileErrors([Dispatch(toks).error])
    ensures Dispatch(toks).ToImpl? && item.ImplBlock? ==>
              var e := ImplImp.Expand(item.impl_);
              out == if e.Ok? then ImplOutput(e.value) else CompileErrors(e.error)
    ensures Dispatch(toks).ToDecl? && item.TraitDecl? ==>
              var e := ImplDecl.ExpandSpec(env, hash, callSite, printSegment, Dispatch(toks).declArgs.proxy, item.trait_);
              && (e.Ok? ==> out == DeclOutput(e.value))
              && (e.Err? && e.error == [ProcMacroPanic] ==> out == Panicked(ProcMacroPanic))
              && (e.Err? && e.error != [ProcMacroPanic] ==> out == CompileErrors(e.error))
    // only the trait path can panic
    ensures out.Panicked? ==> Dispatch(toks).ToDecl? && item.TraitDecl? && out.message == ProcMacroPanic
  {
    match Dispatch(toks)
    case BadArgs(e) => CompileErrors([e])
    case ToImpl(_) =>
      if !item.ImplBlock? then CompileErrors([ParseError("`impl`")])
      else
        (match ImplImp.Expand(item.impl_)
         case Ok(e) => ImplOutput(e)
         case Err(es) => CompileErrors(es))
    case ToDecl(args) =>
      if !item.TraitDecl? then CompileErrors([ParseError("`trait`")])
      else
        match ImplDecl.ExpandSpec(env, hash, callSite, printSegment, args.proxy, item.trait_)
        case Ok(e) => DeclOutput(e)
        case Err(es) => if es == [ProcMacroPanic] then Panicked(ProcMacroPanic) else CompileErrors(es)
  }

  /**
   * The macro panics exactly when a trait declaration gets past the generics
   * and attribute gates and then one of its supertrait relays panics.
   */
  lemma PanicsIffRelayPanics(env: Env, hash: string -> U64, callSite: string, printSegment: Segment -> string,
                             toks: seq<ImplArgs.Token>, item: Item)
    ensures ExternTrait(env, hash, callSite, printSegment, toks, item).Panicked? <==>
              && Dispatch(toks).ToDecl? && item.TraitDecl?
              && item.trait_.genericParams == []
              && ImplAttr.Resolve(item.trait_.attrs).Ok?
              && var ctx := ImplDecl.Context(ImplAttr.Resolve(item.trait_.attrs).value, Dispatch(toks).declArgs.proxy.ident,
                                             New(env, hash, callSite, item.trait_.ident), printSegment);
                 ImplDecl.SupersOutput(item.trait_.supertraits, ctx).Err?
  {
    if Dispatch(toks).ToDecl? && item.TraitDecl? {
      ImplAttr.ResolveNeverPanics(item.trait_.attrs);
      if item.trait_.genericParams == [] && ImplAttr.Resolve(item.trait_.attrs).Err? {
        assert ProcMacroPanic !in ImplAttr.Resolve(item.trait_.attrs).error;
      }
    }
  }

  /** Every error a failing attribute path produces is non-empty. */
  lemma ResolveErrorsNonEmpty(attrs: seq<ImplAttr.Attribute>)
    ensures ImplAttr.Resolve(attrs).Err? ==> ImplAttr.Resolve(attrs).error != []
  {
  }

  /**
   * A failing expansion is never silent: it is either compile errors, at
   * least one, or the relay's panic.
   */
  lemma FailuresAreReported(env: Env, hash: string -> U64, callSite: string, printSegment: Segment -> string,
                            toks: seq<ImplArgs.Token>, item: Item)
    ensures var out := ExternTrait(env, hash, callSite, printSegment, toks, item);
            && (out.CompileErrors? ==> out.errors != [])
            && (out.Panicked? ==> out.message == ProcMacroPanic)
  {
    match item
    case TraitDecl(t) => ResolveErrorsNonEmpty(t.attrs);
    case ImplBlock(i) => ResolveErrorsNonEmpty(i.attrs);
    case OtherItem =>
  }

  /** `#[extern_trait(Proxy)]` on a trait and `#[extern_trait]` or `#[extern_trait(crate = P)]` on an impl. */
  lemma RoutingExamples(proxyIdent: string, p: Path)
    ensures Dispatch([ImplArgs.IdentTok(proxyIdent)]).ToDecl?
    ensures Dispatch([ImplArgs.IdentTok(proxyIdent)]).declArgs.externTrait == DefaultCratePath
    ensures Dispatch([]) == ToImpl(ImplArgs.ImplArgs(DefaultCratePath))
    ensures Dispatch(ImplArgs.CrateTokens(Some(p))) == ToImpl(ImplArgs.ImplArgs(p))
  {
    ImplArgs.DeclRoundTrip(None, ImplArgs.Proxy([], ImplArgs.Inherited, proxyIdent));
    assert ImplArgs.PrintDecl(None, ImplArgs.Proxy([], ImplArgs.Inherited, proxyIdent)) == [ImplArgs.IdentTok(proxyIdent)];
    ImplArgs.ImplRoundTrip(Some(p));
  }
}

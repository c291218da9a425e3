/*
 * impl/src/args.rs: the arguments of `#[extern_trait(...)]`. On a trait they
 * name the proxy type, optionally after `crate = path`; on an impl block they
 * are at most `crate = path`.
 *
 * syn's sub-parsers (`Attribute::parse_outer`, `Visibility`, `Ident`,
 * `Path::parse_mod_style`) each read whole tokens here: an outer attribute,
 * a visibility and a path are one token each. Parsing goes through a stream
 * with a cursor, as in syn; `syn::parse` additionally insists that the whole
 * input is consumed.
 */
module ImplArgs {
  import opened SynModel
  import ImplCodegen

  /** The argument tokens, at the granularity the parsers look at them. */
  datatype Token =
    | CrateKw                  // `crate`
    | EqTok                    // `=`
    | CommaTok                 // `,`
    | IdentTok(name: string)   // an identifier
    | PathTok(path: Path)      // a path such as `::a::b`
    | OuterAttr(attr: string)  // a whole `#[...]`
    | VisTok(vis: string)      // a whole visibility such as `pub` or `pub(crate)`
    | OtherTok(text: string)

  datatype Visibility = Inherited | Visible(text: string)

  /** `Proxy`: the struct the trait's callers see. */
  datatype Proxy = Proxy(attrs: seq<string>, vis: Visibility, ident: string)

  datatype DeclArgs = DeclArgs(externTrait: Path, proxy: Proxy)

  datatype ImplArgs = ImplArgs(externTrait: Path)

  // ----- What each parser does, as functions of the tokens and the cursor -----

  /** `Path::parse_mod_style` at `pos`: an identifier is a one-segment path. */
  function PathAt(toks: seq<Token>, pos: nat): (r: Result<Path, Diag>)
    requires pos <= |toks|
    ensures r.Err? <==> pos == |toks| || !(toks[pos].IdentTok? || toks[pos].PathTok?)
    ensures r.Err? ==> r.error == ParseError("identifier")
  {
    if pos < |toks| && toks[pos].IdentTok? then Ok(IdentPath(toks[pos].name))
    else if pos < |toks| && toks[pos].PathTok? then Ok(toks[pos].path)
    else Err(ParseError("identifier"))
  }

  /**
   * `parse_crate_path` at `pos`: the result and the new cursor. Nothing is
   * consumed unless the next token is `crate`; after `crate`, `= path` is
   * required.
   */
  function CratePathAt(toks: seq<Token>, pos: nat): (r: Result<(Option<Path>, nat), Diag>)
    requires pos <= |toks|
    ensures (pos == |toks| || toks[pos] != CrateKw) <==> r == Ok((None, pos))
    ensures r.Ok? && r.value.0.Some? ==>
              && r.value.1 == pos + 3 <= |toks|
              && toks[pos] == CrateKw && toks[pos + 1] == EqTok
              && PathAt(toks, pos + 2) == Ok(r.value.0.value)
    ensures r.Ok? ==> r.value.1 <= |toks|
    ensures r.Err? ==> r.error in {ParseError("`=`"), ParseError("identifier")}
  {
    if pos < |toks| && toks[pos] == CrateKw then
      if pos + 1 < |toks| && toks[pos + 1] == EqTok then
        match PathAt(toks, pos + 2)
        case Ok(p) => Ok((Some(p), pos + 3))
        case Err(e) => Err(e)
      else Err(ParseError("`=`"))
    else Ok((None, pos))
  }

  /** `Attribute::parse_outer` at `pos`: every outer attribute that follows, in order. */
  function AttrsAt(toks: seq<Token>, pos: nat): (r: (seq<string>, nat))
    requires pos <= |toks|
    ensures pos <= r.1 <= |toks| && |r.0| == r.1 - pos
    ensures forall i :: pos <= i < r.1 ==> toks[i].OuterAttr? && r.0[i - pos] == toks[i].attr
    ensures r.1 == |toks| || !toks[r.1].OuterAttr?
    decreases |toks| - pos
  {
    if pos < |toks| && toks[pos].OuterAttr? then
      var (rest, end) := AttrsAt(toks, pos + 1);
      ([toks[pos].attr] + rest, end)
    else ([], pos)
  }

  /** `Visibility::parse` at `pos`: inherited, consuming nothing, unless a visibility follows. */
  function VisAt(toks: seq<Token>, pos: nat): (r: (Visibility, nat))
    requires pos <= |toks|
    ensures r.0.Visible? <==> pos < |toks| && toks[pos].VisTok?
    ensures r.0.Visible? ==> r.0.text == toks[pos].vis && r.1 == pos + 1
    ensures r.0.Inherited? ==> r.1 == pos
  {
    if pos < |toks| && toks[pos].VisTok? then (Visible(toks[pos].vis), pos + 1) else (Inherited, pos)
  }

  /** `Ident::parse` at `pos`. */
  function IdentAt(toks: seq<Token>, pos: nat): (r: Result<(string, nat), Diag>)
    requires pos <= |toks|
    ensures r.Ok? <==> pos < |toks| && toks[pos].IdentTok?
    ensures r.Ok? ==> r.value == (toks[pos].name, pos + 1)
    ensures r.Err? ==> r.error == ParseError("identifier")
  {
    if pos < |toks| && toks[pos].IdentTok? then Ok((toks[pos].name, pos + 1)) else Err(ParseError("identifier"))
  }

  /** `DeclArgs::parse` from `pos`. */
  function DeclArgsAt(toks: seq<Token>, pos: nat): (r: Result<(DeclArgs, nat), Diag>)
    requires pos <= |toks|
    ensures r.Ok? ==> r.value.1 <= |toks|
  {
    match CratePathAt(toks, pos)
    case Err(e) => Err(e)
    case Ok((crate_, p1)) =>
      if crate_.Some? && (p1 == |toks| || toks[p1] != CommaTok) then Err(ParseError("`,`"))
      else
        var p2 := if crate_.Some? then p1 + 1 else p1;
        var (attrs, p3) := AttrsAt(toks, p2);
        var (vis, p4) := VisAt(toks, p3);
        match IdentAt(toks, p4)
        case Err(e) => Err(e)
        case Ok((ident, p5)) =>
          Ok((DeclArgs(if crate_.Some? then crate_.value else DefaultCratePath, Proxy(attrs, vis, ident)), p5))
  }

  /** `ImplArgs::parse` from `pos`. */
  function ImplArgsAt(toks: seq<Token>, pos: nat): (r: Result<(ImplArgs, nat), Diag>)
    requires pos <= |toks|
    ensures r.Ok? ==> r.value.1 <= |toks|
  {
    match CratePathAt(toks, pos)
    case Err(e) => Err(e)
    case Ok((crate_, p1)) => Ok((ImplArgs(if crate_.Some? then crate_.value else DefaultCratePath), p1))
  }

  /** One more outer attribute read: it moves from the rest of the input to the attributes read so far. */
  lemma AttrsAtStep(toks: seq<Token>, pos: nat, attrs: seq<string>)
    requires pos < |toks| && toks[pos].OuterAttr?
    ensures attrs + AttrsAt(toks, pos).0 == (attrs + [toks[pos].attr]) + AttrsAt(toks, pos + 1).0
    ensures AttrsAt(toks, pos).1 == AttrsAt(toks, pos + 1).1
  {
    assert AttrsAt(toks, pos).0 == [toks[pos].attr] + AttrsAt(toks, pos + 1).0;
  }

  /** `syn::parse`: the parser's result if it consumed every token, else "unexpected token". */
  function WholeInput<T>(r: Result<(T, nat), Diag>, toks: seq<Token>): (w: Result<T, Diag>)
    ensures w.Ok? <==> r.Ok? && r.value.1 == |toks|
    ensures w.Ok? ==> w.value == r.value.0
    ensures r.Err? ==> w == Err(r.error)
    ensures r.Ok? && r.value.1 != |toks| ==> w == Err(UnexpectedToken)
  {
    match r
    case Err(e) => Err(e)
    case Ok((v, end)) => if end == |toks| then Ok(v) else Err(UnexpectedToken)
  }

  /** `syn::parse::<DeclArgs>`. */
  function DeclArgsOf(toks: seq<Token>): (r: Result<DeclArgs, Diag>)
    // the proxy's name is the last token; there is no default name
    ensures r.Ok? ==> |toks| > 0 && toks[|toks| - 1] == IdentTok(r.value.proxy.ident)
    ensures toks == [] ==> r == Err(ParseError("identifier"))
  {
    WholeInput(DeclArgsAt(toks, 0), toks)
  }

  /** `syn::parse::<ImplArgs>`. */
  function ImplArgsOf(toks: seq<Token>): (r: Result<ImplArgs, Diag>)
    ensures toks == [] ==> r == Ok(ImplArgs(DefaultCratePath))
    ensures r.Ok? && toks != [] ==>
              |toks| == 3 && toks[0] == CrateKw && toks[1] == EqTok && PathAt(toks, 2) == Ok(r.value.externTrait)
  {
    WholeInput(ImplArgsAt(toks, 0), toks)
  }

  // ----- The parse stream -----

  /** syn's `ParseBuffer`: the tokens and a cursor that only moves forward. */
  class ParseStream {
    const tokens: seq<Token>
    var pos: nat

    ghost predicate Valid()
      reads this
    {
      pos <= |tokens|
    }

    constructor (tokens: seq<Token>)
      ensures Valid() && this.tokens == tokens && pos == 0
    {
      this.tokens := tokens;
      pos := 0;
    }

    predicate IsEmpty()
      reads this
    {
      pos >= |tokens|
    }

    /** `parse_crate_path`. */
    method ParseCratePath() returns (r: Result<Option<Path>, Diag>)
      requires Valid()
      modifies this
      ensures Valid()
      ensures var spec := CratePathAt(tokens, old(pos));
              && (r.Ok? <==> spec.Ok?)
              && (r.Ok? ==> r.value == spec.value.0 && pos == spec.value.1)
              && (r.Err? ==> r.error == spec.error)
    {
      if pos < |tokens| && tokens[pos] == CrateKw {
        pos := pos + 1;
        if pos == |tokens| || tokens[pos] != EqTok {
          return Err(ParseError("`=`"));
        }
        pos := pos + 1;
        var p := PathAt(tokens, pos);
        if p.Err? {
          return Err(p.error);
        }
        pos := pos + 1;
        r := Ok(Some(p.value));
      } else {
        r := Ok(None);
      }
    }

    /** `Attribute::parse_outer`. */
    method ParseOuterAttrs() returns (attrs: seq<string>)
      requires Valid()
      modifies this
      ensures Valid()
      ensures (attrs, pos) == AttrsAt(tokens, old(pos))
    {
      attrs := [];
      ghost var start := pos;
      assert [] + AttrsAt(tokens, pos).0 == AttrsAt(tokens, pos).0;
      while pos < |tokens| && tokens[pos].OuterAttr?
        invariant start <= pos <= |tokens|
        invariant AttrsAt(tokens, start).0 == attrs + AttrsAt(tokens, pos).0
        invariant AttrsAt(tokens, start).1 == AttrsAt(tokens, pos).1
        decreases |tokens| - pos
      {
        AttrsAtStep(tokens, pos, attrs);
        attrs := attrs + [tokens[pos].attr];
        pos := pos + 1;
      }
      assert AttrsAt(tokens, pos) == ([], pos);
      assert attrs + [] == attrs;
    }

    /** `Visibility::parse`. */
    method ParseVisibility() returns (vis: Visibility)
      requires Valid()
      modifies this
      ensures Valid()
      ensures (vis, pos) == VisAt(tokens, old(pos))
    {
      if pos < |tokens| && tokens[pos].VisTok? {
        vis := Visible(tokens[pos].vis);
        pos := pos + 1;
      } else {
        vis := Inherited;
      }
    }

    /** `Ident::parse`. */
    method ParseIdent() returns (r: Result<string, Diag>)
      requires Valid()
      modifies this
      ensures Valid()
      ensures var spec := IdentAt(tokens, old(pos));
              && (r.Ok? <==> spec.Ok?)
              && (r.Ok? ==> r.value == spec.value.0 && pos == spec.value.1)
              && (r.Err? ==> r.error == spec.error)
    {
      if pos < |tokens| && tokens[pos].IdentTok? {
        r := Ok(tokens[pos].name);
        pos := pos + 1;
      } else {
        r := Err(ParseError("identifier"));
      }
    }

    /** `DeclArgs::parse`. */
    method ParseDeclArgs() returns (r: Result<DeclArgs, Diag>)
      requires Valid()
      modifies this
      ensures Valid()
      ensures var spec := DeclArgsAt(tokens, old(pos));
              && (r.Ok? <==> spec.Ok?)
              && (r.Ok? ==> r.value == spec.value.0 && pos == spec.value.1)
              && (r.Err? ==> r.error == spec.error)
    {
      var crate_ := ParseCratePath();
      if crate_.Err? {
        return Err(crate_.error);
      }
      if crate_.value.Some? {
        if pos == |tokens| || tokens[pos] != CommaTok {
          return Err(ParseError("`,`"));
        }
        pos := pos + 1;
      }
      var attrs := ParseOuterAttrs();
      var vis := ParseVisibility();
      var ident := ParseIdent();
      if ident.Err? {
        return Err(ident.error);
      }
      var externTrait := if crate_.value.Some? then crate_.value.value else DefaultCratePath;
      r := Ok(DeclArgs(externTrait, Proxy(attrs, vis, ident.value)));
    }

    /** `ImplArgs::parse`. */
    method ParseImplArgs() returns (r: Result<ImplArgs, Diag>)
      requires Valid()
      modifies this
      ensures Valid()
      ensures var spec := ImplArgsAt(tokens, old(pos));
              && (r.Ok? <==> spec.Ok?)
              && (r.Ok? ==> r.value == spec.value.0 && pos == spec.value.1)
              && (r.Err? ==> r.error == spec.error)
    {
      var crate_ := ParseCratePath();
      if crate_.Err? {
        return Err(crate_.error);
      }
      r := Ok(ImplArgs(if crate_.value.Some? then crate_.value.value else DefaultCratePath));
    }
  }

  /** `syn::parse::<DeclArgs>(args)`. */
  method ParseDecl(toks: seq<Token>) returns (r: Result<DeclArgs, Diag>)
    ensures r == DeclArgsOf(toks)
  {
    var input := new ParseStream(toks);
    r := input.ParseDeclArgs();
    if r.Ok? && !input.IsEmpty() {
      r := Err(UnexpectedToken);
    }
  }

  /** `parse_macro_input!(args as ImplArgs)`. */
  method ParseImpl(toks: seq<Token>) returns (r: Result<ImplArgs, Diag>)
    ensures r == ImplArgsOf(toks)
  {
    var input := new ParseStream(toks);
    r := input.ParseImplArgs();
    if r.Ok? && !input.IsEmpty() {
      r := Err(UnexpectedToken);
    }
  }

  // ----- Printing arguments back, and the round trips -----

  /** The tokens of `crate = path`, when a path is given. */
  function CrateTokens(explicit: Option<Path>): seq<Token>
  {
    if explicit.Some? then [CrateKw, EqTok, PathTok(explicit.value)] else []
  }

  function AttrTokens(attrs: seq<string>): (ts: seq<Token>)
    ensures |ts| == |attrs| && forall i :: 0 <= i < |ts| ==> ts[i] == OuterAttr(attrs[i])
  {
    seq(|attrs|, i requires 0 <= i < |attrs| => OuterAttr(attrs[i]))
  }

  function VisTokens(vis: Visibility): seq<Token>
  {
    if vis.Visible? then [VisTok(vis.text)] else []
  }

  /** The proxy written out: its attributes, its visibility, then its name. */
  function ProxyTokens(proxy: Proxy): seq<Token>
  {
    AttrTokens(proxy.attrs) + VisTokens(proxy.vis) + [IdentTok(proxy.ident)]
  }

  /** The arguments of a trait's attribute, written out: `crate = path,` when given, then the proxy. */
  function PrintDecl(explicit: Option<Path>, proxy: Proxy): (ts: seq<Token>)
    ensures |ts| > 0 && ts[|ts| - 1] == IdentTok(proxy.ident)
    ensures ts[0] == CrateKw <==> explicit.Some?
  {
    (if explicit.Some? then CrateTokens(explicit) + [CommaTok] else []) + ProxyTokens(proxy)
  }

  /** The outer attributes are read back exactly, up to the first token that is not one. */
  lemma AttrsAtTokens(pre: seq<Token>, attrs: seq<string>, post: seq<Token>)
    requires post == [] || !post[0].OuterAttr?
    ensures AttrsAt(pre + AttrTokens(attrs) + post, |pre|) == (attrs, |pre| + |attrs|)
  {
    var toks := pre + AttrTokens(attrs) + post;
    var end := |pre| + |attrs|;
    var r := AttrsAt(toks, |pre|);
    assert forall i :: |pre| <= i < end ==> toks[i] == OuterAttr(attrs[i - |pre|]);
    assert end == |toks| || toks[end] == post[0];
    assert r.1 == end;
    forall j | 0 <= j < |attrs| ensures r.0[j] == attrs[j] {
      assert toks[|pre| + j] == OuterAttr(attrs[j]);
    }
    assert r.0 == attrs;
  }

  /** A proxy written out after any prefix is read back: its attributes, its visibility, then its name as the last token. */
  lemma ProxyTokensAt(pre: seq<Token>, proxy: Proxy)
    ensures var toks := pre + AttrTokens(proxy.attrs) + VisTokens(proxy.vis) + [IdentTok(proxy.ident)];
            var p3 := |pre| + |proxy.attrs|;
            var p4 := p3 + |VisTokens(proxy.vis)|;
            && AttrsAt(toks, |pre|) == (proxy.attrs, p3)
            && VisAt(toks, p3) == (proxy.vis, p4)
            && IdentAt(toks, p4) == Ok((proxy.ident, |toks|))
  {
    var post := VisTokens(proxy.vis) + [IdentTok(proxy.ident)];
    var toks := pre + AttrTokens(proxy.attrs) + VisTokens(proxy.vis) + [IdentTok(proxy.ident)];
    assert toks == pre + AttrTokens(proxy.attrs) + post;
    AttrsAtTokens(pre, proxy.attrs, post);
    var p3 := |pre| + |proxy.attrs|;
    assert |toks| == p3 + |post|;
    assert toks[p3..] == post;
    var p4 := p3 + |VisTokens(proxy.vis)|;
    assert toks[p4] == IdentTok(proxy.ident) && p4 + 1 == |toks|;
    if proxy.vis.Visible? {
      assert toks[p3] == VisTok(proxy.vis.text);
    } else {
      assert p3 == p4;
    }
  }

  /**
   * Trait arguments written out parse back to the same proxy, with the
   * given crate path or, without one, `::extern_trait`.
   */
  lemma DeclRoundTrip(explicit: Option<Path>, proxy: Proxy)
    ensures DeclArgsOf(PrintDecl(explicit, proxy))
            == Ok(DeclArgs(if explicit.Some? then explicit.value else DefaultCratePath, proxy))
  {
    var pre := if explicit.Some? then CrateTokens(explicit) + [CommaTok] else [];
    var toks := PrintDecl(explicit, proxy);
    assert toks == pre + AttrTokens(proxy.attrs) + VisTokens(proxy.vis) + [IdentTok(proxy.ident)];
    ProxyTokensAt(pre, proxy);
    if explicit.Some? {
      assert toks[..4] == [CrateKw, EqTok, PathTok(explicit.value), CommaTok];
      assert CratePathAt(toks, 0) == Ok((explicit, 3));
    } else {
      assert CratePathAt(toks, 0) == Ok((None, 0));
    }
  }

  /** Impl arguments written out parse back to the given crate path, or to `::extern_trait`. */
  lemma ImplRoundTrip(explicit: Option<Path>)
    ensures ImplArgsOf(CrateTokens(explicit))
            == Ok(ImplArgs(if explicit.Some? then explicit.value else DefaultCratePath))
  {
  }

  /** Without a crate path the trait arguments start at the proxy; a comma there is unexpected. */
  lemma DeclCommaOnlyAfterCrate(p: Path, ident: string)
    ensures DeclArgsOf([CrateKw, EqTok, PathTok(p), IdentTok(ident)]) == Err(ParseError("`,`"))
    ensures DeclArgsOf([CommaTok, IdentTok(ident)]) == Err(ParseError("identifier"))
    ensures DeclArgsOf([CrateKw, EqTok, PathTok(p)]) == Err(ParseError("`,`"))
  {
  }

  /** Impl arguments are only a crate path: a proxy name there is an unexpected token. */
  lemma ImplArgsOnlyCrate(p: Path, ident: string)
    ensures ImplArgsOf([IdentTok(ident)]) == Err(UnexpectedToken)
    ensures ImplArgsOf([CrateKw, EqTok, PathTok(p), CommaTok, IdentTok(ident)]) == Err(UnexpectedToken)
    ensures ImplArgsOf([CrateKw, IdentTok(ident)]) == Err(ParseError("`=`"))
  {
  }

  /**
   * The accepted impl arguments are exactly nothing and `crate = path`; none
   * of them is also accepted as trait arguments.
   */
  lemma {:induction false} ImplArgsShape(toks: seq<Token>)
    ensures ImplArgsOf(toks).Ok? <==>
              toks == [] || (|toks| == 3 && toks[0] == CrateKw && toks[1] == EqTok && PathAt(toks, 2).Ok?)
    ensures ImplArgsOf(toks).Ok? ==> DeclArgsOf(toks).Err?
  {
    if ImplArgsOf(toks).Ok? && toks != [] {
      assert CratePathAt(toks, 0).value.0.Some?;
    }
  }

  /**
   * Conversely, accepted trait arguments are printed ones: an optional
   * `crate = path,`, then the proxy's attributes, visibility and name and
   * nothing else.
   */
  lemma DeclArgsShape(toks: seq<Token>)
    ensures DeclArgsOf(toks).Ok? ==> |toks| > 0
    ensures DeclArgsOf(toks).Ok? && toks[0] == CrateKw ==>
              && |toks| >= 4 && toks[1] == EqTok && PathAt(toks, 2) == Ok(DeclArgsOf(toks).value.externTrait)
              && toks[3] == CommaTok && toks[4..] == ProxyTokens(DeclArgsOf(toks).value.proxy)
    ensures DeclArgsOf(toks).Ok? && toks[0] != CrateKw ==>
              DeclArgsOf(toks).value.externTrait == DefaultCratePath && toks == ProxyTokens(DeclArgsOf(toks).value.proxy)
  {
    if DeclArgsOf(toks).Ok? {
      var (crate_, p1) := CratePathAt(toks, 0).value;
      var p2 := if crate_.Some? then p1 + 1 else p1;
      ProxyTokensBack(toks, p2);
      assert toks[p2..] == ProxyTokens(DeclArgsOf(toks).value.proxy);
    }
  }

  /** A proxy read from `p2` to the end of the input is exactly its printed tokens. */
  lemma ProxyTokensBack(toks: seq<Token>, p2: nat)
    requires p2 <= |toks|
    requires IdentAt(toks, VisAt(toks, AttrsAt(toks, p2).1).1).Ok?
    requires IdentAt(toks, VisAt(toks, AttrsAt(toks, p2).1).1).value.1 == |toks|
    ensures toks[p2..] == ProxyTokens(Proxy(AttrsAt(toks, p2).0, VisAt(toks, AttrsAt(toks, p2).1).0,
                                            IdentAt(toks, VisAt(toks, AttrsAt(toks, p2).1).1).value.0))
  {
    var (attrs, p3) := AttrsAt(toks, p2);
    var (vis, p4) := VisAt(toks, p3);
    var tail := ProxyTokens(Proxy(attrs, vis, IdentAt(toks, p4).value.0));
    assert |toks[p2..]| == |tail|;
    forall i | 0 <= i < |tail| ensures toks[p2..][i] == tail[i] {
      if i < |attrs| {
        assert toks[p2 + i] == OuterAttr(attrs[i]);
      }
    }
  }

  // ----- `Proxy::expand` -----

  /** The proxy struct: its attributes, `#[repr(transparent)]`, and one field of type `Repr`. */
  datatype ProxyStruct = ProxyStruct(attrs: seq<string>, vis: Visibility, ident: string, field: Ty)

  /** `unsafe impl Trait for Type {}`. */
  datatype MarkerImpl = MarkerImpl(isUnsafe: bool, traitPath: Path, selfTy: Ty)

  const ReprTransparent: string := "#[repr(transparent)]"

  /**
   * `Proxy::expand`: the proxy is a transparent wrapper of
   * `extern_trait::Repr`, so it has `Repr`'s layout, and it is declared to
   * travel in integer registers with no condition attached.
   */
  function ExpandProxy(proxy: Proxy, externTrait: Path): (r: (ProxyStruct, MarkerImpl))
    ensures r.0.attrs == proxy.attrs + [ReprTransparent]
    ensures r.0.vis == proxy.vis && r.0.ident == proxy.ident
    ensures r.0.field == TPath(None, ImplCodegen.ReprPath(externTrait))
    ensures r.1.isUnsafe && r.1.traitPath == Join(externTrait, "IntRegRepr")
    ensures r.1.selfTy == PathTy(r.0.ident)
  {
    (ProxyStruct(proxy.attrs + [ReprTransparent], proxy.vis, proxy.ident, TPath(None, ImplCodegen.ReprPath(externTrait))),
     MarkerImpl(true, Join(externTrait, "IntRegRepr"), PathTy(proxy.ident)))
  }
}

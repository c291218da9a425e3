/*
 * impl/src/imp.rs: `#[extern_trait]` on the one implementation of a trait.
 * The impl block is checked, its `#[extern_trait(..)]` attributes are
 * stripped, a compile-time size check is added, and the macro the trait's
 * declaration exported under the trait's own name is invoked with the trait
 * path and the implementation type.
 */
module ImplImp {
  import opened SynModel
  import ImplAttr
  import ImplCodegen

  /** `syn::ItemImpl`, reduced to what `expand` looks at. */
  datatype ItemImpl = ItemImpl(
    attrs: seq<ImplAttr.Attribute>,
    genericParams: seq<string>,
    hasWhereClause: bool,
    trait_: Option<Path>,      // `impl Trait for Ty`; `None` for an inherent impl
    selfTy: Ty,
    items: seq<string>)

  /**
   * `const _: () = { assert!(size_of::<ty>() <= size_of::<Repr>() * factor, ..) };`:
   * evaluated at compile time, so an implementation type that does not fit
   * fails the build with `stringify!(ty)` followed by `messageSuffix`.
   */
  datatype SizeAssertion = SizeAssertion(ty: Ty, repr: Path, factor: nat, messageSuffix: string)

  /** `path!(path: ty)`. */
  datatype MacroCall = MacroCall(macroPath: Path, traitArg: Path, tyArg: Ty)

  datatype Expansion = Expansion(item: ItemImpl, assertion: SizeAssertion, call: MacroCall)

  const TooLarge: string := " is too large to be used with #[extern_trait]"

  /** `expand`. Errors are a list because the attribute's errors are combined into one. */
  function Expand(input: ItemImpl): (r: Result<Expansion, seq<Diag>>)
    // rejection order: not a trait impl, generics, where clause, then the attributes
    ensures input.trait_.None? ==> r == Err([ExpectedTraitImpl])
    ensures input.trait_.Some? && input.genericParams != [] ==> r == Err([ImplGenerics])
    ensures input.trait_.Some? && input.genericParams == [] && input.hasWhereClause ==> r == Err([ImplWhereClause])
    ensures input.trait_.Some? && input.genericParams == [] && !input.hasWhereClause && ImplAttr.Resolve(input.attrs).Err? ==>
              r == Err(ImplAttr.Resolve(input.attrs).error)
    ensures r.Ok? <==>
              input.trait_.Some? && input.genericParams == [] && !input.hasWhereClause && ImplAttr.Resolve(input.attrs).Ok?
    // on success: the same impl minus its `extern_trait` attributes, checked against the resolved crate's `Repr`
    ensures r.Ok? ==>
              && r.value.item == input.(attrs := ImplAttr.Filter(input.attrs))
              && r.value.assertion.ty == input.selfTy && r.value.assertion.factor == 2
              && r.value.assertion.repr == ImplCodegen.ReprPath(ImplAttr.Resolve(input.attrs).value)
              && r.value.assertion.messageSuffix == TooLarge
              && r.value.call == MacroCall(input.trait_.value, input.trait_.value, input.selfTy)
  {
    if input.trait_.None? then Err([ExpectedTraitImpl])
    else if input.genericParams != [] then Err([ImplGenerics])
    else if input.hasWhereClause then Err([ImplWhereClause])
    else
      match ImplAttr.Resolve(input.attrs)
      case Err(es) => Err(es)
      case Ok(externTrait) =>
        var t := input.trait_.value;
        Ok(Expansion(
          input.(attrs := ImplAttr.Filter(input.attrs)),
          SizeAssertion(input.selfTy, ImplCodegen.ReprPath(externTrait), 2, TooLarge),
          MacroCall(t, t, input.selfTy)))
  }

  /**
   * The re-emitted impl carries no `extern_trait` attribute any more, and
   * every other attribute is still there, in its order.
   */
  lemma ExpandedItemIsClean(input: ItemImpl)
    requires Expand(input).Ok?
    ensures var attrs := Expand(input).value.item.attrs;
            && (forall i :: 0 <= i < |attrs| ==> !ImplAttr.IsExternTraitAttr(attrs[i]))
            && ImplAttr.Filter(attrs) == attrs
            && ImplAttr.Resolve(attrs) == Ok(DefaultCratePath)
  {
    ImplAttr.NoExternTraitAttrs(Expand(input).value.item.attrs);
  }

  /** With no attribute the size is checked against `::extern_trait::Repr`; with `crate = P`, against `P::Repr`. */
  lemma ExpandCratePath(input: ItemImpl, p: Path)
    requires input.trait_.Some? && input.genericParams == [] && !input.hasWhereClause
    requires forall i :: 0 <= i < |input.attrs| ==> !ImplAttr.IsExternTraitAttr(input.attrs[i])
    ensures Expand(input).Ok? && Expand(input).value.assertion.repr == ImplCodegen.ReprPath(DefaultCratePath)
    ensures var attrs := input.attrs + [ImplAttr.Attribute(IdentPath("extern_trait"), ImplAttr.Entries([ImplAttr.CrateEntry(Some(p))]))];
            && Expand(input.(attrs := attrs)).Ok?
            && Expand(input.(attrs := attrs)).value.assertion.repr == ImplCodegen.ReprPath(p)
            && Expand(input.(attrs := attrs)).value.item == input
  {
    ImplAttr.NoExternTraitAttrs(input.attrs);
    ImplAttr.SingleCrate(input.attrs, p);
  }
}

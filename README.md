# extern-trait, modelled in Dafny

`#[extern_trait]` is a Rust attribute macro. It lets a trait have one implementation, defined in one crate and called from another, bridged by link-time symbols:

- On a trait declaration, it emits an opaque proxy type. The proxy implements the trait by calling imported symbols, one per method.
- It also emits a `macro_rules!` macro. That macro, invoked by the implementing crate, exports one definition per method under the same symbol names.
- On the implementing `impl` block, the attribute checks the block, asserts that the implementation type fits in two `Repr` words, and invokes that macro.

The repository carries the macro in three generations. Each generation is its own module here:

| generation | files | modules |
|---|---|---|
| oldest | `src/decl.rs`, `src/ty.rs` | `OldDecl` |
| middle | `src/decl/*` | `DeclSig`, `DeclSym`, `DeclExpand` |
| newest | `impl/src/*` | `ImplSig`, `ImplCodegen`, `ImplSupertraits`, `ImplAttr`, `ImplArgs`, `ImplImp`, `ImplDecl`, `ImplEntry` |

Shared across generations:

- `SynModel` is the abstract syntax the macro works on: types, paths, signatures and arguments. It also holds `Diag`, every diagnostic. The macro's own messages are given with their exact text; messages that syn produces (`ParseError`, `UnexpectedToken`) carry the wording of the syn version the macro builds against, which is not part of this model.
- `SelfShape` holds `contains_self`, `self_kind` and `to_type` / `into_type_for`. These are the same in all three generations, so they are defined once.
- `ExternSafe` is the eligibility table of `src/impls.rs`. It is a predicate over an abstract Rust type and the compilation target.
- `ProxyRuntime` models the run-time behaviour of the generated proxy:
  - a `Proxy` class holding the value of the one implementation type;
  - a type check guarding `from_impl`, `into_impl`, `downcast_ref` and `downcast_mut`;
  - a `Drop` that runs the implementation's destructor once.

Generated code is modelled as records rather than tokens:

- A consumer stub (`ProxyFn`, or `Stub` in the oldest generation) is a function whose body calls an imported symbol.
- A producer definition (`ExportFn`, or `Definition`) is a function exported under that symbol that calls the implementation.

The main properties proved:

- Every stub has a definition under the same name with matching parameter types (`HalvesAgree`, `ItemsPairUp`).
- Errors are per item (`ErrorsAreLocal`).
- The diagnostic order of each gate is exact (`TryNew`, `ExpandSpec`, `ImplImp.Expand`).
- Parsing the arguments inverts printing them (`DeclRoundTrip`, `ImplRoundTrip`).
- Classifying a signature inverts rendering it (`RenderRoundTrip`).
- The `crate = path` attribute resolves as the source does (`ImplAttr`).

The imperative parts of the source are imperative here:

- the accumulating loops in each `expand`;
- the `replace_map` loop;
- the `attrs.retain` pass;
- the parse cursor, as class `ImplArgs.ParseStream`;
- the in-place renaming of patterns in `src/decl.rs`;
- the proxy object.

Each is proved equal to a specification function, and the properties are proved about that function.

## Model

| member | source | states |
|---|---|---|
| SynModel.Collect | impl/src/decl/sig.rs:231-252 | `collect::<Result<Vec<_>>>()`: Ok exactly when every element maps to Ok, with the mapped values in order; otherwise the error of the first failing element |
| SynModel.InputTypes | impl/src/decl/sig.rs:234-237 | the type of each input, receiver or typed, in order |
| SynModel.Join | impl/src/args.rs:76 | `#extern_trait::IntRegRepr`: the crate path with one more plain segment at the end, leading `::` kept |
| SynModel.Decimal | impl/src/decl/sig.rs:282 | the decimal digits of an index: non-empty, all digits, more than one digit exactly from 10 on |
| SynModel.DecimalInjective | impl/src/decl/sig.rs:282 | distinct indices print differently |
| SynModel.PositionalName | impl/src/decl/sig.rs:282 | `_i` starts with `_` and has at least one digit |
| SynModel.PositionalNameInjective | impl/src/decl/sig.rs:282 | `_i` and `_j` are equal only when i = j |
| SelfShape.AnyContainsSelf | impl/src/decl/sig.rs:57-125 | a list of types (tuple members, fn inputs) contains `Self` iff one of them does |
| SelfShape.SegmentsContainSelf | impl/src/decl/sig.rs:57-125 | a path contains `Self` iff some segment is named `Self` or has `Self` in its arguments |
| SelfShape.GenericArgsContainSelf | impl/src/decl/sig.rs:57-125 | angle-bracketed arguments contain `Self` iff one of them does |
| SelfShape.SelfKindOf | impl/src/decl/sig.rs:127-167 | `Some` exactly for `Self`, `*const/*mut Self` and `&'a [mut] Self`; `Value` exactly for `Self`; the kind rebuilds the type around `Self`; the oldest generation's copy in src/ty.rs:125-165 classifies the same way |
| SelfShape.ContainsSelfCases | impl/src/decl/sig.rs:56-124 | `Self` itself contains `Self`; a verbatim type never does |
| SelfShape.TupleContainsSelf | impl/src/decl/sig.rs:115-122 | a tuple contains `Self` iff one of its elements does |
| SelfShape.ArgsContainSelfCases | impl/src/decl/sig.rs:84-107 | no arguments: no `Self`; angle-bracketed: iff one argument does; parenthesized: iff an input or the output does |
| SelfShape.ReturnContainsSelfCases | impl/src/decl/sig.rs:65-70 | a default return has no `Self`; `-> Self` has |
| SelfShape.GenericArgContainsSelfCases | impl/src/decl/sig.rs:88-93 | only type arguments are searched: lifetimes, bindings and constants never contain `Self`; the argument `Self` does |
| SelfShape.SelfKindToType | impl/src/decl/sig.rs:24-48 | `Self` by value gives the substituted type itself, and only it does; a pointer or reference wraps it exactly once |
| SelfShape.Classify | impl/src/decl/sig.rs:238-266 | a type is accepted iff it has no `Self` or has one of the three shapes; it is `Typed` iff it has no `Self`; otherwise "too complex `Self` type"; putting `Self` back gives the original type |
| SelfShape.ToTypeRoundTrip | impl/src/decl/sig.rs:24-48 | `self_kind(to_type(k, Self)) == Some(k)`, and the rebuilt type contains `Self`; the same holds for `into_type_for` in src/ty.rs:22-46 |
| SelfShape.SelfKindImpliesContainsSelf | src/ty.rs:55-165 | whenever `self_kind` is `Some`, `contains_self` holds |
| SelfShape.MaybeSelfToType | impl/src/decl/sig.rs:177-186 | `Typed` ignores the substituted type; a `Self` shape gives back the substituted type itself iff it is `Self` by value; `is_self_value` iff `Self_(Value)` |
| SelfShape.TooComplexPaths | impl/src/decl/sig.rs:127-167 | the paths `Self::X` and `Vec<Self>` are too complex |
| SelfShape.TooComplexWrappers | impl/src/decl/sig.rs:127-167 | `&&Self`, `(Self)` and `(x, Self)` are too complex |
| SelfShape.ContainsSelfBlindSpots | impl/src/decl/sig.rs:57-125 | `Self` under an associated-type binding or in a verbatim type is not seen |
| DeclSig.ClassifyInput | src/decl/sig.rs:232-252 | an input is rejected as by-value `Self` iff it is exactly `Self`; otherwise it is classified as in every generation |
| DeclSig.ForeignAbi | src/decl/sig.rs:204-205 | no ABI and `extern "Rust"` are not foreign; a bare `extern` and `extern "C"` are |
| DeclSig.TryNew | src/decl/sig.rs:191-276 | rejects in order const, async, non-`"Rust"` ABI, generic, variadic; then only by-value or too-complex `Self`; where clauses are not checked; accepts exactly when the header passes, every input classifies and the output does; on success the inputs and output are the classified types and no input is `Self` by value |
| DeclSig.TryNewFirstFailingInput | src/decl/sig.rs:225-253 | past the header, when some input fails, the error reported is that of the first failing input |
| DeclSig.TryNewOutputAfterInputs | src/decl/sig.rs:225-268 | past the header with every input accepted, an output that fails to classify gives "too complex `Self`" |
| DeclSig.ArgNames | src/decl/sig.rs:278-283 | one name per input: `self` iff the input is `Self_`, at any index; `_i` for a typed input |
| DeclSig.ArgNamesDuplicateSelf | src/decl/sig.rs:278-283 | `fn eq(&self, other: &Self)` is accepted and both parameters are named `self` |
| DeclSig.ArgNamesNoSelf | src/decl/sig.rs:285-290 | exactly `_0 .. _{n-1}`, pairwise distinct |
| DeclSig.ArgTypes | src/decl/sig.rs:292-296 | same length; typed entries unchanged; `Self_` entries become the kind applied to the given type |
| DeclSig.ReturnType | src/decl/sig.rs:298-303 | default iff there is no output; otherwise the output applied to the given type |
| DeclSig.ArgTypesOfSelf | src/decl/sig.rs:174-180 | with `Self` substituted back, the verified inputs and output are the declared ones |
| DeclSig.AbiExamples | src/decl/sig.rs:204-211 | `extern "Rust"` is accepted like no ABI; `extern` without a name and `extern "C"` are rejected |
| DeclSig.WhereClauseIgnored | src/decl/sig.rs:191-223 | a where clause changes nothing |
| DeclSig.ByValueSelf | src/decl/sig.rs:233-241 | a by-value `self` receiver is rejected, and a `-> Self` return is accepted |
| ImplSig.TryNew | impl/src/decl/sig.rs:199-276 | rejects in order const, async, generic, where clause, variadic; any ABI passes; then too-complex `Self`; by-value `Self` is accepted; on success the header fields are copied and the inputs are the classified types in order |
| ImplSig.WellFormed | impl/src/decl/sig.rs:238-266 | in a well-formed verified signature every entry, with `Self` put back, classifies to itself |
| ImplSig.IsReturnSelfValue | impl/src/decl/mod.rs:231-234 | true iff the verified output is `Self` by value, whose type is whatever stands for `Self` |
| ImplSig.ArgNames | impl/src/decl/sig.rs:278-284 | `self` iff index 0 and that input is `Self_`; `_i` everywhere else |
| ImplSig.ArgNamesDistinct | impl/src/decl/sig.rs:278-284 | the names are pairwise distinct |
| ImplSig.Render | impl/src/decl/sig.rs:287-308 | the printed signature has the same header, one input per verified input, with `Self` substituted back |
| ImplSig.ClassifyToType | impl/src/decl/sig.rs:177-182 | classifying a verified input after substituting `Self` back gives the same input |
| ImplSig.RenderRoundTrip | impl/src/decl/sig.rs:287-308 | `try_new` of the printed signature gives the verified signature back |
| ImplSig.ByValueSelfAccepted | impl/src/decl/sig.rs:238-241 | `fn f(self) -> Self` is accepted |
| DeclSym.VarOr | src/decl/sym.rs:39-41 | the variable's value, or `<unknown>` when unset |
| DeclSym.New | src/decl/sym.rs:36-47 | version `v0`, empty name, the trait name, the package fields or `<unknown>`, the manifest path hashed (the empty string when unset), the call site hashed |
| DeclSym.WithName | src/decl/sym.rs:49-52 | only the name changes |
| DeclSym.WithNameLastWins | src/decl/sym.rs:49-52 | the last `with_name` wins |
| DeclSym.WithNameInjective | src/decl/sym.rs:49-52 | two names give the same symbol iff they are equal |
| DeclSym.NewDeterministic | src/decl/sym.rs:16-21 | the same call site gives the same symbol; call sites that hash differently give different symbols |
| ImplCodegen.GenerateProxyImpl | impl/src/decl/mod.rs:189-215 | the stub keeps unsafety, ABI and ident, imports the export name, takes each input with the proxy for `Self`, uses distinct names with `self` only first, and passes its arguments in order |
| ImplCodegen.GenerateMacroRules | impl/src/decl/mod.rs:217-254 | the definition is exported under the same name with parameters `_i` of the declared types with `$ty` for `Self`; a by-value `Self` result is repacked with `into_repr` and returns `Repr`, other results are unchanged |
| ImplCodegen.HalvesAgree | impl/src/decl/mod.rs:189-254 | the stub and the definition share the symbol and arity; typed parameters have the same types; `Self` positions differ only by proxy versus `$ty` |
| ImplCodegen.ReprPath | impl/src/decl/mod.rs:234 | `Repr` appended to the configured crate path, same root |
| ImplCodegen.IntoReprPath | impl/src/decl/mod.rs:233 | `ExternSafe::into_repr` appended to the configured crate path, same root |
| ImplSupertraits.Placeholder | impl/src/decl/supertraits.rs:103 | `____i` starts with four underscores |
| ImplSupertraits.PlaceholderInjective | impl/src/decl/supertraits.rs:103 | distinct indices give distinct placeholders |
| ImplSupertraits.Traits | impl/src/decl/supertraits.rs:48-71 | the catalog has ten entries |
| ImplSupertraits.CatalogShape | impl/src/decl/supertraits.rs:48-71 | only Send and Sync are unsafe; the five markers have no methods and the rest one; only AsRef and AsMut take a generic argument |
| ImplSupertraits.CatalogNames | impl/src/decl/supertraits.rs:48-71 | the names, in order, are Send, Sync, Sized, Unpin, Copy, Debug, Clone, Default, AsRef, AsMut |
| ImplSupertraits.FmtTypesSelfFree | impl/src/decl/supertraits.rs:55-57 | the `fmt` parameter and result types contain no `Self` |
| ImplSupertraits.FormatterSelfFree | impl/src/decl/supertraits.rs:55-57 | `&mut ::core::fmt::Formatter<'_>` has no `Self`: its lifetime argument is not searched |
| ImplSupertraits.FmtResultSelfFree | impl/src/decl/supertraits.rs:55-57 | `::core::fmt::Result` has no `Self` |
| ImplSupertraits.FmtVerifies | impl/src/decl/supertraits.rs:55-57 | the `fmt` template verifies to the catalog's signature |
| ImplSupertraits.CloneDefaultVerify | impl/src/decl/supertraits.rs:58-63 | the `clone` and `default` templates verify to the catalog's signatures |
| ImplSupertraits.AsRefAsMutVerify | impl/src/decl/supertraits.rs:64-69 | the `as_ref` and `as_mut` templates verify, with the placeholder as a plain type |
| ImplSupertraits.Find | impl/src/decl/supertraits.rs:82-92 | `None` iff no entry has the name and arity; otherwise an entry that does |
| ImplSupertraits.MatchesArity | impl/src/decl/supertraits.rs:84-91 | a segment matches an entry iff it has the entry's name, no parenthesized arguments, and as many angle-bracketed arguments (none for a bare name) as the entry's arity |
| ImplSupertraits.FindByName | impl/src/decl/supertraits.rs:84-91 | for a catalog name, found iff the arguments match its arity: none for arity 0, n angle-bracketed for arity n, parenthesised never |
| ImplSupertraits.LookupArity | impl/src/decl/supertraits.rs:82-92 | `Send<>` matches; a known name with the wrong arity (`AsRef`, `AsRef<A, B>`, `Debug<A>`) does not |
| ImplSupertraits.LookupUnknown | impl/src/decl/supertraits.rs:82-92 | parenthesized arguments (`Fn(..)`) and names outside the catalog (`PartialEq`) do not match |
| ImplSupertraits.BuildReplaceMap | impl/src/decl/supertraits.rs:100-105 | the insert loop builds the placeholder map |
| ImplSupertraits.ReplaceMap | impl/src/decl/supertraits.rs:100-105 | `____i` maps to the i-th angle-bracketed argument; no other keys; empty for other argument forms |
| ImplSupertraits.ReplaceArgs | impl/src/decl/supertraits.rs:100-105 | after `n` insertions the keys are exactly `____0 .. ____{n-1}`, each mapped to its argument |
| ImplSupertraits.SubstTyShape | impl/src/decl/supertraits.rs:107-115 | a placeholder becomes its argument, and fails iff that argument is not a type; verbatim tokens are untouched; elsewhere the outer shape (pointer, reference, tuple) is kept |
| ImplSupertraits.SubstTys | impl/src/decl/supertraits.rs:111-114 | a substituted list keeps its length |
| ImplSupertraits.SubstEmpty | impl/src/decl/supertraits.rs:107-117 | substituting nothing leaves every type unchanged |
| ImplSupertraits.SubstSignature | impl/src/decl/supertraits.rs:111-115 | a substituted signature keeps its name and arity |
| ImplSupertraits.Transform | impl/src/decl/supertraits.rs:107-117 | re-verification after substitution either fails, which is the macro's panic, or keeps name, unsafety and arity |
| ImplSupertraits.TransformEmpty | impl/src/decl/supertraits.rs:107-117 | without arguments the template comes back unchanged |
| ImplSupertraits.BuildRelay | impl/src/decl/supertraits.rs:119-145 | one stub and one definition per method, both named `with_name("<segment>::<method>")`; `unsafe impl` iff the entry is unsafe |
| ImplSupertraits.RelayName | impl/src/decl/supertraits.rs:120-124 | `<segment>::<method>`: the printed segment, then `::`, then the method name |
| ImplSupertraits.GenerateImpl | impl/src/decl/supertraits.rs:73-146 | not relayed iff the lookup fails; a panic only for a catalog entry; otherwise the relay of the transformed methods |
| ImplSupertraits.RelayFor | impl/src/decl/supertraits.rs:94-146 | for a found entry: panics iff some method fails to transform; otherwise one stub and one definition per method, linked under `<trait>::<method>`, `unsafe` as the entry is |
| ImplSupertraits.MarkerRelay | impl/src/decl/supertraits.rs:94-98 | the five markers give an empty impl, `unsafe` for Send and Sync only |
| ImplSupertraits.PlainRelay | impl/src/decl/supertraits.rs:107-134 | Debug, Clone and Default relay their one method unchanged, named `<trait>::<method>` |
| ImplSupertraits.PlainEntry | impl/src/decl/supertraits.rs:55-63 | Debug, Clone and Default are safe with one well-formed method |
| ImplSupertraits.ForwardingRelay | impl/src/decl/supertraits.rs:100-134 | `AsRef<A>` / `AsMut<A>` panic iff `A` is not a type, is a bound list with a top-level `+` (which cannot follow `&` when re-parsed), or mentions `Self` other than as `Self`; otherwise they relay `&A` / `&mut A` |
| ImplSupertraits.DynBoundsPanic | impl/src/decl/supertraits.rs:107-115 | `AsRef<dyn X + Send>` panics: `-> &dyn X + Send` does not re-parse |
| ImplSupertraits.PlusBoundsExamples | impl/src/decl/supertraits.rs:111-115 | `dyn X + Send` has a top-level `+`, `dyn X` has none |
| ImplSupertraits.PlusBoundsNested | impl/src/decl/supertraits.rs:111-115 | a `+` inside parentheses, or after `->`, is not at the top level |
| ImplSupertraits.ForwardingEntry | impl/src/decl/supertraits.rs:64-69 | AsRef and AsMut are safe with one method returning a reference to the placeholder |
| ImplSupertraits.ReplaceMapOne | impl/src/decl/supertraits.rs:100-105 | one argument gives the map `{____0: A}` |
| ImplSupertraits.ForwardingTransform | impl/src/decl/supertraits.rs:107-117 | substituting `A` in `as_ref` / `as_mut` fails exactly for a non-type, a top-level bound list, or a too-complex `A` |
| ImplSupertraits.ForwardingSubst | impl/src/decl/supertraits.rs:111-115 | the substitution rewrites only the return type `&____0`, and fails when the argument is not a type or is a top-level bound list |
| ImplSupertraits.ForwardingVerify | impl/src/decl/supertraits.rs:116 | `try_new` accepts `fn as_ref(&self) -> &T` iff `T` is free of `Self` or is `Self`, which becomes `&Self` |
| ImplAttr.ParseEntries | impl/src/attr.rs:15-26 | one attribute's entries: the first error stops the parse; a second `crate` is a duplicate; another key is unsupported; a path already found is kept |
| ImplAttr.ExternTraitAttrExact | impl/src/attr.rs:12 | exactly the bare path `extern_trait`, without leading `::` or arguments |
| ImplAttr.Step | impl/src/attr.rs:11-33 | one attribute adds at most one error at the end and never loses a path |
| ImplAttr.Fold | impl/src/attr.rs:11-33 | at most one error per attribute; a path or an error is only ever found when some attribute is `extern_trait` |
| ImplAttr.Finish | impl/src/attr.rs:35-38 | Err iff some attribute failed, with all the errors; otherwise the path, or `::extern_trait` |
| ImplAttr.Resolve | impl/src/attr.rs:7-39 | a failure carries between one error and one per attribute; without `extern_trait` attributes the path is `::extern_trait` |
| ImplAttr.Filter | impl/src/attr.rs:11-14 | no `extern_trait` attribute is kept, and the kept ones come from the input |
| ImplAttr.ExternTraitPath | impl/src/attr.rs:7-39 | the retain loop keeps exactly the filtered attributes and returns the resolved path |
| ImplAttr.FilterSplit | impl/src/attr.rs:11-33 | the other attributes keep their order |
| ImplAttr.NoExternTraitAttrs | impl/src/attr.rs:36 | without `extern_trait` attributes nothing is removed and the path is `::extern_trait` |
| ImplAttr.OtherAttrsIgnored | impl/src/attr.rs:12-14 | another attribute is kept and changes nothing |
| ImplAttr.ResolveNeverPanics | impl/src/attr.rs:15-38 | the attribute errors are parse errors, never the relay's panic |
| ImplAttr.ErrorsPersist | impl/src/attr.rs:27-30 | errors are combined in order and an error is never undone |
| ImplAttr.SingleCrate | impl/src/attr.rs:16-22 | one `crate = P` gives `P` and removes the attribute |
| ImplAttr.DuplicateCrateKey | impl/src/attr.rs:17-19 | a second `crate` key in the same attribute is a duplicate; the attribute is removed |
| ImplAttr.DuplicateCrateLater | impl/src/attr.rs:17-19 | a `crate` key in a later attribute is a duplicate too; both attributes are removed |
| ImplAttr.UnsupportedKey | impl/src/attr.rs:23-25 | another key is unsupported even after a path; each failing attribute adds its own error |
| ImplArgs.PathAt | impl/src/args.rs:86 | a module-style path, or "expected identifier" |
| ImplArgs.CratePathAt | impl/src/args.rs:82-91 | nothing is consumed unless the next token is `crate`; then `=` and a path are required |
| ImplArgs.AttrsAt | impl/src/args.rs:45 | consumes the maximal run of outer attributes, in order |
| ImplArgs.VisAt | impl/src/args.rs:46 | a visibility token if there is one, otherwise inherited and nothing is consumed |
| ImplArgs.IdentAt | impl/src/args.rs:47 | an identifier, or "expected identifier" |
| ImplArgs.DeclArgsAt | impl/src/args.rs:36-54 | the cursor stays within the input |
| ImplArgs.ImplArgsAt | impl/src/args.rs:58-64 | the cursor stays within the input |
| ImplArgs.WholeInput | impl/src/lib.rs:22 | a parse succeeds only if it consumes every token; otherwise "unexpected token" |
| ImplArgs.DeclArgsOf | impl/src/lib.rs:22 | accepted trait arguments end with the proxy's name; empty arguments are "expected identifier" |
| ImplArgs.ImplArgsOf | impl/src/lib.rs:26 | empty arguments give `::extern_trait`; any other accepted ones are exactly `crate = path`, giving that path |
| ImplArgs.ParseStream.ParseCratePath | impl/src/args.rs:82-91 | the cursor method returns and advances exactly as `CratePathAt` says |
| ImplArgs.ParseStream.ParseOuterAttrs | impl/src/args.rs:45 | returns and advances as `AttrsAt` says |
| ImplArgs.ParseStream.ParseVisibility | impl/src/args.rs:46 | returns and advances as `VisAt` says |
| ImplArgs.ParseStream.ParseIdent | impl/src/args.rs:47 | returns and advances as `IdentAt` says |
| ImplArgs.ParseStream.ParseDeclArgs | impl/src/args.rs:36-54 | returns and advances as `DeclArgsAt` says |
| ImplArgs.ParseStream.ParseImplArgs | impl/src/args.rs:58-64 | returns and advances as `ImplArgsAt` says |
| ImplArgs.ParseDecl | impl/src/args.rs:35-55 | parsing a whole stream as trait arguments |
| ImplArgs.ParseImpl | impl/src/args.rs:57-65 | parsing a whole stream as impl arguments |
| ImplArgs.AttrsAtTokens | impl/src/args.rs:45 | printed attributes parse back to the same list |
| ImplArgs.AttrsAtStep | impl/src/args.rs:45 | reading one more outer attribute moves it from the rest of the input to the attributes read |
| ImplArgs.PrintDecl | impl/src/args.rs:35-55 | the printed arguments end with the proxy's name and start with `crate` iff a crate path is given |
| ImplArgs.DeclRoundTrip | impl/src/args.rs:35-55 | printed trait arguments parse back to the same proxy, with the given crate path or `::extern_trait` |
| ImplArgs.DeclArgsShape | impl/src/args.rs:35-55 | accepted trait arguments are printed ones: `crate = path,` or nothing, then the proxy's attributes, visibility and name, nothing after; without `crate` the path is `::extern_trait` |
| ImplArgs.ProxyTokensBack | impl/src/args.rs:44-48 | a proxy read up to the end of the input is exactly its printed attributes, visibility and name |
| ImplArgs.ImplRoundTrip | impl/src/args.rs:57-65 | printed impl arguments parse back to the same path, or `::extern_trait` |
| ImplArgs.DeclCommaOnlyAfterCrate | impl/src/args.rs:39-42 | a comma is required after `crate = P` and refused without it |
| ImplArgs.ImplArgsOnlyCrate | impl/src/args.rs:57-64 | impl arguments refuse an identifier, anything after the path, and `crate` without `=` |
| ImplArgs.ImplArgsShape | impl/src/args.rs:57-64 | impl arguments are accepted iff empty or exactly `crate = path`, and then they are never trait arguments |
| ImplArgs.ExpandProxy | impl/src/args.rs:67-79 | the user's attributes plus `repr(transparent)`, the same visibility and name, one `Repr` field, and an unconditional `unsafe impl IntRegRepr` |
| ImplImp.Expand | impl/src/imp.rs:7-46 | rejects in order: not a trait impl, generics, where clause, attribute errors; otherwise the impl without its `extern_trait` attributes, `size_of(ty) <= 2 * size_of(Repr)` with the "too large" message, and `trait_!(trait_: ty)` |
| ImplImp.ExpandedItemIsClean | impl/src/imp.rs:26-40 | the re-emitted impl has no `extern_trait` attribute left |
| ImplImp.ExpandCratePath | impl/src/imp.rs:26-37 | the size check uses `::extern_trait::Repr`, or `P::Repr` after `crate = P` |
| ImplDecl.ItemOutput | impl/src/decl/mod.rs:35-60 | one item gives a stub named `with_name(ident)` and one definition under the same name, or an error and no definition |
| ImplDecl.ItemOutputCases | impl/src/decl/mod.rs:36-58 | a non-method item is "may only contain methods"; a method is forwarded iff its signature verifies, otherwise its error is reported |
| ImplDecl.ItemsOutput | impl/src/decl/mod.rs:35-60 | one member per item, in order; at most one definition per item |
| ImplDecl.PlainPath | impl/src/decl/mod.rs:65-71 | a plain bound is a trait bound whose path is exactly its one segment, arguments included, with no leading `::` |
| ImplDecl.PlainSegments | impl/src/decl/mod.rs:64-71 | a segment is offered iff some plain bound names it; when every bound is plain, every bound is offered in place |
| ImplDecl.PlainSegmentsAppend | impl/src/decl/mod.rs:64-71 | the offered segments of two bound lists are those of the first followed by those of the second, so the bounds' order is kept |
| ImplDecl.SupersOutput | impl/src/decl/mod.rs:62-79 | relays only plain bounds, at most one each; the only failure is the macro's panic |
| ImplDecl.ExpandSpec | impl/src/decl/mod.rs:16-105 | generics rejected first, then attribute errors; after those gates it fails iff a supertrait relay panics, and then with the macro's panic; on success: attributes stripped, `ExternSafe` appended, the proxy struct, the items' stubs, the supertrait relays, the macro content as the items' definitions followed by the relays', `drop` and `typeid` symbols, the macro name |
| ImplDecl.GenerateItems | impl/src/decl/mod.rs:32-60 | the item loop builds exactly the specified stubs and definitions |
| ImplDecl.RelaySupertraits | impl/src/decl/mod.rs:62-79 | the bound loop builds exactly the specified relays |
| ImplDecl.Expand | impl/src/decl/mod.rs:16-105 | the whole expansion equals its specification |
| ImplDecl.SupersStep | impl/src/decl/mod.rs:64-79 | one more bound: ignored if not plain or not in the catalog, aborts on panic, otherwise appends its relay and definitions |
| ImplDecl.SupersPanicPersists | impl/src/decl/mod.rs:72-77 | a panic in one relay aborts the whole expansion |
| ImplDecl.PairedUpStep | impl/src/decl/mod.rs:47-54 | appending a forwarded stub together with its definition keeps every stub paired |
| ImplDecl.ItemsPairUp | impl/src/decl/mod.rs:44-55 | every stub has a definition with the same symbol and ident, and every definition has a stub |
| ImplDecl.ErrorsAreLocal | impl/src/decl/mod.rs:35-60 | changing one item changes no other item's output |
| ImplDecl.LinkNamesDistinct | impl/src/decl/mod.rs:44 | methods with different names get different symbols |
| ImplDecl.LifecycleNameClash | impl/src/decl/mod.rs:44-89 | a method's symbol equals the drop (typeid) symbol iff the method is named `drop` (`typeid`) |
| ImplDecl.NonPlainIgnored | impl/src/decl/mod.rs:64-70 | a bound with a modifier, `for<>`, leading `::` or several segments is ignored |
| ImplEntry.Dispatch | impl/src/lib.rs:10-29 | empty arguments go to the impl path with `::extern_trait`; trait arguments iff they parse as such; otherwise impl arguments if they parse, else that parse error |
| ImplEntry.ExternTrait | impl/src/lib.rs:10-32 | the routed expansion's output, or its returned errors as compile errors; a supertrait relay's `unwrap` failure is a panic, not compile errors, since it never returns to the final conversion; only the trait path can panic; a trait with impl arguments or an impl with trait arguments does not expand |
| ImplEntry.PanicsIffRelayPanics | impl/src/lib.rs:22-30 | the macro panics iff the arguments are trait arguments, the item is a trait past the generics and attribute gates, and one of its supertrait relays panics (impl/src/decl/supertraits.rs:115) |
| ImplEntry.ResolveErrorsNonEmpty | impl/src/attr.rs:27-38 | a failed attribute resolution carries at least one error |
| ImplEntry.FailuresAreReported | impl/src/lib.rs:30 | every failure is at least one compile error or the relay's panic, never a silent empty output |
| ImplEntry.RoutingExamples | impl/src/lib.rs:11-27 | `Proxy` is a trait declaration, empty arguments and `crate = P` an impl |
| DeclExpand.ProxyImpl | src/decl/mod.rs:197-222 | the stub keeps unsafety and ident, has no ABI, names `Self_` inputs `self` and typed inputs `_i`, imports the export name and passes its arguments in order |
| DeclExpand.MacroRules | src/decl/mod.rs:224-250 | the definition is exported under the same name with parameters `_i` of the declared types with `$ty` for `Self`; no repacking |
| DeclExpand.HalvesAgree | src/decl/mod.rs:197-250 | shared symbol and arity, equal typed parameters, and a `-> Self` result returned as the proxy on one side and as `$ty` on the other |
| DeclExpand.ItemOutput | src/decl/mod.rs:50-70 | one item gives a stub and a definition under `with_name(ident)`, or an error and nothing else |
| DeclExpand.ItemOutputCases | src/decl/mod.rs:51-68 | a non-method item is refused; a method is forwarded iff it verifies, otherwise its error is reported |
| DeclExpand.ItemsOutput | src/decl/mod.rs:50-70 | one member per item, in order |
| DeclExpand.ExpandSpec | src/decl/mod.rs:15-108 | gates in order: generics, `unsafe`, `'static`; on success: the items' stubs and definitions, the plain supertrait segments offered to the relay, the macro name, and the `drop` and `typeid` symbols |
| DeclExpand.GenerateItems | src/decl/mod.rs:45-70 | the item loop builds exactly the specified stubs and definitions |
| DeclExpand.OfferSupertraits | src/decl/mod.rs:74-89 | the bound loop offers exactly the plain segments |
| DeclExpand.Expand | src/decl/mod.rs:15-108 | the whole expansion equals its specification |
| DeclExpand.ItemsPairUp | src/decl/mod.rs:59-64 | every stub has its definition and every definition its stub |
| DeclExpand.ErrorsAreLocal | src/decl/mod.rs:50-70 | changing one item changes no other item's output |
| DeclExpand.StubAndDefinitionNames | src/decl/mod.rs:207-234 | for `fn eq(&self, other: &Self)` the stub's parameters are both `self`, while the definition's are `_0, _1` |
| DeclExpand.SelfParamNames | src/decl/mod.rs:207-234 | two `Self` inputs are both named `self` in the stub and `_0, _1` in the definition |
| OldDecl.Prefix | src/decl.rs:32-44 | `__extern_trait_{pkg}_{ver}_{crate}_{trait}`, each variable independently its value when set and `<unknown>` when not |
| OldDecl.PrefixInjective | src/decl.rs:32-44 | in one build environment, two traits get the same prefix iff they have the same name |
| OldDecl.LinkName | src/decl.rs:55 | `{prefix}_{name}`: the prefix, an underscore, then the name |
| OldDecl.LinkNameInjective | src/decl.rs:55 | two names give the same symbol iff they are equal |
| OldDecl.ArgNames | src/decl.rs:209-221 | `self` iff the input is a receiver, `_i` for a typed input, and a typed input's name is unique |
| OldDecl.Renamed | src/decl.rs:209-221 | the same inputs and types, each typed pattern renamed `_i` |
| OldDecl.RenamePatterns | src/decl.rs:206-221 | the `iter_mut` loop renames exactly as specified and collects the call arguments |
| OldDecl.ConvertOutput | src/decl.rs:225-241 | a default return stays default; a return with `Self` must have one of the three shapes and gets the proxy substituted, else "Too complex return type" |
| OldDecl.ConvertInput | src/decl.rs:250-269 | `Self` by value is refused; a too-complex `Self` is refused; otherwise the type with the proxy substituted |
| OldDecl.GenerateProxyImpl | src/decl.rs:201-281 | the output is checked first, then the inputs in order; on success: the renamed signature, the export name, the receiver and `_i` call arguments, and the converted import types |
| OldDecl.GenerateMacroRules | src/decl.rs:283-333 | the definition is exported under the given name, with parameters `_i` of the declared types with `$ty` for `Self`, and the given trait path |
| OldDecl.ClassifiableShapes | src/decl.rs:292-318 | what the `unwrap`s need: every input and output mentioning `Self` has one of the three shapes |
| OldDecl.AcceptedIsClassifiable | src/decl.rs:57-60 | whenever the stub is generated, the definition's `unwrap`s cannot fail |
| OldDecl.HalvesAgree | src/decl.rs:201-333 | the stub and the definition share the symbol, ident and arity, and their types differ only by proxy versus `$ty` |
| OldDecl.ItemOutput | src/decl.rs:46-66 | a method gives a stub named `{prefix}_{ident}` and one definition under that name iff its stub succeeds; a non-method item is refused |
| OldDecl.ItemsOutput | src/decl.rs:46-66 | one member per item, in order |
| OldDecl.ItemsPairUp | src/decl.rs:55-60 | the definitions' names are the forwarded stubs' names, in order |
| OldDecl.ForwardedNames | src/decl.rs:55-60 | at most one name per member; with nothing reported, every member's link name, in place |
| OldDecl.ExportNames | src/decl.rs:283-333 | one export name per definition, in order |
| OldDecl.ErrorsAreLocal | src/decl.rs:46-66 | changing one item changes no other item's output |
| OldDecl.GenerateItems | src/decl.rs:46-66 | the item loop builds exactly the specified stubs and definitions |
| OldDecl.AsRefTarget | src/decl.rs:84-86 | present iff the segment is `AsRef` whose first argument is a type, which it returns |
| OldDecl.BoundOutput | src/decl.rs:70-103 | among plain bounds, Send and Sync give marker impls, `AsRef<T>` a forwarded `as_ref` named `{prefix}_AsRef_{T}` with its definition, anything else nothing; `AsRef<T>` panics in `parse_quote!` (line 89) iff `T` is a bound list with a top-level `+`; otherwise the only failure is "Too complex return type" |
| OldDecl.ExtrasOutput | src/decl.rs:68-104 | the only failures are "Too complex return type" and the `parse_quote!` panic |
| OldDecl.GenerateExtras | src/decl.rs:68-104 | the bound loop builds exactly the specified extra impls |
| OldDecl.ExtrasErrorPersists | src/decl.rs:90 | an `AsRef` failure aborts the rest of the bounds |
| OldDecl.ExpandSpec | src/decl.rs:10-123 | gates in order: generics, `unsafe`; then fails iff an `AsRef` relay fails, with "Too complex return type" or the `parse_quote!` panic; on success: stubs, extra impls, definitions, the macro name, and `{prefix}_drop` / `{prefix}_reflect` |
| OldDecl.Expand | src/decl.rs:10-123 | the whole expansion equals its specification |
| OldDecl.HeaderNotChecked | src/decl.rs:201-281 | const, async, ABI, generics, where clause and variadic do not affect acceptance |
| OldDecl.SelfByValue | src/decl.rs:250-258 | a by-value receiver is refused, `-> Self` is accepted, `-> &&Self` is too complex |
| OldDecl.SendSyncMarkers | src/decl.rs:76-83 | `Send + Sync` gives the two marker impls and no definitions |
| OldDecl.DynBoundsPanic | src/decl.rs:84-89 | `unsafe trait T: AsRef<dyn X + Send>` panics: `-> &dyn X + Send` leaves `+ Send` unparsed |
| OldDecl.AsRefAborts | src/decl.rs:84-90 | `AsRef<Vec<Self>>` aborts the whole expansion |
| OldDecl.NameClashes | src/decl.rs:55-107 | a method named `drop`, `reflect` or `AsRef_{T}` gets the same symbol as the thunk or relay of that name |
| ExternSafe.TableAgrees | src/impls.rs:20-64 | for each scalar, its `NonZero` and its atomic, eligibility is exactly the row of the concrete lists and their `cfg` |
| ExternSafe.IsExternSafeCases | src/impls.rs:20-114 | a bare `char` and unnamed types are refused; unit, bool, the small integers and their `NonZero` are always accepted; every pointer kind is accepted; owning containers iff `alloc` |
| ExternSafe.TableRow | src/impls.rs:20-64 | only `char` lacks a plain entry; no float has a `NonZero` or atomic entry, and no 128-bit atomic exists; a `NonZero` or atomic entry has the same condition as its scalar |
| ExternSafe.Enabled | src/impls.rs:52-64 | never and always behave as such; the 64-bit-only condition implies the 32-or-64-bit one |
| ExternSafe.CharOnlyNonZero | src/impls.rs:23-40 | `char` is not eligible, `NonZero<char>` is |
| ExternSafe.PointersAnyPointee | src/impls.rs:66-70 | raw pointers, `NonNull` and references are eligible for any pointee, unsized included |
| ExternSafe.ContainersFollowElements | src/impls.rs:72-82 | arrays, slices, `Pin`, `MaybeUninit`, `Option` and the cells iff the element is eligible; `Result` iff both sides are |
| ExternSafe.WideIntegers | src/impls.rs:52-56 | 64-bit integers on 32- or 64-bit targets, 128-bit on 64-bit targets, no 128-bit atomic |
| ExternSafe.Floats | src/impls.rs:58-64 | floats only on soft-float or `eabi` targets, and no `NonZero` float |
| ExternSafe.AllocTypes | src/impls.rs:84-114 | Box, Rc, Arc, the Weaks, String, Vec and the collections iff `alloc`, whatever they hold |
| ExternSafe.WiderTargetAcceptsMore | src/impls.rs:52-82 | a 64-bit target accepts everything a 32-bit target accepts |
| ExternSafe.AllocAcceptsMore | src/impls.rs:84-114 | enabling `alloc` only adds types |
| ExternSafe.ContentsEligible | src/impls.rs:72-82 | whatever an eligible type holds by value is eligible, so never a bare `char` |
| ProxyRuntime.Proxy.Wrap | impl/src/decl/mod.rs:136-139 | a new live proxy holding the value, not yet dropped |
| ProxyRuntime.Proxy.DowncastRef | impl/src/decl/mod.rs:152-155 | the held value iff the type is the implementation type, otherwise a panic |
| ProxyRuntime.Proxy.DowncastMut | impl/src/decl/mod.rs:159-162 | a write through the reference changes the held value; a wrong type panics and changes nothing |
| ProxyRuntime.Proxy.IntoImpl | impl/src/decl/mod.rs:143-148 | moves the value out and consumes the proxy without dropping it; a wrong type panics |
| ProxyRuntime.Proxy.Drop | impl/src/decl/mod.rs:109-117 | the drop thunk runs once and releases the value's reference count |
| ProxyRuntime.FromImpl | impl/src/decl/mod.rs:120-139 | panics unless the type is the implementation type, otherwise wraps the value; in the oldest generation (src/decl.rs:145-171) the same check is left to the caller |
| ProxyRuntime.ReflectScenario | tests/reflect.rs:14-24 | the values read back are 42, 100, 100 |
| ProxyRuntime.WrongTypeScenario | impl/src/decl/mod.rs:120-132 | any other type panics in all four conversions |
| ProxyRuntime.ArcScenario | tests/arc.rs:46-55 | the strong counts observed are 2, 3, 2 |

## Left out

- Token output: `quote!`, spans and `to_compile_error` formatting are not modelled. Generated items are records, and a compile error is its `Diag`.
- The `{:?}` rendering of `Symbol` is not modelled. A symbol name is the `Symbol` record itself, so distinct records stand for distinct strings.
- `DefaultHasher` and the call-site `Span` text are a parameter `hash: string -> U64`. The environment variables are an `Env` record of options. The token text of a type or segment (`to_token_stream`) is a parameter `printTy` / `printSegment`.
- syn's parsers (`Attribute::parse_outer`, `Visibility`, `Path::parse_mod_style`) are single abstract tokens that succeed or fail. The one-token lookahead and cursor are modelled; syn's own error texts are abstracted to "expected …".
- impl/src/decl/sym.rs is not part of this model. The newest generation uses the `Symbol` of src/decl/sym.rs.
- src/decl/supertraits.rs and src/decl/proxy.rs are not part of this model. The middle generation's expansion records the supertrait segments it offers to `generate_impl` and the proxy identifier, and stops there.
- impl/src/decl/mod.rs calls `arg_types`, `return_type`, `arg_names_no_self` and `is_return_self_value`, which impl/src/decl/sig.rs does not define. They are modelled as the src/decl/sig.rs versions over the newest `VerifiedSignature`.
- impl/src/lib.rs passes the parsed impl arguments to impl/src/imp.rs `expand`, which takes only the impl block. `ImplEntry.ExternTrait` follows imp.rs: a `crate = P` argument on an impl is parsed and then unused, and the crate path comes from the item's own attributes.
- ImplDecl.ExpandSpec: the relay's panic is returned as `Err([ProcMacroPanic])` rather than unwinding out of `decl::expand`; `ImplEntry.ExternTrait` turns that value back into `Panicked`, so it never becomes compile errors.
- OldDecl.BoundOutput: the `parse_quote!` panic at src/decl.rs:89 is returned as `Err(ProcMacroPanic)`; in the source it unwinds out of `decl::expand` and src/lib.rs never converts it into compile errors. Only the top-level `+` re-parse failure is modelled, as for `ImplSupertraits.Transform`.
- ImplSupertraits.Transform: the textual `____i` replacement is a substitution of whole placeholder types. A placeholder text embedded in a longer identifier is not modelled. A non-type argument, or a result `try_new` refuses, is the `unwrap` panic of impl/src/decl/supertraits.rs:115. So is a re-parse failure, for the one that matters in the catalog: a bound list with a top-level `+` put right after `&` or `*`. Verbatim types are inspected only as token text for that `+`. Other re-parse failures of the printed text, such as precedence elsewhere in a longer template, are not modelled.
- The catalog templates are assumed to verify at impl/src/decl/supertraits.rs:30. The lemmas `FmtVerifies`, `CloneDefaultVerify` and `AsRefAsMutVerify` check this for the modelled templates.
- ProxyRuntime: `transmute`, pointer casts, `Repr`, `size_of`, `ConstTypeId` internals and unwinding after a panic are not modelled. Type ids are numbers, the proxy holds the value itself, and a panic is an outcome.
- ProxyRuntime: the oldest generation's `reflect` thunk is not modelled separately. Its conversions are the unchecked `Proxy` with the type as a precondition.
- Thread safety: `Send`, `Sync` and the atomics are marker impls or eligibility flags only.
- ExternSafe: RISC-V float targets are not modelled, because the `cfg` does not handle them either. `String` and the collections are eligible as written, although they exceed the size limit the impl-side assertion enforces.
- ImplAttr.ExternTraitPath: `attrs.retain` updates the vector in place. Here it returns the kept attributes, so aliasing of the vector is not captured.
- The tests are used only as scenarios (`ReflectScenario`, `ArcScenario`). Their `ExternSafe` impls and sizes are not checked.

## Findings

| source | as written | input that shows it | evidently intended | confidence | as-written member | corrected member |
|---|---|---|---|---|---|---|
| src/decl/sig.rs:278-283 | `arg_names` names every `Self_` input `self`, at any index | `fn eq(&self, other: &Self) -> bool` gives the stub parameters `self, self` | only the first parameter may be `self`; the others are `_i` | high; not executed | DeclSig.ArgNamesDuplicateSelf | ImplSig.ArgNamesDistinct |

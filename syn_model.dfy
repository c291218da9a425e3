/*
 * The parts of the `syn` syntax tree that the `#[extern_trait]` macro
 * inspects, as plain datatypes, together with the diagnostics it reports.
 * Spans, punctuation tokens and everything the macro only copies through
 * are dropped; token presence (`const`, `mut`, `unsafe`, ...) is a flag.
 */
module SynModel {

  datatype Option<T> = None | Some(value: T)

  datatype Result<T, E> = Ok(value: T) | Err(error: E)

  /** `syn::Type`, reduced to the forms the macro tells apart. */
  datatype Ty =
    | TArray(elem: Ty, len: string)                     // [T; N]
    | TBareFn(inputs: seq<Ty>, output: ReturnTy)        // fn(A, B) -> R
    | TGroup(elem: Ty)                                  // invisible group from a macro
    | TParen(elem: Ty)                                  // (T)
    | TPath(qself: Option<Ty>, path: Path)              // <Q as Tr>::a::b<X>
    | TPtr(isConst: bool, isMut: bool, elem: Ty)        // *const T, *mut T
    | TRef(lifetime: Option<string>, isMut: bool, elem: Ty) // &'a mut T
    | TSlice(elem: Ty)                                  // [T]
    | TTuple(elems: seq<Ty>)                            // (A, B)
    | TOther(tokens: string)                            // impl Tr, dyn Tr, !, _, macros, verbatim tokens

  /** `syn::ReturnType`. */
  datatype ReturnTy = DefaultReturn | Returns(ty: Ty)

  /** `syn::Path`: an optional leading `::` and its segments. */
  datatype Path = Path(leadingColon: bool, segments: seq<Segment>)

  datatype Segment = Segment(ident: string, args: PathArgs)

  /** `syn::PathArguments`. */
  datatype PathArgs =
    | NoArgs
    | Angle(args: seq<GenericArg>)                      // <A, B>
    | Parenthesized(inputs: seq<Ty>, output: ReturnTy)  // Fn(A) -> B

  /** `syn::GenericArgument`, with the forms other than types kept opaque. */
  datatype GenericArg =
    | GaType(ty: Ty)
    | GaAssocType(name: string, ty: Ty)                 // Item = T
    | GaLifetime(name: string)
    | GaConst(expr: string)

  /** A path made of one plain identifier. */
  function IdentPath(name: string): Path
  {
    Path(false, [Segment(name, NoArgs)])
  }

  function PathTy(name: string): Ty
  {
    TPath(None, IdentPath(name))
  }

  /** The type `Self`, as `parse_quote!(Self)` produces it. */
  const SelfTy: Ty := PathTy("Self")

  /** `Path::is_ident`: no leading `::`, one segment, no arguments. */
  predicate IsIdent(p: Path, name: string)
  {
    !p.leadingColon && |p.segments| == 1 && p.segments[0] == Segment(name, NoArgs)
  }

  /** `#path::name`, as `quote!(#path::name)` builds it. */
  function Join(p: Path, name: string): (r: Path)
    ensures r.leadingColon == p.leadingColon && |r.segments| == |p.segments| + 1
    ensures r.segments[..|p.segments|] == p.segments && r.segments[|p.segments|..] == [Segment(name, NoArgs)]
  {
    Path(p.leadingColon, p.segments + [Segment(name, NoArgs)])
  }

  /** `::extern_trait`, the default crate path. */
  const DefaultCratePath: Path := Path(true, [Segment("extern_trait", NoArgs)])

  /** `syn::Abi`: `extern` or `extern "C"`. */
  datatype Abi = Abi(name: Option<string>)

  /** `syn::FnArg`: a receiver carries its desugared type (`&self` has type `&Self`). */
  datatype FnArg = Receiver(ty: Ty) | TypedArg(pat: string, ty: Ty)

  /** `syn::Signature`. */
  datatype Signature = Signature(
    isConst: bool,
    isAsync: bool,
    isUnsafe: bool,
    abi: Option<Abi>,
    ident: string,
    genericParams: seq<string>,
    hasWhereClause: bool,
    inputs: seq<FnArg>,
    isVariadic: bool,
    output: ReturnTy)

  /** The types of a signature's parameters, receiver included, in order. */
  function InputTypes(inputs: seq<FnArg>): (r: seq<Ty>)
    ensures |r| == |inputs| && forall i :: 0 <= i < |inputs| ==> r[i] == inputs[i].ty
  {
    seq(|inputs|, i requires 0 <= i < |inputs| => inputs[i].ty)
  }

  /** Every diagnostic the macro can report, across its three generations. */
  datatype Diag =
    | ConstFn | AsyncFn | GenericFn | WhereClauseFn | VariadicFn
    | RustAbiOnly | ByValueSelfParam | TooComplexSelf
    | OldByValueSelf | OldTooComplexArg | OldTooComplexReturn
    | TraitGenerics | TraitMustBeUnsafe | TraitMustBeStatic | OnlyMethods
    | DuplicateCrate | UnsupportedAttr
    | ExpectedTraitImpl | ImplGenerics | ImplWhereClause
    | ParseError(expected: string)
    | UnexpectedToken
    | ProcMacroPanic

  /** The text each diagnostic carries in the source. */
  function Message(d: Diag): string
  {
    match d
    case ConstFn => "#[extern_trait] does not support const functions"
    case AsyncFn => "#[extern_trait] does not support async functions"
    case GenericFn => "#[extern_trait] does not support generic functions"
    case WhereClauseFn => "#[extern_trait] does not support where clauses"
    case VariadicFn => "#[extern_trait] does not support variadic functions"
    case RustAbiOnly => "#[extern_trait] only supports Rust ABI"
    case ByValueSelfParam => "#[extern_trait] does not support by-value self parameters"
    case TooComplexSelf => "#[extern_trait] too complex `Self` type"
    case OldByValueSelf => "Passing `Self` by value is not supported for #[extern_trait] yet"
    case OldTooComplexArg => "Too complex argument type for #[extern_trait]"
    case OldTooComplexReturn => "Too complex return type for #[extern_trait]"
    case TraitGenerics => "#[extern_trait] may not have generics"
    case TraitMustBeUnsafe => "#[extern_trait] must be unsafe"
    case TraitMustBeStatic => "#[extern_trait] must be 'static"
    case OnlyMethods => "#[extern_trait] may only contain methods"
    case DuplicateCrate => "duplicate extern_trait crate attribute"
    case UnsupportedAttr => "unsupported extern_trait attribute"
    case ExpectedTraitImpl => "expected a trait impl"
    case ImplGenerics => "#[extern_trait] impls may not have generics"
    case ImplWhereClause => "#[extern_trait] impls may not have a where clause"
    case ParseError(expected) => "expected " + expected
    case UnexpectedToken => "unexpected token"
    case ProcMacroPanic => "called `Result::unwrap()` on an `Err` value"
  }

  /**
   * `iter.map(f).collect::<Result<Vec<_>>>()`: every element mapped in order,
   * stopping at the first error, which is the one returned.
   */
  function Collect<A, B, E>(xs: seq<A>, f: A -> Result<B, E>): (r: Result<seq<B>, E>)
    ensures r.Ok? <==> forall i :: 0 <= i < |xs| ==> f(xs[i]).Ok?
    ensures r.Ok? ==> |r.value| == |xs| && forall i :: 0 <= i < |xs| ==> r.value[i] == f(xs[i]).value
    ensures r.Err? ==> exists k :: 0 <= k < |xs| && f(xs[k]) == Err(r.error) && forall j :: 0 <= j < k ==> f(xs[j]).Ok?
  {
    if xs == [] then Ok([])
    else match f(xs[0])
      case Err(e) => Err(e)
      case Ok(b) =>
        match Collect(xs[1..], f)
        case Err(e) => Err(e)
        case Ok(bs) => Ok([b] + bs)
  }

  /** A decimal digit as a character. */
  function DigitChar(d: nat): (c: char)
    requires d < 10
    ensures '0' <= c <= '9' && c as int - '0' as int == d
  {
    (d + '0' as int) as char
  }

  /** `format!("{}", n)` for a natural number. */
  function Decimal(n: nat): (s: string)
    ensures 1 <= |s|
    ensures n >= 10 <==> |s| >= 2
    ensures forall i :: 0 <= i < |s| ==> '0' <= s[i] <= '9'
  {
    if n < 10 then [DigitChar(n)] else Decimal(n / 10) + [DigitChar(n % 10)]
  }

  /** Distinct numbers print differently. */
  lemma {:induction false} DecimalInjective(a: nat, b: nat)
    requires Decimal(a) == Decimal(b)
    ensures a == b
  {
    var sa, sb := Decimal(a), Decimal(b);
    if a >= 10 && b >= 10 {
      assert sa[..|sa| - 1] == Decimal(a / 10);
      assert sb[..|sb| - 1] == Decimal(b / 10);
      DecimalInjective(a / 10, b / 10);
      assert DigitChar(a % 10) == sa[|sa| - 1] == sb[|sb| - 1] == DigitChar(b % 10);
    } else {
      assert |sa| == 1 && |sb| == 1;
      assert sa[0] == DigitChar(a) && sb[0] == DigitChar(b);
    }
  }

  /** `format_ident!("_{}", i)`: the positional parameter name. */
  function PositionalName(i: nat): (s: string)
    ensures |s| >= 2 && s[0] == '_'
  {
    "_" + Decimal(i)
  }

  lemma PositionalNameInjective(i: nat, j: nat)
    requires PositionalName(i) == PositionalName(j)
    ensures i == j
  {
    assert Decimal(i) == PositionalName(i)[1..] == PositionalName(j)[1..] == Decimal(j);
    DecimalInjective(i, j);
  }
}

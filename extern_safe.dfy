/*
 * src/impls.rs: which types implement `ExternSafe`, the marker for types
 * that may cross the proxy boundary. The impls form a table: a fixed list of
 * concrete types, some of them only on certain targets, and generic impls
 * for pointers, containers and wrappers. The table is modelled as a
 * predicate over an abstract Rust type and the compilation target.
 */
module ExternSafe {
  /** The scalar types the table names. */
  datatype Scalar =
    | Unit | Bool | Char
    | U8 | U16 | U32 | U64 | U128 | Usize
    | I8 | I16 | I32 | I64 | I128 | Isize
    | F32 | F64

  datatype WrapperKind = Pin | MaybeUninit | OptionOf | UnsafeCell | Cell | RefCell

  /** `Box`, `Rc`, `rc::Weak`, `Arc`, `sync::Weak`. */
  datatype SmartPointer = Box | Rc | RcWeak | Arc | ArcWeak

  datatype Collection = StringTy | Vec | VecDeque | LinkedList | BTreeSet | BTreeMap | BinaryHeap

  /** A Rust type, as far as the table distinguishes types. */
  datatype RustTy =
    | ScalarTy(s: Scalar)
    | NonZero(s: Scalar)                          // NonZero<s>
    | Atomic(s: Scalar)                           // AtomicBool, AtomicU8, ..
    | RawPtr(isMut: bool, pointee: RustTy)        // *const T, *mut T
    | NonNull(pointee: RustTy)
    | Reference(isMut: bool, pointee: RustTy)     // &T, &mut T
    | Array(elem: RustTy, len: nat)               // [T; N]
    | Slice(elem: RustTy)                         // [T]
    | Wrapper(wrapper: WrapperKind, inner: RustTy)
    | ResultOf(ok: RustTy, err: RustTy)
    | Smart(smart: SmartPointer, pointee: RustTy)
    | CollectionOf(collection: Collection, args: seq<RustTy>)
    | Other(name: string)                         // anything the table does not name: user types, `str`, `dyn Trait`, ..

  /**
   * The `cfg` facts the table depends on. `softFloat` is
   * `target_feature = "soft-float"`; `abi` is `target_abi`.
   */
  datatype Target = Target(pointerWidth: nat, softFloat: bool, abi: string, alloc: bool)

  /** `cfg(any(target_pointer_width = "32", target_pointer_width = "64"))`. */
  predicate Has64(t: Target)
  {
    t.pointerWidth == 32 || t.pointerWidth == 64
  }

  /** `cfg(target_pointer_width = "64")`. */
  predicate Has128(t: Target)
  {
    t.pointerWidth == 64
  }

  /** `cfg(any(target_feature = "soft-float", target_abi = "softfloat", target_abi = "eabi"))`. */
  predicate HasFloats(t: Target)
  {
    t.softFloat || t.abi == "softfloat" || t.abi == "eabi"
  }

  /** The integers of the unconditional list: 8, 16 and 32 bits and pointer-sized. */
  predicate SmallInteger(s: Scalar)
  {
    match s
    case U8 | U16 | U32 | Usize | I8 | I16 | I32 | Isize => true
    case _ => false
  }

  predicate Integer64(s: Scalar)
  {
    s == U64 || s == I64
  }

  predicate Integer128(s: Scalar)
  {
    s == U128 || s == I128
  }

  /** `T: ExternSafe` on `target`. */
  predicate IsExternSafe(ty: RustTy, target: Target)
  {
    match ty
    case ScalarTy(s) =>
      || s == Unit || s == Bool || SmallInteger(s)
      || (Integer64(s) && Has64(target))
      || (Integer128(s) && Has128(target))
      || ((s == F32 || s == F64) && HasFloats(target))
    case NonZero(s) =>
      || SmallInteger(s) || s == Char
      || (Integer64(s) && Has64(target))
      || (Integer128(s) && Has128(target))
    case Atomic(s) => s == Bool || SmallInteger(s) || (Integer64(s) && Has64(target))
    case RawPtr(_, _) => true
    case NonNull(_) => true
    case Reference(_, _) => true
    case Array(elem, _) => IsExternSafe(elem, target)
    case Slice(elem) => IsExternSafe(elem, target)
    case Wrapper(_, inner) => IsExternSafe(inner, target)
    case ResultOf(ok, err) => IsExternSafe(ok, target) && IsExternSafe(err, target)
    case Smart(_, _) => target.alloc
    case CollectionOf(_, _) => target.alloc
    case Other(_) => false
  }

  /** Unit, bool or a small integer, or the `NonZero` of a small integer. */
  predicate CoreScalar(ty: RustTy)
  {
    (ty.ScalarTy? || ty.NonZero?) && (ty.s == Unit || ty.s == Bool || SmallInteger(ty.s))
    && !(ty.NonZero? && (ty.s == Unit || ty.s == Bool))
  }

  /**
   * A bare `char` never crosses, and neither does a type the table does not
   * name; unit, bool and the small integers with their `NonZero` always do;
   * pointers of any kind do, to anything; owning containers need `alloc`.
   */
  lemma IsExternSafeCases(ty: RustTy, target: Target)
    ensures ty == ScalarTy(Char) || ty.Other? ==> !IsExternSafe(ty, target)
    ensures CoreScalar(ty) ==> IsExternSafe(ty, target)
    ensures ty.RawPtr? || ty.NonNull? || ty.Reference? ==> IsExternSafe(ty, target)
    ensures ty.Smart? || ty.CollectionOf? ==> (IsExternSafe(ty, target) <==> target.alloc)
  {
  }

  // ----- The concrete list -----

  /** When an `impl_extern_safe!` line is compiled in. */
  datatype Cfg = Never | Always | Width32Or64 | Width64 | SoftFloat

  predicate Enabled(c: Cfg, target: Target): (b: bool)
    ensures c == Never ==> !b
    ensures c == Always ==> b
    // whatever needs a 64-bit target is also there on a 32- or 64-bit target
    ensures c == Width64 && b ==> Has64(target)
  {
    match c
    case Never => false
    case Always => true
    case Width32Or64 => Has64(target)
    case Width64 => Has128(target)
    case SoftFloat => HasFloats(target)
  }

  /** For one scalar: when the scalar, its `NonZero` and its atomic are in the lists. */
  datatype Row = Row(plain: Cfg, nonZero: Cfg, atomic: Cfg)

  /** The concrete `impl_extern_safe!` lists, read row by row. */
  function TableRow(s: Scalar): (r: Row)
    // `char` is listed only as `NonZero<char>`
    ensures r.plain == Never <==> s == Char
    // no float has a `NonZero` or an atomic, and there is no 128-bit atomic
    ensures r.nonZero != SoftFloat && r.atomic != SoftFloat && r.atomic != Width64
    // a `NonZero` or an atomic is never listed under a condition its plain scalar does not meet
    ensures s != Char ==> (r.nonZero == Never || r.nonZero == r.plain) && (r.atomic == Never || r.atomic == r.plain)
  {
    match s
    case Unit => Row(Always, Never, Never)
    case Bool => Row(Always, Never, Always)
    case Char => Row(Never, Always, Never)
    case U8 | U16 | U32 | Usize | I8 | I16 | I32 | Isize => Row(Always, Always, Always)
    case U64 | I64 => Row(Width32Or64, Width32Or64, Width32Or64)
    case U128 | I128 => Row(Width64, Width64, Never)
    case F32 | F64 => Row(SoftFloat, Never, Never)
  }

  /** For scalars, their `NonZero` and their atomic forms, the predicate is exactly the table. */
  lemma TableAgrees(s: Scalar, target: Target)
    ensures IsExternSafe(ScalarTy(s), target) <==> Enabled(TableRow(s).plain, target)
    ensures IsExternSafe(NonZero(s), target) <==> Enabled(TableRow(s).nonZero, target)
    ensures IsExternSafe(Atomic(s), target) <==> Enabled(TableRow(s).atomic, target)
  {
  }

  // ----- Properties of the table -----

  /** `char` is not eligible, `NonZero<char>` is. */
  lemma CharOnlyNonZero(target: Target)
    ensures !IsExternSafe(ScalarTy(Char), target)
    ensures IsExternSafe(NonZero(Char), target)
    ensures !IsExternSafe(Atomic(Char), target)
  {
  }

  /** Raw pointers, `NonNull` and references are eligible whatever they point to, unsized or not. */
  lemma PointersAnyPointee(pointee: RustTy, isMut: bool, target: Target)
    ensures IsExternSafe(RawPtr(isMut, pointee), target)
    ensures IsExternSafe(NonNull(pointee), target)
    ensures IsExternSafe(Reference(isMut, pointee), target)
    ensures IsExternSafe(Reference(false, Other("str")), target) && !IsExternSafe(Other("str"), target)
  {
  }

  /** Arrays, slices and the wrappers are eligible exactly when their element is; `Result` when both sides are. */
  lemma ContainersFollowElements(elem: RustTy, err: RustTy, n: nat, w: WrapperKind, target: Target)
    ensures IsExternSafe(Array(elem, n), target) <==> IsExternSafe(elem, target)
    ensures IsExternSafe(Slice(elem), target) <==> IsExternSafe(elem, target)
    ensures IsExternSafe(Wrapper(w, elem), target) <==> IsExternSafe(elem, target)
    ensures IsExternSafe(ResultOf(elem, err), target) <==> IsExternSafe(elem, target) && IsExternSafe(err, target)
  {
  }

  /** 64-bit integers need a 32- or 64-bit target; 128-bit integers a 64-bit one; there is no 128-bit atomic. */
  lemma WideIntegers(target: Target)
    ensures IsExternSafe(ScalarTy(U64), target) <==> target.pointerWidth == 32 || target.pointerWidth == 64
    ensures IsExternSafe(NonZero(I64), target) <==> target.pointerWidth == 32 || target.pointerWidth == 64
    ensures IsExternSafe(Atomic(U64), target) <==> target.pointerWidth == 32 || target.pointerWidth == 64
    ensures IsExternSafe(ScalarTy(I128), target) <==> target.pointerWidth == 64
    ensures IsExternSafe(NonZero(U128), target) <==> target.pointerWidth == 64
    ensures !IsExternSafe(Atomic(U128), target)
  {
  }

  /** Floats only on soft-float or `eabi` targets; there is no `NonZero` float. */
  lemma Floats(target: Target)
    ensures IsExternSafe(ScalarTy(F32), target) <==> target.softFloat || target.abi == "softfloat" || target.abi == "eabi"
    ensures IsExternSafe(ScalarTy(F64), target) <==> IsExternSafe(ScalarTy(F32), target)
    ensures !IsExternSafe(NonZero(F32), target)
  {
  }

  /**
   * With the `alloc` feature the owning pointers are eligible for any
   * pointee, and so are `String`, `Vec` and the collections, whatever their
   * element types; without it none of them is.
   */
  lemma AllocTypes(k: SmartPointer, c: Collection, pointee: RustTy, args: seq<RustTy>, target: Target)
    ensures IsExternSafe(Smart(k, pointee), target) <==> target.alloc
    ensures IsExternSafe(CollectionOf(c, args), target) <==> target.alloc
    ensures target.alloc ==> IsExternSafe(CollectionOf(Vec, [ScalarTy(Char)]), target)
  {
  }

  /** Whatever a 32-bit target accepts, a 64-bit target with the same other flags accepts too. */
  lemma {:induction false} WiderTargetAcceptsMore(ty: RustTy, target: Target)
    requires target.pointerWidth == 32
    ensures IsExternSafe(ty, target) ==> IsExternSafe(ty, target.(pointerWidth := 64))
  {
    match ty
    case Array(elem, _) => WiderTargetAcceptsMore(elem, target);
    case Slice(elem) => WiderTargetAcceptsMore(elem, target);
    case Wrapper(_, inner) => WiderTargetAcceptsMore(inner, target);
    case ResultOf(ok, err) =>
      WiderTargetAcceptsMore(ok, target);
      WiderTargetAcceptsMore(err, target);
    case _ =>
  }

  /** Turning on `alloc` only adds eligible types. */
  lemma {:induction false} AllocAcceptsMore(ty: RustTy, target: Target)
    ensures IsExternSafe(ty, target) ==> IsExternSafe(ty, target.(alloc := true))
  {
    match ty
    case Array(elem, _) => AllocAcceptsMore(elem, target);
    case Slice(elem) => AllocAcceptsMore(elem, target);
    case Wrapper(_, inner) => AllocAcceptsMore(inner, target);
    case ResultOf(ok, err) =>
      AllocAcceptsMore(ok, target);
      AllocAcceptsMore(err, target);
    case _ =>
  }

  /**
   * Eligibility is closed under what a type holds by value: every type an
   * eligible type contains, other than behind a pointer or inside an
   * `alloc` type, is eligible too. So an eligible type never holds a bare
   * `char`.
   */
  lemma {:induction false} ContentsEligible(ty: RustTy, inner: RustTy, target: Target)
    requires IsExternSafe(ty, target) && DirectlyContains(ty, inner)
    ensures IsExternSafe(inner, target)
    ensures inner != ScalarTy(Char)
  {
    if ty != inner {
      match ty
      case Array(elem, _) => ContentsEligible(elem, inner, target);
      case Slice(elem) => ContentsEligible(elem, inner, target);
      case Wrapper(_, e) => ContentsEligible(e, inner, target);
      case ResultOf(ok, err) =>
        if DirectlyContains(ok, inner) {
          ContentsEligible(ok, inner, target);
        } else {
          ContentsEligible(err, inner, target);
        }
    }
  }

  /** `inner` occurs in `ty` by value: not behind a pointer and not inside an `alloc` type. */
  predicate DirectlyContains(ty: RustTy, inner: RustTy)
  {
    ty == inner ||
    match ty
    case Array(e, _) => DirectlyContains(e, inner)
    case Slice(e) => DirectlyContains(e, inner)
    case Wrapper(_, e) => DirectlyContains(e, inner)
    case ResultOf(a, b) => DirectlyContains(a, inner) || DirectlyContains(b, inner)
    case _ => false
  }
}

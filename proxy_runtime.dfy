/*
 * The runtime behaviour of the proxy type the trait-side expansion emits
 * (impl/src/decl/mod.rs:107-163, src/decl/mod.rs:110-169 and
 * src/decl.rs:124-172): a proxy holds the value of the one implementation
 * type, which the implementing crate publishes as a type id. Converting or
 * downcasting first checks that the requested type is that implementation
 * type and panics otherwise; in the oldest generation the functions are
 * `unsafe` and the check is the caller's obligation. Dropping the proxy runs
 * the implementation's destructor through the drop thunk, once.
 *
 * Type ids are numbers, the implementation value is a record, and a panic is
 * an outcome. Transmutes, pointer casts and `Repr` are not modelled: the
 * proxy holds the value itself.
 */
module ProxyRuntime {
  /** `TypeId` / `ConstTypeId`: equal exactly for the same type. */
  type TypeId = nat

  /** A reference-counted allocation, standing for the `Arc` an implementation value may hold. */
  class Shared {
    var strong: int

    constructor (strong: int)
      ensures this.strong == strong
    {
      this.strong := strong;
    }
  }

  /** An implementation value: a field, and at most one strong reference it releases when dropped. */
  datatype Value = Value(field: int, share: Shared?)

  datatype Outcome<T> = Panics | Done(value: T)

  class Proxy {
    /** The implementation type the implementing crate published (`TYPEID`, or the `typeid` thunk). */
    const implType: TypeId
    /** `true` for the newer generations, whose conversions assert the type; `false` for the oldest. */
    const checked: bool
    var payload: Value
    /** Not yet consumed by `into_impl` nor dropped. */
    var live: bool
    /** How many times the drop thunk ran on this proxy. */
    var drops: nat

    /** The drop thunk runs at most once, and never while the proxy is live. */
    predicate Valid()
      reads this
    {
      drops <= 1 && (live ==> drops == 0)
    }

    /** `Self(into_repr(value))`, once the type has been checked. */
    constructor Wrap(implType: TypeId, checked: bool, value: Value)
      ensures this.implType == implType && this.checked == checked
      ensures payload == value && live && drops == 0 && Valid()
    {
      this.implType := implType;
      this.checked := checked;
      payload := value;
      live := true;
      drops := 0;
    }

    /** `downcast_ref::<T>()`, `t` being the id of `T`. */
    method DowncastRef(t: TypeId) returns (r: Outcome<Value>)
      requires live
      requires !checked ==> t == implType
      ensures t == implType ==> r == Done(payload)
      ensures t != implType ==> r == Panics
    {
      if t != implType {
        return Panics;
      }
      r := Done(payload);
    }

    /** `downcast_mut::<T>().field = x`: a write through the returned reference changes the held value. */
    method DowncastMut(t: TypeId, x: int) returns (r: Outcome<()>)
      requires live
      requires !checked ==> t == implType
      modifies this
      ensures t == implType ==> r == Done(()) && payload == old(payload).(field := x)
      ensures t != implType ==> r == Panics && payload == old(payload)
      ensures live && drops == old(drops)
    {
      if t != implType {
        return Panics;
      }
      payload := payload.(field := x);
      r := Done(());
    }

    /** `into_impl::<T>()`: the value moves out and the proxy is consumed without its `Drop` running. */
    method IntoImpl(t: TypeId) returns (r: Outcome<Value>)
      requires live && Valid()
      requires !checked ==> t == implType
      modifies this
      ensures t == implType ==> r == Done(old(payload)) && !live
      ensures t != implType ==> r == Panics && live
      ensures payload == old(payload) && drops == old(drops) && Valid()
    {
      if t != implType {
        return Panics;
      }
      live := false;
      r := Done(payload);
    }

    /**
     * `impl Drop for Proxy`: calls the drop thunk, which drops the
     * implementation value in place; here that releases its strong
     * reference, if it holds one.
     */
    method Drop()
      requires live && Valid()
      modifies this, payload.share
      ensures !live && drops == 1 && Valid() && payload == old(payload)
      ensures payload.share != null ==> payload.share.strong == old(payload.share.strong) - 1
    {
      drops := drops + 1;
      live := false;
      if payload.share != null {
        payload.share.strong := payload.share.strong - 1;
      }
    }
  }

  /** `from_impl::<T>(value)`: checks the type, then wraps the value. */
  method FromImpl(implType: TypeId, checked: bool, t: TypeId, value: Value) returns (r: Outcome<Proxy>)
    requires !checked ==> t == implType
    ensures t != implType ==> r == Panics
    ensures t == implType ==> r.Done? && fresh(r.value) && r.value.implType == implType && r.value.checked == checked
                              && r.value.payload == value && r.value.live && r.value.drops == 0 && r.value.Valid()
  {
    if t != implType {
      return Panics;
    }
    var p := new Proxy.Wrap(implType, checked, value);
    r := Done(p);
  }

  /**
   * The round trip of tests/reflect.rs: `from_impl` of a value with field
   * 42, read back through `downcast_ref`, 100 written through
   * `downcast_mut` and read back, then `into_impl`. Returns the three
   * fields observed.
   */
  method ReflectScenario(implType: TypeId) returns (seen: seq<int>)
    ensures seen == [42, 100, 100]
  {
    var r := FromImpl(implType, true, implType, Value(42, null));
    var any := r.value;
    var a := any.DowncastRef(implType);
    var _ := any.DowncastMut(implType, 100);
    var b := any.DowncastRef(implType);
    var c := any.IntoImpl(implType);
    seen := [a.value.field, b.value.field, c.value.field];
  }

  /** Asking for any other type panics in every conversion of the checked generations. */
  method WrongTypeScenario(implType: TypeId, other: TypeId) returns (outcomes: seq<bool>)
    requires other != implType
    ensures outcomes == [true, true, true, true]
  {
    var p := new Proxy.Wrap(implType, true, Value(0, null));
    var a := FromImpl(implType, true, other, Value(0, null));
    var b := p.DowncastRef(other);
    var c := p.DowncastMut(other, 1);
    var d := p.IntoImpl(other);
    outcomes := [a.Panics?, b.Panics?, c.Panics?, d.Panics?];
  }

  /**
   * tests/arc.rs: every `Resource::new()` clones a global `Arc` that starts
   * with one strong reference, and `count` reads its strong count. One proxy
   * sees 2, a second one in a nested scope sees 3, and after that one is
   * dropped the first sees 2 again.
   */
  method ArcScenario(implType: TypeId) returns (counts: seq<int>)
    ensures counts == [2, 3, 2]
  {
    var global := new Shared(1);
    global.strong := global.strong + 1;
    var res := new Proxy.Wrap(implType, true, Value(0, global));
    var first := res.payload.share.strong;
    global.strong := global.strong + 1;
    var inner := new Proxy.Wrap(implType, true, Value(0, global));
    var second := res.payload.share.strong;
    inner.Drop();
    var third := res.payload.share.strong;
    counts := [first, second, third];
  }
}

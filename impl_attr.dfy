/*
 * impl/src/attr.rs: `extern_trait_path` takes the `#[extern_trait(...)]`
 * attributes out of an item's attribute list and reads the crate path
 * from their `crate = path` entries.
 *
 * Each attribute's arguments are given already split into entries;
 * syn's nested-meta parser stops at the first entry that fails and reports
 * that one error for the attribute.
 */
module ImplAttr {
  import opened SynModel

  /** One entry of `#[extern_trait(...)]`. */
  datatype MetaEntry =
    | CrateEntry(value: Option<Path>)   // `crate = path`; `None` when what follows `crate` is not `= path`
    | OtherEntry(key: string)           // any other key

  /** What follows the attribute's path. */
  datatype AttrArgs =
    | NoArgsGiven                       // `#[extern_trait]`
    | Entries(entries: seq<MetaEntry>)  // `#[extern_trait(a, b = c, ...)]`

  datatype Attribute = Attribute(path: Path, args: AttrArgs)

  /** `attr.path().is_ident("extern_trait")`. */
  predicate IsExternTraitAttr(attr: Attribute)
  {
    IsIdent(attr.path, "extern_trait")
  }

  /** Exactly the bare path `extern_trait`: no `::` in front, no arguments, nothing else. */
  lemma ExternTraitAttrExact(attr: Attribute)
    ensures IsExternTraitAttr(attr) <==> attr.path == IdentPath("extern_trait")
  {
  }

  /** What `extern_trait_path` tracks across the attributes. */
  datatype State = State(path: Option<Path>, errors: seq<Diag>)

  /**
   * The closure given to `parse_nested_meta`, over the entries of one
   * attribute: it stops at the first error. A `crate = path` seen before
   * that error has already been recorded.
   */
  function ParseEntries(entries: seq<MetaEntry>, path: Option<Path>): (r: (Option<Path>, Option<Diag>))
    ensures r.1.Some? ==> r.1.value in {DuplicateCrate, UnsupportedAttr, ParseError("`=` and a path")}
    ensures r.1.None? <==> entries == [] || (path.None? && |entries| == 1 && entries[0].CrateEntry? && entries[0].value.Some?)
    ensures path.Some? ==> r.0 == path
    ensures r.1.None? && entries != [] ==> r.0 == entries[0].value
  {
    if entries == [] then (path, None)
    else
      match entries[0]
      case OtherEntry(_) => (path, Some(UnsupportedAttr))
      case CrateEntry(value) =>
        if path.Some? then (path, Some(DuplicateCrate))
        else if value.None? then (path, Some(ParseError("`=` and a path")))
        else ParseEntries(entries[1..], value)
  }

  /** One call of the `retain` closure on an attribute already known to be `extern_trait`. */
  function Step(st: State, a: Attribute): (st': State)
    ensures st'.errors == st.errors || (|st'.errors| == |st.errors| + 1 && st'.errors[..|st.errors|] == st.errors)
    ensures st.path.Some? ==> st'.path == st.path
  {
    match a.args
    case NoArgsGiven => st.(errors := st.errors + [ParseError("attribute arguments in parentheses: #[extern_trait(...)]")])
    case Entries(entries) =>
      var (path, err) := ParseEntries(entries, st.path);
      State(path, if err.Some? then st.errors + [err.value] else st.errors)
  }

  /** The state after the closure has seen every attribute of `attrs`, left to right. */
  function Fold(attrs: seq<Attribute>): (st: State)
    // at most one error per attribute, and only `extern_trait` attributes are looked at
    ensures |st.errors| <= |attrs|
    ensures st.path.Some? || st.errors != [] ==> exists i :: 0 <= i < |attrs| && IsExternTraitAttr(attrs[i])
  {
    if attrs == [] then State(None, [])
    else
      var st := Fold(attrs[..|attrs| - 1]);
      if IsExternTraitAttr(attrs[|attrs| - 1]) then Step(st, attrs[|attrs| - 1]) else st
  }

  /** The final `match errors`: any error wins; otherwise the path, by default `::extern_trait`. */
  function Finish(st: State): (r: Result<Path, seq<Diag>>)
    ensures r.Err? <==> st.errors != []
    ensures r.Err? ==> r.error == st.errors
    ensures r.Ok? && st.path.Some? ==> r.value == st.path.value
    ensures r.Ok? && st.path.None? ==> r.value == DefaultCratePath
  {
    if st.errors != [] then Err(st.errors)
    else if st.path.Some? then Ok(st.path.value)
    else Ok(DefaultCratePath)
  }

  /** The attributes `retain` keeps: the ones that are not `extern_trait`, in order. */
  function Filter(attrs: seq<Attribute>): (kept: seq<Attribute>)
    ensures forall i :: 0 <= i < |kept| ==> !IsExternTraitAttr(kept[i]) && kept[i] in attrs
    ensures |kept| <= |attrs|
  {
    if attrs == [] then []
    else
      var kept := Filter(attrs[..|attrs| - 1]);
      if IsExternTraitAttr(attrs[|attrs| - 1]) then kept else kept + [attrs[|attrs| - 1]]
  }

  /** The result `extern_trait_path` returns for `attrs`. */
  function Resolve(attrs: seq<Attribute>): (r: Result<Path, seq<Diag>>)
    ensures r.Err? ==> 0 < |r.error| <= |attrs|
    ensures (forall i :: 0 <= i < |attrs| ==> !IsExternTraitAttr(attrs[i])) ==> r == Ok(DefaultCratePath)
  {
    Finish(Fold(attrs))
  }

  /**
   * `extern_trait_path`: `attrs.retain(..)` with the closure's state, then
   * the final `match`. The vector is updated in place in the source; here
   * the kept attributes are returned.
   */
  method ExternTraitPath(attrs: seq<Attribute>) returns (kept: seq<Attribute>, r: Result<Path, seq<Diag>>)
    ensures kept == Filter(attrs)
    ensures r == Resolve(attrs)
  {
    var path: Option<Path> := None;
    var errors: seq<Diag> := [];
    kept := [];
    var i := 0;
    while i < |attrs|
      invariant 0 <= i <= |attrs|
      invariant kept == Filter(attrs[..i])
      invariant State(path, errors) == Fold(attrs[..i])
    {
      assert attrs[..i + 1][..i] == attrs[..i];
      var a := attrs[i];
      if !IsExternTraitAttr(a) {
        kept := kept + [a];
      } else {
        match a.args {
          case NoArgsGiven =>
            errors := errors + [ParseError("attribute arguments in parentheses: #[extern_trait(...)]")];
          case Entries(entries) =>
            var (p, err) := ParseEntries(entries, path);
            path := p;
            if err.Some? {
              errors := errors + [err.value];
            }
        }
      }
      i := i + 1;
    }
    assert attrs[..i] == attrs;
    if errors == [] {
      r := Ok(if path.Some? then path.value else DefaultCratePath);
    } else {
      r := Err(errors);
    }
  }

  /** The kept attributes are exactly the others, in their original order. */
  lemma {:induction false} FilterSplit(a: seq<Attribute>, b: seq<Attribute>)
    ensures Filter(a + b) == Filter(a) + Filter(b)
    decreases |b|
  {
    if b == [] {
      assert a + b == a;
    } else {
      var b' := b[..|b| - 1];
      assert (a + b)[..|a + b| - 1] == a + b';
      FilterSplit(a, b');
    }
  }

  /** An attribute list without `extern_trait` attributes is kept whole and gives the default path. */
  lemma {:induction false} NoExternTraitAttrs(attrs: seq<Attribute>)
    requires forall i :: 0 <= i < |attrs| ==> !IsExternTraitAttr(attrs[i])
    ensures Filter(attrs) == attrs
    ensures Fold(attrs) == State(None, [])
    ensures Resolve(attrs) == Ok(DefaultCratePath)
  {
    if attrs != [] {
      var init := attrs[..|attrs| - 1];
      NoExternTraitAttrs(init);
      assert init + [attrs[|attrs| - 1]] == attrs;
    }
  }

  /** Other attributes change neither the kept order of the rest nor the result. */
  lemma {:induction false} OtherAttrsIgnored(attrs: seq<Attribute>, other: Attribute)
    requires !IsExternTraitAttr(other)
    ensures Fold(attrs + [other]) == Fold(attrs)
    ensures Filter(attrs + [other]) == Filter(attrs) + [other]
  {
    assert (attrs + [other])[..|attrs|] == attrs;
  }

  /**
   * The attribute errors are parse errors, never the supertrait relay's
   * panic: a failed resolution is always reported as compile errors.
   */
  lemma {:induction false} ResolveNeverPanics(attrs: seq<Attribute>)
    ensures forall i :: 0 <= i < |Fold(attrs).errors| ==> Fold(attrs).errors[i] != ProcMacroPanic
    ensures Resolve(attrs).Err? ==> ProcMacroPanic !in Resolve(attrs).error
  {
    if attrs != [] {
      ResolveNeverPanics(attrs[..|attrs| - 1]);
    }
  }

  /** Errors only accumulate: once an attribute has failed, the result is an error whatever follows. */
  lemma {:induction false} ErrorsPersist(attrs: seq<Attribute>, more: seq<Attribute>)
    ensures |Fold(attrs).errors| <= |Fold(attrs + more).errors|
    ensures Fold(attrs + more).errors[..|Fold(attrs).errors|] == Fold(attrs).errors
    ensures Resolve(attrs).Err? ==> Resolve(attrs + more).Err?
    decreases |more|
  {
    if more == [] {
      assert attrs + more == attrs;
    } else {
      var more' := more[..|more| - 1];
      assert (attrs + more)[..|attrs + more| - 1] == attrs + more';
      ErrorsPersist(attrs, more');
    }
  }

  /** A single `#[extern_trait(crate = P)]` gives `P`, and the attribute is removed. */
  lemma SingleCrate(others: seq<Attribute>, p: Path)
    requires forall i :: 0 <= i < |others| ==> !IsExternTraitAttr(others[i])
    ensures var attrs := others + [Attribute(IdentPath("extern_trait"), Entries([CrateEntry(Some(p))]))];
            Resolve(attrs) == Ok(p) && Filter(attrs) == others
  {
    NoExternTraitAttrs(others);
    var a := Attribute(IdentPath("extern_trait"), Entries([CrateEntry(Some(p))]));
    assert (others + [a])[..|others|] == others;
    assert [CrateEntry(Some(p))][1..] == [];
  }

  /** After attributes that are not `extern_trait`, one `extern_trait` attribute is a single closure step from the start. */
  lemma AfterOthers(others: seq<Attribute>, a: Attribute)
    requires forall i :: 0 <= i < |others| ==> !IsExternTraitAttr(others[i])
    requires IsExternTraitAttr(a)
    ensures Fold(others + [a]) == Step(State(None, []), a)
    ensures Filter(others + [a]) == others
  {
    NoExternTraitAttrs(others);
    assert (others + [a])[..|others|] == others;
  }

  /** One more `extern_trait` attribute is one more closure step, and it is removed. */
  lemma AppendExtern(attrs: seq<Attribute>, b: Attribute)
    requires IsExternTraitAttr(b)
    ensures Fold(attrs + [b]) == Step(Fold(attrs), b)
    ensures Filter(attrs + [b]) == Filter(attrs)
  {
    assert (attrs + [b])[..|attrs|] == attrs;
  }

  /** A second `crate` key in the same attribute is an error; the attribute is removed anyway. */
  lemma DuplicateCrateKey(others: seq<Attribute>, p: Path, q: Path)
    requires forall i :: 0 <= i < |others| ==> !IsExternTraitAttr(others[i])
    ensures var same := others + [Attribute(IdentPath("extern_trait"), Entries([CrateEntry(Some(p)), CrateEntry(Some(q))]))];
            Resolve(same) == Err([DuplicateCrate]) && Filter(same) == others
  {
    var a := Attribute(IdentPath("extern_trait"), Entries([CrateEntry(Some(p)), CrateEntry(Some(q))]));
    AfterOthers(others, a);
    assert [CrateEntry(Some(p)), CrateEntry(Some(q))][1..] == [CrateEntry(Some(q))];
    assert ParseEntries([CrateEntry(Some(p)), CrateEntry(Some(q))], None) == (Some(p), Some(DuplicateCrate));
  }

  /** A `crate` key in a later attribute is a duplicate too; both attributes are removed. */
  lemma DuplicateCrateLater(others: seq<Attribute>, p: Path, q: Path)
    requires forall i :: 0 <= i < |others| ==> !IsExternTraitAttr(others[i])
    ensures var split := others + [Attribute(IdentPath("extern_trait"), Entries([CrateEntry(Some(p))])),
                                   Attribute(IdentPath("extern_trait"), Entries([CrateEntry(Some(q))]))];
            Resolve(split) == Err([DuplicateCrate]) && Filter(split) == others
  {
    var b := Attribute(IdentPath("extern_trait"), Entries([CrateEntry(Some(p))]));
    var c := Attribute(IdentPath("extern_trait"), Entries([CrateEntry(Some(q))]));
    AfterOthers(others, b);
    assert [CrateEntry(Some(p))][1..] == [];
    assert Fold(others + [b]) == State(Some(p), []);
    assert ParseEntries([CrateEntry(Some(q))], Some(p)) == (Some(p), Some(DuplicateCrate));
    AppendExtern(others + [b], c);
    assert others + [b, c] == (others + [b]) + [c];
  }

  /**
   * Any other key is an error even when a path was found: `crate = P` followed
   * by `foo` in one attribute fails, and every failing attribute contributes
   * its own error.
   */
  lemma UnsupportedKey(others: seq<Attribute>, p: Path, key: string, key2: string)
    requires forall i :: 0 <= i < |others| ==> !IsExternTraitAttr(others[i])
    ensures var attrs := others + [Attribute(IdentPath("extern_trait"), Entries([CrateEntry(Some(p)), OtherEntry(key)])),
                                   Attribute(IdentPath("extern_trait"), Entries([OtherEntry(key2)]))];
            Resolve(attrs) == Err([UnsupportedAttr, UnsupportedAttr])
            && Fold(attrs).path == Some(p)
            && Filter(attrs) == others
  {
    var a := Attribute(IdentPath("extern_trait"), Entries([CrateEntry(Some(p)), OtherEntry(key)]));
    var b := Attribute(IdentPath("extern_trait"), Entries([OtherEntry(key2)]));
    AfterOthers(others, a);
    assert [CrateEntry(Some(p)), OtherEntry(key)][1..] == [OtherEntry(key)];
    assert ParseEntries([CrateEntry(Some(p)), OtherEntry(key)], None) == (Some(p), Some(UnsupportedAttr));
    assert Fold(others + [a]) == State(Some(p), [UnsupportedAttr]);
    assert ParseEntries([OtherEntry(key2)], Some(p)) == (Some(p), Some(UnsupportedAttr));
    AppendExtern(others + [a], b);
    assert others + [a, b] == (others + [a]) + [b];
    assert Fold(others + [a, b]) == State(Some(p), [UnsupportedAttr, UnsupportedAttr]);
  }
}

/*
 * src/decl/sym.rs: the record from which every link name is printed. The
 * link name is the record's `Debug` rendering; the rendering is not modelled
 * and two symbols are the same link name exactly when they are equal records.
 * The environment variables Cargo sets and the hash of the call site are
 * inputs: `hash` is any deterministic function to 64-bit values.
 */
module DeclSym {
  import opened SynModel

  type U64 = x: int | 0 <= x < 0x1_0000_0000_0000_0000

  /** The build environment as the macro reads it; `None` is an unset variable. */
  datatype Env = Env(
    pkgName: Option<string>,        // CARGO_PKG_NAME
    pkgVersion: Option<string>,     // CARGO_PKG_VERSION
    crateName: Option<string>,      // CARGO_CRATE_NAME
    manifestPath: Option<string>)   // CARGO_MANIFEST_PATH

  datatype Symbol = Symbol(
    externTrait: string,
    package: string,
    version: string,
    crateName: string,
    packageDisambiguator: U64,
    traitName: string,
    localDisambiguator: U64,
    name: string)

  const Unknown: string := "<unknown>"

  /** `var(..).unwrap_or(default)`. */
  function VarOr(v: Option<string>, default: string): (r: string)
    ensures v.Some? ==> r == v.value
    ensures v.None? ==> r == default
  {
    match v
    case Some(s) => s
    case None => default
  }

  /**
   * `Symbol::new`: the format tag `v0`, an empty name, the three Cargo
   * variables with their fallback, the hash of the manifest path (of the
   * empty string when unset) and the hash of the call site's debug text.
   */
  function New(env: Env, hash: string -> U64, callSite: string, traitName: string): (s: Symbol)
    ensures s.externTrait == "v0" && s.name == "" && s.traitName == traitName
    ensures env.pkgName.None? ==> s.package == Unknown
    ensures env.pkgName.Some? ==> s.package == env.pkgName.value
    ensures env.pkgVersion.None? ==> s.version == Unknown
    ensures env.pkgVersion.Some? ==> s.version == env.pkgVersion.value
    ensures env.crateName.None? ==> s.crateName == Unknown
    ensures env.crateName.Some? ==> s.crateName == env.crateName.value
    ensures env.manifestPath.None? ==> s.packageDisambiguator == hash("")
    ensures env.manifestPath.Some? ==> s.packageDisambiguator == hash(env.manifestPath.value)
    ensures s.localDisambiguator == hash(callSite)
  {
    Symbol(
      "v0",
      VarOr(env.pkgName, Unknown),
      VarOr(env.pkgVersion, Unknown),
      VarOr(env.crateName, Unknown),
      hash(VarOr(env.manifestPath, "")),
      traitName,
      hash(callSite),
      "")
  }

  /** `Symbol::with_name`: only the name changes. */
  function WithName(s: Symbol, name: string): (r: Symbol)
    ensures r.name == name
    ensures r.externTrait == s.externTrait && r.package == s.package && r.version == s.version
    ensures r.crateName == s.crateName && r.packageDisambiguator == s.packageDisambiguator
    ensures r.traitName == s.traitName && r.localDisambiguator == s.localDisambiguator
  {
    s.(name := name)
  }

  /** Naming twice keeps the last name. */
  lemma WithNameLastWins(s: Symbol, a: string, b: string)
    ensures WithName(WithName(s, a), b) == WithName(s, b)
  {
  }

  /** Names taken from one symbol give the same link name exactly when the names are equal. */
  lemma WithNameInjective(s: Symbol, a: string, b: string)
    ensures WithName(s, a) == WithName(s, b) <==> a == b
  {
    if WithName(s, a) == WithName(s, b) {
      assert WithName(s, a).name == a;
    }
  }

  /**
   * Two invocations in the same environment and at the same call site build
   * the same symbol; invocations whose call-site hashes differ never share
   * a link name, whatever the names.
   */
  lemma NewDeterministic(env: Env, hash: string -> U64, siteA: string, siteB: string, traitName: string, a: string, b: string)
    ensures siteA == siteB ==> New(env, hash, siteA, traitName) == New(env, hash, siteB, traitName)
    ensures hash(siteA) != hash(siteB) ==>
              WithName(New(env, hash, siteA, traitName), a) != WithName(New(env, hash, siteB, traitName), b)
  {
    if hash(siteA) != hash(siteB) {
      assert WithName(New(env, hash, siteA, traitName), a).localDisambiguator == hash(siteA);
    }
  }
}

/**
 * The binding-item ("API") record of the conversion engine: the canonical
 * (namespace, name) key of an item, the name it is exported under to the
 * allow-list, and the rendering of conversion errors.
 */
module ConversionApi {
  import opened Wrappers

  /** A Rust identifier, kept as its text. */
  type Ident = string

  /** A C++ namespace path, outermost segment first. */
  type Namespace = seq<string>

  /** `TypeName::new(ns, name)`: a namespace paired with a bare name. */
  datatype TypeName = TypeName(ns: Namespace, name: string)

  /**
   * Opaque syntax fragments carried by an item but never inspected here
   * (`syn::ForeignItem`, `syn::Item`, the engine's `AdditionalNeed`): each is
   * kept only as its token text.
   */
  datatype SynForeignItem = SynForeignItem(tokens: string)
  datatype SynItem = SynItem(tokens: string)
  datatype AdditionalNeed = AdditionalNeed(tokens: string)

  /** Whether and how an item is exposed in the user-facing mods. */
  datatype Use = Unused | Used | UsedWithAlias(alias: Ident)

  /**
   * One candidate binding. `deps` are the edges a later garbage collection
   * walks; the optional fragments are what the item contributes to the output.
   */
  datatype Api = Api(
    ns: Namespace,
    id: Ident,
    useStmt: Use,
    deps: set<TypeName>,
    externCModItem: Option<SynForeignItem>,
    bridgeItem: Option<SynItem>,
    globalItems: seq<SynItem>,
    additionalCpp: Option<AdditionalNeed>,
    idForAllowlist: Option<Ident>,
    bindgenModItem: Option<SynItem>)

  /** The item's own key: its namespace and its declared identifier. */
  function Typename(api: Api): (t: TypeName)
    ensures t.ns == api.ns
  {
    TypeName(api.ns, api.id)
  }

  /**
   * The key exported to the allow-list. The explicit override wins, then
   * the alias a `UsedWithAlias` classification carries, then the item's own
   * identifier; the namespace is always the item's own.
   */
  function TypenameForAllowlist(api: Api): (t: TypeName)
    ensures t.ns == api.ns
    ensures api.idForAllowlist.Some? ==> t.name == api.idForAllowlist.value
    ensures api.idForAllowlist.None? && api.useStmt.UsedWithAlias? ==> t.name == api.useStmt.alias
    ensures api.idForAllowlist.None? && !api.useStmt.UsedWithAlias? ==> t == Typename(api)
  {
    var idForAllowlist :=
      match api.idForAllowlist
      case None =>
        (match api.useStmt
         case UsedWithAlias(alias) => alias
         case _ => api.id)
      case Some(id) => id;
    TypeName(api.ns, idForAllowlist)
  }

  // ---------------------------------------------------------------------
  // An independent statement of the allow-list precedence: the first
  // candidate present in the list (override, alias, own identifier).

  /** The alias a classification carries, if any. */
  function AliasOf(u: Use): Option<Ident>
  {
    if u.UsedWithAlias? then Some(u.alias) else None
  }

  /** The first present entry of `cands`, in order. */
  function FirstSome(cands: seq<Option<Ident>>): Option<Ident>
  {
    if cands == [] then None
    else if cands[0].Some? then cands[0]
    else FirstSome(cands[1..])
  }

  /** The allow-list key is the first of override, alias and identifier that is present. */
  lemma {:induction false} AllowlistPrecedence(api: Api)
    ensures FirstSome([api.idForAllowlist, AliasOf(api.useStmt), Some(api.id)]).Some?
    ensures TypenameForAllowlist(api)
         == TypeName(api.ns, FirstSome([api.idForAllowlist, AliasOf(api.useStmt), Some(api.id)]).value)
  {
    var cands := [api.idForAllowlist, AliasOf(api.useStmt), Some(api.id)];
    var rest := [AliasOf(api.useStmt), Some(api.id)];
    assert cands[1..] == rest && rest[1..] == [Some(api.id)];
    if cands[0].None? {
      assert FirstSome(cands) == FirstSome(rest);
      if rest[0].None? {
        assert FirstSome(rest) == FirstSome([Some(api.id)]) == Some(api.id);
      }
    }
  }

  /** Two items share a key exactly when they share namespace and identifier. */
  lemma TypenameIdentifies(a: Api, b: Api)
    ensures Typename(a) == Typename(b) <==> a.ns == b.ns && a.id == b.id
  {
  }

  /**
   * Neither key reads the classification-independent payload: items that
   * agree on namespace, identifier, use and override agree on both keys,
   * whatever their dependencies and fragments.
   */
  lemma KeysIgnorePayload(a: Api, b: Api)
    requires a.ns == b.ns && a.id == b.id
    requires a.useStmt == b.useStmt && a.idForAllowlist == b.idForAllowlist
    ensures Typename(a) == Typename(b)
    ensures TypenameForAllowlist(a) == TypenameForAllowlist(b)
  {
  }

  /** The allow-list key differs from the item's own key only when an override or alias renames it. */
  lemma AllowlistKeyDiffersOnlyWhenRenamed(api: Api)
    requires TypenameForAllowlist(api) != Typename(api)
    ensures api.idForAllowlist.Some? || api.useStmt.UsedWithAlias?
  {
  }

  // ---------------------------------------------------------------------
  // Conversion errors and their `Display` rendering.

  /** The closed set of failures of a conversion run. */
  datatype ConvertError =
    | NoContent
    | UnsafePODType(err: string)
    | UnexpectedForeignItem
    | UnexpectedOuterItem
    | UnexpectedItemInMod
    | ComplexTypedefTarget(ty: string)
    | UnexpectedThisType

  // The longer messages are built from pieces that begin with a short leading
  // phrase, so that their first characters are within the verifier's easy
  // reach. The three "unexpected code" messages share a leading sentence and a
  // closing hint; the `this` message is a single literal.
  const NoContentMessage: string :=
    "The initial run of 'bindgen'"
    + " did not generate any content. This might be because none of the requested items for generation could be converted."
  const UnsafePODPrefix: string :=
    "An item was requested"
    + " using 'generate_pod' which was not safe to hold by value in Rust. "
  const BindgenUnexpected: string :=
    "Bindgen generated some unexpected code"
  const GenerateHint: string :=
    " You may have specified something in a 'generate' directive which is not currently compatible with autocxx."
  const UnexpectedForeignItemMessage: string :=
    BindgenUnexpected + " in a foreign mod section." + GenerateHint
  const UnexpectedOuterItemMessage: string :=
    BindgenUnexpected + " in its outermost mod section." + GenerateHint
  const UnexpectedItemInModMessage: string :=
    BindgenUnexpected + " in an inner namespace mod." + GenerateHint
  const ComplexTypedefPrefix: string :=
    "autocxx was unable to produce a typdef"
    + " pointing to the complex type "
  const UnexpectedThisTypeMessage: string :=
    "Unexpected type for 'this'"

  /** The first character of each message, which already tells most variants apart. */
  function Initial(e: ConvertError): char
  {
    match e
    case NoContent => 'T'
    case UnsafePODType(_) => 'A'
    case ComplexTypedefTarget(_) => 'a'
    case UnexpectedThisType => 'U'
    case _ => 'B'
  }

  /**
   * The text `Display::fmt` writes for an error: never empty, and its first
   * character separates the no-content, unsafe-POD, typedef and `this`
   * errors from each other and from the three "unexpected code" errors.
   */
  function Display(e: ConvertError): (m: string)
    ensures |m| > 0 && m[0] == Initial(e)
  {
    match e
    case NoContent => NoContentMessage
    case UnsafePODType(err) => UnsafePODPrefix + err
    case UnexpectedForeignItem => UnexpectedForeignItemMessage
    case UnexpectedOuterItem => UnexpectedOuterItemMessage
    case UnexpectedItemInMod => UnexpectedItemInModMessage
    case ComplexTypedefTarget(ty) => ComplexTypedefPrefix + ty + "."
    case UnexpectedThisType => UnexpectedThisTypeMessage
  }

  /**
   * A payload-carrying message is its fixed sentence with the payload
   * embedded, so the payload can be read back from the message.
   */
  lemma DisplayEmbedsPayload(e: ConvertError)
    ensures e.UnsafePODType? ==>
      |Display(e)| == |UnsafePODPrefix| + |e.err| &&
      Display(e)[..|UnsafePODPrefix|] == UnsafePODPrefix &&
      Display(e)[|UnsafePODPrefix|..] == e.err
    ensures e.ComplexTypedefTarget? ==>
      |Display(e)| == |ComplexTypedefPrefix| + |e.ty| + 1 &&
      Display(e)[..|ComplexTypedefPrefix|] == ComplexTypedefPrefix &&
      Display(e)[|ComplexTypedefPrefix|..|Display(e)| - 1] == e.ty &&
      Display(e)[|Display(e)| - 1] == '.'
  {
  }

  /** Different errors are rendered as different messages. */
  lemma {:induction false} DisplayInjective(e1: ConvertError, e2: ConvertError)
    requires Display(e1) == Display(e2)
    ensures e1 == e2
  {
    assert Display(e1)[0] == Initial(e1) && Display(e2)[0] == Initial(e2);
    if e1.UnsafePODType? || e1.ComplexTypedefTarget? {
      DisplayEmbedsPayload(e1);
      DisplayEmbedsPayload(e2);
    }
  }
}

/** The special-exception table: built-in classes whose reraise builds a new
    error of a paired `Reraised*` variant instead of rewriting the payload. */
module SpecialKinds {
  import opened Wrappers
  import opened Kinds

  /** The table as Python 3 holds it after loading the module: the generated
      entries plus `FileNotFoundError`, added on Python 3 only. The generated
      code lists `OSError` twice; as a map key it is one entry. */
  const SpecialExceptionMap: map<Kind, Kind> := map[
    Builtin(KeyError) := Variant(ReraisedKeyError),
    Builtin(OSError) := Variant(ReraisedOSError),
    Builtin(SyntaxError) := Variant(ReraisedSyntaxError),
    Builtin(UnicodeDecodeError) := Variant(ReraisedUnicodeDecodeError),
    Builtin(UnicodeEncodeError) := Variant(ReraisedUnicodeEncodeError),
    Builtin(FileNotFoundError) := Variant(ReraisedFileNotFoundError)
  ]

  /** The classes the table names as keys. */
  const SpecialBuiltins: set<BuiltinKind> :=
    {KeyError, OSError, SyntaxError, UnicodeDecodeError, UnicodeEncodeError, FileNotFoundError}

  /** The variant that replaces an error of exact class `k`, if `k` is a key. */
  function SubstituteFor(k: Kind): (r: Option<Kind>)
    ensures r.Some? <==> (k.Builtin? && k.builtin in SpecialBuiltins)
    ensures r.Some? ==> r.value.Variant? && Parent(r.value) == Some(k)
    ensures r.Some? ==> IsA(r.value, k)
  {
    if k in SpecialExceptionMap then Some(SpecialExceptionMap[k]) else None
  }

  /** Every variant is the image of the built-in class it derives from. */
  lemma VariantIsMapped(s: Special)
    ensures Builtin(VariantBase(s)) in SpecialExceptionMap
    ensures SpecialExceptionMap[Builtin(VariantBase(s))] == Variant(s)
  {
  }

  /** Whether `k` is one of the table's values, i.e. an already-reraised error. */
  predicate IsReraisedVariant(k: Kind)
    ensures IsReraisedVariant(k) <==> k.Variant?
  {
    if k.Variant? then VariantIsMapped(k.special); k in SpecialExceptionMap.Values
    else k in SpecialExceptionMap.Values
  }

  /** A handler written for the original class, or for any of its ancestors,
      still catches the variant that replaces it. */
  lemma SubstituteStillCaught(k: Kind, handler: Kind)
    requires SubstituteFor(k).Some?
    requires IsA(k, handler)
    ensures IsA(SubstituteFor(k).value, handler)
  {
  }
}

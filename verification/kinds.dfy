/** Exception classes as the reraise library sees them: the Python 3 built-in
    classes it names, the generated `Reraised*` variants, and classes defined by
    calling code, together with the single-inheritance "is a" relation that
    `except` clauses and `isinstance` test. */
module Kinds {
  import opened Wrappers

  /** Built-in exception classes that matter to the library and its tests.
      `IOError` is an alias of `OSError` in Python 3, so it has no entry. */
  datatype BuiltinKind =
    | BaseException
    | Exception
    | ValueError
    | AttributeError
    | RuntimeError
    | LookupError
    | KeyError
    | OSError
    | FileNotFoundError
    | SyntaxError
    | UnicodeError
    | UnicodeDecodeError
    | UnicodeEncodeError

  /** The closed set of variant classes the library defines, one per special kind. */
  datatype Special =
    | ReraisedKeyError
    | ReraisedOSError
    | ReraisedSyntaxError
    | ReraisedUnicodeDecodeError
    | ReraisedUnicodeEncodeError
    | ReraisedFileNotFoundError

  /** The dynamic class of an error. */
  datatype Kind =
    | Builtin(builtin: BuiltinKind)
    | Variant(special: Special)
    | UserDefined(name: string, base: Kind)

  /** Python 3's direct superclass of each built-in class. */
  function BuiltinParent(b: BuiltinKind): Option<BuiltinKind>
  {
    match b
    case BaseException => None
    case Exception => Some(BaseException)
    case ValueError => Some(Exception)
    case AttributeError => Some(Exception)
    case RuntimeError => Some(Exception)
    case LookupError => Some(Exception)
    case KeyError => Some(LookupError)
    case OSError => Some(Exception)
    case FileNotFoundError => Some(OSError)
    case SyntaxError => Some(Exception)
    case UnicodeError => Some(ValueError)
    case UnicodeDecodeError => Some(UnicodeError)
    case UnicodeEncodeError => Some(UnicodeError)
  }

  /** The built-in class each `Reraised*` variant subclasses. */
  function VariantBase(s: Special): BuiltinKind
  {
    match s
    case ReraisedKeyError => KeyError
    case ReraisedOSError => OSError
    case ReraisedSyntaxError => SyntaxError
    case ReraisedUnicodeDecodeError => UnicodeDecodeError
    case ReraisedUnicodeEncodeError => UnicodeEncodeError
    case ReraisedFileNotFoundError => FileNotFoundError
  }

  /** Distance of a built-in class from `BaseException`. */
  function BuiltinDepth(b: BuiltinKind): nat
  {
    match b
    case BaseException => 0
    case Exception => 1
    case ValueError | AttributeError | RuntimeError | LookupError | OSError | SyntaxError => 2
    case KeyError | FileNotFoundError | UnicodeError => 3
    case UnicodeDecodeError | UnicodeEncodeError => 4
  }

  /** Distance of any class from the root of the hierarchy. */
  function Depth(k: Kind): nat
  {
    match k
    case Builtin(b) => BuiltinDepth(b)
    case Variant(s) => BuiltinDepth(VariantBase(s)) + 1
    case UserDefined(_, base) => Depth(base) + 1
  }

  /** Direct superclass; only `BaseException` has none. */
  function Parent(k: Kind): (p: Option<Kind>)
    ensures p.None? <==> k == Builtin(BaseException)
    ensures p.Some? ==> Depth(p.value) + 1 == Depth(k)
  {
    match k
    case Builtin(b) =>
      (match BuiltinParent(b)
       case None => None
       case Some(q) => Some(Builtin(q)))
    case Variant(s) => Some(Builtin(VariantBase(s)))
    case UserDefined(_, base) => Some(base)
  }

  /** `issubclass(k, ancestor)`: an `except ancestor` clause catches errors of class `k`. */
  predicate IsA(k: Kind, ancestor: Kind)
    decreases Depth(k)
    ensures IsA(k, ancestor) ==> Depth(ancestor) <= Depth(k)
  {
    k == ancestor || (Parent(k).Some? && IsA(Parent(k).value, ancestor))
  }

  /** A handler for an ancestor of an ancestor catches the class too. */
  lemma {:induction false} IsATransitive(a: Kind, b: Kind, c: Kind)
    requires IsA(a, b) && IsA(b, c)
    ensures IsA(a, c)
    decreases Depth(a)
  {
    if a != b {
      IsATransitive(Parent(a).value, b, c);
    }
  }
}

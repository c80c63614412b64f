# reraiseit, modelled in Dafny

A model of the `zerotk.reraiseit` library: `reraise(exception, message, separator='\n')`,
which puts a context line on top of an in-flight error's text and raises it again,
and `exception_to_unicode(exception)`, which turns an error into display text. The
Python objects become immutable values; raising becomes returning the error that
would propagate.

- `kinds.dfy` (`Kinds`): the exception classes involved, as a closed enumeration of
  Python 3 built-ins, the six `Reraised*` variants and user-defined classes with one
  base. Five variant classes are generated (`ReraisedOSError` is generated twice) and
  `ReraisedFileNotFoundError` is written by hand. It also defines the `issubclass` relation `IsA`.
- `special_kinds.dfy` (`SpecialKinds`): `_SPECIAL_EXCEPTION_MAP` as a Dafny `map`.
  Each key is a built-in class; its value is the variant that subclasses that key.
- `errors.dfy` (`Errors`): the error record, with fields `kind`, `args`, the
  `message` attribute, `reraised_message` and an opaque traceback. It also holds
  `Runtime`, the host behaviour the library calls but does not define. Native
  `str()`, Python 2 `unicode()`/`bytes()`, codecs and the locale's preferred
  encoding are all parameters of `Runtime`.
- `text_normalizer.dfy` (`TextNormalizer`): `exception_to_unicode`. On Python 3 it is
  `str()`. On Python 2 it is a ladder of decoders, and the first one that succeeds wins.
- `reraiser.dfy` (`Reraiser`): `reraise`, and chains of nested reraises.
- `scenarios.dfy` (`Scenarios`): the outcomes the library's test-suite pins down.

The docstring of `exception_to_unicode` (zerotk/reraiseit/_reraiseit.py:92-96)
describes a ladder whose last step always returns. The code can still let an
exception escape, and the model follows the code. Each way out is a `Failure` of
`ExceptionToUnicode`:

- `ConversionRaised`: the error's own `__str__` or `__unicode__` raises something
  the ladder does not catch. This covers `str()` on Python 3, `unicode()` on
  Python 2 and the Python 2 `bytes()` call after a decode error.
- `MessageNotText`: on Python 2 the encode-error branch asserts that `message` is
  text, and it is not.
- `NoMessageAttribute`: that branch reads `message`, and the error has none.
- `StrReturnedNonString`: on Python 3 a variant's `__str__` returns `message`, and
  that is not text (a freshly built variant holds `None`).

The same faults make `Reraise` fail, but only when no earlier reraise has stored a text.

## Model

| member | source | states |
|---|---|---|
| Kinds.IsA | zerotk/reraiseit/_reraiseit.py:165-233 | the "is a" relation that `except` and `isinstance` use; an ancestor is never deeper than its descendant |
| Kinds.IsATransitive | tests/reraiseit_test.py:261-266 | a handler for an ancestor of an ancestor also catches the class |
| SpecialKinds.SubstituteFor | zerotk/reraiseit/_reraiseit.py:213-233 | the keys are exactly KeyError, OSError, SyntaxError, UnicodeDecodeError, UnicodeEncodeError and FileNotFoundError; each maps to a variant whose direct superclass is the key, so the variant is-a the key |
| SpecialKinds.VariantIsMapped | zerotk/reraiseit/_reraiseit.py:165-220 | every generated variant is the value stored for the built-in class it subclasses |
| SpecialKinds.IsReraisedVariant | zerotk/reraiseit/_reraiseit.py:64 | an error's class is one of the table's values iff it is a `Reraised*` variant |
| SpecialKinds.SubstituteStillCaught | tests/reraiseit_test.py:266 | any handler that catches the original special class also catches the variant that replaces it |
| Errors.Construct | zerotk/reraiseit/_reraiseit.py:166-168 | constructing a variant keeps the args and leaves `message` as None; no `reraised_message` exists yet |
| TextNormalizer.FirstSuccess | zerotk/reraiseit/_reraiseit.py:92-96 | the result is the first strategy that succeeded; the last resort is used only when every strategy failed |
| TextNormalizer.Python3Str | zerotk/reraiseit/_reraiseit.py:170-171 | a variant shows exactly its `message` field and fails when that is not text (no attribute, or not a string); any other class shows its native `str()` and fails, with the raised error, exactly when that `str()` raises |
| TextNormalizer.Python2Unicode | zerotk/reraiseit/_reraiseit.py:103-123 | matches the reference ladder: unicode(), then UTF-8, then the locale encoding, then replace-decoding, which cannot fail; on an encode error it returns `message`; it fails exactly when unicode() raises something else, when `bytes()` raises after a decode error, or when `message` is not text in the encode-error branch |
| TextNormalizer.ExceptionToUnicode | zerotk/reraiseit/_reraiseit.py:103-125 | fails exactly when an exception escapes: on Python 2 when unicode() raises neither decode nor encode error, when `bytes()` raises after a decode error, or when `message` is not text in the encode-error branch; on Python 3 when a variant's `message` is not text or another class's `str()` raises |
| TextNormalizer.FreshVariantHasNoText | zerotk/reraiseit/_reraiseit.py:165-171 | a freshly built variant cannot be displayed on Python 3, because its `message` is None |
| Reraiser.Seamed | zerotk/reraiseit/_reraiseit.py:56-57 | the result starts with the separator and ends with the prior text; the separator is added iff the prior text lacks it |
| Reraiser.ComposeMessage | zerotk/reraiseit/_reraiseit.py:55-58 | the new text starts with newline+message, ends with the prior text, and the rest is the seamed prior text |
| Reraiser.CurrentMessage | zerotk/reraiseit/_reraiseit.py:50-53 | a stored `reraised_message` is reused verbatim; otherwise the prior text is the normalised text |
| Reraiser.Reraise | zerotk/reraiseit/_reraiseit.py:50-79 | succeeds iff a prior text is available; `message` and `reraised_message` both hold the composed text; traceback kept; special class → its variant with the same args; variant → class and args unchanged; any other class → same class, args exactly [new text]; every handler of the old class catches the result |
| Reraiser.ReraiseChain | tests/reraiseit_test.py:57-75 | across nested reraises: traceback kept, still caught by the original handlers, `message` equals `reraised_message`, a special class becomes its variant once and keeps the original args, other classes keep their class with args [final text] |
| Reraiser.ChainText | zerotk/reraiseit/_reraiseit.py:50-73 | after n ≥ 1 reraises with the default separator, the text is every context line, newest first, over the seamed original text |
| Reraiser.ReraiseOverCarriedLines | zerotk/reraiseit/_reraiseit.py:50-58 | reraising an error that carries earlier context lines adds only newline+message on top; no separator is doubled |
| Reraiser.ThreeNestedReraises | tests/reraiseit_test.py:57-79 | three reraises over text t that does not start with a newline give "\n"+m3+"\n"+m2+"\n"+m1+"\n"+t |
| Reraiser.ChainPropagatesFault | zerotk/reraiseit/_reraiseit.py:50-53 | when the prior text cannot be obtained, a chain of any length fails with exactly that fault: the first reraise lets it escape and no later one runs |
| Reraiser.CarriedTextIgnoresRuntime | zerotk/reraiseit/_reraiseit.py:72-73 | once a text is stored, the outcome of a reraise does not depend on normalisation or any host capability |
| Reraiser.ReraisedErrorShowsItsText | tests/reraiseit_test.py:267 | on Python 3, for a host whose native `str()` of an error with one text argument is that text, a reraised error displays exactly its new text, in every dispatch branch |
| Reraiser.ChainShowsItsText | tests/reraiseit_test.py:262-267 | the same, under the same hypothesis on native `str()`, after a whole chain of reraises |
| Scenarios.TestContextOver | tests/reraiseit_test.py:78-79 | the suite's three context lines over a text give the expected message |
| Scenarios.ValueErrorScenario | tests/reraiseit_test.py:170 | `ValueError('message')` stays a ValueError and reads "\nWhile doing y:\nWhile doing x:\nWhile doing 'bar'\nmessage" |
| Scenarios.KeyErrorScenario | tests/reraiseit_test.py:171 | `KeyError('message')` becomes ReraisedKeyError, is still a KeyError, keeps args ['message'], and reads the three lines over "'message'" |
| Scenarios.EmptyOSErrorScenario | tests/reraiseit_test.py:202 | `OSError()` with empty native text still gets the separator: it reads the three lines followed by a final newline |
| Scenarios.Python2BytesMessageScenario | tests/reraiseit_test.py:137-139 | on Python 2, reraising `MessageAttributeIsBytesException` (bytes `message`, `__str__` failing to encode) under the suite's three context lines ends with the assertion escaping from the first reraise, the suite's expected failure |

## Left out

- Traceback handling (`sys.exc_info()[-1]`, `with_traceback`, `six.reraise`): a
  traceback is an opaque field that `Reraise` carries unchanged. The frames each
  handler adds belong to the runtime and are not modelled.
- Native formatting: `str()` of a built-in (KeyError quoting, `[Errno n] ...`,
  SyntaxError text) is the parameter `nativeText`. The scenarios state the one fact
  about it they need as a hypothesis.
- Codecs and the locale: strict decoding is `decode(codec, bytes)`, the locale's
  encoding is `preferredEncoding`, and replace-decoding is a total function. All are
  parameters.
- Python 2 `bytes(e)` is called up to three times down the ladder. The model calls
  it once (`bytesOf`): a host whose later calls give different bytes is not modelled.
- Native `str()` is a function of the class and args (`nativeText`). An error whose
  `__str__` reads other state is modelled by its class's behaviour on those args.
- Python 2/3 switching through `six` is a `version` field. The special table is
  modelled as Python 3 holds it. `FileNotFoundError` does not exist on Python 2, so
  the Python 3-only entry cannot be reached there.
- The duplicated `ReraisedOSError` class and the duplicated `OSError` key are
  generation artefacts. As a map key the duplicate is one entry.
- Python 3 maps `OSError(2, ...)` to `FileNotFoundError` at construction time. This
  is runtime behaviour and is not modelled. Errors are built with the class they end
  up having.
- Classes with several bases are not modelled.
- Only an exact `Reraised*` class shows its `message` field. A user subclass of a
  variant is formatted by `nativeText`.
- Pickle round-trip of a reraised error: foreign serialisation.
- Packaging (`setup.py`) and the older duplicate test harness.

/** The error record the library works on, and the host capabilities it calls
    but does not define (native formatting, Python 2 conversions, codecs). */
module Errors {
  import opened Wrappers
  import opened Kinds

  newtype byte = x: int | 0 <= x < 256

  /** One construction argument of an exception (`exception.args[i]`). */
  datatype Arg = Str(text: string) | Bytes(bytes: seq<byte>) | Int(number: int)

  /** The state of an object's `message` attribute. */
  datatype Attr = Missing | NoneValue | Text(text: string) | Binary(bytes: seq<byte>)

  /** One frame of a traceback; carried, never inspected. */
  datatype Frame = Frame(file: string, line: nat)

  /** An in-flight error: its class, its `args`, its `message` attribute, the
      `reraised_message` attribute (absent until the first reraise) and the
      traceback the runtime associates with it. */
  datatype Error = Error(
    kind: Kind,
    args: seq<Arg>,
    message: Attr,
    reraisedMessage: Option<string>,
    traceback: seq<Frame>)

  /** Python failures that can escape from the library's own code. */
  datatype Fault =
    | StrReturnedNonString   // TypeError: a variant's `__str__` returned its non-text `message`
    | NoMessageAttribute     // AttributeError: `message` read but never set
    | MessageNotText         // AssertionError of the Python 2 encode-error branch
    | ConversionRaised       // whatever the error's own `__str__`/`__unicode__` raised, other than
                             // the two Unicode errors the Python 2 ladder catches

  /** Outcome of Python 2's `unicode(exception)`: text, one of the two Unicode
      errors the ladder catches, or any other exception, which escapes. */
  datatype Conversion = Converted(text: string) | DecodeFailed | EncodeFailed | Raised

  datatype Version = Python2 | Python3

  /** Host behaviour the model treats as uninterpreted:
      - `nativeText`: Python 3 `str()` of an error whose class does not define
        its own `__str__` in this library (quoting of KeyError, `[Errno n] ...`),
        `None` when that `__str__` raises;
      - `unicodeOf`, `bytesOf`: Python 2 `unicode(e)` and `bytes(e)`, the latter
        `None` when it raises;
      - `decode`: strict decoding with a named codec, `None` on UnicodeDecodeError;
      - `preferredEncoding`: `locale.getpreferredencoding()`;
      - `decodeReplacing`: default-codec decoding with `errors='replace'`, which cannot fail. */
  datatype Runtime = Runtime(
    version: Version,
    nativeText: (Kind, seq<Arg>) -> Option<string>,
    unicodeOf: Error -> Conversion,
    bytesOf: Error -> Option<seq<byte>>,
    decode: (string, seq<byte>) -> Option<string>,
    preferredEncoding: string,
    decodeReplacing: seq<byte> -> string)

  /** `kind(*args)`: a freshly constructed error. The `Reraised*` constructors
      set `message` to `None`; built-in Python 3 classes have no `message`. */
  function Construct(kind: Kind, args: seq<Arg>, traceback: seq<Frame>): (e: Error)
    ensures e.kind == kind && e.args == args && e.traceback == traceback
    ensures e.reraisedMessage.None?
    ensures kind.Variant? <==> e.message == NoneValue
  {
    Error(kind, args, if kind.Variant? then NoneValue else Missing, None, traceback)
  }
}

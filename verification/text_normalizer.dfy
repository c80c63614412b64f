/** `exception_to_unicode`: display text for an error. On Python 3 it is the
    native `str()`; on Python 2 it is a ladder of decoding strategies. */
module TextNormalizer {
  import opened Wrappers
  import opened Kinds
  import opened Errors

  const Utf8: string := "utf-8"

  /** The first strategy that produced text, or the last resort when none did. */
  function FirstSuccess(rungs: seq<Option<string>>, lastResort: string): (r: string)
    ensures (forall i | 0 <= i < |rungs| :: rungs[i].None?) ==> r == lastResort
    ensures forall i | 0 <= i < |rungs| && rungs[i].Some? ::
      (forall j | 0 <= j < i :: rungs[j].None?) ==> r == rungs[i].value
  {
    if |rungs| == 0 then lastResort
    else if rungs[0].Some? then rungs[0].value
    else FirstSuccess(rungs[1..], lastResort)
  }

  /** Python 3 `str(exception)`: a `Reraised*` variant shows its `message`
      attribute; any other class uses the native formatting, and whatever
      that raises escapes. */
  function Python3Str(rt: Runtime, e: Error): (r: Result<string, Fault>)
    ensures e.kind.Variant? ==> (r.Success? <==> e.message.Text?)
    ensures e.kind.Variant? && r.Success? ==> r.value == e.message.text
    ensures !e.kind.Variant? ==> (r.Success? <==> rt.nativeText(e.kind, e.args).Some?)
    ensures !e.kind.Variant? && r.Success? ==> r.value == rt.nativeText(e.kind, e.args).value
    ensures !e.kind.Variant? && r.Failure? ==> r.error == ConversionRaised
  {
    if e.kind.Variant? then
      match e.message
      case Text(t) => Success(t)
      case Missing => Failure(NoMessageAttribute)
      case _ => Failure(StrReturnedNonString)
    else
      match rt.nativeText(e.kind, e.args)
      case Some(t) => Success(t)
      case None => Failure(ConversionRaised)
  }

  /** The Python 2 ladder: `unicode(e)`; on a decode error, `bytes(e)` decoded
      as UTF-8, then with the locale's encoding, then with replacement; on an
      encode error, the `message` attribute, asserted to be text. Any other
      exception from `unicode(e)` or `bytes(e)` escapes. */
  function Python2Unicode(rt: Runtime, e: Error): (r: Result<string, Fault>)
    ensures rt.unicodeOf(e).Converted? ==> r == Success(rt.unicodeOf(e).text)
    ensures rt.unicodeOf(e).DecodeFailed? && rt.bytesOf(e).Some? ==>
      var b := rt.bytesOf(e).value;
      r == Success(FirstSuccess([rt.decode(Utf8, b), rt.decode(rt.preferredEncoding, b)], rt.decodeReplacing(b)))
    ensures rt.unicodeOf(e).EncodeFailed? && e.message.Text? ==> r == Success(e.message.text)
    ensures r.Failure? <==>
      || rt.unicodeOf(e).Raised?
      || (rt.unicodeOf(e).DecodeFailed? && rt.bytesOf(e).None?)
      || (rt.unicodeOf(e).EncodeFailed? && !e.message.Text?)
  {
    match rt.unicodeOf(e)
    case Converted(t) => Success(t)
    case Raised => Failure(ConversionRaised)
    case DecodeFailed =>
      (match rt.bytesOf(e)
       case None => Failure(ConversionRaised)
       case Some(b) =>
         match rt.decode(Utf8, b)
         case Some(t) => Success(t)
         case None =>
           match rt.decode(rt.preferredEncoding, b)
           case Some(t) => Success(t)
           case None => Success(rt.decodeReplacing(b)))
    case EncodeFailed =>
      match e.message
      case Text(t) => Success(t)
      case Missing => Failure(NoMessageAttribute)
      case _ => Failure(MessageNotText)
  }

  /** `exception_to_unicode(e)`: fails only where the source lets an exception
      escape: from the error's own conversion, from the Python 2 assertion, or
      from a variant whose `message` is not text. */
  function ExceptionToUnicode(rt: Runtime, e: Error): (r: Result<string, Fault>)
    ensures r.Failure? <==>
      || (rt.version == Python2 && rt.unicodeOf(e).Raised?)
      || (rt.version == Python2 && rt.unicodeOf(e).DecodeFailed? && rt.bytesOf(e).None?)
      || (rt.version == Python2 && rt.unicodeOf(e).EncodeFailed? && !e.message.Text?)
      || (rt.version == Python3 && e.kind.Variant? && !e.message.Text?)
      || (rt.version == Python3 && !e.kind.Variant? && rt.nativeText(e.kind, e.args).None?)
  {
    match rt.version
    case Python2 => Python2Unicode(rt, e)
    case Python3 => Python3Str(rt, e)
  }

  /** A freshly constructed variant has no text to show on Python 3: its
      `message` is `None` until a reraise stores one. */
  lemma FreshVariantHasNoText(rt: Runtime, s: Special, args: seq<Arg>, traceback: seq<Frame>)
    requires rt.version == Python3
    ensures ExceptionToUnicode(rt, Construct(Variant(s), args, traceback)) == Failure(StrReturnedNonString)
  {
  }
}

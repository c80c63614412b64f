/** `reraise`: prepend a context line to an in-flight error's text and
    propagate it again. Raising is modelled as returning the error that would
    propagate; a `Failure` is an exception escaping from the library itself. */
module Reraiser {
  import opened Wrappers
  import opened Kinds
  import opened SpecialKinds
  import opened Errors
  import opened TextNormalizer

  const DefaultSeparator: string := "\n"

  predicate StartsWith(s: string, prefix: string)
  {
    |prefix| <= |s| && s[..|prefix|] == prefix
  }

  predicate EndsWith(s: string, suffix: string)
  {
    |suffix| <= |s| && s[|s| - |suffix|..] == suffix
  }

  /** The prior text with a leading separator, added only when it is missing. */
  function Seamed(current: string, separator: string): (r: string)
    ensures StartsWith(r, separator) && EndsWith(r, current)
    ensures r == current <==> StartsWith(current, separator)
    ensures r == current || r == separator + current
  {
    if StartsWith(current, separator) then current
    else
      assert (separator + current)[..|separator|] == separator;
      separator + current
  }

  /** The new text: a newline and the context line on top of the seamed prior text. */
  function ComposeMessage(message: string, current: string, separator: string): (r: string)
    ensures StartsWith(r, "\n" + message)
    ensures EndsWith(r, current)
    ensures r[|message| + 1..] == Seamed(current, separator)
  {
    "\n" + message + Seamed(current, separator)
  }

  /** The prior text: the text kept by an earlier reraise, reused verbatim,
      otherwise the normalised text of the error. */
  function CurrentMessage(rt: Runtime, e: Error): (r: Result<string, Fault>)
    ensures e.reraisedMessage.Some? ==> r == Success(e.reraisedMessage.value)
    ensures e.reraisedMessage.None? ==> r == ExceptionToUnicode(rt, e)
  {
    match e.reraisedMessage
    case Some(m) => Success(m)
    case None => ExceptionToUnicode(rt, e)
  }

  /** `reraise(e, message, separator)`: the error that propagates. */
  function Reraise(rt: Runtime, e: Error, message: string, separator: string): (r: Result<Error, Fault>)
    ensures r.Success? <==> e.reraisedMessage.Some? || ExceptionToUnicode(rt, e).Success?
    ensures r.Failure? ==> r.error == ExceptionToUnicode(rt, e).error
    ensures r.Success? ==>
      var text := ComposeMessage(message, CurrentMessage(rt, e).value, separator);
      r.value.message == Text(text) && r.value.reraisedMessage == Some(text)
    ensures r.Success? ==> r.value.traceback == e.traceback
    ensures r.Success? && SubstituteFor(e.kind).Some? ==>
      r.value.kind == SubstituteFor(e.kind).value && r.value.args == e.args
    ensures r.Success? && e.kind.Variant? ==>
      r.value.kind == e.kind && r.value.args == e.args
    ensures r.Success? && SubstituteFor(e.kind).None? && !e.kind.Variant? ==>
      r.value.kind == e.kind && r.value.args == [Str(r.value.message.text)]
    ensures r.Success? ==> forall handler :: IsA(e.kind, handler) ==> IsA(r.value.kind, handler)
  {
    match CurrentMessage(rt, e)
    case Failure(f) => Failure(f)
    case Success(current) =>
      var text := ComposeMessage(message, current, separator);
      var rebuilt :=
        if e.kind in SpecialExceptionMap then
          Construct(SpecialExceptionMap[e.kind], e.args, e.traceback)
        else if !IsReraisedVariant(e.kind) then
          e.(args := [Str(text)])
        else
          e;
      Success(rebuilt.(message := Text(text), reraisedMessage := Some(text)))
  }

  /** The error after reraising with each of `messages` in turn (innermost
      handler first), always with the default separator. */
  function ReraiseChain(rt: Runtime, e: Error, messages: seq<string>): (r: Result<Error, Fault>)
    decreases |messages|
    ensures r.Success? ==> r.value.traceback == e.traceback
    ensures r.Success? ==> forall handler :: IsA(e.kind, handler) ==> IsA(r.value.kind, handler)
    ensures r.Success? && |messages| > 0 ==>
      r.value.message.Text? && r.value.reraisedMessage == Some(r.value.message.text)
    ensures r.Success? && |messages| > 0 && SubstituteFor(e.kind).Some? ==>
      r.value.kind == SubstituteFor(e.kind).value && r.value.args == e.args
    ensures r.Success? && e.kind.Variant? ==> r.value.kind == e.kind && r.value.args == e.args
    ensures r.Success? && |messages| > 0 && SubstituteFor(e.kind).None? && !e.kind.Variant? ==>
      r.value.kind == e.kind && r.value.message.Text? && r.value.args == [Str(r.value.message.text)]
  {
    if |messages| == 0 then Success(e)
    else
      match ReraiseChain(rt, e, messages[..|messages| - 1])
      case Failure(f) => Failure(f)
      case Success(x) => Reraise(rt, x, messages[|messages| - 1], DefaultSeparator)
  }

  /** The context lines of a chain as they appear in the final text: newest on top,
      each introduced by a newline. */
  function ContextLines(messages: seq<string>): (r: string)
    ensures |messages| > 0 ==> StartsWith(r, "\n")
  {
    if |messages| == 0 then ""
    else
      var rest := ContextLines(messages[..|messages| - 1]);
      assert ("\n" + messages[|messages| - 1] + rest)[..1] == "\n";
      "\n" + messages[|messages| - 1] + rest
  }

  /** After any number of reraises with the default separator the text is every
      context line, newest first, above the (seamed) text the error had before. */
  lemma {:induction false} ChainText(rt: Runtime, e: Error, messages: seq<string>, original: string)
    requires |messages| > 0
    requires CurrentMessage(rt, e) == Success(original)
    ensures ReraiseChain(rt, e, messages).Success?
    ensures ReraiseChain(rt, e, messages).value.reraisedMessage
      == Some(ContextLines(messages) + Seamed(original, DefaultSeparator))
    decreases |messages|
  {
    var inner := messages[..|messages| - 1];
    var m := messages[|messages| - 1];
    if |inner| == 0 {
      ChainFirst(rt, e, messages, original);
    } else {
      ChainText(rt, e, inner, original);
      ChainNext(rt, e, messages, ContextLines(inner), Seamed(original, DefaultSeparator));
    }
  }

  lemma ChainFirst(rt: Runtime, e: Error, messages: seq<string>, original: string)
    requires |messages| == 1
    requires CurrentMessage(rt, e) == Success(original)
    ensures ReraiseChain(rt, e, messages).Success?
    ensures ReraiseChain(rt, e, messages).value.reraisedMessage
      == Some(ContextLines(messages) + Seamed(original, DefaultSeparator))
  {
    var m := messages[0];
    assert ReraiseChain(rt, e, messages[..0]) == Success(e);
    assert ReraiseChain(rt, e, messages) == Reraise(rt, e, m, DefaultSeparator);
    assert ContextLines(messages[..0]) == "";
    assert ContextLines(messages) == "\n" + m;
    assert ContextLines(messages) + Seamed(original, DefaultSeparator)
      == ComposeMessage(m, original, DefaultSeparator);
    ReraiseStoresComposedText(rt, e, m, DefaultSeparator, original);
  }

  lemma ChainNext(rt: Runtime, e: Error, messages: seq<string>, lines: string, rest: string)
    requires |messages| > 1
    requires lines == ContextLines(messages[..|messages| - 1])
    requires ReraiseChain(rt, e, messages[..|messages| - 1]).Success?
    requires ReraiseChain(rt, e, messages[..|messages| - 1]).value.reraisedMessage == Some(lines + rest)
    ensures ReraiseChain(rt, e, messages).Success?
    ensures ReraiseChain(rt, e, messages).value.reraisedMessage == Some(ContextLines(messages) + rest)
  {
    var m := messages[|messages| - 1];
    var x := ReraiseChain(rt, e, messages[..|messages| - 1]).value;
    assert ReraiseChain(rt, e, messages) == Reraise(rt, x, m, DefaultSeparator);
    assert ContextLines(messages) == "\n" + m + lines;
    ReraiseOverCarriedLines(rt, x, m, lines, rest);
  }

  /** One more reraise over an error that already carries context lines puts
      the new line on top and leaves the carried text untouched. */
  lemma ReraiseOverCarriedLines(rt: Runtime, x: Error, m: string, lines: string, rest: string)
    requires StartsWith(lines, "\n")
    requires x.reraisedMessage == Some(lines + rest)
    ensures Reraise(rt, x, m, DefaultSeparator).Success?
    ensures Reraise(rt, x, m, DefaultSeparator).value.message == Text("\n" + m + lines + rest)
    ensures Reraise(rt, x, m, DefaultSeparator).value.reraisedMessage == Some("\n" + m + lines + rest)
  {
    var prior := lines + rest;
    PrefixExtends(lines, rest, "\n");
    assert Seamed(prior, DefaultSeparator) == prior;
    ReraiseStoresComposedText(rt, x, m, DefaultSeparator, prior);
    assert "\n" + m + prior == "\n" + m + lines + rest;
  }

  /** A reraise over a known prior text stores the composed text in both attributes. */
  lemma ReraiseStoresComposedText(rt: Runtime, e: Error, message: string, separator: string, prior: string)
    requires CurrentMessage(rt, e) == Success(prior)
    ensures Reraise(rt, e, message, separator).Success?
    ensures Reraise(rt, e, message, separator).value.message == Text(ComposeMessage(message, prior, separator))
    ensures Reraise(rt, e, message, separator).value.reraisedMessage == Some(ComposeMessage(message, prior, separator))
  {
  }

  lemma PrefixExtends(s: string, t: string, prefix: string)
    requires StartsWith(s, prefix)
    ensures StartsWith(s + t, prefix)
  {
    assert (s + t)[..|prefix|] == s[..|prefix|];
  }

  /** Three nested reraises over an error whose text does not start with a
      newline give the three context lines, newest first, then that text. */
  lemma ThreeNestedReraises(rt: Runtime, e: Error, original: string, m1: string, m2: string, m3: string)
    requires CurrentMessage(rt, e) == Success(original)
    requires !StartsWith(original, "\n")
    ensures ReraiseChain(rt, e, [m1, m2, m3]).Success?
    ensures ReraiseChain(rt, e, [m1, m2, m3]).value.message
      == Text("\n" + m3 + "\n" + m2 + "\n" + m1 + "\n" + original)
  {
    var lines := ContextLines([m1, m2, m3]);
    ContextLinesOfThree(m1, m2, m3);
    assert Seamed(original, DefaultSeparator) == "\n" + original;
    assert lines + Seamed(original, DefaultSeparator) == "\n" + m3 + "\n" + m2 + "\n" + m1 + "\n" + original;
    ChainText(rt, e, [m1, m2, m3], original);
  }

  lemma ContextLinesOfThree(m1: string, m2: string, m3: string)
    ensures ContextLines([m1, m2, m3]) == "\n" + m3 + "\n" + m2 + "\n" + m1
  {
    assert [m1][..0] == [];
    assert ContextLines([m1]) == "\n" + m1;
    assert [m1, m2][..1] == [m1];
    assert ContextLines([m1, m2]) == "\n" + m2 + "\n" + m1;
    assert [m1, m2, m3][..2] == [m1, m2];
  }

  /** Once an error carries the text of an earlier reraise, the normaliser and
      every other host capability are not consulted again. */
  lemma CarriedTextIgnoresRuntime(rt1: Runtime, rt2: Runtime, e: Error, message: string, separator: string)
    requires e.reraisedMessage.Some?
    ensures Reraise(rt1, e, message, separator) == Reraise(rt2, e, message, separator)
  {
  }

  /** Native formatting of an error with one text argument is that argument
      (true of `BaseException.__str__`, not of `KeyError`). */
  ghost predicate ShowsSoleArgument(rt: Runtime, k: Kind)
  {
    forall s: string :: rt.nativeText(k, [Str(s)]) == Some(s)
  }

  /** On Python 3 a reraised error displays exactly its new text, whichever
      branch built it, provided an ordinary class formats a lone argument as is. */
  lemma ReraisedErrorShowsItsText(rt: Runtime, e: Error, message: string, separator: string)
    requires rt.version == Python3
    requires Reraise(rt, e, message, separator).Success?
    requires SubstituteFor(e.kind).None? && !e.kind.Variant? ==> ShowsSoleArgument(rt, e.kind)
    ensures Reraise(rt, e, message, separator).value.message.Text?
    ensures ExceptionToUnicode(rt, Reraise(rt, e, message, separator).value)
      == Success(Reraise(rt, e, message, separator).value.message.text)
  {
  }

  /** The same after a whole chain of reraises. */
  lemma ChainShowsItsText(rt: Runtime, e: Error, messages: seq<string>)
    requires rt.version == Python3
    requires |messages| > 0
    requires ReraiseChain(rt, e, messages).Success?
    requires SubstituteFor(e.kind).None? && !e.kind.Variant? ==> ShowsSoleArgument(rt, e.kind)
    ensures ReraiseChain(rt, e, messages).value.message.Text?
    ensures ExceptionToUnicode(rt, ReraiseChain(rt, e, messages).value)
      == Success(ReraiseChain(rt, e, messages).value.message.text)
  {
    var inner := messages[..|messages| - 1];
    var x := ReraiseChain(rt, e, inner).value;
    ReraisedErrorShowsItsText(rt, x, messages[|messages| - 1], DefaultSeparator);
  }

  /** The library guards nothing: when the prior text cannot be obtained, the
      fault escapes from the first reraise and no later handler sees the error. */
  lemma {:induction false} ChainPropagatesFault(rt: Runtime, e: Error, messages: seq<string>)
    requires |messages| > 0
    requires CurrentMessage(rt, e).Failure?
    ensures ReraiseChain(rt, e, messages) == Failure(CurrentMessage(rt, e).error)
    decreases |messages|
  {
    var inner := messages[..|messages| - 1];
    if |inner| == 0 {
      assert ReraiseChain(rt, e, inner) == Success(e);
    } else {
      ChainPropagatesFault(rt, e, inner);
    }
  }
}

/** The outcomes the library's test-suite pins down, stated over the model.
    Host formatting enters only through the stated facts about `nativeText`. */
module Scenarios {
  import opened Wrappers
  import opened Kinds
  import opened SpecialKinds
  import opened Errors
  import opened TextNormalizer
  import opened Reraiser

  /** The three context lines the tests apply, innermost handler first. */
  const ContextBar: string := "While doing 'bar'"
  const ContextX: string := "While doing x:"
  const ContextY: string := "While doing y:"
  const TestContext: seq<string> := [ContextBar, ContextX, ContextY]

  /** The text the tests expect above the innermost message. */
  const ExpectedLines: string := "\n" + ContextY + "\n" + ContextX + "\n" + ContextBar + "\n"

  /** A text whose first character is not a newline needs the separator. */
  lemma NoLeadingNewline(s: string)
    requires |s| > 0 && s[0] != '\n'
    ensures !StartsWith(s, "\n")
  {
    assert s[..1][0] == s[0];
  }

  /** Reraising an error whose text is `original` (no leading newline) with
      the test's three messages yields the expected lines over `original`. */
  lemma TestContextOver(rt: Runtime, e: Error, original: string)
    requires CurrentMessage(rt, e) == Success(original)
    requires !StartsWith(original, "\n")
    ensures ReraiseChain(rt, e, TestContext).Success?
    ensures ReraiseChain(rt, e, TestContext).value.message == Text(ExpectedLines + original)
  {
    ThreeNestedReraises(rt, e, original, ContextBar, ContextX, ContextY);
  }

  /** `raise ValueError('message')`, reraised three times: the caught error is
      still a ValueError and reads as the three lines over `message`. */
  lemma ValueErrorScenario(rt: Runtime, traceback: seq<Frame>)
    requires rt.version == Python3
    requires ShowsSoleArgument(rt, Builtin(ValueError))
    ensures var r := ReraiseChain(rt, Construct(Builtin(ValueError), [Str("message")], traceback), TestContext);
      && r.Success?
      && r.value.kind == Builtin(ValueError)
      && ExceptionToUnicode(rt, r.value) == Success(ExpectedLines + "message")
  {
    var e := Construct(Builtin(ValueError), [Str("message")], traceback);
    assert SubstituteFor(e.kind).None?;
    OrdinaryErrorText(rt, e, "message");
    NoLeadingNewline("message");
    TestContextOver(rt, e, "message");
    ChainShowsItsText(rt, e, TestContext);
    var r := ReraiseChain(rt, e, TestContext);
    assert r.value.kind == Builtin(ValueError);
    assert r.value.message.text == ExpectedLines + "message";
  }

  /** An ordinary error built from one text argument reads as that text. */
  lemma OrdinaryErrorText(rt: Runtime, e: Error, text: string)
    requires rt.version == Python3
    requires e.reraisedMessage.None? && !e.kind.Variant?
    requires e.args == [Str(text)]
    requires ShowsSoleArgument(rt, e.kind)
    ensures CurrentMessage(rt, e) == Success(text)
  {
    assert rt.nativeText(e.kind, [Str(text)]) == Some(text);
  }

  /** `raise KeyError('message')`, reraised three times: the caught error is a
      `ReraisedKeyError`, still a KeyError, with the original payload, and reads
      as the three lines over KeyError's quoted native text. */
  lemma KeyErrorScenario(rt: Runtime, traceback: seq<Frame>)
    requires rt.version == Python3
    requires rt.nativeText(Builtin(KeyError), [Str("message")]) == Some("'message'")
    ensures var r := ReraiseChain(rt, Construct(Builtin(KeyError), [Str("message")], traceback), TestContext);
      && r.Success?
      && r.value.kind == Variant(ReraisedKeyError)
      && IsA(r.value.kind, Builtin(KeyError))
      && r.value.args == [Str("message")]
      && ExceptionToUnicode(rt, r.value) == Success(ExpectedLines + "'message'")
  {
    var e := Construct(Builtin(KeyError), [Str("message")], traceback);
    assert SubstituteFor(e.kind) == Some(Variant(ReraisedKeyError));
    assert CurrentMessage(rt, e) == Success("'message'");
    NoLeadingNewline("'message'");
    TestContextOver(rt, e, "'message'");
    ChainShowsItsText(rt, e, TestContext);
    var r := ReraiseChain(rt, e, TestContext);
    assert r.value.kind == Variant(ReraisedKeyError);
    assert r.value.message.text == ExpectedLines + "'message'";
  }

  /** `raise OSError()`, whose native text is empty: the separator is still
      added, so the expected lines end in a newline over nothing. */
  lemma EmptyOSErrorScenario(rt: Runtime, traceback: seq<Frame>)
    requires rt.version == Python3
    requires rt.nativeText(Builtin(OSError), []) == Some("")
    ensures var r := ReraiseChain(rt, Construct(Builtin(OSError), [], traceback), TestContext);
      && r.Success?
      && r.value.kind == Variant(ReraisedOSError)
      && r.value.args == []
      && ExceptionToUnicode(rt, r.value) == Success(ExpectedLines)
  {
    var e := Construct(Builtin(OSError), [], traceback);
    var r := ReraiseChain(rt, e, TestContext);
    assert SubstituteFor(e.kind) == Some(Variant(ReraisedOSError));
    TestContextOver(rt, e, "");
    assert r.value.message == Text(ExpectedLines) by {
      assert ExpectedLines + "" == ExpectedLines;
    }
    ChainShowsItsText(rt, e, TestContext);
  }

  /** The suite's `MessageAttributeIsBytesException`: a user class whose
      constructor sets no args and a bytes `message`. */
  function BytesMessageError(message: seq<byte>, traceback: seq<Frame>): Error
  {
    Error(UserDefined("MessageAttributeIsBytesException", Builtin(Exception)), [], Binary(message), None, traceback)
  }

  /** On Python 2 its `unicode()` fails to encode, so the first reraise of the
      suite's three reaches the assertion on `message`, and that AssertionError
      escapes instead of the error: the one case the suite expects to fail. */
  lemma Python2BytesMessageScenario(rt: Runtime, message: seq<byte>, traceback: seq<Frame>)
    requires rt.version == Python2
    requires rt.unicodeOf(BytesMessageError(message, traceback)) == EncodeFailed
    ensures ReraiseChain(rt, BytesMessageError(message, traceback), TestContext) == Failure(MessageNotText)
  {
    var e := BytesMessageError(message, traceback);
    assert CurrentMessage(rt, e) == Failure(MessageNotText);
    ChainPropagatesFault(rt, e, TestContext);
  }
}

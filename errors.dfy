/** The three error classes the SDK throws, with their `name` and `message` properties. */
module Errors {

  datatype SdkError =
    | InvalidSignatureLink
    | IframeContainerNotFound(iframeContainerId: string)
    | InvalidCallbackFunction(eventType: string)

  function ErrorName(e: SdkError): string {
    match e
    case InvalidSignatureLink => "InvalidSignatureLink"
    case IframeContainerNotFound(_) => "IframeContainerNotFound"
    case InvalidCallbackFunction(_) => "InvalidCallbackFunction"
  }

  function Message(e: SdkError): string {
    match e
    case InvalidSignatureLink => "The signature link is invalid."
    case IframeContainerNotFound(id) => "The iFrame container with the id \"" + id + "\" is not found."
    case InvalidCallbackFunction(t) => "Callback on " + t + " event is not a function."
  }

  /** The three error kinds carry pairwise distinct names. */
  lemma ErrorNameDeterminesKind(a: SdkError, b: SdkError)
    requires ErrorName(a) == ErrorName(b)
    ensures a.InvalidSignatureLink? == b.InvalidSignatureLink?
    ensures a.IframeContainerNotFound? == b.IframeContainerNotFound?
  {
  }

  /** A message determines the error it was built from: the container id and the
      event name can be read back out of it. */
  lemma MessageInjective(a: SdkError, b: SdkError)
    requires Message(a) == Message(b)
    ensures a == b
  {
    var m := Message(a);
    match a
    case InvalidSignatureLink =>
      assert m[0] == 'T' && m[4] == 's';
    case IframeContainerNotFound(x) =>
      assert m[0] == 'T' && m[4] == 'i';
      if b.IframeContainerNotFound? {
        var y := b.iframeContainerId;
        var pre := "The iFrame container with the id \"";
        var post := "\" is not found.";
        assert |x| == |y|;
        assert x == m[|pre|..|m| - |post|];
        assert y == m[|pre|..|m| - |post|];
      }
    case InvalidCallbackFunction(x) =>
      assert m[0] == 'C';
      if b.InvalidCallbackFunction? {
        var y := b.eventType;
        var pre := "Callback on ";
        var post := " event is not a function.";
        assert |x| == |y|;
        assert x == m[|pre|..|m| - |post|];
        assert y == m[|pre|..|m| - |post|];
      }
  }
}

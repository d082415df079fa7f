/** The `Yousign` class: one embedding session, with its callback registry, the
    frame's navigation target, and whether its message listener is attached. */
module Session {
  import opened Values
  import opened Events
  import opened Errors
  import opened Query
  import opened Registry
  import opened Messages

  /** What the `URL` library yields for a link that parses: its serialisation `href`,
      the serialisation after `searchParams.append('disable_domain_validation', 'true')`,
      and its query as name-value pairs before that append. */
  datatype ParsedLink = ParsedLink(href: string, sandboxHref: string, searchParams: seq<QueryParam>)

  /** The configuration object passed to the constructor. */
  datatype Config = Config(signatureLink: string, iframeContainerId: string, isSandbox: bool)

  /** What a successful construction fixes: the frame's first target and `urlParams`. */
  datatype Setup = Setup(src: string, urlParams: seq<QueryParam>)

  const SandboxParam := "disable_domain_validation"

  /** The validation and set-up steps of the constructor. `parse` is `new URL(...)`
      (`None` when it throws); `dom` holds the ids of the document's elements. The link
      is checked first, so a bad link is reported even when the container is missing. */
  function Initialise(config: Config, parse: string -> Option<ParsedLink>, dom: set<string>): (r: Result<Setup, SdkError>)
    ensures r == Err(InvalidSignatureLink) <==> parse(config.signatureLink).None?
    ensures r == Err(IframeContainerNotFound(config.iframeContainerId))
        <==> parse(config.signatureLink).Some? && config.iframeContainerId !in dom
    ensures r.Ok? <==> parse(config.signatureLink).Some? && config.iframeContainerId in dom
    ensures r.Ok? ==> r.value.src == (if config.isSandbox then parse(config.signatureLink).value.sandboxHref
                                            else parse(config.signatureLink).value.href)
    ensures r.Ok? ==> Get(r.value.urlParams, "k") == Get(parse(config.signatureLink).value.searchParams, "k")
  {
    match parse(config.signatureLink)
    case None => Err(InvalidSignatureLink)
    case Some(link) =>
      if config.iframeContainerId !in dom then Err(IframeContainerNotFound(config.iframeContainerId))
      else if config.isSandbox then
        GetAfterAppendOther(link.searchParams, SandboxParam, "true", "k");
        Ok(Setup(link.sandboxHref, Append(link.searchParams, SandboxParam, "true")))
      else Ok(Setup(link.href, link.searchParams))
  }

  class Yousign {
    var eventCallbacks: Callbacks
    var iframeSrc: string
    var listening: bool
    const childOrigin: OriginPattern.Pattern
    const urlParams: seq<QueryParam>

    /** The field initialisation of a construction that passed both checks: an empty
        registry, the frame pointed at the link, the listener attached. */
    constructor Init(setup: Setup)
      ensures eventCallbacks == map[] && iframeSrc == setup.src && listening
      ensures urlParams == setup.urlParams
      ensures childOrigin == OriginPattern.ChildOrigin
    {
      childOrigin := OriginPattern.ChildOrigin;
      eventCallbacks := map[];
      urlParams := setup.urlParams;
      iframeSrc := setup.src;
      listening := true;
    }

    /** `new Yousign(config)`: the link is parsed, then the container looked up, then
        the sandbox parameter appended, the frame pointed at the link and the listener
        attached. */
    static method Create(config: Config, parse: string -> Option<ParsedLink>, dom: set<string>)
      returns (r: Result<Yousign, SdkError>)
      ensures Initialise(config, parse, dom).Err? ==> r == Err(Initialise(config, parse, dom).error)
      ensures Initialise(config, parse, dom).Ok? ==>
                && r.Ok? && fresh(r.value)
                && r.value.eventCallbacks == map[] && r.value.listening
                && r.value.childOrigin == OriginPattern.ChildOrigin
                && r.value.iframeSrc == Initialise(config, parse, dom).value.src
                && r.value.urlParams == Initialise(config, parse, dom).value.urlParams
    {
      var sLink := parse(config.signatureLink);
      if sLink.None? {
        return Err(InvalidSignatureLink);
      }
      if config.iframeContainerId !in dom {
        return Err(IframeContainerNotFound(config.iframeContainerId));
      }
      var link := sLink.value;
      var src := link.href;
      var params := link.searchParams;
      if config.isSandbox {
        params := Append(params, SandboxParam, "true");
        src := link.sandboxHref;
      }
      var session := new Yousign.Init(Setup(src, params));
      return Ok(session);
    }

    /** `this.urlParams.k`: the signature link's `k` parameter, or `null`. */
    function K(): Option<string> {
      Get(urlParams, "k")
    }

    /** `receiveMessage(event)`: invoked by the platform for every message while the
        listener is attached. The registry is outside its frame. */
    method ReceiveMessage(ev: MessageEvent) returns (r: Reaction)
      modifies this`iframeSrc
      ensures r == Route(eventCallbacks, K(), childOrigin, ev)
      ensures iframeSrc == if r.Handled? && r.redirect.Some? then r.redirect.value else old(iframeSrc)
      ensures eventCallbacks == old(eventCallbacks) && listening == old(listening)
    {
      var invoked: Option<Invocation> := None;
      if OriginPattern.Matches(childOrigin, ev.origin) {
        if ev.data.None? {
          return ThrewTypeError;
        }
        var data := ev.data.value;
        if data.messageType == Some(SigningFamily) {
          var kind := FromName(data.event);
          if kind.Some? && kind.value in eventCallbacks {
            invoked := Some(Invocation(eventCallbacks[kind.value], data));
          }
        }
      }
      if ev.data.None? {
        return ThrewTypeError;
      }
      var data := ev.data.value;
      var redirect: Option<string> := None;
      if data.messageType == Some(RedirectFamily) {
        if data.payload.None? {
          return ThrewTypeError;
        }
        var url := data.payload.value.redirectUrl;
        if Truthy(url) {
          iframeSrc := url.value + "&k=" + TemplateText(K());
          redirect := Some(iframeSrc);
        }
      }
      return Handled(invoked, redirect);
    }

    /** The platform delivering a message to this session: only an attached listener
        runs; a detached one sees nothing and changes nothing. */
    method Deliver(ev: MessageEvent) returns (r: Option<Reaction>)
      modifies this`iframeSrc
      ensures listening ==> r == Some(Route(eventCallbacks, K(), childOrigin, ev))
      ensures listening && r.value.Handled? && r.value.redirect.Some? ==> iframeSrc == r.value.redirect.value
      ensures !(listening && r.value.Handled? && r.value.redirect.Some?) ==> iframeSrc == old(iframeSrc)
      ensures !listening ==> r.None?
      ensures eventCallbacks == old(eventCallbacks) && listening == old(listening)
    {
      if listening {
        var reaction := ReceiveMessage(ev);
        return Some(reaction);
      }
      return None;
    }

    /** The registration shared by the six `onX` methods. */
    method Subscribe(kind: EventKind, fn: Argument) returns (thrown: Option<SdkError>)
      modifies this`eventCallbacks
      ensures Registration(eventCallbacks, thrown) == Register(old(eventCallbacks), kind, fn)
    {
      if fn.NonFunction? {
        return Some(InvalidCallbackFunction(Name(kind)));
      }
      eventCallbacks := eventCallbacks[kind := fn.callback];
      return None;
    }

    method OnStarted(fn: Argument) returns (thrown: Option<SdkError>)
      modifies this`eventCallbacks
      ensures Registration(eventCallbacks, thrown) == Register(old(eventCallbacks), Started, fn)
    {
      thrown := Subscribe(Started, fn);
    }

    method OnSuccess(fn: Argument) returns (thrown: Option<SdkError>)
      modifies this`eventCallbacks
      ensures Registration(eventCallbacks, thrown) == Register(old(eventCallbacks), EventKind.Success, fn)
    {
      thrown := Subscribe(EventKind.Success, fn);
    }

    method OnError(fn: Argument) returns (thrown: Option<SdkError>)
      modifies this`eventCallbacks
      ensures Registration(eventCallbacks, thrown) == Register(old(eventCallbacks), EventKind.Error, fn)
    {
      thrown := Subscribe(EventKind.Error, fn);
    }

    method OnPing(fn: Argument) returns (thrown: Option<SdkError>)
      modifies this`eventCallbacks
      ensures Registration(eventCallbacks, thrown) == Register(old(eventCallbacks), Ping, fn)
    {
      thrown := Subscribe(Ping, fn);
    }

    method OnDeclined(fn: Argument) returns (thrown: Option<SdkError>)
      modifies this`eventCallbacks
      ensures Registration(eventCallbacks, thrown) == Register(old(eventCallbacks), Declined, fn)
    {
      thrown := Subscribe(Declined, fn);
    }

    method OnSignatureDone(fn: Argument) returns (thrown: Option<SdkError>)
      modifies this`eventCallbacks
      ensures Registration(eventCallbacks, thrown) == Register(old(eventCallbacks), SignatureDone, fn)
    {
      thrown := Subscribe(SignatureDone, fn);
    }

    /** `removeMessageListener()`: detaches the listener; detaching again changes nothing. */
    method RemoveMessageListener()
      modifies this`listening
      ensures !listening
    {
      listening := false;
    }
  }

  /** A sandbox session built from a link whose query holds `k=ABC123` follows a
      redirect instruction to `https://x.test/v&k=ABC123`: the appended sandbox
      parameter does not disturb `k`. Returns the frame target afterwards. */
  method RedirectCarriesLinkK(parse: string -> Option<ParsedLink>, dom: set<string>, link: ParsedLink, origin: string)
    returns (src: string)
    requires parse("https://yousign.app/signatures/1?k=ABC123") == Some(link)
    requires link.searchParams == [QueryParam("k", "ABC123")]
    requires "container" in dom
    ensures src == "https://x.test/v&k=ABC123"
  {
    var config := Config("https://yousign.app/signatures/1?k=ABC123", "container", true);
    var created := Yousign.Create(config, parse, dom);
    var session := created.value;
    assert session.K() == Some("ABC123");
    var data := MessageData(Some("__ubble"), "", Some(Payload(Some("https://x.test/v"))));
    RedirectFromAnyOrigin(session.eventCallbacks, session.K(), session.childOrigin, origin, data, "https://x.test/v");
    var reaction := session.Deliver(MessageEvent(origin, Some(data)));
    src := session.iframeSrc;
  }

  /** A session built from a link with no `k` parameter follows a redirect
      instruction to `https://x.test/v&k=null`: the missing value is rendered as
      the text "null". Returns the frame target afterwards. */
  method RedirectWithoutLinkK(parse: string -> Option<ParsedLink>, dom: set<string>, link: ParsedLink, origin: string)
    returns (src: string)
    requires parse("https://yousign.app/signatures/1") == Some(link)
    requires forall i :: 0 <= i < |link.searchParams| ==> link.searchParams[i].name != "k"
    requires "container" in dom
    ensures src == "https://x.test/v&k=null"
  {
    var config := Config("https://yousign.app/signatures/1", "container", false);
    var created := Yousign.Create(config, parse, dom);
    var session := created.value;
    assert TemplateText(session.K()) == "null";
    var data := MessageData(Some("__ubble"), "", Some(Payload(Some("https://x.test/v"))));
    RedirectFromAnyOrigin(session.eventCallbacks, session.K(), session.childOrigin, origin, data, "https://x.test/v");
    var reaction := session.Deliver(MessageEvent(origin, Some(data)));
    src := session.iframeSrc;
  }

  /** A host's session from construction to teardown: callers can derive every
      step's outcome from the contracts alone. */
  method SigningLifecycle(parse: string -> Option<ParsedLink>, dom: set<string>, link: ParsedLink, origin: string)
    requires parse("https://yousign.app/signatures/1?k=ABC123") == Some(link)
    requires "container" in dom
    requires OriginPattern.Matches(OriginPattern.ChildOrigin, origin)
  {
    var config := Config("https://yousign.app/signatures/1?k=ABC123", "container", false);
    var created := Yousign.Create(config, parse, dom);
    assert created.Ok?;
    var session := created.value;
    assert session.iframeSrc == link.href;

    var refused := session.OnSuccess(NonFunction);
    assert refused == Some(InvalidCallbackFunction("success"));
    assert session.eventCallbacks == map[];

    var accepted := session.OnSuccess(Function(Callback(7)));
    assert accepted.None? && session.eventCallbacks == map[EventKind.Success := Callback(7)];

    var data := MessageData(Some("yousign"), "success", None);
    var reaction := session.Deliver(MessageEvent(origin, Some(data)));
    TrustedDispatch(session.eventCallbacks, session.K(), session.childOrigin, origin, data, EventKind.Success);
    assert reaction == Some(Handled(Some(Invocation(Callback(7), data)), None));

    session.RemoveMessageListener();
    var late := session.Deliver(MessageEvent(origin, Some(data)));
    assert late.None?;
  }
}

/** The message router `receiveMessage`: what a session does with one inbound
    `message` event, as a function of the registry and of the link's `k` parameter. */
module Messages {
  import opened Values
  import opened Events
  import opened OriginPattern
  import opened Registry

  /** `data.payload`: `redirectUrl` is a string or absent. */
  datatype Payload = Payload(redirectUrl: Option<string>)

  /** A non-null `data` object. `messageType` is `data.type` when it is a string;
      `event` is the property key `data.event` is read under; `payload` is `None`
      when `data.payload` is `null` or `undefined`. */
  datatype MessageData = MessageData(messageType: Option<string>, event: string, payload: Option<Payload>)

  /** A `MessageEvent`: the sender's origin and `data`, where `None` is `null` or `undefined`. */
  datatype MessageEvent = MessageEvent(origin: string, data: Option<MessageData>)

  /** A call of a registered handler with its argument. */
  datatype Invocation = Invocation(handler: Callback, argument: MessageData)

  /** What handling one message did: the handler it called (if any) and the new
      frame target it set (if any); or the `TypeError` a `null` `data`, or a redirect
      message without `payload`, makes the source throw. */
  datatype Reaction = Handled(invoked: Option<Invocation>, redirect: Option<string>) | ThrewTypeError

  const SigningFamily := "yousign"
  const RedirectFamily := "__ubble"

  /** The frame target the redirect sub-protocol sets: `${redirectUrl}&k=${k}`. */
  function RedirectTarget(redirectUrl: string, k: Option<string>): (t: string)
    ensures |t| == |redirectUrl| + 3 + |TemplateText(k)|
    ensures t[..|redirectUrl|] == redirectUrl
    ensures t[|redirectUrl|..|redirectUrl| + 3] == "&k="
    ensures t[|redirectUrl| + 3..] == TemplateText(k)
  {
    redirectUrl + "&k=" + TemplateText(k)
  }

  /** The first decision: the handler a trusted signing-event message selects. */
  function Dispatched(reg: Callbacks, trusted: Pattern, origin: string, data: MessageData): Option<Invocation> {
    if Matches(trusted, origin) && data.messageType == Some(SigningFamily) then
      match FromName(data.event)
      case Some(kind) => if kind in reg then Some(Invocation(reg[kind], data)) else None
      case None => None
    else None
  }

  /** The second decision, taken whatever the origin: the target a redirect instruction sets. */
  function Redirected(k: Option<string>, data: MessageData): Option<string>
    requires data.messageType == Some(RedirectFamily) ==> data.payload.Some?
  {
    if data.messageType == Some(RedirectFamily) && Truthy(data.payload.value.redirectUrl)
    then Some(RedirectTarget(data.payload.value.redirectUrl.value, k))
    else None
  }

  /** `receiveMessage(event)` against the registry `reg`, the link's `k` and the
      session's trusted-origin pattern. */
  function Route(reg: Callbacks, k: Option<string>, trusted: Pattern, ev: MessageEvent): (r: Reaction)
    ensures r.ThrewTypeError? <==>
              ev.data.None? || (ev.data.value.messageType == Some(RedirectFamily) && ev.data.value.payload.None?)
    ensures r.Handled? && r.invoked.Some? ==> r.invoked.value.argument == ev.data.value
    ensures r.Handled? && r.invoked.Some? ==> r.redirect.None?
  {
    match ev.data
    case None => ThrewTypeError
    case Some(data) =>
      if data.messageType == Some(RedirectFamily) && data.payload.None? then ThrewTypeError
      else Handled(Dispatched(reg, trusted, ev.origin, data), Redirected(k, data))
  }

  /** A trusted signing-event message for a registered kind calls exactly that kind's
      handler, once, with the whole `data`, and does nothing else. */
  lemma TrustedDispatch(reg: Callbacks, k: Option<string>, trusted: Pattern, origin: string, data: MessageData, kind: EventKind)
    requires Matches(trusted, origin)
    requires data.messageType == Some(SigningFamily) && data.event == Name(kind) && kind in reg
    ensures Route(reg, k, trusted, MessageEvent(origin, Some(data))) == Handled(Some(Invocation(reg[kind], data)), None)
  {
  }

  /** Conversely, a handler is called only for a trusted signing-event message naming
      a registered kind, and it is the handler registered for that kind. */
  lemma DispatchOnlyWhenTrusted(reg: Callbacks, k: Option<string>, trusted: Pattern, ev: MessageEvent)
    requires Route(reg, k, trusted, ev).Handled? && Route(reg, k, trusted, ev).invoked.Some?
    ensures ev.data.Some? && Matches(trusted, ev.origin)
    ensures ev.data.value.messageType == Some(SigningFamily)
    ensures FromName(ev.data.value.event).Some? && FromName(ev.data.value.event).value in reg
    ensures Route(reg, k, trusted, ev).invoked.value.handler == reg[FromName(ev.data.value.event).value]
  {
  }

  /** A message from an origin the pattern rejects never calls a handler. */
  lemma UntrustedNeverDispatches(reg: Callbacks, k: Option<string>, trusted: Pattern, ev: MessageEvent)
    requires !Matches(trusted, ev.origin)
    ensures Route(reg, k, trusted, ev).ThrewTypeError? || Route(reg, k, trusted, ev).invoked.None?
  {
  }

  /** Under the session's pattern `^https:\/\/yousign.app$`: an origin that is not
      "https://yousign", one character `.` accepts, and "app" never calls a handler,
      whatever the message's `type` and `event`. */
  lemma ForeignOriginNeverDispatches(reg: Callbacks, k: Option<string>, ev: MessageEvent)
    requires !(|ev.origin| == 19 && ev.origin[..15] == TrustedPrefix && DotAccepts(ev.origin[15])
               && ev.origin[16..] == TrustedSuffix)
    ensures Route(reg, k, ChildOrigin, ev).ThrewTypeError? || Route(reg, k, ChildOrigin, ev).invoked.None?
  {
    ChildOriginExactly(ev.origin);
    UntrustedNeverDispatches(reg, k, ChildOrigin, ev);
  }

  /** A signing-event message whose event has no registered handler has no effect. */
  lemma UnregisteredEventIgnored(reg: Callbacks, k: Option<string>, trusted: Pattern, origin: string, data: MessageData)
    requires data.messageType == Some(SigningFamily)
    requires FromName(data.event).None? || FromName(data.event).value !in reg
    ensures Route(reg, k, trusted, MessageEvent(origin, Some(data))) == Handled(None, None)
  {
  }

  /** A redirect instruction with a non-empty `redirectUrl` sets the frame target to
      `redirectUrl + "&k=" + k`, from any origin, and calls no handler. */
  lemma RedirectFromAnyOrigin(reg: Callbacks, k: Option<string>, trusted: Pattern, origin: string, data: MessageData, url: string)
    requires data.messageType == Some(RedirectFamily) && data.payload == Some(Payload(Some(url))) && url != ""
    ensures Route(reg, k, trusted, MessageEvent(origin, Some(data))) == Handled(None, Some(url + "&k=" + TemplateText(k)))
  {
  }

  /** Any other family, or an empty or absent `redirectUrl`, leaves the frame target alone. */
  lemma NoRedirectOtherwise(reg: Callbacks, k: Option<string>, trusted: Pattern, ev: MessageEvent)
    requires ev.data.Some?
    requires ev.data.value.messageType != Some(RedirectFamily)
          || (ev.data.value.payload.Some? && !Truthy(ev.data.value.payload.value.redirectUrl))
    ensures Route(reg, k, trusted, ev).Handled? && Route(reg, k, trusted, ev).redirect.None?
  {
  }
}

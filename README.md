# Yousign iframe SDK — message router and callback registry

This project models the `Yousign` class of the Yousign embedded-signature SDK
(`iframe-sdk-1.6.0.js`) and proves properties of the model. A session embeds the
signing page in an iframe. Its state is:

- `eventCallbacks`, one handler slot for each of the six signing events
  (`started`, `success`, `error`, `ping`, `declined`, `signature.done`);
- `iframe.src`, the frame's navigation target;
- whether its `message` listener is attached.

It has three kinds of operations:

- The six `onX` registrations. Each one refuses a non-function, and otherwise
  overwrites its own slot.
- `receiveMessage`, which makes two independent decisions about each inbound
  message. First, a `yousign` message from an origin that matches
  `^https:\/\/yousign.app$` calls the handler registered for its event. Second, an
  `__ubble` message with a non-empty `redirectUrl` re-targets the frame to
  `redirectUrl + "&k=" + k`, whatever its origin.
- The constructor and `removeMessageListener`. The constructor checks the link
  before the container, points the frame at the link and attaches the listener.
  `removeMessageListener` detaches it.

Modules, one per concept:

- `Values`: `Option` and `Result`, plus JavaScript truthiness and template-literal
  rendering of `null`.
- `Events`: the `EventType` enumeration and its wire names.
- `Errors`: the three error classes, with their names and messages.
- `OriginPattern`: the regular expression as a sequence of atoms, with a matcher
  that follows `String.prototype.match` for a pattern without flags.
- `Query`: `URLSearchParams` as name–value pairs, with `get` and `append`.
- `Registry`: what one registration does to the registry.
- `Messages`: the pure specification `Route` of `receiveMessage`, and the
  dispatch and redirect properties.
- `Session`: the imperative class `Yousign`. Its fields are `eventCallbacks`,
  `iframeSrc`, `listening`, `childOrigin` and `urlParams`. The registrations state
  their new state in terms of `Registry.Register`, and `ReceiveMessage` and
  `Deliver` in terms of `Messages.Route`. `Create` states its result in terms of
  `Session.Initialise`, `Init` in terms of the `Setup` it is given, and
  `RemoveMessageListener` as `!listening` with the other fields unchanged.

Modelling choices:

- JavaScript functions are opaque `Callback` identities. A registration argument is
  `Function(callback)` or `NonFunction`.
- A `throw` becomes a returned value. `onX` returns `Option<SdkError>`.
  `Yousign.Create` returns `Result<Yousign, SdkError>`. `receiveMessage` returns
  `ThrewTypeError` in two cases where the code is not defensive: a `null` or
  `undefined` `data` (lines 73 and 79), and an `__ubble` message without `payload`
  (line 79). In both cases nothing else has happened yet.
- The `URL` constructor is the parameter `parse: string -> Option<ParsedLink>`.
  `None` means it throws. On success it gives the serialised `href`, the
  serialisation after the sandbox parameter is appended, and the query pairs.
- `document.getElementById(iframeContainerId)` is membership of the id in the
  set `dom`.
- `.` in the trusted-origin pattern is not escaped. The model therefore accepts
  exactly `"https://yousign" + c + "app"` for any one character `c` that `.`
  matches. That is any UTF-16 code unit except `\n`, `\r`, U+2028 and U+2029,
  which in the model means a Basic Multilingual Plane character other than those
  four. For example `https://yousign-app` is trusted. The model keeps this
  behaviour as written.
- Field access on untrusted messages is not defensive, so a malformed message
  throws instead of being ignored. The model keeps that behaviour rather than
  treating the message as unrecognised.

## Model

| member | source | states |
|---|---|---|
| `Values.TemplateText` | iframe-sdk-1.6.0.js:80 | definition, no contract: how `${this.urlParams.k}` renders a present or a `null` value; its consequence is stated by `Values.MissingRendersAsTextNull` and `Session.RedirectWithoutLinkK` |
| `Values.MissingRendersAsTextNull` | iframe-sdk-1.6.0.js:80 | a missing `k` and the string `"null"` render identically, so a redirect target cannot tell them apart |
| `Values.Truthy` | iframe-sdk-1.6.0.js:70-80 | definition, no contract: JavaScript truthiness of a string-or-absent value, as tested on `redirectUrl` at line 79; used by `Messages.Redirected` and stated through `Messages.RedirectFromAnyOrigin` and `Messages.NoRedirectOtherwise` |
| `Events.Name` | iframe-sdk-1.6.0.js:6-11 | definition, no contract: the wire name of each `EventType` member; its distinctness is stated by `Events.NameInjective` and `Events.NameRoundTrip` |
| `Events.FromName` | iframe-sdk-1.6.0.js:4-12 | the kind found for a string has exactly that wire name; `None` only when no kind has that name |
| `Events.NameRoundTrip` | iframe-sdk-1.6.0.js:4-12 | looking up a kind's wire name gives back that kind |
| `Events.NameInjective` | iframe-sdk-1.6.0.js:4-12 | the six wire names are pairwise distinct |
| `Errors.ErrorName` | iframe-sdk-1.6.0.js:17-31 | definition, no contract: the `name` each error class sets (lines 17, 24, 31); stated by `Errors.ErrorNameDeterminesKind` |
| `Errors.Message` | iframe-sdk-1.6.0.js:18-32 | definition, no contract: the `message` each error class sets (lines 18, 25, 32), with the container id and the event name interpolated; stated by `Errors.MessageInjective` |
| `Errors.ErrorNameDeterminesKind` | iframe-sdk-1.6.0.js:14-34 | the three error classes have distinct `name`s |
| `Errors.MessageInjective` | iframe-sdk-1.6.0.js:14-34 | an error's message determines the error, including the container id and the event name it carries |
| `OriginPattern.DotAccepts` | iframe-sdk-1.6.0.js:38 | definition, no contract: what the unescaped `.` of `childOrigin` accepts without flags, one code unit other than a line terminator; stated through `OriginPattern.ChildOriginAcceptsAnySeparator` |
| `OriginPattern.MatchesAt` | iframe-sdk-1.6.0.js:72 | definition, no contract: matching the atoms of a pattern from one position, with `^` and `$` at the input's ends; stated through `OriginPattern.LiteralsThen` and `OriginPattern.HostPatternExactly` |
| `OriginPattern.Matches` | iframe-sdk-1.6.0.js:72 | definition, no contract: `origin.match(this.childOrigin)` is truthy, a match at some start position; the set of origins it accepts for `childOrigin` is stated by `OriginPattern.ChildOriginExactly` |
| `OriginPattern.HostPattern` | iframe-sdk-1.6.0.js:38 | definition, no contract: the atoms of an anchored `^prefix.suffix$`; the session's `childOrigin` is the constant `OriginPattern.ChildOrigin`, `HostPattern("https://yousign", "app")`, and what it accepts is stated by `OriginPattern.HostPatternExactly` and `OriginPattern.ChildOriginExactly` |
| `OriginPattern.Literals` | iframe-sdk-1.6.0.js:38 | the literal part of a pattern has one atom per character of the text, each matching that character |
| `OriginPattern.LiteralsThen` | iframe-sdk-1.6.0.js:38 | a literal text followed by the rest of a pattern matches at `i` exactly when the input continues with that text at `i` and the rest matches after it |
| `OriginPattern.HostPatternSeparator` | iframe-sdk-1.6.0.js:38 | `^prefix.suffix$` accepts `prefix + [c] + suffix` exactly when `.` accepts `c` |
| `OriginPattern.HostPatternExactly` | iframe-sdk-1.6.0.js:38 | an anchored `^prefix.suffix$` pattern matches exactly prefix, one character `.` accepts, then suffix |
| `OriginPattern.ChildOriginExactly` | iframe-sdk-1.6.0.js:38 | `origin.match(childOrigin)` succeeds iff the origin has 19 characters: `https://yousign`, one `.`-accepted character, `app` |
| `OriginPattern.ChildOriginAcceptsAnySeparator` | iframe-sdk-1.6.0.js:38 | because the dot is unescaped, `"https://yousign" + c + "app"` is trusted for every `c` that `.` accepts, and only those |
| `OriginPattern.ChildOriginRejects` | iframe-sdk-1.6.0.js:38 | a subdomain origin `https://app.yousign.app` and the plain-http origin are not trusted |
| `Query.Get` | iframe-sdk-1.6.0.js:54-56 | `urlParams.k` is the value of the first `k` pair, or `null` exactly when there is no `k` pair |
| `Query.Append` | iframe-sdk-1.6.0.js:52 | appending keeps every existing pair and adds the new pair last |
| `Query.GetAfterAppendOther` | iframe-sdk-1.6.0.js:51-56 | appending `disable_domain_validation` does not change what `get('k')` returns |
| `Registry.Register` | iframe-sdk-1.6.0.js:83-118 | a non-function throws `InvalidCallbackFunction` naming the kind and leaves the registry unchanged; a function fills that kind's slot and leaves every other slot as it was |
| `Registry.LastWriteWins` | iframe-sdk-1.6.0.js:87 | registering twice for one kind equals registering only the second function |
| `Registry.DistinctKindsCommute` | iframe-sdk-1.6.0.js:83-118 | registrations for different kinds commute |
| `Messages.RedirectTarget` | iframe-sdk-1.6.0.js:80 | the new target is exactly `redirectUrl`, then `&k=`, then the rendered `k` |
| `Messages.Dispatched` | iframe-sdk-1.6.0.js:72-77 | definition, no contract: the first decision of `receiveMessage`, the handler a trusted `yousign` message selects; stated by `Messages.TrustedDispatch`, `Messages.DispatchOnlyWhenTrusted` and `Messages.UnregisteredEventIgnored` |
| `Messages.Redirected` | iframe-sdk-1.6.0.js:79-80 | definition, no contract: the second decision, the target an `__ubble` message sets; stated by `Messages.RedirectFromAnyOrigin` and `Messages.NoRedirectOtherwise` |
| `Messages.Route` | iframe-sdk-1.6.0.js:70-82 | throws exactly for `null` data or an `__ubble` message without payload; an invoked handler gets the whole `data` and no redirect happens with it |
| `Messages.TrustedDispatch` | iframe-sdk-1.6.0.js:72-77 | a trusted `yousign` message whose event is registered calls exactly that handler, once, with `data`, and changes no frame target |
| `Messages.DispatchOnlyWhenTrusted` | iframe-sdk-1.6.0.js:72-77 | a handler is called only when the origin matches, the type is `yousign`, the event names a registered kind, and the handler is that kind's |
| `Messages.UntrustedNeverDispatches` | iframe-sdk-1.6.0.js:72 | an origin the pattern rejects never calls a handler |
| `Messages.ForeignOriginNeverDispatches` | iframe-sdk-1.6.0.js:38-77 | with the session's pattern, any origin other than `https://yousign` + one character + `app` never calls a handler, whatever the type and event |
| `Messages.UnregisteredEventIgnored` | iframe-sdk-1.6.0.js:73-75 | a `yousign` message whose event has no handler calls nothing and sets no target |
| `Messages.RedirectFromAnyOrigin` | iframe-sdk-1.6.0.js:79-80 | an `__ubble` message with a non-empty `redirectUrl` sets the target to `redirectUrl + "&k=" + k`, from any origin, and calls no handler |
| `Messages.NoRedirectOtherwise` | iframe-sdk-1.6.0.js:79 | any other type, or an empty or absent `redirectUrl`, sets no target |
| `Session.Initialise` | iframe-sdk-1.6.0.js:41-63 | a bad link gives `InvalidSignatureLink` even when the container is missing; a good link with a missing container gives `IframeContainerNotFound(id)`; otherwise the frame gets the (sandbox-extended) link and `k` is the link's own |
| `Session.Yousign.Init` | iframe-sdk-1.6.0.js:38-68 | a new session has an empty registry, the trusted pattern, the link as frame target and an attached listener |
| `Session.Yousign.Create` | iframe-sdk-1.6.0.js:37-69 | construction fails with the error `Initialise` gives, or yields a fresh session in the state `Initialise` describes |
| `Session.Yousign.K` | iframe-sdk-1.6.0.js:54-56 | definition, no contract: `this.urlParams.k`, read at line 80 through the `Proxy`, is `get('k')` on the link's query; stated through `Query.Get` and `Session.RedirectCarriesLinkK` |
| `Session.Yousign.ReceiveMessage` | iframe-sdk-1.6.0.js:70-82 | the reaction is `Route` of the current registry, `k` and pattern; the frame target changes only to the redirect; the registry and the listener are untouched |
| `Session.Yousign.Deliver` | iframe-sdk-1.6.0.js:67-68 | an attached listener handles the message as `ReceiveMessage` does; a detached one reports nothing and changes nothing |
| `Session.Yousign.Subscribe` | iframe-sdk-1.6.0.js:83-118 | the registry and the thrown error are those of `Register` applied to the old registry |
| `Session.Yousign.OnStarted` | iframe-sdk-1.6.0.js:83-88 | `Register` for `started` |
| `Session.Yousign.OnSuccess` | iframe-sdk-1.6.0.js:89-94 | `Register` for `success` |
| `Session.Yousign.OnError` | iframe-sdk-1.6.0.js:95-100 | `Register` for `error` |
| `Session.Yousign.OnPing` | iframe-sdk-1.6.0.js:101-106 | `Register` for `ping` |
| `Session.Yousign.OnDeclined` | iframe-sdk-1.6.0.js:107-112 | `Register` for `declined` |
| `Session.Yousign.OnSignatureDone` | iframe-sdk-1.6.0.js:113-118 | `Register` for `signature.done` |
| `Session.Yousign.RemoveMessageListener` | iframe-sdk-1.6.0.js:119-121 | the listener is detached, and detaching again changes nothing; the registry and the frame target stay as they are |
| `Session.RedirectCarriesLinkK` | iframe-sdk-1.6.0.js:37-80 | a sandbox session created from a link whose query is `k=ABC123`, delivered an `__ubble` message with `redirectUrl` `https://x.test/v` from any origin, targets `https://x.test/v&k=ABC123`: the appended sandbox parameter does not disturb `k` |
| `Session.RedirectWithoutLinkK` | iframe-sdk-1.6.0.js:37-80 | a session created from a link with no `k` parameter, delivered the same message, targets `https://x.test/v&k=null` |

## Left out

- DOM plumbing: adopting an existing `yousign-iframe` element, creating and
  appending one, and setting `referrerPolicy` (lines 57-62 and 64-66). These are browser
  element calls. Two sessions that adopt the same element share one frame in the
  source; here each session has its own `iframeSrc`, so that aliasing is not modelled.
- The `URL` constructor, the serialisation of `href` before and after
  `searchParams.append`, and percent-decoding of query pairs. These are supplied
  through `parse` and `ParsedLink`. The `Proxy` is reduced to a `get` of `k`
  (`Yousign.K`).
- `window.addEventListener` and `removeEventListener`, and the event loop. They
  are reduced to the `listening` flag and to `Deliver`, which stands for the
  platform calling the attached listener.
- What host callbacks do. This includes a callback that throws, and a callback
  that re-registers handlers while `receiveMessage` is running. `ReceiveMessage`
  reports the call it makes; the callback's own effects are not modelled.
- Inherited `Object.prototype` keys. In the source, an event named `constructor`,
  `toString` and so on finds an inherited function at line 74 and calls it. The
  model only finds the six registered kinds.
- Values the model does not represent: a non-string `type`, `event` or
  `redirectUrl`, and a truthy non-string `redirectUrl` rendered by the template
  literal. A non-string `type` is `None`. `event` is the string the property key
  becomes. A falsy non-string `redirectUrl` is `None`.
- `iframeAttributes` in the configuration (only `referrerPolicy`, DOM plumbing).

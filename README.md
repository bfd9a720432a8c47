# Wicket protocol switching, markup transformation and per-session keys, in Dafny

This project models three small pieces of logic from a fragment of Apache Wicket, a
server-side component framework for web user interfaces:

- **Protocol switching** (`SwitchProtocolRequestHandler`), module `SwitchProtocol` in
  `switch_protocol.dfy`. The handler redirects a request between http and https. Its constructor
  refuses a null protocol and `PRESERVE_CURRENT`. `getUrl` builds the redirect URL
  `scheme://host[:port]path[?query]`, the generic URI shape of section 3 of RFC 3986. `respond`
  leaves the port out when it is the scheme's default (80 for http, 443 for https; sections 2.7.1
  and 2.7.2 of RFC 7230). `requireProtocol` decides whether a switch is needed. The Java `int`
  port is rendered by `Integer.toString`. Module `JavaText` (`java_text.dfy`) models that
  rendering and proves it can be read back.
- **Markup transformation** (`AbstractTransformerBehavior`), module `TransformerBehavior` in
  `transformer_behavior.dfy`. It is a class with the saved `webResponse` field, working on a
  request-cycle object that holds the current response. `beforeRender` swaps a buffer in.
  `onRendered` writes the transformed buffer to the saved response and restores it, even when the
  transformation fails. `onException` restores the saved response and `cleanup` forgets it. The
  abstract `transform` is a function the behaviour is built with; it may fail.
- **Per-session encryption key** (`KeyInSessionSunJceCryptFactory`), module `CryptFactory` in
  `crypt_factory.dfy`. `newCrypt` does a get-or-create on the session's attribute table, under the
  name `applicationKey + "." + className`. A new key is `sessionId + "." + uuid`.

Java `null` is modelled as `Option`/nullable references. Thrown exceptions are `Result`/`Outcome`
values (module `Wrappers`, `wrappers.dfy`).

## Model

| member | source | states |
|---|---|---|
| `JavaText.IntToStringRoundTrip` | wicket/src/main/java/org/apache/wicket/protocol/https/SwitchProtocolRequestHandler.java:88-89 | the port text appended after ":" (`Integer.toString`: optional minus, decimal digits) parses back to the port |
| `JavaText.IntToStringInjective` | wicket/src/main/java/org/apache/wicket/protocol/https/SwitchProtocolRequestHandler.java:88-89 | distinct ports are rendered as distinct texts |
| `SwitchProtocol.NewHandler` | wicket/src/main/java/org/apache/wicket/protocol/https/SwitchProtocolRequestHandler.java:57-70 | a null protocol fails with IllegalArgumentException and its message; so does PRESERVE_CURRENT; construction succeeds exactly for HTTP and HTTPS and keeps protocol and target |
| `SwitchProtocol.GetUrl` | wicket/src/main/java/org/apache/wicket/protocol/https/SwitchProtocolRequestHandler.java:80-98 | the step-by-step string building yields the URL protocol + "://" + host, then ":" + port when there is one, then the request URI, then "?" + query when there is one |
| `SwitchProtocol.UrlStartsWithAuthority` | wicket/src/main/java/org/apache/wicket/protocol/https/SwitchProtocolRequestHandler.java:82-85 | the URL starts with protocol + "://" + serverName |
| `SwitchProtocol.UrlAfterAuthority` | wicket/src/main/java/org/apache/wicket/protocol/https/SwitchProtocolRequestHandler.java:86-96 | after the host the URL holds exactly the port text, the request URI and the query text |
| `SwitchProtocol.UrlPortAfterHost` | wicket/src/main/java/org/apache/wicket/protocol/https/SwitchProtocolRequestHandler.java:86-90 | ":" follows the host if and only if there is a port (for a request URI not starting with ':'), and then ":" + port follows it |
| `SwitchProtocol.UrlDeterminesPort` | wicket/src/main/java/org/apache/wicket/protocol/https/SwitchProtocolRequestHandler.java:86-90 | the port part is present exactly for a non-null port: two URLs differing only in the port are different texts |
| `SwitchProtocol.UrlEnding` | wicket/src/main/java/org/apache/wicket/protocol/https/SwitchProtocolRequestHandler.java:91-96 | without a query string the URL ends with the request URI; with one it ends with "?" + query |
| `SwitchProtocol.UrlDeterminesQuery` | wicket/src/main/java/org/apache/wicket/protocol/https/SwitchProtocolRequestHandler.java:92-96 | "?" + query is appended exactly when the query string is non-null: requests differing only in the query give different URLs |
| `SwitchProtocol.RedirectPort` | wicket/src/main/java/org/apache/wicket/protocol/https/SwitchProtocolRequestHandler.java:110-124 | no port exactly when HTTP with http port 80, HTTPS with https port 443, or neither protocol; otherwise the configured port of that protocol |
| `SwitchProtocol.Respond` | wicket/src/main/java/org/apache/wicket/protocol/https/SwitchProtocolRequestHandler.java:103-146 | with no target, the redirect goes to the rewritten URL with the lower-cased protocol name and the port chosen above; with a target, to the URL the mapper gives for it |
| `SwitchProtocol.RedirectScheme` | wicket/src/main/java/org/apache/wicket/protocol/https/SwitchProtocolRequestHandler.java:127-130 | for a constructed handler with no target, the redirect URL's scheme is the lower-cased protocol name, "http" or "https" |
| `SwitchProtocol.RequireProtocol` | wicket/src/main/java/org/apache/wicket/protocol/https/SwitchProtocolRequestHandler.java:171-185 | no handler exactly when the protocol is null, PRESERVE_CURRENT or equal to the request's scheme; otherwise the handler the constructor builds from that protocol and target |
| `SwitchProtocol.RequireProtocolSwitches` | wicket/src/main/java/org/apache/wicket/protocol/https/SwitchProtocolRequestHandler.java:176-184 | a handler returned by requireProtocol switches to "http" or "https", away from the request's scheme |
| `SwitchProtocol.RedirectSettles` | wicket/src/main/java/org/apache/wicket/protocol/https/SwitchProtocolRequestHandler.java:176-180 | once the redirect is followed, requiring the same protocol again needs no switch |
| `TransformerBehavior.AbstractTransformerBehavior.constructor` | wicket/src/main/java/org/apache/wicket/markup/transformer/AbstractTransformerBehavior.java:44-46 | a new behaviour has no saved response |
| `TransformerBehavior.AbstractTransformerBehavior.NewResponse` | wicket/src/main/java/org/apache/wicket/markup/transformer/AbstractTransformerBehavior.java:54-57 | the default buffer is a new, empty string response |
| `TransformerBehavior.AbstractTransformerBehavior.OnComponentTag` | wicket/src/main/java/org/apache/wicket/markup/transformer/AbstractTransformerBehavior.java:64-67 | the tag's attribute xmlns:wicket is set to http://wicket.apache.org and no other attribute changes |
| `TransformerBehavior.AbstractTransformerBehavior.BeforeRender` | wicket/src/main/java/org/apache/wicket/markup/transformer/AbstractTransformerBehavior.java:73-91 | the previously current response is saved; a non-null buffer becomes current; a null one throws IllegalStateException and leaves the current response unchanged |
| `TransformerBehavior.AbstractTransformerBehavior.OnRendered` | wicket/src/main/java/org/apache/wicket/markup/transformer/AbstractTransformerBehavior.java:97-118 | transform(component, buffered text) is appended to the saved response and to nothing else; any failure (transform throwing, a null response) is a wrapping WicketRuntimeException and writes nothing; the saved response is current afterwards in every case |
| `TransformerBehavior.AbstractTransformerBehavior.Cleanup` | wicket/src/main/java/org/apache/wicket/markup/transformer/AbstractTransformerBehavior.java:124-127 | the saved response is cleared |
| `TransformerBehavior.AbstractTransformerBehavior.OnException` | wicket/src/main/java/org/apache/wicket/markup/transformer/AbstractTransformerBehavior.java:134-141 | the saved response becomes current if there is one; otherwise the current response is unchanged |
| `TransformerBehavior.RenderThroughBehavior` | wicket/src/main/java/org/apache/wicket/markup/transformer/AbstractTransformerBehavior.java:73-118 | beforeRender, rendering into the buffer, then onRendered leaves the current response as it was before beforeRender, and the original response receives exactly the transformed markup (nothing if transform fails) |
| `TransformerBehavior.CleanupThenException` | wicket/src/main/java/org/apache/wicket/markup/transformer/AbstractTransformerBehavior.java:124-141 | after cleanup, onException leaves the current response unchanged |
| `CryptFactory.GetOrCreate` | wicket/src/main/java/org/apache/wicket/util/crypt/KeyInSessionSunJceCryptFactory.java:49-55 | afterwards the table holds the returned key under the attribute; a key already there is reused and the table is unchanged; otherwise the candidate is stored; no other attribute changes |
| `CryptFactory.NewCrypt` | wicket/src/main/java/org/apache/wicket/util/crypt/KeyInSessionSunJceCryptFactory.java:39-61 | the session is updated by get-or-create under applicationKey + "." + className with candidate sessionId + "." + uuid, and the new crypt's key is the key the session then holds |
| `CryptFactory.NewCryptTwice` | wicket/src/main/java/org/apache/wicket/util/crypt/KeyInSessionSunJceCryptFactory.java:49-55 | two successive calls on one session give the same key whatever UUIDs they draw; only the first can change the session |
| `CryptFactory.GetOrCreateIdempotent` | wicket/src/main/java/org/apache/wicket/util/crypt/KeyInSessionSunJceCryptFactory.java:49-55 | a second get-or-create returns the same key and leaves the table as the first left it |
| `CryptFactory.KeyAttributeSeparatesApplications` | wicket/src/main/java/org/apache/wicket/util/crypt/KeyInSessionSunJceCryptFactory.java:48 | the attribute name determines the application key: two applications never share a key attribute |
| `CryptFactory.NewKeyShape` | wicket/src/main/java/org/apache/wicket/util/crypt/KeyInSessionSunJceCryptFactory.java:53 | a new key is the session id, a dot, then the UUID |

## Left out

- `DateTextField` (wicket-extensions) is not part of this model. Its logic is date-pattern formatting and a locale lookup in the Java date libraries.
- `detach` of the protocol-switch handler is an empty method.
- The framework lookups are not modelled. `RequestCycle.get()`, `Application.get()`, the casts to the servlet request, the HTTPS configuration and the application key all become parameters.
- `urlFor(handler)` belongs to the URL-mapping engine. It is an arbitrary function parameter `urlFor`.
- `response.sendRedirect(url)` is not modelled as I/O. `Respond` returns the redirect location instead.
- The one-argument overloads of the constructor and of `requireProtocol` pass a null target. They are the `None` target of `NewHandler` and `RequireProtocol`.
- `super.beforeRender(component)` belongs to the base behaviour, which is not part of this model.
- `newResponse()` can be overridden. `BeforeRender` takes its result as a parameter, and `NewResponse` models the default.
- `TransformerBehavior.AbstractTransformerBehavior.OnRendered`: the exception message models only the fixed prefix. The behaviour's own `toString()` that the source appends is not modelled.
- `ComponentTag.put` and `Response.write` belong to classes outside this fragment. They are modelled as a map update and a text append.
- `request.getSession(true)` may create the session. Session creation is not modelled: `NewCrypt` receives the session.
- Session attribute values are Java `Object`s, cast to `String`. The model stores only strings, so a non-string attribute (a `ClassCastException` in Java) is not modelled.
- `SunJceCrypt` encryption is not modelled; only the key set on the crypt is. The key the crypt has before `setKey` is modelled as `None`.
- `UUID.randomUUID()` is randomness. The UUID text is a parameter.
- Concurrent requests sharing one session could race in `newCrypt` and store two keys. The model is sequential.

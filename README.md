# Traceability adapters: a Dafny model

The traceability library holds six small adapters. Each one copies a
correlation value (a transaction id or the authenticated user's name)
between a message and SLF4J's Mapped Diagnostic Context (MDC). The MDC is
the per-thread string map that the logging backend reads.

- **Inbound servlet filters** (`HttpHeaderServletFilter`, `PrincipalServletFilter`).
  Each reads a request header or the principal's name. It falls back to
  `"anonymous"` when the value is missing or empty, puts the value under
  `mdcKey`, runs the rest of the chain, and removes the key in a `finally`.
- **Inbound Spring MVC interceptors** (`HttpHeaderSpringInterceptor`,
  `PrincipalSpringInterceptor`). They apply the same rule, split into
  `preHandle` (put, always proceed) and `afterCompletion` (remove).
- **Outbound injectors.** `TraceableHeaderSoapInterceptor` appends one SOAP
  header holding the MDC value, and swallows any failure to build it.
  `TraceableMessagePostProcessor` sets one JMS string property, and lets the
  failure for an empty property name escape to its caller. Neither does
  anything when the MDC value is absent or empty.

How the model is laid out:

- `Diagnostic.Mdc` is one thread's MDC: a class whose `entries` map the
  adapters change in place.
- `Servlet` reduces the frameworks to small values:
  - a request is its header map and an optional principal name;
  - `FilterConfig` is a partial map of init parameters;
  - the rest of the chain (or the MVC handler) is a `Chain`, a function from
    the context it sees to the context it leaves and an outcome `Ok | Fail`.
- `Propagation` states the shared rule once:
  - `Resolve` is the fallback;
  - `Traced` is the outbound "non-empty value" test;
  - `Scoped` is put / delegate / remove.
  Every adapter class is proved to do what these functions say.
- `Propagation.ServeOnThread` models one thread that serves requests one
  after another, each request running its own chain. It proves that no request observes a stale value under the
  adapter's key, and that none leaves that key behind. Entries under other
  keys that one request's chain leaves do reach the next request: the
  adapters remove only their own key.

The setters and `init` can be called at any time. Nothing in the code freezes
the configuration after first use, so the model does not either. The Spring
MVC interceptors' cleanup therefore holds only while `mdcKey` is not changed
between `preHandle` and `afterCompletion`: `afterCompletion` removes the key
configured at that moment, so a change in between leaves the value put by
`preHandle` behind on the thread. This is a hazard in the code, not in the
model; `SpringMvc.InterceptedIsScoped` covers the unchanged-key case.

## Model

| member | source | states |
|---|---|---|
| `Propagation.Resolve` | src/main/java/traceability/logback/filter/HttpHeaderServletFilter.java:118-121 | a missing or zero-length value becomes `"anonymous"`; a non-empty value is kept unchanged; the result is never empty |
| `Propagation.Traced` | src/main/java/traceability/logback/cxf/TraceableHeaderSoapInterceptor.java:66-69 | the outbound value is present exactly when the MDC holds a non-empty value under the key, and it is that value |
| `Propagation.Scoped` | src/main/java/traceability/logback/filter/HttpHeaderServletFilter.java:123-129 | the chain sees the value under the key and every other entry as before; afterwards the key is absent on both exits, even if it held a value before; every other entry is as the chain left it; the chain's outcome is passed on unchanged |
| `Propagation.ServeOnThread` | src/main/java/traceability/logback/filter/HttpHeaderServletFilter.java:123-129 | on a thread reused for many requests, each running its own chain, every request's chain sees its own value, and no request leaves its key behind for the next |
| `Propagation.TransparentChainRestoresContext` | src/main/java/traceability/logback/filter/PrincipalServletFilter.java:115-121 | when every request's chain leaves the MDC alone, after any number of requests the MDC is the initial one minus the adapter's key: the adapter touches nothing else |
| `Propagation.NestedScopes` | src/main/java/traceability/logback/filter/PrincipalServletFilter.java:115-121 | with two inbound adapters in one chain, the application sees both values (the inner one when the keys coincide), and afterwards neither key remains |
| `Propagation.InboundValueReachesOutbound` | src/main/java/traceability/logback/cxf/TraceableHeaderSoapInterceptor.java:66-69 | an outbound adapter running inside an inbound adapter's chain always finds the resolved value to copy |
| `Diagnostic.Mdc.Get` | src/main/java/traceability/logback/cxf/TraceableHeaderSoapInterceptor.java:66 | `MDC.get`: present exactly when the key has an entry, and then that entry's value |
| `Diagnostic.Mdc.Put` | src/main/java/traceability/logback/filter/HttpHeaderServletFilter.java:123 | `MDC.put`: the key now maps to the value, overwriting any earlier one; no other entry changes |
| `Diagnostic.Mdc.Remove` | src/main/java/traceability/logback/filter/HttpHeaderServletFilter.java:128 | `MDC.remove`: the key has no entry afterwards, whether or not it had one; no other entry changes |
| `Servlet.HttpRequest.Header` | src/main/java/traceability/logback/filter/HttpHeaderServletFilter.java:118 | `getHeader`: present exactly when the request carries the header, and then its value |
| `Servlet.InitParameter` | src/main/java/traceability/logback/filter/HttpHeaderServletFilter.java:98-99 | `getInitParameter`: present exactly when the parameter is configured, and then its value |
| `Servlet.RunChain` | src/main/java/traceability/logback/filter/HttpHeaderServletFilter.java:126 | the chain runs on the current thread's MDC and its outcome is returned |
| `Filter.HttpHeaderServletFilter.constructor` | src/main/java/traceability/logback/filter/HttpHeaderServletFilter.java:84-89 | defaults are header `"x-transaction"` and key `"transaction"` |
| `Filter.HttpHeaderServletFilter.Init` | src/main/java/traceability/logback/filter/HttpHeaderServletFilter.java:97-105 | `header_name` and `mdc_key` each replace their field only when present; any other parameter changes nothing |
| `Filter.HttpHeaderServletFilter.DoFilter` | src/main/java/traceability/logback/filter/HttpHeaderServletFilter.java:114-130 | the new MDC and the outcome are those of `Scoped` with the resolved header value |
| `Filter.PrincipalServletFilter.constructor` | src/main/java/traceability/logback/filter/PrincipalServletFilter.java:81-84 | the default key is `"transaction"` |
| `Filter.PrincipalServletFilter.Init` | src/main/java/traceability/logback/filter/PrincipalServletFilter.java:92-96 | `mdc_key` replaces the key only when present |
| `Filter.PrincipalServletFilter.DoFilter` | src/main/java/traceability/logback/filter/PrincipalServletFilter.java:105-122 | the step-wise `username` equals the resolved principal name; the new MDC and the outcome are those of `Scoped` |
| `SpringMvc.InterceptedIsScoped` | src/main/java/traceability/logback/spring/mvc/HttpHeaderSpringInterceptor.java:59-79 | `preHandle`, the handler and `afterCompletion` in sequence behave exactly as a servlet filter's put / chain / remove |
| `SpringMvc.HttpHeaderSpringInterceptor.constructor` | src/main/java/traceability/logback/spring/mvc/HttpHeaderSpringInterceptor.java:45-50 | defaults are header `"x-transaction"` and key `"transaction"` |
| `SpringMvc.HttpHeaderSpringInterceptor.PreHandle` | src/main/java/traceability/logback/spring/mvc/HttpHeaderSpringInterceptor.java:59-68 | always proceeds; the MDC gains the resolved header under `mdcKey` and nothing else changes |
| `SpringMvc.HttpHeaderSpringInterceptor.AfterCompletion` | src/main/java/traceability/logback/spring/mvc/HttpHeaderSpringInterceptor.java:77-79 | removes `mdcKey`, whatever the handler's outcome, and nothing else |
| `SpringMvc.HttpHeaderSpringInterceptor.SetHeaderName` | src/main/java/traceability/logback/spring/mvc/HttpHeaderSpringInterceptor.java:85-87 | changes only the header read; the key is kept |
| `SpringMvc.HttpHeaderSpringInterceptor.SetMdcKey` | src/main/java/traceability/logback/spring/mvc/HttpHeaderSpringInterceptor.java:93-95 | changes only the key written; the header name is kept |
| `SpringMvc.PrincipalSpringInterceptor.constructor` | src/main/java/traceability/logback/spring/mvc/PrincipalSpringInterceptor.java:56-59 | the default key is `"transaction"` |
| `SpringMvc.PrincipalSpringInterceptor.PreHandle` | src/main/java/traceability/logback/spring/mvc/PrincipalSpringInterceptor.java:68-78 | always proceeds; the MDC gains the resolved principal name under `mdcKey` and nothing else changes |
| `SpringMvc.PrincipalSpringInterceptor.AfterCompletion` | src/main/java/traceability/logback/spring/mvc/PrincipalSpringInterceptor.java:87-89 | removes `mdcKey` unconditionally, and nothing else |
| `SpringMvc.PrincipalSpringInterceptor.SetMdcKey` | src/main/java/traceability/logback/spring/mvc/PrincipalSpringInterceptor.java:95-97 | sets the key written |
| `Cxf.CreateElement` | src/main/java/traceability/logback/cxf/TraceableHeaderSoapInterceptor.java:73-75 | the factory yields a text-less element with the requested name exactly when it accepts that name, and fails otherwise |
| `Cxf.SoapElement.NodeName` | src/main/java/traceability/logback/cxf/TraceableHeaderSoapInterceptor.java:73-75 | `getNodeName`: the local name for an unqualified element or an empty prefix, `prefix:local` otherwise |
| `Cxf.SoapElement.NamespaceUri` | src/main/java/traceability/logback/cxf/TraceableHeaderSoapInterceptor.java:73-75 | `getNamespaceURI`: none (null) exactly for an unqualified element, the requested namespace for a qualified one |
| `Cxf.AddTextNode` | src/main/java/traceability/logback/cxf/TraceableHeaderSoapInterceptor.java:77 | `addTextNode`: appends the text and keeps the name when the text is accepted, and fails (a `SOAPException`) otherwise |
| `Cxf.InjectedHeader` | src/main/java/traceability/logback/cxf/TraceableHeaderSoapInterceptor.java:71-80 | the header is built exactly when the factory accepts the needed names and the value as text; its text is the value; without a namespace it is named `soapKey` with no namespace, whatever the prefix; with one it is `prefix:soapKey` (just `soapKey` for an empty prefix) in that namespace; the QName carries the namespace, or "" for none |
| `Cxf.TraceableHeaderSoapInterceptor.constructor` | src/main/java/traceability/logback/cxf/TraceableHeaderSoapInterceptor.java:43-57 | defaults are key `"transaction"`, element `"SOAPTransaction"`, prefix `"trace"` and no namespace |
| `Cxf.TraceableHeaderSoapInterceptor.HandleMessage` | src/main/java/traceability/logback/cxf/TraceableHeaderSoapInterceptor.java:65-86 | with no non-empty MDC value the headers are unchanged; otherwise exactly the injected header is appended, or nothing when construction fails, and no error escapes; the MDC is only read |
| `Cxf.TraceableHeaderSoapInterceptor.SetMdcKey` | src/main/java/traceability/logback/cxf/TraceableHeaderSoapInterceptor.java:92-94 | changes the key and no other field |
| `Cxf.TraceableHeaderSoapInterceptor.SetSoapKey` | src/main/java/traceability/logback/cxf/TraceableHeaderSoapInterceptor.java:100-102 | changes the element name and no other field |
| `Cxf.TraceableHeaderSoapInterceptor.SetPrefix` | src/main/java/traceability/logback/cxf/TraceableHeaderSoapInterceptor.java:108-110 | changes the prefix and no other field |
| `Cxf.TraceableHeaderSoapInterceptor.SetNamespace` | src/main/java/traceability/logback/cxf/TraceableHeaderSoapInterceptor.java:116-118 | changes the namespace (None for null) and no other field |
| `SpringJms.Stamped` | src/main/java/traceability/logback/spring/jms/TraceableMessagePostProcessor.java:93-95 | with no traced value the properties are unchanged; with one, exactly the property `jmsKey` is set to it and every other property is kept |
| `SpringJms.JmsMessage.SetStringProperty` | src/main/java/traceability/logback/spring/jms/TraceableMessagePostProcessor.java:94 | `setStringProperty`: refuses an empty name (`IllegalArgumentException`), exactly then, and leaves the message untouched; otherwise the named property now holds the value and no other property changes |
| `SpringJms.TraceableMessagePostProcessor.constructor` | src/main/java/traceability/logback/spring/jms/TraceableMessagePostProcessor.java:63-73 | both keys default to `"transaction"` |
| `SpringJms.TraceableMessagePostProcessor.WithKeys` | src/main/java/traceability/logback/spring/jms/TraceableMessagePostProcessor.java:78-82 | sets both keys as given |
| `SpringJms.TraceableMessagePostProcessor.PostProcessMessage` | src/main/java/traceability/logback/spring/jms/TraceableMessagePostProcessor.java:90-98 | fails exactly when there is a traced value and the property name is empty (the uncaught `IllegalArgumentException` of line 94, reachable through `setJmsKey("")` or the two-key constructor), leaving the message untouched; otherwise returns the same message, whose properties become `Stamped` of the traced value; with no value the message is not touched at all; the MDC is only read |
| `SpringJms.TraceableMessagePostProcessor.SetMdcKey` | src/main/java/traceability/logback/spring/jms/TraceableMessagePostProcessor.java:104-106 | changes the lookup key and not the property name |
| `SpringJms.TraceableMessagePostProcessor.SetJmsKey` | src/main/java/traceability/logback/spring/jms/TraceableMessagePostProcessor.java:112-114 | changes the property name and not the lookup key |

## Left out

- Thread-locality of the MDC: the model has one thread's MDC, passed to each adapter explicitly; isolation between threads is a concurrency matter.
- Framework types: the `ServletRequest` to `HttpServletRequest` cast (and the `ClassCastException` for a non-HTTP request), `HandlerInterceptorAdapter`, `Phase.PRE_PROTOCOL`, the response and handler arguments, and the empty `destroy()` methods.
- Header lookup: header names are compared exactly, and a header has one value. The servlet API's case-insensitive names and repeated headers belong to the container.
- Element construction: which names, prefixes and namespaces the SOAP factory accepts, and which texts `addTextNode` accepts, are parameters (`SoapFactory.accepts`, `SoapFactory.acceptsText`). The library's validity rules are not part of this model.
- Cxf.TraceableHeaderSoapInterceptor.HandleMessage: does not model `message.getHeaders().add` throwing (line 80 of the interceptor, inside the same `try`); the header list belongs to CXF's message and is modelled as always accepting the header.
- Null configuration values: keys, header names, the SOAP element name, the prefix and the JMS property name are assumed non-null strings. Only the SOAP namespace is optional (`Option`), where the code tests it for null.
- `Principal.getName()` returning null (a `NullPointerException` in the code): a present principal always has a name.
- SpringJms.JmsMessage.SetStringProperty: refuses only the empty name; a provider that rejects other names (`IllegalArgumentException`) or a read-only message (`MessageNotWriteableException`, a `JMSException`) is not modelled, because the provider's naming rules and message state are not part of the model.
- SpringJms.TraceableMessagePostProcessor.PostProcessMessage: fails only for the empty property name; the other exceptions `setStringProperty` may raise, listed on the line above, are not modelled for the same reason.
- Logging: the debug and warning lines in `handleMessage` have no observable effect.
- Checked exception types: a failing chain is a generic `Fail(cause)` outcome.

/**
 * The CXF outbound interceptor: copies the context value onto an outgoing
 * SOAP message as one header element, unqualified or prefixed in a namespace,
 * and never lets a failure to build that element escape.
 */
module Cxf {
  import opened Wrappers
  import opened Diagnostic
  import opened Propagation

  const DefaultSoapKey: string := "SOAPTransaction"
  const DefaultPrefix: string := "trace"

  /** `javax.xml.namespace.QName`; a null namespace URI is stored as "". */
  datatype QName = QName(namespaceUri: string, localPart: string)

  /** The name an element is requested under: `createElement(local)` or `createElement(local, prefix, uri)`. */
  datatype ElementName =
    | Unqualified(localName: string)
    | Qualified(localName: string, prefix: string, uri: string)

  datatype SoapElement = SoapElement(name: ElementName, text: string) {

    /** `getNodeName`: the local name, preceded by `prefix:` when the element has a non-empty prefix. */
    function NodeName(): (r: string)
      ensures name.Unqualified? ==> r == name.localName
      ensures name.Qualified? && name.prefix == "" ==> r == name.localName
      ensures name.Qualified? && name.prefix != "" ==> r == name.prefix + ":" + name.localName
    {
      match name
      case Unqualified(local) => local
      case Qualified(local, prefix, _) => if prefix == "" then local else prefix + ":" + local
    }

    /** `getNamespaceURI`: None (null) for an unqualified element. */
    function NamespaceUri(): (r: Option<string>)
      ensures r.None? <==> name.Unqualified?
      ensures name.Qualified? ==> r == Some(name.uri)
    {
      match name
      case Unqualified(_) => None
      case Qualified(_, _, uri) => Some(uri)
    }
  }

  /** `org.apache.cxf.headers.Header`: a qualified name and the element it carries. */
  datatype Header = Header(name: QName, element: SoapElement)

  /**
   * The element factory, reduced to which element names it accepts and which
   * texts an element accepts as a text node; the rules for valid names,
   * prefixes and text belong to the SOAP library.
   */
  datatype SoapFactory = SoapFactory(accepts: ElementName -> bool, acceptsText: string -> bool)

  /** `SOAPFactory.createElement`: a fresh element without text, or the exception it throws. */
  function CreateElement(factory: SoapFactory, name: ElementName): (r: Result<SoapElement, string>)
    ensures r.Success? <==> factory.accepts(name)
    ensures r.Success? ==> r.value.name == name && r.value.text == ""
  {
    if factory.accepts(name) then Success(SoapElement(name, "")) else Failure("invalid element name")
  }

  /** `addTextNode`: appends a text child, or the `SOAPException` it throws. */
  function AddTextNode(factory: SoapFactory, element: SoapElement, text: string): (r: Result<SoapElement, string>)
    ensures r.Success? <==> factory.acceptsText(text)
    ensures r.Success? ==> r.value.name == element.name && r.value.text == element.text + text
  {
    if factory.acceptsText(text) then Success(element.(text := element.text + text)) else Failure("text rejected")
  }

  /**
   * The header `handleMessage` appends for a traced value, or None when
   * building the element fails (the exception is caught and logged).
   */
  function InjectedHeader(soapKey: string, prefix: string, namespace: Option<string>, value: string,
                          factory: SoapFactory): (r: Option<Header>)
    // built exactly when the factory accepts the unqualified name, with a namespace
    // also the prefixed one, and the value as text
    ensures r.Some? <==> factory.accepts(Unqualified(soapKey))
                         && (namespace.Some? ==> factory.accepts(Qualified(soapKey, prefix, namespace.value)))
                         && factory.acceptsText(value)
    ensures r.Some? ==> r.value.element.text == value
    // without a namespace: named exactly soapKey, no namespace, whatever the prefix
    ensures r.Some? && namespace.None? ==>
              r.value.element.NodeName() == soapKey && r.value.element.NamespaceUri() == None
              && r.value.name == QName("", soapKey)
    // with a namespace: named prefix:soapKey (soapKey for an empty prefix) in that namespace
    ensures r.Some? && namespace.Some? ==>
              r.value.element.NodeName() == (if prefix == "" then soapKey else prefix + ":" + soapKey)
              && r.value.element.NamespaceUri() == namespace
              && r.value.name == QName(namespace.value, soapKey)
  {
    var qname := QName(if namespace.Some? then namespace.value else "", soapKey);
    match CreateElement(factory, Unqualified(soapKey))
    case Failure(_) => None
    case Success(plain) =>
      var element :=
        if namespace.None? then Success(plain) else CreateElement(factory, Qualified(soapKey, prefix, namespace.value));
      match element
      case Failure(_) => None
      case Success(named) =>
        match AddTextNode(factory, named, value)
        case Failure(_) => None
        case Success(filled) => Some(Header(qname, filled))
  }

  /** The message's header list, which `handleMessage` appends to in place. */
  class SoapMessage {
    var headers: seq<Header>

    constructor (headers: seq<Header>)
      ensures this.headers == headers
    {
      this.headers := headers;
    }
  }

  class TraceableHeaderSoapInterceptor {
    var mdcKey: string
    var soapKey: string
    var prefix: string
    var namespace: Option<string>

    constructor ()
      ensures mdcKey == DefaultMdcKey && soapKey == DefaultSoapKey
      ensures prefix == DefaultPrefix && namespace == None
    {
      mdcKey := DefaultMdcKey;
      soapKey := DefaultSoapKey;
      prefix := DefaultPrefix;
      namespace := None;
    }

    /**
     * Reads the context (never writes it) and appends at most one header:
     * none without a non-empty value or when the element cannot be built.
     */
    method HandleMessage(message: SoapMessage, mdc: Mdc, factory: SoapFactory)
      modifies message
      ensures Traced(mdc.entries, mdcKey).None? ==> message.headers == old(message.headers)
      ensures Traced(mdc.entries, mdcKey).Some? ==>
                var injected := InjectedHeader(soapKey, prefix, namespace, Traced(mdc.entries, mdcKey).value, factory);
                message.headers == old(message.headers) + (if injected.Some? then [injected.value] else [])
    {
      var transaction := mdc.Get(mdcKey);
      if transaction.None? || |transaction.value| == 0 {
        return;
      }

      // try { ... } catch (Exception e) { log }: each failure returns with the headers untouched
      var qname := QName(if namespace.Some? then namespace.value else "", soapKey);
      var created := CreateElement(factory, Unqualified(soapKey));
      if created.Failure? {
        return;
      }
      var element := created.value;
      if namespace.Some? {
        created := CreateElement(factory, Qualified(soapKey, prefix, namespace.value));
        if created.Failure? {
          return;
        }
        element := created.value;
      }
      var filled := AddTextNode(factory, element, transaction.value);
      if filled.Failure? {
        return;
      }
      element := filled.value;

      message.headers := message.headers + [Header(qname, element)];
    }

    method SetMdcKey(key: string)
      modifies this
      ensures mdcKey == key
      ensures soapKey == old(soapKey) && prefix == old(prefix) && namespace == old(namespace)
    {
      mdcKey := key;
    }

    method SetSoapKey(key: string)
      modifies this
      ensures soapKey == key
      ensures mdcKey == old(mdcKey) && prefix == old(prefix) && namespace == old(namespace)
    {
      soapKey := key;
    }

    method SetPrefix(p: string)
      modifies this
      ensures prefix == p
      ensures mdcKey == old(mdcKey) && soapKey == old(soapKey) && namespace == old(namespace)
    {
      prefix := p;
    }

    /** `setNamespace(null)` is `SetNamespace(None)`. */
    method SetNamespace(ns: Option<string>)
      modifies this
      ensures namespace == ns
      ensures mdcKey == old(mdcKey) && soapKey == old(soapKey) && prefix == old(prefix)
    {
      namespace := ns;
    }
  }
}

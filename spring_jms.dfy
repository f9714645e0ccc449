/**
 * The Spring JMS post-processor: copies the context value onto an outgoing
 * message as one string property, and leaves the message alone otherwise.
 */
module SpringJms {
  import opened Wrappers
  import opened Diagnostic
  import opened Propagation

  /** A JMS message reduced to its string properties. */
  class JmsMessage {
    var properties: map<string, string>

    constructor (properties: map<string, string>)
      ensures this.properties == properties
    {
      this.properties := properties;
    }

    /** `setStringProperty`: an empty name is refused (`IllegalArgumentException`) and nothing is set. */
    method SetStringProperty(name: string, value: string) returns (accepted: bool)
      modifies this
      ensures accepted <==> |name| > 0
      ensures accepted ==> properties == old(properties)[name := value]
      ensures !accepted ==> unchanged(this)
    {
      if |name| == 0 {
        return false;
      }
      properties := properties[name := value];
      accepted := true;
    }
  }

  /** The properties after post-processing, given the traced value (if any). */
  function Stamped(jmsKey: string, traced: Option<string>, properties: map<string, string>): (r: map<string, string>)
    // nothing traced: the properties are left as they were
    ensures traced.None? ==> r == properties
    // traced: exactly one property, jmsKey, is set, to the traced value
    ensures traced.Some? ==> jmsKey in r && r[jmsKey] == traced.value
    ensures traced.Some? ==> r.Keys == properties.Keys + {jmsKey}
    ensures r - {jmsKey} == properties - {jmsKey}
  {
    if traced.Some? then properties[jmsKey := traced.value] else properties
  }

  class TraceableMessagePostProcessor {
    var mdcKey: string
    var jmsKey: string

    constructor ()
      ensures mdcKey == DefaultMdcKey && jmsKey == DefaultMdcKey
    {
      mdcKey := DefaultMdcKey;
      jmsKey := DefaultMdcKey;
    }

    constructor WithKeys(mdcKey: string, jmsKey: string)
      ensures this.mdcKey == mdcKey && this.jmsKey == jmsKey
    {
      this.mdcKey := mdcKey;
      this.jmsKey := jmsKey;
    }

    /**
     * Reads the context (never writes it) and returns the message it was given,
     * or fails with the `IllegalArgumentException` that `setStringProperty`
     * raises for an empty property name.
     */
    method PostProcessMessage(message: JmsMessage, mdc: Mdc) returns (r: Result<JmsMessage, string>)
      modifies message
      // it fails exactly when there is a value to copy and the property name is empty
      ensures r.Failure? <==> Traced(mdc.entries, mdcKey).Some? && |jmsKey| == 0
      ensures r.Success? ==> r.value == message
      ensures r.Success? ==> message.properties == Stamped(jmsKey, Traced(mdc.entries, mdcKey), old(message.properties))
      // a failed call, or one with nothing to copy, leaves the message untouched
      ensures r.Failure? ==> unchanged(message)
      ensures Traced(mdc.entries, mdcKey).None? ==> unchanged(message)
    {
      var transaction := mdc.Get(mdcKey);
      if transaction.Some? && |transaction.value| > 0 {
        var accepted := message.SetStringProperty(jmsKey, transaction.value);
        if !accepted {
          return Failure("property name must not be empty");
        }
      }
      r := Success(message);
    }

    method SetMdcKey(key: string)
      modifies this
      ensures mdcKey == key && jmsKey == old(jmsKey)
    {
      mdcKey := key;
    }

    method SetJmsKey(key: string)
      modifies this
      ensures jmsKey == key && mdcKey == old(mdcKey)
    {
      jmsKey := key;
    }
  }
}

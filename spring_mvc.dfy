/**
 * The two Spring MVC interceptors: the same rule as the servlet filters, split
 * into `preHandle` (put, then let the request proceed) and `afterCompletion`
 * (remove), which the framework calls however the handler ended.
 */
module SpringMvc {
  import opened Diagnostic
  import opened Servlet
  import opened Propagation

  /** The context after `preHandle` has put `value` under `key`. */
  function PreHandled(key: string, value: string, ctx: Context): (r: Context) {
    ctx[key := value]
  }

  /** The context after `afterCompletion` has removed `key`. */
  function Completed(key: string, ctx: Context): (r: Context) {
    ctx - {key}
  }

  /**
   * preHandle, the handler, then afterCompletion, as the framework sequences
   * them, behave exactly as the servlet filter's put / chain / remove.
   */
  lemma InterceptedIsScoped(key: string, value: string, ctx: Context, handler: Chain)
    ensures var result := handler(PreHandled(key, value, ctx));
            Scoped(key, value, ctx, handler)
              == ScopedRun(PreHandled(key, value, ctx), Completed(key, result.context), result.outcome)
  {
  }

  /** Copies a request header into the context. */
  class HttpHeaderSpringInterceptor {
    var headerName: string
    var mdcKey: string

    constructor ()
      ensures headerName == DefaultHeaderName && mdcKey == DefaultMdcKey
    {
      headerName := DefaultHeaderName;
      mdcKey := DefaultMdcKey;
    }

    method PreHandle(request: HttpRequest, mdc: Mdc) returns (proceed: bool)
      modifies mdc
      ensures proceed
      ensures mdc.entries == PreHandled(mdcKey, Resolve(request.Header(headerName)), old(mdc.entries))
    {
      var transaction := request.Header(headerName);
      var value: string;
      if transaction.None? || |transaction.value| == 0 {
        value := Anonymous;
      } else {
        value := transaction.value;
      }
      mdc.Put(mdcKey, value);
      proceed := true;
    }

    /** The handler's outcome (the exception argument) plays no part. */
    method AfterCompletion(mdc: Mdc, handlerOutcome: Outcome)
      modifies mdc
      ensures mdc.entries == Completed(mdcKey, old(mdc.entries))
    {
      mdc.Remove(mdcKey);
    }

    method SetHeaderName(name: string)
      modifies this
      ensures headerName == name && mdcKey == old(mdcKey)
    {
      headerName := name;
    }

    method SetMdcKey(key: string)
      modifies this
      ensures mdcKey == key && headerName == old(headerName)
    {
      mdcKey := key;
    }
  }

  /** Copies the authenticated principal's name into the context. */
  class PrincipalSpringInterceptor {
    var mdcKey: string

    constructor ()
      ensures mdcKey == DefaultMdcKey
    {
      mdcKey := DefaultMdcKey;
    }

    method PreHandle(request: HttpRequest, mdc: Mdc) returns (proceed: bool)
      modifies mdc
      ensures proceed
      ensures mdc.entries == PreHandled(mdcKey, Resolve(request.principal), old(mdc.entries))
    {
      var username := Anonymous;
      var principal := request.principal;
      if principal.Some? && |principal.value| > 0 {
        username := principal.value;
      }
      mdc.Put(mdcKey, username);
      proceed := true;
    }

    method AfterCompletion(mdc: Mdc, handlerOutcome: Outcome)
      modifies mdc
      ensures mdc.entries == Completed(mdcKey, old(mdc.entries))
    {
      mdc.Remove(mdcKey);
    }

    method SetMdcKey(key: string)
      modifies this
      ensures mdcKey == key
    {
      mdcKey := key;
    }
  }
}

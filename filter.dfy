/**
 * The two servlet filters: each resolves a value from the request, puts it in
 * the thread's context under `mdcKey`, runs the rest of the chain and removes
 * the key afterwards, on both exits of the chain.
 */
module Filter {
  import opened Diagnostic
  import opened Servlet
  import opened Propagation

  const HeaderNameParam: string := "header_name"
  const MdcKeyParam: string := "mdc_key"

  /** Copies a request header into the context. */
  class HttpHeaderServletFilter {
    var headerName: string
    var mdcKey: string

    constructor ()
      ensures headerName == DefaultHeaderName && mdcKey == DefaultMdcKey
    {
      headerName := DefaultHeaderName;
      mdcKey := DefaultMdcKey;
    }

    /** Each of the two keys is overridden only by a parameter that is present; others are ignored. */
    method Init(config: FilterConfig)
      modifies this
      ensures headerName == (if HeaderNameParam in config then config[HeaderNameParam] else old(headerName))
      ensures mdcKey == (if MdcKeyParam in config then config[MdcKeyParam] else old(mdcKey))
    {
      var header := InitParameter(config, HeaderNameParam);
      if header.Some? {
        headerName := header.value;
      }
      var key := InitParameter(config, MdcKeyParam);
      if key.Some? {
        mdcKey := key.value;
      }
    }

    method DoFilter(request: HttpRequest, mdc: Mdc, chain: Chain) returns (outcome: Outcome)
      modifies mdc
      ensures var run := Scoped(mdcKey, Resolve(request.Header(headerName)), old(mdc.entries), chain);
              mdc.entries == run.after && outcome == run.outcome
    {
      var transaction := Resolve(request.Header(headerName));
      mdc.Put(mdcKey, transaction);
      outcome := RunChain(chain, mdc);
      // the `finally` block: reached whether the chain returned Ok or Fail
      mdc.Remove(mdcKey);
    }
  }

  /** Copies the authenticated principal's name into the context. */
  class PrincipalServletFilter {
    var mdcKey: string

    constructor ()
      ensures mdcKey == DefaultMdcKey
    {
      mdcKey := DefaultMdcKey;
    }

    method Init(config: FilterConfig)
      modifies this
      ensures mdcKey == (if MdcKeyParam in config then config[MdcKeyParam] else old(mdcKey))
    {
      var key := InitParameter(config, MdcKeyParam);
      if key.Some? {
        mdcKey := key.value;
      }
    }

    method DoFilter(request: HttpRequest, mdc: Mdc, chain: Chain) returns (outcome: Outcome)
      modifies mdc
      ensures var run := Scoped(mdcKey, Resolve(request.principal), old(mdc.entries), chain);
              mdc.entries == run.after && outcome == run.outcome
    {
      var username := Anonymous;
      var principal := request.principal;
      if principal.Some? && |principal.value| > 0 {
        username := principal.value;
      }
      mdc.Put(mdcKey, username);
      outcome := RunChain(chain, mdc);
      mdc.Remove(mdcKey);
    }
  }
}

/**
 * What the adapters see of their host frameworks: an HTTP request reduced to
 * its headers and its authenticated principal, the filter configuration as a
 * partial map of init parameters, and the remainder of the processing chain
 * as a step that may change the thread's context and ends Ok or Fail.
 */
module Servlet {
  import opened Wrappers
  import opened Diagnostic

  /** A request: header name to value, and the principal's name if one is authenticated. */
  datatype HttpRequest = HttpRequest(headers: map<string, string>, principal: Option<string>) {

    /** `getHeader`: None where the servlet API returns null. */
    function Header(name: string): (r: Option<string>)
      ensures r.Some? <==> name in headers
      ensures r.Some? ==> r.value == headers[name]
    {
      if name in headers then Some(headers[name]) else None
    }
  }

  /** Init parameters of a servlet filter (`FilterConfig.getInitParameter`). */
  type FilterConfig = map<string, string>

  function InitParameter(config: FilterConfig, name: string): (r: Option<string>)
    ensures r.Some? <==> name in config
    ensures r.Some? ==> r.value == config[name]
  {
    if name in config then Some(config[name]) else None
  }

  /** How the rest of the chain exits: normally, or by throwing. */
  datatype Outcome = Ok | Fail(cause: string)

  /** The context the rest of the chain leaves behind, and how it exits. */
  datatype ChainResult = ChainResult(context: Context, outcome: Outcome)

  /**
   * The rest of the filter chain (or the MVC handler): given the context it
   * observes on entry, what it leaves in the context and how it exits.
   */
  type Chain = Context -> ChainResult

  /** `chain.doFilter(request, response)` run on the current thread. */
  method RunChain(chain: Chain, mdc: Mdc) returns (outcome: Outcome)
    modifies mdc
    ensures mdc.entries == chain(old(mdc.entries)).context
    ensures outcome == chain(old(mdc.entries)).outcome
  {
    var result := chain(mdc.entries);
    mdc.entries := result.context;
    outcome := result.outcome;
  }
}

/**
 * The Mapped Diagnostic Context of one thread: a string-to-string map that
 * the logging backend reads by key. Thread-locality is not modelled; every
 * adapter is given the current thread's context explicitly.
 */
module Diagnostic {
  import opened Wrappers

  type Context = map<string, string>

  class Mdc {
    var entries: Context

    constructor ()
      ensures entries == map[]
    {
      entries := map[];
    }

    /** `MDC.get`: the value under `key`, or None when there is none. */
    function Get(key: string): (r: Option<string>)
      reads this
      ensures r.Some? <==> key in entries
      ensures r.Some? ==> r.value == entries[key]
    {
      if key in entries then Some(entries[key]) else None
    }

    /** `MDC.put`: overwrites any earlier value of `key`. */
    method Put(key: string, value: string)
      modifies this
      ensures entries == old(entries)[key := value]
    {
      entries := entries[key := value];
    }

    /** `MDC.remove`: a no-op when `key` is absent. */
    method Remove(key: string)
      modifies this
      ensures entries == old(entries) - {key}
    {
      entries := entries - {key};
    }
  }
}

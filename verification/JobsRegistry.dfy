/** The registry of job handlers: one handler per job name. */
module JobsRegistry {
  import opened Common

  datatype Handler = Handler(identity: nat, isNil: bool)

  datatype Error = InvalidRegistration | HandlerRegistered | HandlerNotFound

  class Registry {
    var handlers: map<string, Handler>

    ghost predicate Valid()
      reads this
    {
      forall name :: name in handlers ==> name != "" && !handlers[name].isNil
    }

    constructor ()
      ensures Valid() && handlers == map[]
    {
      handlers := map[];
    }

    /** Never overwrites a handler. */
    method Register(name: string, h: Handler) returns (r: Option<Error>)
      requires Valid()
      modifies this
      ensures Valid()
      ensures r.None? <==> name != "" && !h.isNil && name !in old(handlers)
      ensures handlers == if r.None? then old(handlers)[name := h] else old(handlers)
    {
      if name == "" || h.isNil { return Some(InvalidRegistration); }
      if name in handlers { return Some(HandlerRegistered); }
      handlers := handlers[name := h];
      return None;
    }

    /** Only overwrites a handler. */
    method Replace(name: string, h: Handler) returns (r: Option<Error>)
      requires Valid()
      modifies this
      ensures Valid()
      ensures r.None? <==> !h.isNil && name in old(handlers)
      ensures handlers == if r.None? then old(handlers)[name := h] else old(handlers)
    {
      if name == "" || h.isNil { return Some(InvalidRegistration); }
      if name !in handlers { return Some(HandlerNotFound); }
      handlers := handlers[name := h];
      return None;
    }

    method HandlerFor(name: string) returns (h: Option<Handler>)
      requires Valid()
      ensures h.Some? <==> name in handlers
      ensures h.Some? ==> h.value == handlers[name] && !h.value.isNil
    {
      h := if name in handlers then Some(handlers[name]) else None;
    }
  }
}

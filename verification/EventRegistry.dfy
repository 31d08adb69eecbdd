/** The registry of event handlers that outbox delivery rests on. */
module EventRegistry {
  import opened Common
  import opened Text

  const ANY_TYPE := "*"

  /** A handler value; two registrations of the same instance have the same identity. */
  datatype Handler = Handler(identity: nat, eventType: string, isNil: bool)

  datatype Error = InvalidHandler | RegistryFrozen | Duplicate

  function TypeOf(h: Handler): string {
    Trim(h.eventType)
  }

  class Registry {
    var handlers: map<string, seq<Handler>>
    var frozen: bool

    /** Handlers are filed under their own type, once each. */
    ghost predicate Valid()
      reads this
    {
      && forall t :: t in handlers ==>
           && t != ""
           && (forall i :: 0 <= i < |handlers[t]| ==> TypeOf(handlers[t][i]) == t && !handlers[t][i].isNil)
           && (forall i, j :: 0 <= i < j < |handlers[t]| ==> handlers[t][i] != handlers[t][j])
    }

    ghost predicate Registered(h: Handler)
      reads this
    {
      TypeOf(h) in handlers && h in handlers[TypeOf(h)]
    }

    constructor ()
      ensures Valid() && !frozen && handlers == map[]
    {
      handlers, frozen := map[], false;
    }

    method Register(h: Handler) returns (r: Option<Error>)
      requires Valid()
      modifies this
      ensures Valid() && frozen == old(frozen)
      ensures r.None? <==> !h.isNil && TypeOf(h) != "" && !frozen && !old(Registered(h))
      ensures r.Some? ==> handlers == old(handlers)
      ensures r.None? ==> forall g :: Registered(g) <==> old(Registered(g)) || g == h
    {
      var t := TypeOf(h);
      if h.isNil || t == "" { return Some(InvalidHandler); }
      if frozen { return Some(RegistryFrozen); }
      var existing := if t in handlers then handlers[t] else [];
      for i := 0 to |existing|
        invariant forall k :: 0 <= k < i ==> existing[k] != h
      {
        if existing[i] == h { return Some(Duplicate); }
      }
      assert h !in existing;
      handlers := handlers[t := existing + [h]];
      return None;
    }

    method Freeze()
      requires Valid()
      modifies this
      ensures Valid() && frozen && handlers == old(handlers)
    {
      frozen := true;
    }

    /** Exactly the handlers of the event's type and the "*" handlers, each once. */
    method HandlersFor(eventType: string) returns (out: seq<Handler>)
      requires Valid()
      ensures forall h :: h in out <==> Registered(h) && (TypeOf(h) == eventType || TypeOf(h) == ANY_TYPE)
      ensures forall i, j :: 0 <= i < j < |out| ==> out[i] != out[j]
    {
      out := if eventType in handlers then handlers[eventType] else [];
      if eventType != ANY_TYPE {
        out := out + if ANY_TYPE in handlers then handlers[ANY_TYPE] else [];
      }
    }
  }
}

/**
  The older layout of the crate (src/lib.rs with src/tabs.rs). Its error
  type, its three helpers and its `FromWasmAbiResult` are the same
  definitions as the newer src/error.rs and src/util.rs and are modelled
  there; what differs is modelled here: the typed `EventTarget` wrapper
  and the two-variant tab `Status`.
 */
module Legacy {
  import opened Prelude
  import EventListeners
  import TabStatus

  /**
    `EventTarget<A>`: a host event source tagged with the argument type of
    its callbacks. `add_listener` delegates to `EventListener::new`.
   */
  class EventTarget<F> {
    const host: EventListeners.HostTarget

    constructor (host: EventListeners.HostTarget)
      ensures this.host == host
    {
      this.host := host;
    }

    /** Behaves as `EventListener::new` on the wrapped host target. */
    method AddListener(body: F) returns (l: EventListeners.EventListener<F>)
      modifies host
      ensures fresh(l) && l.target == host
      ensures l.callback.Some? && fresh(l.callback.value)
      ensures l.callback.value.body == body && !l.callback.value.leaked
      ensures host.registrations == old(host.registrations) + multiset{l.callback.value}
    {
      l := EventListeners.EventListener.New(host, body);
    }
  }

  /** The older tab status: there is no `unloaded` here. */
  datatype Status = Loading | Complete

  function EncodeStatus(st: Status): string
  {
    match st
    case Loading => "loading"
    case Complete => "complete"
  }

  /** serde's derived deserialiser: only the two names decode. */
  function DecodeStatus(s: string): (r: Option<Status>)
    ensures r.Some? ==> EncodeStatus(r.value) == s
    ensures r.None? ==> forall st :: EncodeStatus(st) != s
  {
    match s
    case "loading" => Some(Loading)
    case "complete" => Some(Complete)
    case _ => None
  }

  /** The round trip of the older status test (src/tabs.rs:201-213). */
  lemma StatusRoundTrip(st: Status)
    ensures DecodeStatus(EncodeStatus(st)) == Some(st)
  {
  }

  /** The two names are distinct. */
  lemma EncodeStatusInjective(a: Status, b: Status)
    ensures EncodeStatus(a) == EncodeStatus(b) <==> a == b
  {
  }

  /** `"unloaded"` is not accepted by the older layout, although the newer one accepts it. */
  lemma UnloadedRejected()
    ensures DecodeStatus("unloaded") == None
    ensures TabStatus.Decode("unloaded") == Ok(TabStatus.Unloaded)
  {
  }

  /**
    Both names of the older status mean the same in the newer layout: the
    newer decoder reads each older name to the variant of the same name.
   */
  lemma OlderNamesDecodeInNewerLayout(st: Status)
    ensures TabStatus.Decode(EncodeStatus(st)).Ok?
    ensures TabStatus.Decode(EncodeStatus(st)).value == (if st == Loading then TabStatus.Loading else TabStatus.Complete)
  {
  }
}

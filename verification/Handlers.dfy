/** The handlers subscribed to each message type, and what the one handler of this
    system writes. */
module Handlers {
  import opened Common
  import opened Envelope
  import Text

  /** `handler_name`, the inbox deduplication key of a handler class. */
  datatype HandlerName = OpenClearanceCase | NamedHandler(name: string)

  /** A handler class: its identity, the type it subscribes to, and its name. */
  datatype Handler = Handler(classId: nat, mtype: MessageType, name: HandlerName)

  /** What a handler adds to its module's tables when it succeeds. */
  datatype Write = OpenedCase(shipment: string) | OtherWrite(body: Body)

  const MAX_SHIPMENT_ID := 64
  const MAX_COMMODITY_CODE := 16

  predicate ValidText(body: Body, field: Field, max: nat) {
    field in body && 1 <= |Text.Trim(body[field])| <= max
  }

  /** The command the opening handler builds from a delivered body: unknown members
      are ignored, a missing or oversized one is refused. */
  predicate ValidOpening(body: Body) {
    ValidText(body, ShipmentIdField, MAX_SHIPMENT_ID) && ValidText(body, CommodityCodeField, MAX_COMMODITY_CODE)
  }

  /** The write of one successful run, or none when the body is refused. */
  function HandlerWrite(name: HandlerName, body: Body): Option<Write> {
    match name
    case OpenClearanceCase =>
      if ValidOpening(body) then Some(OpenedCase(Text.Trim(body[ShipmentIdField]))) else None
    case NamedHandler(_) => Some(OtherWrite(body))
  }

  /** What the opening handler takes, and what it writes: both fields, a shipment of 1 to
      64 characters and a commodity code of 1 to 16, space around them aside. */
  lemma {:induction false} OpensExactly(body: Body)
    ensures HandlerWrite(OpenClearanceCase, body).Some? <==>
              ShipmentIdField in body && 1 <= |Text.Trim(body[ShipmentIdField])| <= 64 &&
              CommodityCodeField in body && 1 <= |Text.Trim(body[CommodityCodeField])| <= 16
    ensures HandlerWrite(OpenClearanceCase, body).Some? ==>
              HandlerWrite(OpenClearanceCase, body) == Some(OpenedCase(Text.Trim(body[ShipmentIdField])))
  {
  }

  type Subscriptions = map<MessageType, seq<Handler>>

  function SubscribersOf(subs: Subscriptions, mtype: MessageType): seq<Handler> {
    if mtype in subs then subs[mtype] else []
  }

  function Registered(subs: Subscriptions, h: Handler): Subscriptions {
    var current := SubscribersOf(subs, h.mtype);
    subs[h.mtype := if h in current then current else current + [h]]
  }

  function RegisteredAll(subs: Subscriptions, hs: seq<Handler>): Subscriptions {
    if hs == [] then subs else Registered(RegisteredAll(subs, hs[..|hs| - 1]), hs[|hs| - 1])
  }

  ghost predicate NoDuplicates<T>(s: seq<T>) {
    forall i, j :: 0 <= i < j < |s| ==> s[i] != s[j]
  }

  /** Whatever is registered, however often: each type lists exactly the handlers
      declaring it, each once, and only types with a subscriber are listed. */
  lemma {:induction false} SubscribedExactly(hs: seq<Handler>, mtype: MessageType)
    ensures var subs := RegisteredAll(map[], hs);
            NoDuplicates(SubscribersOf(subs, mtype)) &&
            (mtype in subs <==> exists h :: h in hs && h.mtype == mtype) &&
            forall h :: h in SubscribersOf(subs, mtype) <==> h in hs && h.mtype == mtype
  {
    if hs != [] {
      var most, last := hs[..|hs| - 1], hs[|hs| - 1];
      SubscribedExactly(most, mtype);
      assert forall h :: h in hs <==> h in most || h == last;
    }
  }

  /** Where a handler was first registered. */
  predicate FirstAt(hs: seq<Handler>, h: Handler, i: nat) {
    i < |hs| && hs[i] == h && forall j :: 0 <= j < i ==> hs[j] != h
  }

  /** Handlers are listed, and so run, in the order in which they were first registered. */
  lemma {:induction false} RegistrationOrder(hs: seq<Handler>, mtype: MessageType, a: nat, b: nat, i: nat, j: nat)
    requires a < b < |SubscribersOf(RegisteredAll(map[], hs), mtype)|
    requires FirstAt(hs, SubscribersOf(RegisteredAll(map[], hs), mtype)[a], i)
    requires FirstAt(hs, SubscribersOf(RegisteredAll(map[], hs), mtype)[b], j)
    ensures i < j
  {
    var most, last := hs[..|hs| - 1], hs[|hs| - 1];
    var before, after := SubscribersOf(RegisteredAll(map[], most), mtype),
                         SubscribersOf(RegisteredAll(map[], hs), mtype);
    SubscribedExactly(most, mtype);
    assert after[a] == before[a];
    assert before[a] in before && before[a] in most;
    var k :| 0 <= k < |most| && most[k] == before[a];
    assert i <= k;
    if b < |before| {
      assert before[b] in before && before[b] in most;
      var l :| 0 <= l < |most| && most[l] == before[b];
      assert j <= l;
      RegistrationOrder(most, mtype, a, b, i, j);
    } else {
      assert j == |most|;
    }
  }

  class MessageHandlerRegistry {
    var handlers: Subscriptions

    constructor ()
      ensures handlers == map[]
    {
      handlers := map[];
    }

    method Register(h: Handler)
      modifies this
      ensures handlers == Registered(old(handlers), h)
    {
      var subscribers := if h.mtype in handlers then handlers[h.mtype] else [];
      if h !in subscribers {
        subscribers := subscribers + [h];
      }
      handlers := handlers[h.mtype := subscribers];
    }

    method RegisterAll(hs: seq<Handler>)
      modifies this
      ensures handlers == RegisteredAll(old(handlers), hs)
    {
      for i := 0 to |hs|
        invariant handlers == RegisteredAll(old(handlers), hs[..i])
      {
        Register(hs[i]);
        assert hs[..i + 1][..i] == hs[..i];
      }
      assert hs[..|hs|] == hs;
    }

    method HandlersFor(mtype: MessageType) returns (subscribers: seq<Handler>)
      ensures subscribers == SubscribersOf(handlers, mtype)
    {
      subscribers := if mtype in handlers then handlers[mtype] else [];
    }

    method SubscribedTypes() returns (types: set<MessageType>)
      ensures types == handlers.Keys
    {
      types := handlers.Keys;
    }
  }
}

/** Publishers and their wire form: aerozen/publisher.cpp over the Discovery protobuf message. */
module Publishers {

  datatype Option<+T> = None | Some(value: T)

  datatype Scope = PROCESS | HOST | ALL

  const UNTHROTTLED: nat := 0xFFFF_FFFF_FFFF_FFFF
  const GENERIC_MESSAGE_TYPE := "google.protobuf.Message"

  /** A subscription of this type takes messages of that type. */
  predicate TypeMatches(handlerType: string, msgType: string) {
    handlerType == msgType || handlerType == GENERIC_MESSAGE_TYPE
  }

  /** Which of the two discovery services a process runs: topics or service calls. */
  datatype Kind = MsgKind | SrvKind

  /** The part added by MessagePublisher or ServicePublisher. Each carries its own options, next to the base ones. */
  datatype Details =
    | MsgDetails(ctrl: string, msgType: string, scope: Scope, msgsPerSec: nat)
    | SrvDetails(socketId: string, reqType: string, repType: string, scope: Scope)

  /** `opts` is the scope held by the base class; Options() of a derived publisher reads `details.scope`. */
  datatype Publisher = Publisher(
    topic: string, addr: string, pUuid: string, nUuid: string, opts: Scope, details: Details)
  {
    function Scope(): Scope {
      details.scope
    }

    function Kind(): Kind {
      if details.MsgDetails? then MsgKind else SrvKind
    }
  }

  /** The publishers that the constructors build: one set of options copied to both levels. */
  predicate Consistent(p: Publisher) {
    p.opts == p.details.scope
  }

  /** The identity under which TopicStorage keeps a publisher. */
  predicate SameKey(x: Publisher, y: Publisher) {
    x.topic == y.topic && x.pUuid == y.pUuid && x.addr == y.addr && x.nUuid == y.nUuid
  }

  /** The optional msg_pub and srv_pub submessages. */
  datatype Body =
    | NoBody
    | MsgBody(ctrl: string, msgType: string, throttled: bool, msgsPerSec: nat)
    | SrvBody(socketId: string, requestType: string, responseType: string)

  datatype WirePub = WirePub(
    topic: string, address: string, processUuid: string, nodeUuid: string, scope: Scope, body: Body)

  function FillDiscovery(p: Publisher): WirePub {
    WirePub(p.topic, p.addr, p.pUuid, p.nUuid, p.opts,
      match p.details
      case MsgDetails(ctrl, msgType, _, rate) => MsgBody(ctrl, msgType, rate != UNTHROTTLED, rate)
      case SrvDetails(socketId, reqType, repType, _) => SrvBody(socketId, reqType, repType))
  }

  /** Absent submessages read as their protobuf defaults. A `sub` part hides the base fields of `pub`. */
  function SetFromDiscovery(kind: Kind, sub: Option<string>, pub: WirePub): Publisher {
    var scope := if sub.Some? then ALL else pub.scope;
    var details :=
      match kind
      case MsgKind =>
        (match pub.body
         case MsgBody(ctrl, msgType, throttled, rate) =>
           MsgDetails(ctrl, msgType, scope, if throttled then rate else UNTHROTTLED)
         case _ => MsgDetails("", "", scope, UNTHROTTLED))
      case SrvKind =>
        (match pub.body
         case SrvBody(socketId, reqType, repType) => SrvDetails(socketId, reqType, repType, scope)
         case _ => SrvDetails("", "", "", scope));
    if sub.Some? then Publisher(sub.value, "", "", "", scope, details)
    else Publisher(pub.topic, pub.address, pub.processUuid, pub.nodeUuid, scope, details)
  }

  /** What a receiver rebuilds from a publisher sent to it. */
  function OverTheWire(p: Publisher): Publisher {
    SetFromDiscovery(p.Kind(), None, FillDiscovery(p))
  }

  /** The wire loses nothing exactly when both levels of options agree, as the constructors leave them;
      SetOptions on a derived publisher changes one level only. What arrives always agrees. */
  lemma WireRoundTrip(p: Publisher)
    ensures OverTheWire(p) == p <==> Consistent(p)
    ensures Consistent(OverTheWire(p)) && OverTheWire(OverTheWire(p)) == OverTheWire(p)
    ensures SameKey(OverTheWire(p), p) && OverTheWire(p).Scope() == p.opts
  {
  }
}

/** Routing of robotServer events to one client. */
module Events {
  import opened Wrappers

  /** A parsed JSON value, as far as the client looks into it. */
  datatype Json =
    | Null
    | Bool(b: bool)
    | Number
    | Text(text: string)
    | Array
    | Object(members: map<string, Json>)

  /** An event as received: `payload` is None when the text is not JSON. */
  datatype EventMessage = EventMessage(magicOk: bool, topic: string, text: string, payload: Option<Json>)

  /** Where a client listens: the robot it belongs to, and whether it is an external host or
      runs on board. */
  datatype Listener = Listener(deviceId: string, host: bool)

  datatype Routed =
    | Ignored
    | Status(controlled: bool, holder: string)
    | Forwarded(topic: string, text: string)
    | Unwrapped(name: string, detail: Json)

  const STATUS: string := "robotServer.control.status"
  const HOST_EVENT: string := "robotServer.host.event"

  function StatusTopic(l: Listener): string {
    if l.host then l.deviceId + "." + STATUS else STATUS
  }

  function HostEventTopic(l: Listener): string {
    if l.host then l.deviceId + "." + HOST_EVENT else HOST_EVENT
  }

  function ReadControlled(members: map<string, Json>): bool {
    if "controlled" !in members then false
    else match members["controlled"]
      case Bool(b) => b
      case Text(t) => t != "0"
      case _ => false
  }

  function TextMember(members: map<string, Json>, name: string): string {
    if name in members && members[name].Text? then members[name].text else ""
  }

  /** handle_event up to the decision what the event is for. */
  function Route(l: Listener, m: EventMessage): Routed {
    if !m.magicOk then Ignored
    else if l.host && m.topic != StatusTopic(l) && m.topic != HostEventTopic(l) then Ignored
    else if m.payload.None? || !m.payload.value.Object? then Forwarded(m.topic, m.text)
    else
      var members := m.payload.value.members;
      if m.topic == StatusTopic(l) then
        Status(ReadControlled(members), TextMember(members, "controller"))
      else if m.topic == HostEventTopic(l)
              && "event" in members && members["event"].Text? && "detail" in members then
        Unwrapped(members["event"].text, members["detail"])
      else Forwarded(m.topic, m.text)
  }

  // ---------- isolation ----------

  lemma SameSuffixSamePrefix(a: string, b: string, suffix: string)
    requires a + suffix == b + suffix
    ensures a == b
  {
    assert |a| == |b|;
    assert a == (a + suffix)[..|a|] && b == (b + suffix)[..|b|];
  }

  lemma DifferentLastCharacters(a: string, b: string)
    ensures a + STATUS != b + HOST_EVENT
  {
    var x, y := a + STATUS, b + HOST_EVENT;
    assert x[|x| - 1] == STATUS[|STATUS| - 1] == 's';
    assert y[|y| - 1] == HOST_EVENT[|HOST_EVENT| - 1] == 't';
  }

  /** No topic is the status topic of one client and the host-event topic of another (or the
      same), whatever the device ids and sources. */
  lemma StatusIsNeverHostEvent(l: Listener, k: Listener)
    ensures StatusTopic(l) != HostEventTopic(k)
  {
    DifferentLastCharacters(if l.host then l.deviceId + "." else "", if k.host then k.deviceId + "." else "");
    assert "" + STATUS == STATUS && "" + HOST_EVENT == HOST_EVENT;
  }

  lemma HostTopicsNameTheDevice(l: Listener, k: Listener)
    requires l.host && k.host
    ensures StatusTopic(l) == StatusTopic(k) || HostEventTopic(l) == HostEventTopic(k) ==> l.deviceId == k.deviceId
  {
    if StatusTopic(l) == StatusTopic(k) {
      SameSuffixSamePrefix(l.deviceId + ".", k.deviceId + ".", STATUS);
      SameSuffixSamePrefix(l.deviceId, k.deviceId, ".");
    }
    if HostEventTopic(l) == HostEventTopic(k) {
      SameSuffixSamePrefix(l.deviceId + ".", k.deviceId + ".", HOST_EVENT);
      SameSuffixSamePrefix(l.deviceId, k.deviceId, ".");
    }
  }

  /** Two host clients of different robots never both react to one event. */
  lemma EventIsolation(l: Listener, k: Listener, m: EventMessage)
    requires l.host && k.host && l.deviceId != k.deviceId
    ensures Route(l, m).Ignored? || Route(k, m).Ignored?
  {
    HostTopicsNameTheDevice(l, k);
    StatusIsNeverHostEvent(l, k);
    StatusIsNeverHostEvent(k, l);
  }

  /** A host client takes an event for its control status exactly when the event carries the
      magic number, its own status topic, and an object. */
  lemma StatusIff(l: Listener, m: EventMessage)
    ensures Route(l, m).Status? <==>
              m.magicOk && m.topic == StatusTopic(l) && m.payload.Some? && m.payload.value.Object?
  {
    StatusIsNeverHostEvent(l, l);
  }

  /** The event concerns this client at all. */
  predicate Concerns(l: Listener, m: EventMessage) {
    m.magicOk && (l.host ==> m.topic in {StatusTopic(l), HostEventTopic(l)})
  }

  /** A host event with its name and detail: unwrapped for the event callback. */
  predicate Wrapped(l: Listener, m: EventMessage) {
    && m.topic == HostEventTopic(l) && m.payload.Some? && m.payload.value.Object?
    && var members := m.payload.value.members;
       "event" in members && members["event"].Text? && "detail" in members
  }

  /** What becomes of every event: one that does not concern the client is ignored; a control
      status is taken, with its members "controlled" and "controller"; a wrapped host event is
      passed on by its own name with its detail; and anything else is passed on as it came. */
  lemma RouteIff(l: Listener, m: EventMessage)
    ensures Route(l, m).Ignored? <==> !Concerns(l, m)
    ensures Route(l, m).Unwrapped? <==> Concerns(l, m) && Wrapped(l, m)
    ensures Route(l, m).Unwrapped? ==>
              var members := m.payload.value.members;
              members["event"] == Text(Route(l, m).name) && members["detail"] == Route(l, m).detail
    ensures Route(l, m).Forwarded? ==> Route(l, m) == Forwarded(m.topic, m.text)
    ensures Route(l, m).Status? ==>
              var members := m.payload.value.members;
              && (Route(l, m).controlled <==>
                    "controlled" in members
                    && match members["controlled"] case Bool(b) => b case Text(t) => t != "0" case _ => false)
              && Route(l, m).holder ==
                   (if "controller" in members && members["controller"].Text? then members["controller"].text else "")
  {
    StatusIff(l, m);
    StatusIsNeverHostEvent(l, l);
  }
}

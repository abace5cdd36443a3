/**
 * What the script does to the outside world, as an append-only trace of
 * events: Growl UDP datagrams, the Prowl HTTP post, writes to standard output
 * and standard error, and an uncaught exception.
 *
 * The Growl packets are records of the values they are built from; their byte
 * layout, checksum and password keying belong to the `netgrowl` library.
 */
module Effects {

  /** `netgrowl.GROWL_UDP_PORT`, the registered port of the legacy Growl protocol. */
  const GrowlUdpPort: int := 9887

  /** A notification declared by a registration packet, and whether it is enabled. */
  datatype Declared = Declared(name: string, enabled: bool)

  datatype Packet =
    | Registration(application: string, password: string, notifications: seq<Declared>)
    | Notification(
        application: string, notification: string, title: string, description: string,
        priority: int, sticky: bool, password: string)

  /** `GrowlRegistrationPacket(application=..., password=...)`: nothing declared yet. */
  function NewRegistration(application: string, password: string): Packet
  {
    Registration(application, password, [])
  }

  /** `addNotification(name)`: declares one more notification, enabled by default. */
  function AddNotification(p: Packet, name: string): (r: Packet)
    requires p.Registration?
    ensures r.Registration? && r.application == p.application && r.password == p.password
    ensures |r.notifications| == |p.notifications| + 1
    ensures r.notifications[..|p.notifications|] == p.notifications
    ensures r.notifications[|p.notifications|] == Declared(name, true)
  {
    p.(notifications := p.notifications + [Declared(name, true)])
  }

  datatype Event =
    | Datagram(host: string, port: int, packet: Packet)
    | ProwlPost(apiKey: string, application: string, event: string, description: string, priority: int)
    | Stdout(text: string)
    | Stderr(text: string)
    | Uncaught(message: string)  // an exception that ends the script with status 1

  /** Does the event reach the network? */
  predicate IsSend(e: Event) {
    e.Datagram? || e.ProwlPost?
  }

  predicate NoSends(es: seq<Event>) {
    forall i :: 0 <= i < |es| ==> !IsSend(es[i])
  }

  /** The events of one run, in order. */
  class Trace {
    var events: seq<Event>

    constructor ()
      ensures events == []
    {
      events := [];
    }

    method Emit(e: Event)
      modifies this
      ensures events == old(events) + [e]
    {
      events := events + [e];
    }
  }

  /** `sendMessage(message, addr)`: one datagram carrying the packet to `addr`. */
  method SendMessage(trace: Trace, packet: Packet, host: string, port: int)
    modifies trace
    ensures trace.events == old(trace.events) + [Datagram(host, port, packet)]
  {
    trace.Emit(Datagram(host, port, packet));
  }
}

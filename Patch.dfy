/**
 * Message patches and message routing (include/audiolib/Patch.h,
 * src/audiolib/Patch.cpp). Each output port of a patch is wired to at most
 * one input port of some patch; a received message is handed to the
 * patch's `processMessage`, whose sends are forwarded along the wiring
 * with the time-to-live lowered by one per hop.
 */
module Patches {
  import opened Wrappers
  import opened Decimal
  import opened Messages
  import opened OrderedSets
  import opened PatchUtils

  /** `PortPair`: an input port of a patch, held by reference. */
  datatype PortPair = PortPair(patch: Patch, port: int)

  /** The default time-to-live of `receiveMessage`. */
  const DEFAULT_TTL: int := 2048

  class Patch {
    const name: string
    /** Which subclass this is, and so what `processMessage` does. */
    const kind: PatchKind
    /** `message_output_ports_`, a `std::set<int>`, as its ascending listing. */
    var messageOutputPorts: seq<int>
    /** `message_output_map_`: each connected output port and its destination. */
    var messageOutputMap: map<int, PortPair>

    /** The port set lists exactly the keys of the map. */
    ghost predicate Valid()
      reads this
    {
      Increasing(messageOutputPorts) && forall p :: p in messageOutputPorts <==> p in messageOutputMap
    }

    constructor (name: string, kind: PatchKind)
      ensures this.name == name && this.kind == kind
      ensures messageOutputPorts == [] && messageOutputMap == map[] && Valid()
    {
      this.name := name;
      this.kind := kind;
      messageOutputPorts := [];
      messageOutputMap := map[];
    }

    /**
     * `connectMessagePort(out_port, patch, in_port)`: refuses an output
     * port that is already wired, changing nothing; otherwise records the
     * destination and adds the port to the port set.
     */
    method ConnectMessagePort(outPort: int, patch: Patch, inPort: int) returns (r: Outcome<string>)
      requires Valid()
      modifies this`messageOutputPorts, this`messageOutputMap
      ensures Valid()
      ensures r.Fail? <==> outPort in old(messageOutputMap)
      ensures r.Fail? ==>
                && r.error == "Cannot make connection. " + name + " message port " + IntToString(outPort)
                              + " is already connected."
                && messageOutputMap == old(messageOutputMap) && messageOutputPorts == old(messageOutputPorts)
      ensures r.Pass? ==>
                && messageOutputMap == old(messageOutputMap)[outPort := PortPair(patch, inPort)]
                && messageOutputPorts == Insert(old(messageOutputPorts), outPort)
    {
      if outPort in messageOutputMap {
        return Fail("Cannot make connection. " + name + " message port " + IntToString(outPort)
                    + " is already connected.");
      }
      messageOutputMap := messageOutputMap[outPort := PortPair(patch, inPort)];
      messageOutputPorts := Insert(messageOutputPorts, outPort);
      r := Pass;
    }

    /**
     * `unconnectMessagePort(out_port)`: refuses a port that is not wired,
     * changing nothing; otherwise drops it from the map and the port set.
     */
    method UnconnectMessagePort(outPort: int) returns (r: Outcome<string>)
      requires Valid()
      modifies this`messageOutputPorts, this`messageOutputMap
      ensures Valid()
      ensures r.Fail? <==> outPort !in old(messageOutputMap)
      ensures r.Fail? ==>
                && r.error == "Cannot disconnect. " + name + " message port " + IntToString(outPort)
                              + " is not connected."
                && messageOutputMap == old(messageOutputMap) && messageOutputPorts == old(messageOutputPorts)
      ensures r.Pass? ==>
                && messageOutputMap == old(messageOutputMap) - {outPort}
                && messageOutputPorts == Remove(old(messageOutputPorts), outPort)
    {
      if outPort !in messageOutputMap {
        return Fail("Cannot disconnect. " + name + " message port " + IntToString(outPort)
                    + " is not connected.");
      }
      messageOutputMap := messageOutputMap - {outPort};
      messageOutputPorts := Remove(messageOutputPorts, outPort);
      r := Pass;
    }

    /**
     * `receiveMessage(in_port, m, ttl)`: stops with an error when the
     * time-to-live is used up; otherwise processes the message, forwarding
     * each send with one less.
     */
    method ReceiveMessage(inPort: int, m: Message, ttl: int, ghost net: set<Patch>) returns (trace: Trace)
      requires this in net && Closed(net)
      ensures trace == Route(net, this, inPort, m, ttl)
      decreases Fuel(ttl), 3
    {
      if ttl <= 0 {
        return Trace([], true);
      }
      var rest := ProcessMessage(inPort, m, ttl - 1, net);
      trace := Trace([Delivery(this, inPort, m, ttl)] + rest.deliveries, rest.expired);
    }

    /**
     * `processMessage` with the send callback of `receiveMessage`: the
     * patch's sends are forwarded in order, each with the lowered
     * time-to-live, until one of them fails.
     */
    method ProcessMessage(inPort: int, m: Message, ttl: int, ghost net: set<Patch>) returns (trace: Trace)
      requires this in net && Closed(net)
      ensures trace == RouteSends(net, this, Process(kind, messageOutputPorts, inPort, m), ttl)
      decreases Fuel(ttl), 5
    {
      var sends := ProcessSends(kind, messageOutputPorts, inPort, m);
      ghost var whole := RouteSends(net, this, sends, ttl);
      trace := Trace([], false);
      var i := 0;
      while i < |sends| && !trace.expired
        invariant 0 <= i <= |sends|
        invariant trace.expired ==> trace == whole
        invariant !trace.expired ==> Then(trace, RouteSends(net, this, sends[i..], ttl)) == whole
        decreases |sends| - i
      {
        var t := SendMessage(sends[i].outPort, sends[i].msg, ttl, net);
        assert sends[i..][1..] == sends[i + 1..];
        ThenAssociates(trace, t, RouteSends(net, this, sends[i + 1..], ttl));
        trace := Then(trace, t);
        i := i + 1;
      }
      if !trace.expired {
        assert trace.deliveries + [] == trace.deliveries;
      }
    }

    /** `sendMessage(out_port, m, ttl)`: nothing happens on an output port that is not wired. */
    method SendMessage(outPort: int, m: Message, ttl: int, ghost net: set<Patch>) returns (trace: Trace)
      requires this in net && Closed(net)
      ensures trace == SendRoute(net, this, Send(outPort, m), ttl)
      ensures outPort !in messageOutputMap ==> trace == Trace([], false)
      decreases Fuel(ttl), 4
    {
      if outPort in messageOutputMap {
        var pp := messageOutputMap[outPort];
        trace := pp.patch.ReceiveMessage(pp.port, m, ttl, net);
      } else {
        trace := Trace([], false);
      }
    }
  }

  /** Connecting a free output port and disconnecting it again restores the patch's wiring. */
  method ConnectThenUnconnect(p: Patch, outPort: int, target: Patch, inPort: int)
    returns (connect: Outcome<string>, unconnect: Outcome<string>)
    requires p.Valid()
    modifies p`messageOutputPorts, p`messageOutputMap
    ensures p.Valid()
    ensures connect.Pass? <==> outPort !in old(p.messageOutputMap)
    ensures connect.Pass? ==> unconnect.Pass?
    ensures connect.Pass? ==>
              p.messageOutputMap == old(p.messageOutputMap) && p.messageOutputPorts == old(p.messageOutputPorts)
  {
    connect := p.ConnectMessagePort(outPort, target, inPort);
    unconnect := p.UnconnectMessagePort(outPort);
    if connect.Pass? {
      assert outPort !in old(p.messageOutputPorts);
      RemoveInsert(old(p.messageOutputPorts), outPort);
    }
  }

  /** One call of `receiveMessage` that passed the time-to-live check. */
  datatype Delivery = Delivery(patch: Patch, inPort: int, msg: Message, ttl: int)

  /**
   * What a routed message did: the deliveries in the order they happened,
   * and whether it ended with the "ttl == 0" error, which abandons every
   * send still pending.
   */
  datatype Trace = Trace(deliveries: seq<Delivery>, expired: bool)

  /** `a` followed by `b`, for an `a` that did not end in the error. */
  function Then(a: Trace, b: Trace): (r: Trace)
    ensures r.deliveries == a.deliveries + b.deliveries && r.expired == b.expired
  {
    Trace(a.deliveries + b.deliveries, b.expired)
  }

  lemma ThenAssociates(a: Trace, b: Trace, c: Trace)
    ensures Then(Then(a, b), c) == Then(a, Then(b, c))
  {
    assert (a.deliveries + b.deliveries) + c.deliveries == a.deliveries + (b.deliveries + c.deliveries);
  }

  /** The time-to-live as a termination measure. */
  function Fuel(ttl: int): nat
  {
    if ttl <= 0 then 0 else ttl
  }

  /** A set of patches whose wiring stays inside the set, each with its port set in step with its map. */
  ghost predicate Closed(net: set<Patch>)
    reads net
  {
    forall q :: q in net ==>
      q.Valid() && forall k :: k in q.messageOutputMap ==> q.messageOutputMap[k].patch in net
  }

  /**
   * What `p.receiveMessage(in_port, m, ttl)` does: with no time-to-live
   * left it fails at once; otherwise the message is delivered and the
   * patch's sends are routed with one less.
   */
  ghost function Route(net: set<Patch>, p: Patch, inPort: int, m: Message, ttl: int): Trace
    requires p in net && Closed(net)
    reads net
    decreases Fuel(ttl), 3
  {
    if ttl <= 0 then Trace([], true)
    else
      var rest := RouteSends(net, p, Process(p.kind, p.messageOutputPorts, inPort, m), ttl - 1);
      Trace([Delivery(p, inPort, m, ttl)] + rest.deliveries, rest.expired)
  }

  /** The sends of one `processMessage` call, routed one after another until one fails. */
  ghost function RouteSends(net: set<Patch>, p: Patch, sends: seq<Send>, ttl: int): Trace
    requires p in net && Closed(net)
    reads net
    decreases Fuel(ttl), 5, |sends|
  {
    if sends == [] then Trace([], false)
    else
      var first := SendRoute(net, p, sends[0], ttl);
      if first.expired then first else Then(first, RouteSends(net, p, sends[1..], ttl))
  }

  /** One send of `p`: to the destination its output port is wired to, if any. */
  ghost function SendRoute(net: set<Patch>, p: Patch, s: Send, ttl: int): Trace
    requires p in net && Closed(net)
    reads net
    decreases Fuel(ttl), 4
  {
    if s.outPort in p.messageOutputMap then
      var pp := p.messageOutputMap[s.outPort];
      Route(net, pp.patch, pp.port, s.msg, ttl)
    else Trace([], false)
  }

  /**
   * Every routed message first reaches the receiving patch with the full
   * time-to-live, and every later delivery carries strictly less but more
   * than zero: a chain of hops is at most `ttl` long. With no time-to-live
   * left nothing is delivered and the error is raised.
   */
  lemma RouteBounds(net: set<Patch>, p: Patch, inPort: int, m: Message, ttl: int)
    requires p in net && Closed(net)
    ensures var t := Route(net, p, inPort, m, ttl);
      && (ttl <= 0 ==> t == Trace([], true))
      && (ttl > 0 ==> |t.deliveries| >= 1 && t.deliveries[0] == Delivery(p, inPort, m, ttl))
      && (forall i :: 1 <= i < |t.deliveries| ==> 0 < t.deliveries[i].ttl < ttl)
    decreases Fuel(ttl), 3
  {
    if ttl > 0 {
      var rest := RouteSends(net, p, Process(p.kind, p.messageOutputPorts, inPort, m), ttl - 1);
      RouteSendsBounds(net, p, Process(p.kind, p.messageOutputPorts, inPort, m), ttl - 1);
      assert TtlsWithin(rest.deliveries, ttl - 1);
      var t := Route(net, p, inPort, m, ttl);
      assert t.deliveries == [Delivery(p, inPort, m, ttl)] + rest.deliveries;
      assert forall i :: 1 <= i < |t.deliveries| ==> t.deliveries[i] == rest.deliveries[i - 1];
    }
  }

  /** Every delivery of `ds` carries a time-to-live above zero and at most `ttl`. */
  predicate TtlsWithin(ds: seq<Delivery>, ttl: int)
  {
    forall i :: 0 <= i < |ds| ==> 0 < ds[i].ttl <= ttl
  }

  lemma RouteSendsBounds(net: set<Patch>, p: Patch, sends: seq<Send>, ttl: int)
    requires p in net && Closed(net)
    ensures TtlsWithin(RouteSends(net, p, sends, ttl).deliveries, ttl)
    decreases Fuel(ttl), 5, |sends|
  {
    if sends != [] {
      var s := sends[0];
      if s.outPort in p.messageOutputMap {
        var pp := p.messageOutputMap[s.outPort];
        RouteBounds(net, pp.patch, pp.port, s.msg, ttl);
      }
      RouteSendsBounds(net, p, sends[1..], ttl);
    }
  }

  /**
   * A passthrough patch whose output port `k` is wired back to its own
   * input port `k` keeps passing a message to itself: it is delivered once
   * per unit of time-to-live, each time with one less, and then the error
   * is raised. Routing stops even on this cycle.
   */
  lemma {:induction false} PassthroughLoopExpires(net: set<Patch>, p: Patch, k: int, m: Message, ttl: int)
    requires p in net && Closed(net)
    requires p.kind == Passthrough && k in p.messageOutputMap && p.messageOutputMap[k] == PortPair(p, k)
    ensures var t := Route(net, p, k, m, ttl);
      && t.expired && |t.deliveries| == Fuel(ttl)
      && forall i :: 0 <= i < |t.deliveries| ==> t.deliveries[i] == Delivery(p, k, m, ttl - i)
    decreases Fuel(ttl)
  {
    if ttl > 0 {
      PassthroughLoopExpires(net, p, k, m, ttl - 1);
      var sends := Process(p.kind, p.messageOutputPorts, k, m);
      assert sends == [Send(k, m)];
      assert RouteSends(net, p, sends, ttl - 1) == Route(net, p, k, m, ttl - 1);
    }
  }

  /** A patch that sends nothing takes one delivery and ends the route there. */
  lemma QuietRoute(net: set<Patch>, p: Patch, inPort: int, m: Message, ttl: int)
    requires p in net && Closed(net) && ttl > 0
    requires Process(p.kind, p.messageOutputPorts, inPort, m) == []
    ensures Route(net, p, inPort, m, ttl) == Trace([Delivery(p, inPort, m, ttl)], false)
  {
  }

  /**
   * The wiring of the demonstration program in src/main/main.cpp: a
   * passthrough `p3` feeds input 2 of a junction `p2`, whose outputs 1 and
   * 2 feed inputs 3 and 4 of a functional patch `p1` that only reports
   * what it gets. A message entering `p3` on port 1 reaches the three
   * patches in that order, with the time-to-live one lower at each hop,
   * and no error is raised.
   */
  lemma MainRoute(net: set<Patch>, p1: Patch, p2: Patch, p3: Patch, m: Message)
    requires net == {p1, p2, p3} && Closed(net)
    requires Process(p1.kind, p1.messageOutputPorts, 3, m) == []
    requires Process(p1.kind, p1.messageOutputPorts, 4, m) == []
    requires p2.kind == Junction && p2.messageOutputPorts == [1, 2]
    requires p2.messageOutputMap == map[1 := PortPair(p1, 3), 2 := PortPair(p1, 4)]
    requires p3.kind == Passthrough && p3.messageOutputMap == map[1 := PortPair(p2, 2)]
    ensures Route(net, p3, 1, m, DEFAULT_TTL) ==
              Trace([Delivery(p3, 1, m, 2048), Delivery(p2, 2, m, 2047),
                     Delivery(p1, 3, m, 2046), Delivery(p1, 4, m, 2046)], false)
    ensures DemoTrace(Route(net, p3, 1, m, DEFAULT_TTL), m)
  {
    QuietRoute(net, p1, 3, m, 2046);
    QuietRoute(net, p1, 4, m, 2046);
    var s := [Send(1, m), Send(2, m)];
    assert Process(p2.kind, p2.messageOutputPorts, 2, m) == s;
    assert s[1..] == [Send(2, m)];
    assert RouteSends(net, p2, s[1..], 2046) == Trace([Delivery(p1, 4, m, 2046)], false);
    assert RouteSends(net, p2, s, 2046) ==
           Trace([Delivery(p1, 3, m, 2046), Delivery(p1, 4, m, 2046)], false);
    var junction := Route(net, p2, 2, m, 2047);
    assert junction == Trace([Delivery(p2, 2, m, 2047), Delivery(p1, 3, m, 2046), Delivery(p1, 4, m, 2046)], false);
    assert Process(p3.kind, p3.messageOutputPorts, 1, m) == [Send(1, m)];
    assert SendRoute(net, p3, Send(1, m), 2047) == junction;
    assert RouteSends(net, p3, [Send(1, m)], 2047) == Then(junction, RouteSends(net, p3, [], 2047));
    assert RouteSends(net, p3, [Send(1, m)], 2047) == junction;
  }

  lemma WiredClosed(net: set<Patch>, p1: Patch, p2: Patch, p3: Patch)
    requires net == {p1, p2, p3} && p1.Valid() && p2.Valid() && p3.Valid()
    requires p1.messageOutputMap == map[]
    requires p2.messageOutputMap == map[1 := PortPair(p1, 3), 2 := PortPair(p1, 4)]
    requires p3.messageOutputMap == map[1 := PortPair(p2, 2)]
    ensures Closed(net)
  {
  }

  /**
   * Four deliveries of `m` and no error: on input ports 1, 2, 3 and 4,
   * with time-to-live 2048, 2047, 2046 and 2046.
   */
  predicate DemoTrace(t: Trace, m: Message)
  {
    && |t.deliveries| == 4 && !t.expired
    && (forall i :: 0 <= i < 4 ==> t.deliveries[i].msg == m)
    && t.deliveries[0].inPort == 1 && t.deliveries[0].ttl == 2048
    && t.deliveries[1].inPort == 2 && t.deliveries[1].ttl == 2047
    && t.deliveries[2].inPort == 3 && t.deliveries[2].ttl == 2046
    && t.deliveries[3].inPort == 4 && t.deliveries[3].ttl == 2046
  }

  /** The demonstration program itself: three patches built, wired and sent one message. */
  method MainExample() returns (trace: Trace)
    ensures DemoTrace(trace, StringMessage("moo"))
  {
    var m := StringMessage("moo");
    var p1, p2, p3 := BuildDemo(m);
    trace := SendThroughWiring(p1, p2, p3, m);
  }

  /**
   * The patches of the demonstration program and their wiring: the
   * passthrough's port 1 to the junction's input 2, and the junction's
   * ports 1 and 2 to the functional patch's inputs 3 and 4.
   */
  method BuildDemo(m: Message) returns (p1: Patch, p2: Patch, p3: Patch)
    ensures p1.Valid() && p2.Valid() && p3.Valid()
    ensures p1.messageOutputMap == map[]
    ensures Process(p1.kind, p1.messageOutputPorts, 3, m) == []
    ensures Process(p1.kind, p1.messageOutputPorts, 4, m) == []
    ensures p2.kind == Junction && p2.messageOutputPorts == [1, 2]
    ensures p2.messageOutputMap == map[1 := PortPair(p1, 3), 2 := PortPair(p1, 4)]
    ensures p3.kind == Passthrough && p3.messageOutputMap == map[1 := PortPair(p2, 2)]
  {
    var report: (int, Message) -> seq<Send> := (inPort, msg) => [];
    p1 := new Patch("OutputPatch", Functional(report));
    p2 := new Patch("Junction", Junction);
    p3 := new Patch("Passthrough", Passthrough);
    var r := p3.ConnectMessagePort(1, p2, 2);
    r := p2.ConnectMessagePort(1, p1, 3);
    r := p2.ConnectMessagePort(2, p1, 4);
    JunctionPorts();
    assert report(3, m) == [] && report(4, m) == [];
  }

  /** The junction's port set after connecting ports 1 and 2. */
  lemma JunctionPorts()
    ensures Insert(Insert([], 1), 2) == [1, 2]
  {
    assert Insert([], 1) == [1];
    assert Insert([1], 2) == [1] + Insert([], 2);
  }

  /** `p3.receiveMessage(1, m)` on the wiring of the demonstration program. */
  method SendThroughWiring(p1: Patch, p2: Patch, p3: Patch, m: Message) returns (trace: Trace)
    requires p1.Valid() && p2.Valid() && p3.Valid()
    requires p1.messageOutputMap == map[]
    requires Process(p1.kind, p1.messageOutputPorts, 3, m) == []
    requires Process(p1.kind, p1.messageOutputPorts, 4, m) == []
    requires p2.kind == Junction && p2.messageOutputPorts == [1, 2]
    requires p2.messageOutputMap == map[1 := PortPair(p1, 3), 2 := PortPair(p1, 4)]
    requires p3.kind == Passthrough && p3.messageOutputMap == map[1 := PortPair(p2, 2)]
    ensures DemoTrace(trace, m)
  {
    ghost var net := {p1, p2, p3};
    WiredClosed(net, p1, p2, p3);
    MainRoute(net, p1, p2, p3, m);
    trace := p3.ReceiveMessage(1, m, DEFAULT_TTL, net);
  }

  /** The time-to-live check of `receiveMessage` as written: only exactly zero stops a message. */
  function HopAsWritten(ttl: int): (r: Option<int>)
    ensures r.None? <==> ttl == 0
  {
    if ttl == 0 then None else Some(ttl - 1)
  }

  /** The check as `Route` applies it: no time-to-live left, zero or below, stops a message. */
  function Hop(ttl: int): (r: Option<int>)
    ensures r.None? <==> ttl <= 0
  {
    if ttl <= 0 then None else Some(ttl - 1)
  }

  /** The time-to-live after `k` trips round a one-patch loop, or `None` once the error is raised. */
  function LoopAsWritten(ttl: int, k: nat): Option<int>
  {
    if k == 0 then Some(ttl)
    else match LoopAsWritten(ttl, k - 1)
      case None => None
      case Some(t) => HopAsWritten(t)
  }

  function Loop(ttl: int, k: nat): Option<int>
  {
    if k == 0 then Some(ttl)
    else match Loop(ttl, k - 1)
      case None => None
      case Some(t) => Hop(t)
  }

  /** As written, a message sent with a negative time-to-live round a loop is never stopped. */
  lemma {:induction false} NegativeTtlNeverExpires(ttl: int, k: nat)
    requires ttl < 0
    ensures LoopAsWritten(ttl, k) == Some(ttl - k)
  {
    if k > 0 {
      NegativeTtlNeverExpires(ttl, k - 1);
    }
  }

  /** With the corrected check, every message round a loop is stopped after `Fuel(ttl)` trips. */
  lemma {:induction false} LoopExpires(ttl: int, k: nat)
    ensures k <= Fuel(ttl) ==> Loop(ttl, k) == Some(ttl - k)
    ensures k > Fuel(ttl) ==> Loop(ttl, k) == None
  {
    if k > 0 {
      LoopExpires(ttl, k - 1);
    }
  }
}

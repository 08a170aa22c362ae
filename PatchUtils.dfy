/**
 * What each kind of message patch does with a message it receives
 * (include/audiolib/PatchUtils.h, src/audiolib/PatchUtils.cpp, and the
 * default of include/audiolib/Patch.h). A `processMessage` call is
 * modelled by the list of sends it makes, in order.
 */
module PatchUtils {
  import opened Messages
  import opened OrderedSets

  /** One call of the send callback: a message for one output port. */
  datatype Send = Send(outPort: int, msg: Message)

  /**
   * The kinds of patch. `Functional` carries the callback fixed at
   * construction, modelled as the sends it makes for an input port and a
   * message.
   */
  datatype PatchKind =
    | PlainPatch
    | Functional(callback: (int, Message) -> seq<Send>)
    | Passthrough
    | Junction

  /** The same message once to each port of `ports`, in order. */
  function SendAll(ports: seq<int>, m: Message): (r: seq<Send>)
    ensures |r| == |ports|
    ensures forall i :: 0 <= i < |r| ==> r[i] == Send(ports[i], m)
  {
    if ports == [] then [] else [Send(ports[0], m)] + SendAll(ports[1..], m)
  }

  /**
   * The sends `processMessage(in_port, m, send)` makes, given the patch's
   * connected output ports in the order the port set lists them: none for
   * the base `Patch`, the callback's for a `FunctionalPatch`, the message
   * back out on the same port number for a `PassthroughPatch`, and the
   * message to every connected output port for a `JunctionPatch`.
   */
  function Process(kind: PatchKind, outputPorts: seq<int>, inPort: int, m: Message): seq<Send>
  {
    match kind
    case PlainPatch => []
    case Functional(callback) => callback(inPort, m)
    case Passthrough => [Send(inPort, m)]
    case Junction => SendAll(outputPorts, m)
  }

  /**
   * Sending to the ports of an increasing port list reaches every port
   * once, in ascending order, with the same message.
   */
  lemma SendAllToPortSet(ports: seq<int>, m: Message)
    requires Increasing(ports)
    ensures forall i :: 0 <= i < |ports| ==> SendAll(ports, m)[i].msg == m && SendAll(ports, m)[i].outPort in ports
    ensures forall p :: p in ports ==> exists i :: 0 <= i < |ports| && SendAll(ports, m)[i].outPort == p
    ensures forall i, j :: 0 <= i < j < |ports| ==> SendAll(ports, m)[i].outPort < SendAll(ports, m)[j].outPort
  {
    var r := SendAll(ports, m);
    forall p | p in ports
      ensures exists i :: 0 <= i < |ports| && r[i].outPort == p
    {
      var i :| 0 <= i < |ports| && ports[i] == p;
      assert r[i].outPort == p;
    }
  }

  /**
   * `JunctionPatch::processMessage`: walks the connected output ports in
   * the port set's order and sends the message to each.
   */
  method JunctionProcess(outputPorts: seq<int>, inPort: int, m: Message) returns (sends: seq<Send>)
    ensures sends == SendAll(outputPorts, m)
    ensures sends == Process(Junction, outputPorts, inPort, m)
  {
    sends := [];
    for k := 0 to |outputPorts|
      invariant sends == SendAll(outputPorts[..k], m)
    {
      assert outputPorts[..k + 1] == outputPorts[..k] + [outputPorts[k]];
      sends := sends + [Send(outputPorts[k], m)];
    }
    assert outputPorts[..|outputPorts|] == outputPorts;
  }

  /** The sends of any kind of patch, computed. */
  method ProcessSends(kind: PatchKind, outputPorts: seq<int>, inPort: int, m: Message) returns (sends: seq<Send>)
    ensures sends == Process(kind, outputPorts, inPort, m)
  {
    match kind {
      case PlainPatch => sends := [];
      case Functional(callback) => sends := callback(inPort, m);
      case Passthrough => sends := [Send(inPort, m)];
      case Junction => sends := JunctionProcess(outputPorts, inPort, m);
    }
  }

  /**
   * A junction's sends do not depend on the input port, and with no
   * output port connected it sends nothing.
   */
  lemma JunctionIgnoresInPort(outputPorts: seq<int>, inPort: int, otherInPort: int, m: Message)
    ensures Process(Junction, outputPorts, inPort, m) == Process(Junction, outputPorts, otherInPort, m)
    ensures outputPorts == [] ==> Process(Junction, outputPorts, inPort, m) == []
  {
  }

  /**
   * The base patch ignores what it receives, and a functional patch makes
   * exactly the sends of its callback.
   */
  lemma PlainAndFunctional(outputPorts: seq<int>, inPort: int, m: Message, callback: (int, Message) -> seq<Send>)
    ensures Process(PlainPatch, outputPorts, inPort, m) == []
    ensures Process(Functional(callback), outputPorts, inPort, m) == callback(inPort, m)
  {
  }

  /** A passthrough sends one message: the one it received, on the output port numbered like the input. */
  lemma PassthroughForwards(outputPorts: seq<int>, inPort: int, m: Message)
    ensures Process(Passthrough, outputPorts, inPort, m) == [Send(inPort, m)]
  {
  }
}

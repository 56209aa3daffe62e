/** packet.py, stats.py, router.py and sdn_router.py: the records the simulator moves around. */
module Packets {
  import opened Wrappers

  datatype Kind = Data | Ack

  datatype Packet = Packet(
    id: int, source: int, destination: int, current: int, kind: Kind, sequence: int,
    ackFor: Option<int>, port: int, retransmission: bool, duplicate: bool,
    duplicatedFrom: Option<int>, history: seq<int>)

  datatype Flight = Flight(packet: Packet, start: int, end: int, remaining: int, dropped: bool)

  /** What the engine reports about a packet that leaves the network, and why. */
  datatype PacketEvent =
    | Filtered(packet: Packet)  // "SDN drop"
    | Lost(packet: Packet)      // "Link loss"
    | Delivered(packet: Packet)

  datatype Stats = Stats(
    sent: int, delivered: int, dropped: int, retransmissions: int, duplicates: int,
    acknowledgements: int, completedSequences: set<int>, startTime: Option<int>, endTime: Option<int>)

  const NO_STATS := Stats(0, 0, 0, 0, 0, 0, {}, None, None)

  datatype Action = Drop | Forward(node: int)

  /** A rule matches packets of one kind and port; the engine's firewall uses a single one. */
  datatype Rule = Rule(port: int, kind: Kind, action: Action) {
    predicate Matches(p: Packet) {
      p.port == port && p.kind == kind
    }
  }

  /** The action of the first matching rule. */
  function ApplyRules(rules: seq<Rule>, p: Packet): (a: Option<Action>)
    ensures a.None? <==> forall i :: 0 <= i < |rules| ==> !rules[i].Matches(p)
    ensures a.Some? ==> exists i :: 0 <= i < |rules| && rules[i].Matches(p) && a.value == rules[i].action
                                    && forall j :: 0 <= j < i ==> !rules[j].Matches(p)
  {
    if rules == [] then None
    else if rules[0].Matches(p) then Some(rules[0].action)
    else
      var a := ApplyRules(rules[1..], p);
      assert a.Some? ==> forall i :: 0 <= i < |rules| - 1 ==> rules[1..][i] == rules[i + 1];
      a
  }

  /** One router; rules is None for a plain router, which never consults any. */
  datatype Router = Router(
    id: int, table: map<int, int>, rules: Option<seq<Rule>>, queue: seq<Packet>, available: int)
}

/**
 One request end to end: the handler's lines, each handed to sendMessage in
 order, each resolved against the channel mapping afresh.
 */
module Delivery {
  import opened Events
  import opened Templates
  import opened Routing
  import opened Handler

  /** The `Privmsg` calls the lines `ems` cause, in order. */
  function Deliveries(m: Mapping, ems: seq<Emission>): seq<Privmsg>
    decreases |ems|
  {
    if |ems| == 0 then []
    else Broadcast(Resolve(m, ems[0].projectName, ems[0].namespace), ems[0].message) + Deliveries(m, ems[1..])
  }

  /** Delivering two runs of lines one after the other is delivering their concatenation. */
  lemma {:induction false} DeliveriesAppend(m: Mapping, a: seq<Emission>, b: seq<Emission>)
    ensures Deliveries(m, a + b) == Deliveries(m, a) + Deliveries(m, b)
    decreases |a|
  {
    if |a| > 0 {
      assert (a + b)[0] == a[0];
      assert (a + b)[1..] == a[1..] + b;
      DeliveriesAppend(m, a[1..], b);
    } else {
      assert a + b == b;
    }
  }

  /** Every message goes to a channel named in the mapping, so to a channel
      the bot joined at startup. */
  lemma {:induction false} DeliveredOnlyToMappedChannels(m: Mapping, ems: seq<Emission>)
    ensures forall d :: d in Deliveries(m, ems) ==> d.channel in MappedChannels(m)
    decreases |ems|
  {
    if |ems| > 0 {
      var first := Broadcast(Resolve(m, ems[0].projectName, ems[0].namespace), ems[0].message);
      ResolvedChannelsAreJoined(m, ems[0].projectName, ems[0].namespace);
      DeliveredOnlyToMappedChannels(m, ems[1..]);
      forall d | d in first
        ensures d.channel in MappedChannels(m)
      {
        var i :| 0 <= i < |first| && first[i] == d;
      }
    }
  }

  /** The sendMessage calls for a run of lines, one line after the other. */
  method SendLines(m: Mapping, lines: seq<Emission>) returns (deliveries: seq<Privmsg>)
    ensures deliveries == Deliveries(m, lines)
  {
    deliveries := [];
    var i := 0;
    while i < |lines|
      invariant 0 <= i <= |lines|
      invariant deliveries == Deliveries(m, lines[..i])
    {
      var sent := SendMessage(lines[i].message, lines[i].projectName, lines[i].namespace, m);
      DeliveriesAppend(m, lines[..i], [lines[i]]);
      assert lines[..i + 1] == lines[..i] + [lines[i]];
      deliveries := deliveries + sent;
      i := i + 1;
    }
    assert lines[..i] == lines;
  }

  /** The handler followed by its sendMessage calls: every line is resolved
      and delivered in the order the handler produced it. */
  method Notify<B>(m: Mapping, eventType: string, body: B, d: Decoders<B>, e: TextFns)
    returns (deliveries: seq<Privmsg>)
    ensures deliveries == Deliveries(m, Handle(eventType, body, d, e).emitted)
    ensures forall x :: x in deliveries ==> x.channel in MappedChannels(m)
  {
    var outcome := Handle(eventType, body, d, e);
    deliveries := SendLines(m, outcome.emitted);
    DeliveredOnlyToMappedChannels(m, outcome.emitted);
  }
}

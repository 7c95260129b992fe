/**
 Channel resolution (main.go:32-36, 387-430): the channel mapping read at
 startup, the first-match rule that picks the channels a line about a project
 goes to, and the list of every channel the bot joins.

 Go iterates its maps in an unspecified order; the methods here pick keys
 with `:|`, so their contracts hold for every iteration order and speak of
 the group and explicit channels as multisets.
 */
module Routing {

  /** `Mapping`: a default channel, channels per namespace (group), and
      channels per `namespace/project` (explicit). Lists may be empty and may
      repeat channels; nothing in the program forbids either. */
  datatype Mapping = Mapping(
    defaultChannel: string,
    groups: map<string, seq<string>>,
    explicit: map<string, seq<string>>)

  /** One `bot.Privmsg(channel, text)` call. */
  datatype Privmsg = Privmsg(channel: string, text: string)

  /** The key of the explicit mapping for a project. */
  function FullName(namespace: string, projectName: string): string {
    namespace + "/" + projectName
  }

  /** The channels a line about `namespace/projectName` goes to: the explicit
      list for the full name, else the group list for the namespace, else the
      default channel. */
  function Resolve(m: Mapping, projectName: string, namespace: string): seq<string> {
    var full := FullName(namespace, projectName);
    if full in m.explicit then m.explicit[full]
    else if namespace in m.groups then m.groups[namespace]
    else [m.defaultChannel]
  }

  /** One delivery of `text` per channel, in channel order. */
  function Broadcast(channels: seq<string>, text: string): (ds: seq<Privmsg>)
    ensures |ds| == |channels|
    ensures forall i :: 0 <= i < |ds| ==> ds[i] == Privmsg(channels[i], text)
  {
    if |channels| == 0 then [] else [Privmsg(channels[0], text)] + Broadcast(channels[1..], text)
  }

  /** `contains` (main.go:407-414): a scan over the keys of the map. */
  method Contains(m: map<string, seq<string>>, entry: string) returns (found: bool)
    ensures found <==> entry in m
  {
    var remaining := m.Keys;
    while remaining != {}
      invariant remaining <= m.Keys
      invariant entry in m ==> entry in remaining
      decreases remaining
    {
      var k :| k in remaining;
      if k == entry {
        return true;
      }
      remaining := remaining - {k};
    }
    return false;
  }

  /** Appends a list element by element, as the `append` loops of sendMessage do. */
  method AppendEach(acc: seq<string>, list: seq<string>) returns (out: seq<string>)
    ensures out == acc + list
  {
    out := acc;
    var i := 0;
    while i < |list|
      invariant 0 <= i <= |list|
      invariant out == acc + list[..i]
    {
      out := out + [list[i]];
      i := i + 1;
    }
    assert list[..i] == list;
  }

  /** The channel choice of `sendMessage` (main.go:417-430): the `contains`
      checks and the `append` loops. */
  method ChooseChannels(projectName: string, namespace: string, m: Mapping) returns (channelNames: seq<string>)
    ensures FullName(namespace, projectName) in m.explicit ==>
      channelNames == m.explicit[FullName(namespace, projectName)]
    ensures FullName(namespace, projectName) !in m.explicit && namespace in m.groups ==>
      channelNames == m.groups[namespace]
    ensures FullName(namespace, projectName) !in m.explicit && namespace !in m.groups ==>
      channelNames == [m.defaultChannel]
    ensures channelNames == Resolve(m, projectName, namespace)
  {
    channelNames := [];
    var full := namespace + "/" + projectName;
    var inExplicit := Contains(m.explicit, full);
    if inExplicit {
      channelNames := AppendEach(channelNames, m.explicit[full]);
    } else {
      var inGroups := Contains(m.groups, namespace);
      if inGroups {
        channelNames := AppendEach(channelNames, m.groups[namespace]);
      } else {
        channelNames := channelNames + [m.defaultChannel];
      }
    }
  }

  /** `sendMessage` (main.go:416-436): each channel `ChooseChannels` picks
      receives the unchanged message once, in list order. */
  method SendMessage(message: string, projectName: string, namespace: string, m: Mapping)
    returns (deliveries: seq<Privmsg>)
    ensures |deliveries| == |Resolve(m, projectName, namespace)|
    ensures forall i :: 0 <= i < |deliveries| ==>
      deliveries[i].channel == Resolve(m, projectName, namespace)[i] && deliveries[i].text == message
    ensures deliveries == Broadcast(Resolve(m, projectName, namespace), message)
  {
    var channelNames := ChooseChannels(projectName, namespace, m);
    deliveries := [];
    var i := 0;
    while i < |channelNames|
      invariant 0 <= i <= |channelNames|
      invariant |deliveries| == i
      invariant forall j :: 0 <= j < i ==> deliveries[j] == Privmsg(channelNames[j], message)
    {
      deliveries := deliveries + [Privmsg(channelNames[i], message)];
      i := i + 1;
    }
    assert deliveries == Broadcast(channelNames, message);
  }

  /** The channels listed under the keys `keys` of `lists`, with multiplicity. */
  ghost function ListedUnder(lists: map<string, seq<string>>, keys: set<string>): multiset<string>
    requires keys <= lists.Keys
    decreases keys
  {
    if keys == {} then multiset{}
    else
      var k :| k in keys;
      multiset(lists[k]) + ListedUnder(lists, keys - {k})
  }

  /** Every channel listed anywhere in `lists`. */
  ghost function AllListed(lists: map<string, seq<string>>): multiset<string> {
    ListedUnder(lists, lists.Keys)
  }

  /** Every channel the mapping names: the default, the group lists and the explicit lists. */
  ghost function MappedChannels(m: Mapping): multiset<string> {
    multiset{m.defaultChannel} + AllListed(m.groups) + AllListed(m.explicit)
  }

  /** The multiset does not depend on which key the definition picks first. */
  lemma {:induction false} ListedUnderPick(lists: map<string, seq<string>>, keys: set<string>, k: string)
    requires keys <= lists.Keys && k in keys
    ensures ListedUnder(lists, keys) == multiset(lists[k]) + ListedUnder(lists, keys - {k})
    decreases keys
  {
    var j :| j in keys && ListedUnder(lists, keys) == multiset(lists[j]) + ListedUnder(lists, keys - {j});
    if j != k {
      ListedUnderPick(lists, keys - {j}, k);
      ListedUnderPick(lists, keys - {k}, j);
      assert keys - {j} - {k} == keys - {k} - {j};
    }
  }

  /** A channel is listed under `keys` exactly when one of their lists contains it. */
  lemma {:induction false} ListedUnderMembership(lists: map<string, seq<string>>, keys: set<string>, c: string)
    requires keys <= lists.Keys
    ensures c in ListedUnder(lists, keys) <==> exists k :: k in keys && c in lists[k]
    decreases keys
  {
    if keys != {} {
      var k :| k in keys;
      ListedUnderPick(lists, keys, k);
      ListedUnderMembership(lists, keys - {k}, c);
      if c !in lists[k] {
        assert (exists j :: j in keys && c in lists[j]) ==> (exists j :: j in keys - {k} && c in lists[j]);
      }
    }
  }

  /** Appends every list of `lists` in some key order (one of the range loops of getAllChannelNames). */
  method AppendAllLists(acc: seq<string>, lists: map<string, seq<string>>) returns (out: seq<string>)
    ensures |out| >= |acc| && out[..|acc|] == acc
    ensures multiset(out[|acc|..]) == AllListed(lists)
  {
    out := acc;
    var remaining := lists.Keys;
    while remaining != {}
      invariant remaining <= lists.Keys
      invariant |out| >= |acc| && out[..|acc|] == acc
      invariant multiset(out[|acc|..]) == ListedUnder(lists, lists.Keys - remaining)
      decreases remaining
    {
      var k :| k in remaining;
      var done := lists.Keys - remaining;
      var list := lists[k];
      var i := 0;
      while i < |list|
        invariant 0 <= i <= |list|
        invariant |out| >= |acc| && out[..|acc|] == acc
        invariant multiset(out[|acc|..]) == ListedUnder(lists, done) + multiset(list[..i])
      {
        assert (out + [list[i]])[|acc|..] == out[|acc|..] + [list[i]];
        assert list[..i + 1] == list[..i] + [list[i]];
        out := out + [list[i]];
        i := i + 1;
      }
      assert list[..i] == list;
      ListedUnderPick(lists, done + {k}, k);
      assert (done + {k}) - {k} == done;
      remaining := remaining - {k};
      assert lists.Keys - remaining == done + {k};
    }
    assert lists.Keys - remaining == lists.Keys;
  }

  /** `getAllChannelNames` (main.go:387-405): the default channel first, then
      every group channel, then every explicit channel, without removing
      duplicates. */
  method AllChannelNames(m: Mapping) returns (names: seq<string>)
    ensures |names| == 1 + |AllListed(m.groups)| + |AllListed(m.explicit)|
    ensures names[0] == m.defaultChannel
    ensures multiset(names[1..1 + |AllListed(m.groups)|]) == AllListed(m.groups)
    ensures multiset(names[1 + |AllListed(m.groups)|..]) == AllListed(m.explicit)
    ensures multiset(names) == MappedChannels(m)
  {
    var start := [m.defaultChannel];
    var withGroups := AppendAllLists(start, m.groups);
    names := AppendAllLists(withGroups, m.explicit);
    var g := |withGroups| - 1;
    assert |multiset(withGroups[1..])| == g;
    assert |multiset(names[|withGroups|..])| == |names| - |withGroups|;
    assert names[..|withGroups|] == withGroups;
    assert names[1..1 + g] == withGroups[1..];
    assert names == [m.defaultChannel] + names[1..1 + g] + names[1 + g..];
  }

  /** A channel is named by the mapping exactly when it is the default or sits in some group or explicit list. */
  lemma MappedChannelsMembership(m: Mapping, c: string)
    ensures c in MappedChannels(m) <==>
      || c == m.defaultChannel
      || (exists k :: k in m.groups && c in m.groups[k])
      || (exists k :: k in m.explicit && c in m.explicit[k])
  {
    ListedUnderMembership(m.groups, m.groups.Keys, c);
    ListedUnderMembership(m.explicit, m.explicit.Keys, c);
  }

  /** Every channel a line can be routed to is one the bot joined at startup. */
  lemma ResolvedChannelsAreJoined(m: Mapping, projectName: string, namespace: string)
    ensures forall c :: c in Resolve(m, projectName, namespace) ==> c in MappedChannels(m)
  {
    forall c | c in Resolve(m, projectName, namespace)
      ensures c in MappedChannels(m)
    {
      MappedChannelsMembership(m, c);
    }
  }
}

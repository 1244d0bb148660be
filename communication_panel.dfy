/** The communication panel of the call center (`CommunicationPanel`): an
    agent's own channels, split into the active ones and the history. */
module CommunicationPanel {
  import opened Common
  import opened Tables

  /** The query: the agent's channels, most recently started first. */
  function MyChannels(channels: seq<Channel>, agentId: Id): seq<Channel> {
    OrderBy(Filter(channels, (c: Channel) => c.agentId == Some(agentId)), (c: Channel) => c.startedAt, Desc)
  }

  /** Only the agent's own channels are shown, and all of them. */
  lemma MyChannelsSelection(channels: seq<Channel>, agentId: Id, c: Channel)
    ensures c in MyChannels(channels, agentId) <==> c in channels && c.agentId == Some(agentId)
    ensures SortedBy(MyChannels(channels, agentId), (c: Channel) => c.startedAt, Desc)
  {
    var p := (c: Channel) => c.agentId == Some(agentId);
    var f := Filter(channels, p);
    OrderByMembers(f, (c: Channel) => c.startedAt, Desc, c);
    if c in channels && p(c) {
      var k :| 0 <= k < |channels| && channels[k] == c;
      assert channels[k] in f;
    }
    if c in f {
      var k :| 0 <= k < |f| && f[k] == c;
    }
  }

  predicate IsActive(c: Channel) {
    c.status == Some("active")
  }

  /** The Active Channels tab. */
  function ActiveList(mine: seq<Channel>): seq<Channel> {
    Filter(mine, IsActive)
  }

  /** The History tab: every other status, a missing one included. */
  function HistoryList(mine: seq<Channel>): seq<Channel> {
    Filter(mine, (c: Channel) => !IsActive(c))
  }

  /** The badge next to the title. */
  function ActiveBadge(mine: seq<Channel>): nat {
    Count(mine, IsActive)
  }

  /** The two tabs split the agent's channels: each channel is on exactly one
      of them, as often as it is listed, and the badge counts the first tab. */
  lemma TabsPartition(mine: seq<Channel>)
    ensures multiset(ActiveList(mine)) + multiset(HistoryList(mine)) == multiset(mine)
    ensures |ActiveList(mine)| + |HistoryList(mine)| == |mine|
    ensures ActiveBadge(mine) == |ActiveList(mine)|
    ensures forall c :: c in ActiveList(mine) ==> c !in HistoryList(mine)
  {
    FilterSplit(mine, IsActive, (c: Channel) => !IsActive(c));
    assert |multiset(ActiveList(mine))| + |multiset(HistoryList(mine))| == |multiset(mine)|;
  }

  /** `type.charAt(0).toUpperCase() + type.slice(1) + ' Call'` */
  function TypeLabel(kind: string): (r: string)
    ensures |r| == |kind| + 5
    ensures r[|kind|..] == " Call"
    ensures kind != [] ==> r[0] == UpperChar(kind[0]) && r[1..|kind|] == kind[1..]
  {
    (if kind == [] then "" else [UpperChar(kind[0])] + kind[1..]) + " Call"
  }

  /** The customer line: the joined driver's name, else `Unknown`. */
  function CustomerName(driver: Option<Driver>): (r: string)
    ensures r != ""
    ensures driver.Some? && driver.value.name != "" ==> r == driver.value.name
  {
    if driver.Some? && driver.value.name != "" then driver.value.name else "Unknown"
  }
}

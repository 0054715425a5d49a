/** The trading store (src/store/useTradingStore.ts): agents, the selected
    agent, a newest-first activity log capped at 100 entries and a
    connection flag, as one object whose actions replace its fields. */
module TradingStore {

  import opened Options
  import opened Seqs
  import opened TradingTypes

  /* ---------------- Partial updates ---------------- */

  /** `{ ...agent, ...updates }`: every field given in `u` replaces the
      agent's, every other field is kept. */
  function Merge(a: Agent, u: AgentUpdate): Agent {
    Agent(
      u.id.GetOr(a.id),
      u.name.GetOr(a.name),
      u.role.GetOr(a.role),
      u.color.GetOr(a.color),
      u.icon.GetOr(a.icon),
      u.isActive.GetOr(a.isActive),
      u.winRate.GetOr(a.winRate),
      u.pnl.GetOr(a.pnl),
      u.totalPnL.GetOr(a.totalPnL),
      u.tradeCount.GetOr(a.tradeCount),
      u.confidence.GetOr(a.confidence),
      u.lastAction.GetOr(a.lastAction),
      u.personality.GetOr(a.personality))
  }

  /** The update that gives no field. */
  const NoChange := AgentUpdate(None, None, None, None, None, None, None, None, None, None, None, None, None)

  /** The update that gives every field, taken from `b`. */
  function Everything(b: Agent): AgentUpdate {
    AgentUpdate(Some(b.id), Some(b.name), Some(b.role), Some(b.color), Some(b.icon),
      Some(b.isActive), Some(b.winRate), Some(b.pnl), Some(b.totalPnL),
      Some(b.tradeCount), Some(b.confidence), Some(b.lastAction), Some(b.personality))
  }

  /** `{ ...u, ...v }`: `v`'s fields win where both give one. */
  function Combine(u: AgentUpdate, v: AgentUpdate): AgentUpdate {
    AgentUpdate(
      if v.id.Some? then v.id else u.id,
      if v.name.Some? then v.name else u.name,
      if v.role.Some? then v.role else u.role,
      if v.color.Some? then v.color else u.color,
      if v.icon.Some? then v.icon else u.icon,
      if v.isActive.Some? then v.isActive else u.isActive,
      if v.winRate.Some? then v.winRate else u.winRate,
      if v.pnl.Some? then v.pnl else u.pnl,
      if v.totalPnL.Some? then v.totalPnL else u.totalPnL,
      if v.tradeCount.Some? then v.tradeCount else u.tradeCount,
      if v.confidence.Some? then v.confidence else u.confidence,
      if v.lastAction.Some? then v.lastAction else u.lastAction,
      if v.personality.Some? then v.personality else u.personality)
  }

  /** An empty update changes nothing; an update giving every field of `b`
      turns any agent into `b`; applying the same update twice is applying
      it once; two updates in a row are one combined update. */
  lemma MergeLaws(a: Agent, b: Agent, u: AgentUpdate, v: AgentUpdate)
    ensures Merge(a, NoChange) == a
    ensures Merge(a, Everything(b)) == b
    ensures Merge(Merge(a, u), u) == Merge(a, u)
    ensures Merge(Merge(a, u), v) == Merge(a, Combine(u, v))
  {
  }

  /** `agents.map(agent => agent.id === id ? { ...agent, ...updates } : agent)` */
  function UpdateAgents(agents: seq<Agent>, id: string, u: AgentUpdate): (r: seq<Agent>)
    ensures |r| == |agents|
    ensures forall i :: 0 <= i < |r| && agents[i].id != id ==> r[i] == agents[i]
    ensures forall i :: 0 <= i < |r| && agents[i].id == id ==> r[i] == Merge(agents[i], u)
  {
    seq(|agents|, i requires 0 <= i < |agents| =>
      if agents[i].id == id then Merge(agents[i], u) else agents[i])
  }

  /** An identifier no agent has leaves the list as it was. */
  lemma UpdateAgentsUnknownId(agents: seq<Agent>, id: string, u: AgentUpdate)
    requires forall i :: 0 <= i < |agents| ==> agents[i].id != id
    ensures UpdateAgents(agents, id, u) == agents
  {
  }

  /** Repeating an update is harmless, even one that renames the agent: the
      renamed agents no longer match, and the others never did. */
  lemma UpdateAgentsIdempotent(agents: seq<Agent>, id: string, u: AgentUpdate)
    ensures UpdateAgents(UpdateAgents(agents, id, u), id, u) == UpdateAgents(agents, id, u)
  {
    var once := UpdateAgents(agents, id, u);
    forall i | 0 <= i < |agents|
      ensures UpdateAgents(once, id, u)[i] == once[i]
    {
      if agents[i].id == id {
        MergeLaws(agents[i], agents[i], u, u);
      }
    }
  }

  /* ---------------- The capped log ---------------- */

  /** `[item, ...log].slice(0, cap)`: the newest entry first, the oldest
      dropped once the log is full. */
  function CappedPrepend<T>(log: seq<T>, item: T, cap: nat): (r: seq<T>)
    ensures |r| == Min(|log| + 1, cap)
    ensures cap > 0 ==> r[0] == item && r[1..] == log[..|r| - 1]
  {
    Prefix([item] + log, cap)
  }

  /** The log after prepending `items` one by one, in order. */
  function PrependAll<T>(log: seq<T>, items: seq<T>, cap: nat): seq<T>
    decreases |items|
  {
    if items == [] then log else PrependAll(CappedPrepend(log, items[0], cap), items[1..], cap)
  }

  /** After any run of insertions the log is the newest entries, newest
      first, followed by what was logged before, cut to the cap. */
  lemma {:induction false} PrependAllNewestFirst<T>(log: seq<T>, items: seq<T>, cap: nat)
    requires |log| <= cap
    ensures PrependAll(log, items, cap) == Prefix(Reversed(items) + log, cap)
    decreases |items|
  {
    if items == [] {
      assert Reversed(items) + log == log;
    } else {
      var x, rest := items[0], items[1..];
      PrependAllNewestFirst(CappedPrepend(log, x, cap), rest, cap);
      PrefixOfPrefixed(Reversed(rest), [x] + log, cap);
      assert Reversed(rest) + ([x] + log) == Reversed(items) + log;
    }
  }

  /** Once at least `cap` entries have been inserted, the log holds exactly
      the `cap` most recent ones, newest first: after 101 insertions into the
      100-entry log, the first insertion is the one that is gone. */
  lemma KeepsMostRecent<T>(items: seq<T>, cap: nat)
    requires |items| >= cap
    ensures |PrependAll([], items, cap)| == cap
    ensures forall i :: 0 <= i < cap ==> PrependAll([], items, cap)[i] == items[|items| - 1 - i]
  {
    PrependAllNewestFirst([], items, cap);
    assert Reversed(items) + [] == Reversed(items);
    forall i | 0 <= i < cap
      ensures PrependAll([], items, cap)[i] == items[|items| - 1 - i]
    {
      ReversedIndex(items, i);
    }
  }

  /* ---------------- The store ---------------- */

  /** The activity log keeps the 100 most recent entries. */
  const ActivityLimit: nat := 100

  class Store {
    var agents: seq<Agent>
    var selectedAgent: Option<Agent>
    var positions: seq<Position>
    var activities: seq<Activity>
    var isConnected: bool

    ghost predicate Valid()
      reads this
    {
      |activities| <= ActivityLimit
    }

    /** The initial state; `initialAgents` is the agent fixture. */
    constructor (initialAgents: seq<Agent>)
      ensures Valid()
      ensures agents == initialAgents && selectedAgent == None
      ensures positions == [] && activities == [] && !isConnected
    {
      agents := initialAgents;
      selectedAgent := None;
      positions := [];
      activities := [];
      isConnected := false;
    }

    method SetSelectedAgent(agent: Option<Agent>)
      requires Valid()
      modifies this`selectedAgent
      ensures Valid()
      ensures selectedAgent == agent
    {
      selectedAgent := agent;
    }

    method UpdateAgent(id: string, u: AgentUpdate)
      requires Valid()
      modifies this`agents
      ensures Valid()
      ensures agents == UpdateAgents(old(agents), id, u)
      ensures |agents| == |old(agents)|
      ensures forall i :: 0 <= i < |agents| && old(agents)[i].id != id ==> agents[i] == old(agents)[i]
    {
      agents := UpdateAgents(agents, id, u);
    }

    method SetConnected(connected: bool)
      requires Valid()
      modifies this`isConnected
      ensures Valid()
      ensures isConnected == connected
    {
      isConnected := connected;
    }

    method AddActivity(activity: Activity)
      requires Valid()
      modifies this`activities
      ensures Valid()
      ensures activities == CappedPrepend(old(activities), activity, ActivityLimit)
      ensures activities[0] == activity
      ensures |activities| == Min(|old(activities)| + 1, ActivityLimit)
      ensures activities[1..] == old(activities)[..|activities| - 1]
    {
      activities := CappedPrepend(activities, activity, ActivityLimit);
    }
  }
}

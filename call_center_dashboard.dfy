/** The call-center dashboard (`CallCenterDashboard`): the tabs each role gets,
    the content rendered under each tab, the four live counters and logout. */
module CallCenterDashboard {
  import opened Common
  import opened Tables

  datatype Tab = QueueTab | TicketsTab | CommunicationTab | EmergencyTab | AdminTab

  /** Every tab the dashboard knows, in display order. */
  const AllTabs: seq<Tab> := [QueueTab, TicketsTab, CommunicationTab, EmergencyTab, AdminTab]

  /** How many tabs of `AllTabs` a role gets: the three base tabs, then the
      emergency tab for supervisors and admins, then the admin tab for admins. */
  function TabCount(role: CallCenterRole): (n: nat)
    ensures 3 <= n <= |AllTabs|
  {
    match role
    case Agent => 3
    case Supervisor => 4
    case Admin => 5
  }

  /** `getTabsForRole`: the base tabs, with the others pushed on conditions. */
  method TabsForRole(role: CallCenterRole) returns (tabs: seq<Tab>)
    ensures tabs == AllTabs[..TabCount(role)]
  {
    tabs := [QueueTab, TicketsTab, CommunicationTab];
    if role == Supervisor || role == Admin {
      tabs := tabs + [EmergencyTab];
    }
    if role == Admin {
      tabs := tabs + [AdminTab];
    }
  }

  /** A tab's place in `AllTabs`. */
  function Position(t: Tab): (k: nat)
    ensures k < |AllTabs| && AllTabs[k] == t
  {
    match t
    case QueueTab => 0
    case TicketsTab => 1
    case CommunicationTab => 2
    case EmergencyTab => 3
    case AdminTab => 4
  }

  /** Whether `getTabsForRole` lists the tab for the role. */
  predicate HasTab(role: CallCenterRole, t: Tab) {
    t in AllTabs[..TabCount(role)]
  }

  /** A tab is listed exactly when its place is within the role's count. */
  lemma HasTabByPosition(role: CallCenterRole, t: Tab)
    ensures HasTab(role, t) <==> Position(t) < TabCount(role)
  {
    if HasTab(role, t) {
      var k :| 0 <= k < TabCount(role) && AllTabs[k] == t;
      assert Position(AllTabs[k]) == k;
    }
  }

  /** Privilege order of the call-center roles. */
  function Rank(role: CallCenterRole): nat {
    match role
    case Agent => 0
    case Supervisor => 1
    case Admin => 2
  }

  /** Every role gets the three base tabs, first and in order; only supervisors
      and admins get the emergency tab, and only admins the admin tab. */
  lemma TabsByRole(role: CallCenterRole)
    ensures AllTabs[..TabCount(role)][..3] == [QueueTab, TicketsTab, CommunicationTab]
    ensures HasTab(role, EmergencyTab) <==> role == Supervisor || role == Admin
    ensures HasTab(role, AdminTab) <==> role == Admin
  {
    HasTabByPosition(role, EmergencyTab);
    HasTabByPosition(role, AdminTab);
  }

  /** Tabs grow with privilege: a role's tabs are a prefix of the tabs of every
      role above it, so agent (3) is within supervisor (4) within admin (5). */
  lemma TabsMonotone(r1: CallCenterRole, r2: CallCenterRole)
    requires Rank(r1) <= Rank(r2)
    ensures AllTabs[..TabCount(r1)] <= AllTabs[..TabCount(r2)]
    ensures forall t :: HasTab(r1, t) ==> HasTab(r2, t)
  {
  }

  /** Whether a tab's content is rendered: the base tabs always, the emergency
      and admin panels only under the same role conditions as their tabs. */
  predicate RendersContent(role: CallCenterRole, t: Tab) {
    match t
    case EmergencyTab => role == Supervisor || role == Admin
    case AdminTab => role == Admin
    case _ => true
  }

  /** The content gates agree with the tab list: a panel is rendered exactly
      when its tab is offered. */
  lemma ContentMatchesTabs(role: CallCenterRole, t: Tab)
    ensures RendersContent(role, t) <==> HasTab(role, t)
  {
    HasTabByPosition(role, t);
  }

  datatype DashboardStats = DashboardStats(activeTickets: nat, pendingCalls: nat, availableAgents: nat,
                                           emergencyEscalations: nat)

  predicate IsAvailableAgent(u: CallCenterUser) {
    u.isActive == Some(true) && u.role == Agent
  }

  /** The four counters: open or in-progress tickets, active channels, active
      users with the agent role, and pending escalations. */
  function Stats(db: Db): DashboardStats {
    DashboardStats(
      Count(db.tickets, (t: Ticket) => t.status in {Some("open"), Some("in_progress")}),
      Count(db.channels, (c: Channel) => c.status == Some("active")),
      Count(Filter(db.users, (u: CallCenterUser) => u.isActive == Some(true)), (u: CallCenterUser) => u.role == Agent),
      Count(db.escalations, (e: Escalation) => e.status == Some("pending")))
  }

  /** `availableAgents` counts exactly the users that are active and have the
      agent role: filtering active rows first and agents second is one filter
      on both conditions. */
  lemma {:induction false} AvailableAgentsCount(users: seq<CallCenterUser>)
    ensures Filter(Filter(users, (u: CallCenterUser) => u.isActive == Some(true)), (u: CallCenterUser) => u.role == Agent)
            == Filter(users, IsAvailableAgent)
    ensures Count(users, IsAvailableAgent) <= |users|
  {
    var active := (u: CallCenterUser) => u.isActive == Some(true);
    var agent := (u: CallCenterUser) => u.role == Agent;
    if users != [] {
      AvailableAgentsCount(users[1..]);
      var rest := Filter(users[1..], active);
      if active(users[0]) {
        assert ([users[0]] + rest)[0] == users[0] && ([users[0]] + rest)[1..] == rest;
      }
    }
  }

  /** `handleLogout`: a `logout` entry for the user with the time. */
  method Logout(store: Store, user: CallCenterUser, now: Time)
    modifies store
    ensures store.db == old(store.db).AddLog(Some(user.id), "logout", map["timestamp" := At(now)])
  {
    store.Log(Some(user.id), "logout", map["timestamp" := At(now)]);
  }
}

/** The application shell: a navigation bar of four tabs and the screen of
    the active one. */
module AppShell {

  /** The four screens the shell can show. */
  datatype View = Dashboard | AgentConfig | CallTrigger | CallResults

  datatype Tab = Tab(id: string, title: string)

  /** The navigation bar, in display order. */
  const Tabs: seq<Tab> := [
    Tab("dashboard", "Dashboard"),
    Tab("config", "Agent Config"),
    Tab("calls", "Start Call"),
    Tab("results", "Call Results")
  ]

  const InitialTab: string := "dashboard"

  /** `renderContent`: the screen for the active tab id; an id that names no
      tab shows the dashboard. */
  function RenderContent(activeTab: string): View {
    match activeTab
    case "dashboard" => Dashboard
    case "config" => AgentConfig
    case "calls" => CallTrigger
    case "results" => CallResults
    case _ => Dashboard
  }

  /** Which buttons of the navigation bar are drawn as active. */
  function Highlighted(activeTab: string): (h: seq<bool>)
    ensures |h| == |Tabs|
    ensures forall i :: 0 <= i < |Tabs| ==> (h[i] <==> Tabs[i].id == activeTab)
  {
    seq(|Tabs|, i requires 0 <= i < |Tabs| => Tabs[i].id == activeTab)
  }

  /** The tab ids are distinct and each tab shows its own screen. */
  lemma TabsShowDistinctViews()
    ensures forall i, j :: 0 <= i < j < |Tabs| ==> Tabs[i].id != Tabs[j].id
    ensures forall i, j :: 0 <= i < j < |Tabs| ==> RenderContent(Tabs[i].id) != RenderContent(Tabs[j].id)
  {
  }

  /** The position of the tab that shows `v`: every screen has one. */
  function TabOf(v: View): (i: nat)
    ensures i < |Tabs| && RenderContent(Tabs[i].id) == v
  {
    match v
    case Dashboard => 0
    case AgentConfig => 1
    case CallTrigger => 2
    case CallResults => 3
  }

  /** Any text that is not a tab id shows the dashboard. */
  lemma UnknownTabShowsDashboard(activeTab: string)
    requires forall i :: 0 <= i < |Tabs| ==> Tabs[i].id != activeTab
    ensures RenderContent(activeTab) == Dashboard
  {
    assert Tabs[1].id == "config" && Tabs[2].id == "calls" && Tabs[3].id == "results";
  }

  /** When the active tab is one of the bar's, exactly that button is highlighted. */
  lemma OneTabHighlighted(i: nat)
    requires i < |Tabs|
    ensures forall j :: 0 <= j < |Tabs| ==> (Highlighted(Tabs[i].id)[j] <==> j == i)
  {
    TabsShowDistinctViews();
  }

  /** The `App` component's state. */
  class App {
    var activeTab: string

    constructor ()
      ensures activeTab == InitialTab
      ensures RenderContent(activeTab) == Dashboard
    {
      activeTab := InitialTab;
    }

    /** The screen currently shown. */
    function Content(): View
      reads this
    {
      RenderContent(activeTab)
    }

    /** A click on the button of tab `i` makes it the active tab. */
    method ClickTab(i: nat)
      requires i < |Tabs|
      modifies this
      ensures activeTab == Tabs[i].id
      ensures Highlighted(activeTab)[i]
    {
      activeTab := Tabs[i].id;
    }
  }
}

/**
 * The application sidebar: a fixed navigation table, exact-path route matching,
 * and the rail's open/pinned/hovering state machine.
 *
 * `open` and `isMobile` belong to the surrounding sidebar context (its `setOpen` may
 * be called from outside the rail, such as by a global sidebar trigger, which is
 * not part of this model); `isPinned` and `isHovering` are
 * the component's own state. An effect turns every external open/close into a
 * pin/unpin; here that effect is the explicit step `Sync`, which runs after every
 * event (`Step`).
 */
module AppSidebar {
  import opened Collections

  datatype Icon =
    | AlertCircle | Search | LayoutDashboard | Lightbulb | Shield | Settings
    | Activity | FileText | TrendingUp | AlertTriangle | BookOpen | Bot | ClipboardList

  datatype NavItem = NavItem(title: string, url: string, icon: Icon)
  datatype NavSection = NavSection(heading: string, icon: Icon, items: seq<NavItem>)

  /** The sidebar's sections and their items, in display order. */
  function Navigation(): seq<NavSection>
  {
    [ NavSection("Issues", AlertCircle, [
        NavItem("Feed", "/", Activity),
        NavItem("AI Incidents", "/incidents", AlertTriangle),
        NavItem("Policy Violations", "/violations", FileText)]),
      NavSection("Explore", Search, [
        NavItem("Agent Traces", "/traces", Activity),
        NavItem("Decision Logs", "/decisions", BookOpen)]),
      NavSection("Dashboards", LayoutDashboard, [
        NavItem("Reliability", "/dashboard/reliability", TrendingUp),
        NavItem("Risk", "/dashboard/risk", AlertTriangle)]),
      NavSection("Insights", Lightbulb, [
        NavItem("Failure Types", "/insights/failures", AlertCircle),
        NavItem("Drift Signals", "/insights/drift", TrendingUp)]),
      NavSection("Prevent", Shield, [
        NavItem("AI Policies", "/policies", FileText),
        NavItem("Guardrails", "/guardrails", Shield)]),
      NavSection("Settings", Settings, [
        NavItem("Organization", "/settings", Settings),
        NavItem("Models & Prompts", "/settings/models", Bot),
        NavItem("Agents", "/settings/agents", Bot),
        NavItem("Audit Log", "/settings/audit", ClipboardList)])
    ]
  }

  // ---------------------------------------------------------------------------
  // Route matching

  /** `items.some(item => currentPath === item.url)` */
  function AnyItemAt(items: seq<NavItem>, currentPath: string): bool
  {
    if items == [] then false
    else items[0].url == currentPath || AnyItemAt(items[1..], currentPath)
  }

  /** A section is active when the current path equals the url of one of its items. */
  function IsActiveSection(section: NavSection, currentPath: string): bool
  {
    AnyItemAt(section.items, currentPath)
  }

  /** The item-by-item scan finds a match exactly when some item's url is the path. */
  lemma {:induction false} AnyItemAtSpec(items: seq<NavItem>, currentPath: string)
    ensures AnyItemAt(items, currentPath) <==> exists k :: 0 <= k < |items| && items[k].url == currentPath
  {
    if items != [] {
      AnyItemAtSpec(items[1..], currentPath);
      if exists k :: 1 <= k < |items| && items[k].url == currentPath {
        var k :| 1 <= k < |items| && items[k].url == currentPath;
        assert items[1..][k - 1].url == currentPath;
      }
    }
  }

  /** The url of item `k` of section `i` is `url`. */
  predicate UrlAt(nav: seq<NavSection>, i: int, k: int, url: string)
  {
    0 <= i < |nav| && 0 <= k < |nav[i].items| && nav[i].items[k].url == url
  }

  /** No url appears twice anywhere in the table. */
  ghost predicate UrlsDistinct(nav: seq<NavSection>)
  {
    forall i, k, j, l, url :: UrlAt(nav, i, k, url) && UrlAt(nav, j, l, url) ==> i == j && k == l
  }

  /** The sidebar's table uses each url once. */
  lemma NavigationUrlsDistinct()
    ensures UrlsDistinct(Navigation())
  {
    var nav := Navigation();
    forall i, k, j, l, url | UrlAt(nav, i, k, url) && UrlAt(nav, j, l, url)
      ensures i == j && k == l
    {
      assert nav[i].items[k].url == nav[j].items[l].url;
    }
  }

  /** With distinct urls, a path that is some item's url makes exactly that item's section active. */
  lemma ExactlyOneActive(nav: seq<NavSection>, i: nat, k: nat, currentPath: string)
    requires UrlsDistinct(nav) && UrlAt(nav, i, k, currentPath)
    ensures IsActiveSection(nav[i], currentPath)
    ensures forall j :: 0 <= j < |nav| && j != i ==> !IsActiveSection(nav[j], currentPath)
  {
    AnyItemAtSpec(nav[i].items, currentPath);
    forall j | 0 <= j < |nav| && j != i
      ensures !IsActiveSection(nav[j], currentPath)
    {
      AnyItemAtSpec(nav[j].items, currentPath);
      if l :| 0 <= l < |nav[j].items| && nav[j].items[l].url == currentPath {
        assert UrlAt(nav, j, l, currentPath);
      }
    }
  }

  /** A path that is no item's url makes no section active. */
  lemma NoneActive(nav: seq<NavSection>, currentPath: string)
    requires forall i, k :: 0 <= i < |nav| && 0 <= k < |nav[i].items| ==> nav[i].items[k].url != currentPath
    ensures forall j :: 0 <= j < |nav| ==> !IsActiveSection(nav[j], currentPath)
  {
    forall j | 0 <= j < |nav|
      ensures !IsActiveSection(nav[j], currentPath)
    {
      AnyItemAtSpec(nav[j].items, currentPath);
    }
  }

  /** No url of the table starts with `prefix`. */
  ghost predicate NoUrlUnder(nav: seq<NavSection>, prefix: string)
  {
    forall i, k :: 0 <= i < |nav| && 0 <= k < |nav[i].items| ==> !(prefix <= nav[i].items[k].url)
  }

  /** `prefix` is not a prefix of `u` because they differ at position `k`. */
  lemma NotPrefixAt(prefix: string, u: string, k: nat)
    requires k < |prefix| && (k >= |u| || u[k] != prefix[k])
    ensures !(prefix <= u)
  {
  }

  /** No sidebar url lies under `/incident/` or `/trace/`. */
  lemma NavigationHasNoDetailUrls()
    ensures NoUrlUnder(Navigation(), "/incident/") && NoUrlUnder(Navigation(), "/trace/")
  {
    var nav := Navigation();
    forall i, k | 0 <= i < |nav| && 0 <= k < |nav[i].items|
      ensures !("/incident/" <= nav[i].items[k].url) && !("/trace/" <= nav[i].items[k].url)
    {
      var u := nav[i].items[k].url;
      // "/incidents" first differs from "/incident/" at its last character, the
      // "/insights/..." urls at their fourth, "/traces" from "/trace/" at its seventh
      NotPrefixAt("/incident/", u, if i == 0 && k == 1 then 9 else if i == 3 then 3 else 1);
      NotPrefixAt("/trace/", u, if i == 1 && k == 0 then 6 else 1);
    }
  }

  /** A path under a prefix that no url of the table starts with makes no section active. */
  lemma NothingActiveUnder(nav: seq<NavSection>, prefix: string, id: string)
    requires NoUrlUnder(nav, prefix)
    ensures forall j :: 0 <= j < |nav| ==> !IsActiveSection(nav[j], prefix + id)
  {
    assert prefix <= prefix + id;
    NoneActive(nav, prefix + id);
  }

  /**
   * The detail pages reached from the feed and the trace list (`/incident/<id>` and
   * `/trace/<id>`) are outside the table, so no section is active on them.
   */
  lemma DetailPagesActivateNothing(id: string)
    ensures forall j :: 0 <= j < |Navigation()| ==> !IsActiveSection(Navigation()[j], "/incident/" + id)
    ensures forall j :: 0 <= j < |Navigation()| ==> !IsActiveSection(Navigation()[j], "/trace/" + id)
  {
    NavigationHasNoDetailUrls();
    NothingActiveUnder(Navigation(), "/incident/", id);
    NothingActiveUnder(Navigation(), "/trace/", id);
  }

  // ---------------------------------------------------------------------------
  // The rail's state machine

  datatype RailState = RailState(open: bool, isPinned: bool, isHovering: bool, isMobile: bool)

  /** On mount the pin starts equal to the context's `open` and the pointer is outside. */
  function Initial(open: bool, isMobile: bool): RailState
  {
    RailState(open, open, false, isMobile)
  }

  /** The pin button: flip the pin and open or close the rail to match it. */
  function TogglePin(s: RailState): RailState
  {
    var nextPinned := !s.isPinned;
    s.(isPinned := nextPinned, open := nextPinned)
  }

  /** Pointer enters the rail: on desktop, mark hovering and open an unpinned rail. */
  function EnterRail(s: RailState): RailState
  {
    if s.isMobile then s
    else s.(isHovering := true, open := if !s.isPinned then true else s.open)
  }

  /** Pointer leaves the rail: on desktop, clear hovering and close an unpinned rail. */
  function LeaveRail(s: RailState): RailState
  {
    if s.isMobile then s
    else s.(isHovering := false, open := if !s.isPinned then false else s.open)
  }

  /**
   * The effect that reads an open/close made outside the pointer handlers as a
   * pin/unpin: on desktop, an open rail that is neither hovered nor pinned becomes
   * pinned, and a closed rail that is pinned becomes unpinned.
   */
  function Sync(s: RailState): RailState
  {
    if s.isMobile then s
    else if s.open && !s.isHovering && !s.isPinned then s.(isPinned := true)
    else if !s.open && s.isPinned then s.(isPinned := false)
    else s
  }

  /** What reaches the rail: pointer moves, pin clicks, and changes of the context's inputs. */
  datatype Event =
    | Enter
    | Leave
    | PinClick
    | ContextOpen(open: bool)       // an external call of the context's `setOpen`
    | ContextMobile(mobile: bool)   // the viewport crossing the mobile breakpoint

  function Apply(s: RailState, e: Event): RailState
  {
    match e
    case Enter => EnterRail(s)
    case Leave => LeaveRail(s)
    case PinClick => TogglePin(s)
    case ContextOpen(b) => s.(open := b)
    case ContextMobile(m) => s.(isMobile := m)
  }

  /** One event followed by the effect; re-running the effect changes nothing more (`SyncSettles`). */
  function Step(s: RailState, e: Event): RailState
  {
    Sync(Apply(s, e))
  }

  function Run(s: RailState, events: seq<Event>): RailState
    decreases |events|
  {
    if events == [] then s else Run(Step(s, events[0]), events[1..])
  }

  /** What the effect establishes on desktop: the pin implies open, and an open rail that is not hovered is pinned. */
  predicate Settled(s: RailState)
  {
    (s.isPinned ==> s.open) && (s.open && !s.isHovering ==> s.isPinned)
  }

  predicate IsPointer(e: Event)
  {
    e.Enter? || e.Leave?
  }

  lemma InitialState(open: bool, isMobile: bool)
    ensures Initial(open, isMobile).isPinned == open && !Initial(open, isMobile).isHovering
    ensures Settled(Initial(open, isMobile))
  {
  }

  /** The pin button negates the pin and leaves `open` equal to it; twice restores the pin. */
  lemma TogglePinSpec(s: RailState)
    ensures TogglePin(s).isPinned == !s.isPinned && TogglePin(s).open == TogglePin(s).isPinned
    ensures TogglePin(s).isHovering == s.isHovering && TogglePin(s).isMobile == s.isMobile
    ensures TogglePin(TogglePin(s)) == s.(open := s.isPinned)
  {
  }

  /** On mobile the pointer handlers and the effect change nothing. */
  lemma MobileIgnoresPointer(s: RailState)
    requires s.isMobile
    ensures EnterRail(s) == s && LeaveRail(s) == s && Sync(s) == s
  {
  }

  /** On desktop, entering marks hovering and opens the rail only if it is unpinned. */
  lemma DesktopEnter(s: RailState)
    requires !s.isMobile
    ensures EnterRail(s).isHovering && EnterRail(s).isPinned == s.isPinned
    ensures EnterRail(s).open == (s.open || !s.isPinned)
  {
  }

  /** On desktop, leaving clears hovering and closes the rail only if it is unpinned; a pinned rail keeps its `open`. */
  lemma DesktopLeave(s: RailState)
    requires !s.isMobile
    ensures !LeaveRail(s).isHovering && LeaveRail(s).isPinned == s.isPinned
    ensures LeaveRail(s).open == (s.open && s.isPinned)
    ensures s.isPinned ==> LeaveRail(s).open == s.open
  {
  }

  /** Hovering never pins: entering an unpinned desktop rail and running the effect leaves it unpinned. */
  lemma HoverNeverPins(s: RailState)
    requires !s.isMobile && !s.isPinned
    ensures !Sync(EnterRail(s)).isPinned && Sync(EnterRail(s)).open
  {
  }

  /** The effect only moves the pin, establishes `Settled` on desktop, and is idempotent. */
  lemma SyncSettles(s: RailState)
    ensures Sync(s).open == s.open && Sync(s).isHovering == s.isHovering && Sync(s).isMobile == s.isMobile
    ensures !s.isMobile ==> Settled(Sync(s))
    ensures Sync(Sync(s)) == Sync(s)
  {
  }

  /** An open/close from outside the rail, while the pointer is elsewhere, becomes the pin. */
  lemma ExternalOpenIsPin(s: RailState, b: bool)
    requires !s.isMobile && !s.isHovering
    ensures Step(s, ContextOpen(b)).isPinned == b && Step(s, ContextOpen(b)).open == b
  {
  }

  /** In a settled desktop state, a pointer move never changes the pin. */
  lemma PointerKeepsPin(s: RailState, e: Event)
    requires !s.isMobile && Settled(s) && IsPointer(e)
    ensures Step(s, e).isPinned == s.isPinned
  {
  }

  /** After every step that ends on desktop the state is settled. */
  lemma StepSettles(s: RailState, e: Event)
    requires !Step(s, e).isMobile
    ensures Settled(Step(s, e))
  {
    SyncSettles(Apply(s, e));
  }

  /** Every run that starts settled (or is not empty) and ends on desktop ends settled. */
  lemma {:induction false} RunSettles(s: RailState, events: seq<Event>)
    requires events != [] || Settled(s)
    requires !Run(s, events).isMobile
    ensures Settled(Run(s, events))
    decreases |events|
  {
    if events != [] {
      var s' := Step(s, events[0]);
      if events[1..] == [] {
        StepSettles(s, events[0]);
      } else {
        RunSettles(s', events[1..]);
      }
    }
  }

  /** Any sequence of pointer moves over a settled desktop rail leaves the pin as it was. */
  lemma {:induction false} PointerRunKeepsPin(s: RailState, events: seq<Event>)
    requires !s.isMobile && Settled(s)
    requires forall k :: 0 <= k < |events| ==> IsPointer(events[k])
    ensures Run(s, events).isPinned == s.isPinned
    decreases |events|
  {
    if events != [] {
      PointerKeepsPin(s, events[0]);
      StepSettles(s, events[0]);
      PointerRunKeepsPin(Step(s, events[0]), events[1..]);
    }
  }

  /** On mobile, any sequence of pointer moves changes nothing at all. */
  lemma {:induction false} MobilePointerRunIsIdentity(s: RailState, events: seq<Event>)
    requires s.isMobile
    requires forall k :: 0 <= k < |events| ==> IsPointer(events[k])
    ensures Run(s, events) == s
    decreases |events|
  {
    if events != [] {
      assert Step(s, events[0]) == s;
      MobilePointerRunIsIdentity(s, events[1..]);
    }
  }

  /** A hover preview is transient: entering and leaving a settled, unhovered desktop rail restores it exactly. */
  lemma HoverPreviewRoundTrip(s: RailState)
    requires !s.isMobile && Settled(s) && !s.isHovering
    ensures Run(s, [Enter, Leave]) == s
  {
    assert [Enter, Leave][1..] == [Leave];
  }

  /** The rail as a component: the context's `open`/`isMobile` and the component's own pin and hover flags. */
  class Rail {
    var open: bool
    var isPinned: bool
    var isHovering: bool
    var isMobile: bool

    function State(): RailState
      reads this
    {
      RailState(open, isPinned, isHovering, isMobile)
    }

    constructor (open: bool, isMobile: bool)
      ensures this.open == open && this.isMobile == isMobile
      ensures isPinned == open && !isHovering
      ensures State() == Initial(open, isMobile)
    {
      this.open := open;
      this.isMobile := isMobile;
      isPinned := open;
      isHovering := false;
    }

    /** `handlePin` */
    method HandlePin()
      modifies this
      ensures isPinned == !old(isPinned) && open == isPinned
      ensures isHovering == old(isHovering) && isMobile == old(isMobile)
      ensures State() == TogglePin(old(State()))
    {
      var nextPinned := !isPinned;
      isPinned := nextPinned;
      open := nextPinned;
    }

    /** `onMouseEnter` */
    method MouseEnter()
      modifies this
      ensures isMobile ==> State() == old(State())
      ensures !isMobile ==> isHovering && isPinned == old(isPinned) && open == (old(open) || !old(isPinned))
      ensures State() == EnterRail(old(State()))
    {
      if isMobile {
        return;
      }
      isHovering := true;
      if !isPinned {
        open := true;
      }
    }

    /** `onMouseLeave` */
    method MouseLeave()
      modifies this
      ensures isMobile ==> State() == old(State())
      ensures !isMobile ==> !isHovering && isPinned == old(isPinned) && open == (old(open) && old(isPinned))
      ensures State() == LeaveRail(old(State()))
    {
      if isMobile {
        return;
      }
      isHovering := false;
      if !isPinned {
        open := false;
      }
    }

    /** The effect that follows `open`, `isHovering`, `isPinned` and `isMobile`. */
    method SyncPinWithOpen()
      modifies this
      ensures open == old(open) && isHovering == old(isHovering) && isMobile == old(isMobile)
      ensures !isMobile ==> Settled(State())
      ensures State() == Sync(old(State()))
    {
      if isMobile {
        return;
      }
      // both conditions read the values of the render that ran the effect
      var wasPinned := isPinned;
      if open && !isHovering && !wasPinned {
        isPinned := true;
      }
      if !open && wasPinned {
        isPinned := false;
      }
    }

    /** The context's `setOpen`, called from outside the rail. */
    method SetOpen(value: bool)
      modifies this
      ensures open == value && isPinned == old(isPinned) && isHovering == old(isHovering) && isMobile == old(isMobile)
    {
      open := value;
    }

    /** The context's `isMobile` changing with the viewport. */
    method SetMobile(value: bool)
      modifies this
      ensures isMobile == value && open == old(open) && isPinned == old(isPinned) && isHovering == old(isHovering)
    {
      isMobile := value;
    }

    /** Delivers one event and then runs the effect, as a render does. */
    method Handle(e: Event)
      modifies this
      ensures State() == Step(old(State()), e)
      ensures !isMobile ==> Settled(State())
    {
      match e {
        case Enter => MouseEnter();
        case Leave => MouseLeave();
        case PinClick => HandlePin();
        case ContextOpen(b) => SetOpen(b);
        case ContextMobile(m) => SetMobile(m);
      }
      SyncPinWithOpen();
    }
  }

  // ---------------------------------------------------------------------------
  // What the rail renders (`expanded` is `open`)

  datatype PinButton = PinButton(caption: string, highlighted: bool, rotated: bool)
  datatype ItemView = ItemView(title: Option<string>, url: string, icon: Icon, endMatch: bool)
  datatype SectionView = SectionView(heading: Option<string>, icon: Icon, chevron: bool, defaultOpen: bool, items: seq<ItemView>)
  datatype RailView = RailView(brandText: bool, pinButton: Option<PinButton>, sections: seq<SectionView>)

  function PinLabel(isPinned: bool): string
  {
    if isPinned then "Unpin sidebar" else "Pin sidebar"
  }

  function RenderItem(item: NavItem, expanded: bool): ItemView
  {
    ItemView(if expanded then Some(item.title) else None, item.url, item.icon, item.url == "/")
  }

  function RenderSection(section: NavSection, expanded: bool, currentPath: string): SectionView
  {
    SectionView(
      if expanded then Some(section.heading) else None,
      section.icon,
      expanded,
      IsActiveSection(section, currentPath),
      seq(|section.items|, k requires 0 <= k < |section.items| => RenderItem(section.items[k], expanded)))
  }

  function Render(s: RailState, currentPath: string): RailView
  {
    var expanded := s.open;
    RailView(
      expanded,
      if expanded then Some(PinButton(PinLabel(s.isPinned), s.isPinned, s.isPinned)) else None,
      seq(|Navigation()|, i requires 0 <= i < |Navigation()| => RenderSection(Navigation()[i], expanded, currentPath)))
  }

  /**
   * Labels, chevrons, item titles, the brand text and the pin button appear exactly
   * when the rail is open; the pin button reads "Unpin sidebar" exactly when pinned.
   */
  lemma RenderFollowsExpanded(s: RailState, currentPath: string)
    ensures Render(s, currentPath).brandText == s.open
    ensures Render(s, currentPath).pinButton.Some? <==> s.open
    ensures Render(s, currentPath).pinButton.Some? ==>
      (Render(s, currentPath).pinButton.value.caption == "Unpin sidebar" <==> s.isPinned)
    ensures |Render(s, currentPath).sections| == |Navigation()|
    ensures forall i :: 0 <= i < |Navigation()| ==>
      var v := Render(s, currentPath).sections[i];
      && (v.heading.Some? <==> s.open) && (v.chevron <==> s.open)
      && |v.items| == |Navigation()[i].items|
      && (forall k :: 0 <= k < |v.items| ==> (v.items[k].title.Some? <==> s.open))
  {
  }

  /** Each section starts expanded exactly when it is the active one, so a table url opens exactly one section. */
  lemma RenderOpensActiveSection(s: RailState, i: nat, k: nat)
    requires i < |Navigation()| && k < |Navigation()[i].items|
    ensures var path := Navigation()[i].items[k].url;
      forall j :: 0 <= j < |Navigation()| ==> (Render(s, path).sections[j].defaultOpen <==> j == i)
  {
    NavigationUrlsDistinct();
    assert UrlAt(Navigation(), i, k, Navigation()[i].items[k].url);
    ExactlyOneActive(Navigation(), i, k, Navigation()[i].items[k].url);
  }

  /** Only the root item `/` (the first item of the first section) uses end-anchored matching. */
  lemma OnlyRootIsEndAnchored(s: RailState, currentPath: string, i: nat, k: nat)
    requires i < |Navigation()| && k < |Navigation()[i].items|
    ensures Render(s, currentPath).sections[i].items[k].endMatch <==> (i == 0 && k == 0)
  {
    NavigationUrlsDistinct();
    assert UrlAt(Navigation(), 0, 0, "/");
    assert UrlAt(Navigation(), i, k, Navigation()[i].items[k].url);
  }
}

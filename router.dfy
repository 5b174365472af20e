/** The dashboard router: route gating, hash parsing, navigation marks and the
    one-slot page lifecycle. */
module Router {
  import opened Wrappers
  import SessionState
  import Embeddables

  /** The four entries of the route table. */
  datatype Route = Carriers | Billing | PaymentLogs | Reports

  function RouteKey(r: Route): string {
    match r
    case Carriers => "carriers"
    case Billing => "billing"
    case PaymentLogs => "paymentlogs"
    case Reports => "reports"
  }

  /** The page heading; no two routes share one. */
  function Title(r: Route): (t: string)
    ensures t == "Carrier Accounts" <==> r == Carriers
    ensures t == "Billing" <==> r == Billing
    ensures t == "Payment Logs" <==> r == PaymentLogs
    ensures t == "Reports" <==> r == Reports
  {
    match r
    case Carriers => "Carrier Accounts"
    case Billing => "Billing"
    case PaymentLogs => "Payment Logs"
    case Reports => "Reports"
  }

  /** The widget type each page opens; no two routes share one. */
  function Component(r: Route): (c: string)
    ensures c == "manage-carriers" <==> r == Carriers
    ensures c == "manage-billing" <==> r == Billing
    ensures c == "manage-payment-logs" <==> r == PaymentLogs
    ensures c == "manage-reports" <==> r == Reports
  {
    match r
    case Carriers => "manage-carriers"
    case Billing => "manage-billing"
    case PaymentLogs => "manage-payment-logs"
    case Reports => "manage-reports"
  }

  /** Looking a key up in the route table. */
  function RouteOf(key: string): (r: Option<Route>)
    ensures r.Some? ==> RouteKey(r.value) == key
    ensures r.None? ==> forall x: Route :: RouteKey(x) != key
  {
    if key == "carriers" then Some(Carriers)
    else if key == "billing" then Some(Billing)
    else if key == "paymentlogs" then Some(PaymentLogs)
    else if key == "reports" then Some(Reports)
    else None
  }

  lemma RouteKeyRoundTrip(r: Route)
    ensures RouteOf(RouteKey(r)) == Some(r)
  {
  }

  /** The flag that gates a route's page. */
  function FlagOf(allowed: SessionState.Allowed, r: Route): bool {
    match r
    case Carriers => allowed.carriers
    case Billing => allowed.billing
    case PaymentLogs => allowed.paymentlogs
    case Reports => allowed.reports
  }

  /** `allowed[key]`: the flag of the route the key names; a key that is not
      one of the four flags reads as `undefined`, which is falsy. */
  function AllowedFlag(allowed: SessionState.Allowed, key: string): (f: bool)
    ensures RouteOf(key).None? ==> !f
    ensures RouteOf(key).Some? ==> f == FlagOf(allowed, RouteOf(key).value)
  {
    if key == "carriers" then allowed.carriers
    else if key == "billing" then allowed.billing
    else if key == "paymentlogs" then allowed.paymentlogs
    else if key == "reports" then allowed.reports
    else false
  }

  /** The route `render(key)` ends up on: any key but `carriers` whose flag is
      falsy (unknown keys included) is forced to `carriers`. */
  function ResolveRoute(key: string, allowed: SessionState.Allowed): (r: Route)
    ensures key == "carriers" ==> r == Carriers
    ensures key != "carriers" && !AllowedFlag(allowed, key) ==> r == Carriers
    ensures RouteOf(key).Some? && AllowedFlag(allowed, key) ==> r == RouteOf(key).value
    ensures r != Carriers ==> RouteKey(r) == key && AllowedFlag(allowed, key)
  {
    var k := if key != "carriers" && !AllowedFlag(allowed, key) then "carriers" else key;
    RouteOf(k).value
  }

  /** Direct navigation to a gated page lands on carriers. */
  lemma GatedPageRedirects(r: Route, allowed: SessionState.Allowed)
    requires r != Carriers && !AllowedFlag(allowed, RouteKey(r))
    ensures ResolveRoute(RouteKey(r), allowed) == Carriers
  {
  }

  /** In centralized mode every key, known or not, resolves to carriers. */
  lemma CentralizedAlwaysCarriers(key: string, s: SessionState.State)
    requires SessionState.Consistent(s) && s.mode != SessionState.Decentralized
    ensures ResolveRoute(key, s.allowed) == Carriers
  {
  }

  /** In decentralized mode every known key resolves to its own page. */
  lemma DecentralizedReachesEveryPage(r: Route, s: SessionState.State)
    requires SessionState.Consistent(s) && s.mode == SessionState.Decentralized
    ensures ResolveRoute(RouteKey(r), s.allowed) == r
  {
  }

  /** The route key in `location.hash`: `carriers` when the hash is empty,
      otherwise the hash without its first character. */
  function HashKey(hash: string): (k: string)
    ensures hash == "" ==> k == "carriers"
    ensures hash != "" ==> k == hash[1..] && hash == [hash[0]] + k
  {
    (if hash == "" then "#carriers" else hash)[1..]
  }

  /** The hash written after a click (`#key`) parses back to that key. The
      hash is taken as written: a browser reports an empty fragment as `""`
      and percent-encodes characters such as spaces, so for keys other than
      the four route names the browser's round trip can differ. */
  lemma HashRoundTrip(key: string)
    ensures HashKey("#" + key) == key
  {
  }

  /** The mode text and the three disabled nav buttons. */
  datatype Gating = Gating(modeText: string, billingDisabled: bool, paymentLogsDisabled: bool, reportsDisabled: bool)

  function ModeGating(s: SessionState.State): (g: Gating)
    ensures g.billingDisabled <==> !s.allowed.billing
    ensures g.paymentLogsDisabled <==> !s.allowed.paymentlogs
    ensures g.reportsDisabled <==> !s.allowed.reports
    ensures g.modeText == if s.mode == SessionState.Decentralized
      then "Decentralized billing (ReferralCustomers)" else "Centralized billing (Child Users)"
  {
    Gating(
      if s.mode == SessionState.Decentralized
        then "Decentralized billing (ReferralCustomers)" else "Centralized billing (Child Users)",
      !s.allowed.billing, !s.allowed.paymentlogs, !s.allowed.reports)
  }

  function NavDisabled(g: Gating, r: Route): bool {
    match r
    case Carriers => false
    case Billing => g.billingDisabled
    case PaymentLogs => g.paymentLogsDisabled
    case Reports => g.reportsDisabled
  }

  /** A nav button is enabled exactly when following its route is not
      redirected by the gate. */
  lemma NavEnabledIffReachable(s: SessionState.State, r: Route)
    ensures !NavDisabled(ModeGating(s), r) <==> ResolveRoute(RouteKey(r), s.allowed) == r
  {
  }

  /** A nav button: its `data-route` and its `aria-current` attribute. */
  datatype NavItem = NavItem(route: string, ariaCurrent: string)

  function Mark(item: NavItem, key: string): NavItem {
    NavItem(item.route, if item.route == key then "page" else "false")
  }

  function MarkAll(items: seq<NavItem>, key: string): (r: seq<NavItem>)
    ensures |r| == |items|
    ensures forall i :: 0 <= i < |r| ==> r[i].route == items[i].route
    ensures forall i :: 0 <= i < |r| ==> (r[i].ariaCurrent == "page" <==> items[i].route == key)
    ensures forall i :: 0 <= i < |r| ==> (r[i].ariaCurrent != "page" ==> r[i].ariaCurrent == "false")
  {
    seq(|items|, i requires 0 <= i < |items| => Mark(items[i], key))
  }

  /** With one button per route, exactly the button of the current route is
      marked as the current page. */
  lemma ExactlyOneCurrent(items: seq<NavItem>, key: string, k: nat)
    requires forall i, j :: 0 <= i < j < |items| ==> items[i].route != items[j].route
    requires k < |items| && items[k].route == key
    ensures MarkAll(items, key)[k].ariaCurrent == "page"
    ensures forall i :: 0 <= i < |items| && MarkAll(items, key)[i].ariaCurrent == "page" ==> i == k
  {
  }

  /** What happens to the page root, in order. */
  datatype PageEvent = Unmounted(detach: Detach) | RootCleared | Mounted(route: Route, detach: Detach)

  /** The `pageRoot` element: the page it shows, and a ghost log of what was
      done to it, each entry written by whoever did it. */
  class PageRoot {
    var page: Option<Route>
    ghost var events: seq<PageEvent>

    constructor ()
      ensures page == None && events == []
    {
      page := None;
      events := [];
    }

    /** `pageRoot.innerHTML = ""` */
    method Clear()
      modifies this
      ensures page == None
      ensures events == old(events) + [RootCleared]
    {
      page := None;
      events := events + [RootCleared];
    }

    /** `r.mount(pageRoot, …)`: the page's markup goes in and the page hands
        back its detach function, which may throw when called. */
    method Mount(route: Route, detachThrows: bool) returns (d: Detach)
      modifies this
      ensures fresh(d) && d.root == this && d.throws == detachThrows
      ensures page == Some(route)
      ensures events == old(events) + [Mounted(route, d)]
    {
      d := new Detach(this, detachThrows);
      page := Some(route);
      events := events + [Mounted(route, d)];
    }
  }

  /** The detach function a page's `mount` returns; calling it is recorded on
      the root the page was mounted in, whether or not it then throws. */
  class Detach {
    const root: PageRoot
    const throws: bool

    constructor (root: PageRoot, throws: bool)
      ensures this.root == root && this.throws == throws
    {
      this.root := root;
      this.throws := throws;
    }

    method Call() returns (threw: bool)
      modifies root
      ensures threw == throws
      ensures root.page == old(root.page)
      ensures root.events == old(root.events) + [Unmounted(this)]
    {
      root.events := root.events + [Unmounted(this)];
      threw := throws;
    }
  }

  function UnmountEvents(d: Detach?): seq<PageEvent> {
    if d != null then [Unmounted(d)] else []
  }

  /** The dashboard page: the router's module state and the DOM it writes. */
  class Dashboard {
    const store: SessionState.Store
    const binder: Embeddables.Binder
    const navs: array<NavItem>
    const root: PageRoot
    var title: string
    var activeUserText: string
    var gating: Gating
    var currentUnmount: Detach?
    var hash: string
    var redirect: Option<string>

    /** The detach function kept from the last mount belongs to this page's
        root. */
    ghost predicate OwnsDetach()
      reads this
    {
      currentUnmount != null ==> currentUnmount.root == root
    }

    ghost predicate Valid()
      reads this, binder
    {
      binder.store == store && binder.Valid() && OwnsDetach()
    }

    /** What a render of route `r` leaves, from the nav items, root log and
        detach function it started with: the route's title and nav marks, the
        old detach function called, the root cleared and `r` mounted, and the
        detach function that this mount returned kept. */
    ghost predicate Shows(r: Route, navsBefore: seq<NavItem>, eventsBefore: seq<PageEvent>, unmountBefore: Detach?)
      reads this, navs, root
    {
      && title == Title(r)
      && navs[..] == MarkAll(navsBefore, RouteKey(r))
      && root.page == Some(r)
      && currentUnmount != null && currentUnmount.root == root
      && root.events == eventsBefore + UnmountEvents(unmountBefore) + [RootCleared, Mounted(r, currentUnmount)]
    }

    constructor (store: SessionState.Store, binder: Embeddables.Binder, navs: array<NavItem>, root: PageRoot, hash: string)
      requires binder.store == store && binder.Valid()
      ensures this.store == store && this.binder == binder && this.navs == navs && this.root == root
      ensures this.hash == hash && currentUnmount == null && redirect == None
      ensures Valid()
    {
      this.store := store;
      this.binder := binder;
      this.navs := navs;
      this.root := root;
      this.hash := hash;
      title := "";
      activeUserText := "";
      gating := Gating("", false, false, false);
      currentUnmount := null;
      redirect := None;
    }

    method SetActiveNav(key: string)
      modifies navs
      ensures navs[..] == MarkAll(old(navs[..]), key)
    {
      for i := 0 to navs.Length
        invariant forall j :: 0 <= j < i ==> navs[j] == Mark(old(navs[j]), key)
        invariant forall j :: i <= j < navs.Length ==> navs[j] == old(navs[j])
      {
        navs[i] := Mark(navs[i], key);
      }
    }

    method ApplyModeGating()
      modifies this
      ensures gating == ModeGating(store.state)
      ensures title == old(title) && activeUserText == old(activeUserText)
      ensures currentUnmount == old(currentUnmount) && hash == old(hash) && redirect == old(redirect)
    {
      var s := store.GetState();
      gating := ModeGating(s);
    }

    /** `render(key)`: gate the key, set the title and nav marks, call the
        previous detach function (a throw from it is swallowed), clear the
        root, mount the new page and keep the detach function it returns. */
    method Render(key: string, detachThrows: bool)
      requires OwnsDetach()
      modifies this, navs, root
      ensures Shows(ResolveRoute(key, store.state.allowed), old(navs[..]), old(root.events), old(currentUnmount))
      ensures fresh(currentUnmount) && currentUnmount.throws == detachThrows
      ensures activeUserText == old(activeUserText) && gating == old(gating)
      ensures hash == old(hash) && redirect == old(redirect)
    {
      var allowed := store.state.allowed;
      var routeKey := key;
      if routeKey != "carriers" && !AllowedFlag(allowed, routeKey) {
        routeKey := "carriers";
      }
      var r := RouteOf(routeKey).value;
      title := Title(r);
      SetActiveNav(routeKey);

      if currentUnmount != null {
        var threw := currentUnmount.Call();
      }
      root.Clear();

      currentUnmount := root.Mount(r, detachThrows);
    }

    /** The `open` callback handed to the page mounted for `route`:
        initialise, then open that route's widget. */
    method OpenFor(route: Route) returns (res: Outcome<Embeddables.BinderError>)
      requires Valid()
      modifies binder, binder.sdk
      ensures Valid()
      ensures var active := store.state.activeUserId;
        var d := Embeddables.InitDecision(active, binder.sdk.loaded, old(binder.embeddables) != null, old(binder.boundUserId));
        && res == Embeddables.OpenDecision(active, binder.sdk.loaded, old(binder.embeddables) != null, old(binder.boundUserId))
        && (res.Fail? ==>
              && binder.sdk.calls == old(binder.sdk.calls)
              && binder.embeddables == old(binder.embeddables) && binder.boundUserId == old(binder.boundUserId))
        && (res.Pass? && d == Embeddables.Reuse ==> binder.embeddables == old(binder.embeddables))
        && (res.Pass? ==>
              && binder.embeddables != null && binder.boundUserId == active
              && binder.sdk.calls == old(binder.sdk.calls)
                   + Embeddables.SetupCalls(d, old(binder.embeddables), binder.embeddables, Embeddables.Options(store.state.dark))
                   + [Embeddables.OpenCall(binder.embeddables, Component(route))])
    {
      var init := binder.InitEmbeddables();
      if init.Failure? {
        return Fail(init.error);
      }
      res := binder.OpenComponent(Component(route));
    }

    /** Reads the stored session; without an active user the page sends the
        browser back to the sign-in page and reports false. */
    method EnsureSession() returns (ok: bool)
      modifies this, store
      ensures store.Snapshot() == SessionState.Load(old(store.Snapshot()))
      ensures ok <==> store.state.activeUserId != ""
      ensures !ok ==> redirect == Some("/index.html") && gating == old(gating) && activeUserText == old(activeUserText)
      ensures ok ==> redirect == old(redirect) && gating == ModeGating(store.state)
      ensures ok ==> activeUserText == (if store.state.activeUserLabel != ""
                                        then store.state.activeUserLabel else store.state.activeUserId)
      ensures title == old(title) && currentUnmount == old(currentUnmount) && hash == old(hash)
    {
      var s := store.LoadState();
      if s.activeUserId == "" {
        redirect := Some("/index.html");
        return false;
      }
      activeUserText := if s.activeUserLabel != "" then s.activeUserLabel else s.activeUserId;
      ApplyModeGating();
      return true;
    }

    /** Page start-up: only a page with an active session renders, and it
        renders the route named by the hash. */
    method Start(detachThrows: bool) returns (rendered: bool)
      requires Valid()
      modifies this, navs, store, root
      ensures Valid()
      ensures store.Snapshot() == SessionState.Load(old(store.Snapshot()))
      ensures rendered <==> store.state.activeUserId != ""
      ensures hash == old(hash)
      ensures !rendered ==>
        && redirect == Some("/index.html")
        && title == old(title) && navs[..] == old(navs[..])
        && gating == old(gating) && activeUserText == old(activeUserText)
        && currentUnmount == old(currentUnmount)
        && root.page == old(root.page) && root.events == old(root.events)
      ensures rendered ==>
        && redirect == old(redirect)
        && gating == ModeGating(store.state)
        && activeUserText == (if store.state.activeUserLabel != ""
                              then store.state.activeUserLabel else store.state.activeUserId)
        && Shows(ResolveRoute(HashKey(hash), store.state.allowed), old(navs[..]), old(root.events), old(currentUnmount))
        && fresh(currentUnmount) && currentUnmount.throws == detachThrows
    {
      rendered := EnsureSession();
      if rendered {
        Render(HashKey(hash), detachThrows);
      }
    }

    /** A nav click renders the clicked key, then writes `#key` into the hash
        (even when the gate sent the page to carriers). */
    method OnNavClick(key: string, detachThrows: bool)
      requires Valid()
      modifies this, navs, root
      ensures Valid()
      ensures Shows(ResolveRoute(key, store.state.allowed), old(navs[..]), old(root.events), old(currentUnmount))
      ensures fresh(currentUnmount) && currentUnmount.throws == detachThrows
      ensures gating == old(gating) && activeUserText == old(activeUserText) && redirect == old(redirect)
      ensures hash == "#" + key && HashKey(hash) == key
    {
      Render(key, detachThrows);
      hash := "#" + key;
      HashRoundTrip(key);
    }

    method OnHashChange(detachThrows: bool)
      requires Valid()
      modifies this, navs, root
      ensures Valid()
      ensures Shows(ResolveRoute(HashKey(hash), store.state.allowed), old(navs[..]), old(root.events), old(currentUnmount))
      ensures fresh(currentUnmount) && currentUnmount.throws == detachThrows
      ensures gating == old(gating) && activeUserText == old(activeUserText) && redirect == old(redirect)
      ensures hash == old(hash)
    {
      Render(HashKey(hash), detachThrows);
    }

    /** Switching user tears the binder down first, then clears the state;
        the page itself is left as it is until the browser navigates away. */
    method OnSwitchUser()
      requires Valid()
      modifies this, binder, binder.sdk, store
      ensures Valid()
      ensures binder.embeddables == null && binder.boundUserId == ""
      ensures binder.sdk.calls == old(binder.sdk.calls) + Embeddables.DestroyCalls(old(binder.embeddables))
      ensures store.Snapshot() == SessionState.Clear(old(store.Snapshot()))
      ensures redirect == Some("/index.html")
      ensures title == old(title) && gating == old(gating) && activeUserText == old(activeUserText)
      ensures currentUnmount == old(currentUnmount) && hash == old(hash)
      ensures navs[..] == old(navs[..]) && root.page == old(root.page) && root.events == old(root.events)
    {
      binder.DestroyEmbeddables();
      var _ := store.ClearState();
      redirect := Some("/index.html");
    }

    /** Flips the theme flag, then hands the new appearance to the instance
        (when it has an `update`). */
    method OnToggleTheme()
      requires Valid()
      modifies binder.sdk, store
      ensures Valid()
      ensures store.Snapshot() ==
        SessionState.Save(old(store.Snapshot()), SessionState.Patch(None, None, None, None, Some(!old(store.state.dark))))
      ensures store.state == old(store.state).(dark := !old(store.state.dark))
      ensures binder.sdk.calls == old(binder.sdk.calls) +
        if binder.embeddables != null && binder.embeddables.hasUpdate
        then [Embeddables.UpdateCall(binder.embeddables, Embeddables.GetAppearance(!old(store.state.dark)))] else []
    {
      var s := store.GetState();
      var _ := store.SaveState(SessionState.Patch(None, None, None, None, Some(!s.dark)));
      binder.UpdateTheme();
    }
  }

  /** The theme toggle's patch keeps the store invariant. */
  lemma ThemePatchKeepsAllowed(dark: bool)
    ensures SessionState.KeepsAllowed(SessionState.Patch(None, None, None, None, Some(dark)))
  {
  }
}

/**
 * Session creation (`WAJsUtil.createSessionUtil`, src/util/waJsUtil.ts): a
 * record is inserted for an unknown name, a guard lets only a session with
 * no status or status CLOSED through, and the browser steps then either all
 * succeed, publishing a CONNECTED record with the page and the browser, or
 * one of them throws and the record is marked CLOSED.
 *
 * The browser, the file system and the page are an oracle naming the first
 * step that throws (if any) and the handles it hands out.
 */
module WAJsSession {
  import opened Wrappers
  import opened Json
  import opened SessionRegistry

  /** The awaited steps of `createSessionUtil` that can throw, in order. */
  datatype Stage =
    | PrepareLaunch    // reading the launch options and locating Chromium
    | Launch           // puppeteer.launch: afterwards `this.browser` is set
    | ListPages        // browser.pages(): afterwards `this.page` is set
    | ConfigurePage    // setViewport, setUserAgent
    | ReadScript       // resolving and reading the WA-JS bundle
    | Navigate         // page.goto
    | ProbeScript      // the final `typeof window.WPP` check and its diagnostics
    | CloseBlankTabs   // closing the other about:blank tabs
    | AwaitReady       // waitForFunction(WPP.isReady): afterwards the record is published
    | ExposeQrHandler  // exposeFunction('onQrCode')
    | WireQrEvent      // registering the conn.change.qr handler in the page

  function StageIndex(st: Stage): nat {
    match st
    case PrepareLaunch => 0
    case Launch => 1
    case ListPages => 2
    case ConfigurePage => 3
    case ReadScript => 4
    case Navigate => 5
    case ProbeScript => 6
    case CloseBlankTabs => 7
    case AwaitReady => 8
    case ExposeQrHandler => 9
    case WireQrEvent => 10
  }

  /** The browser's behaviour for one call: the first step that throws, and the handles it returns. */
  datatype BrowserOracle = BrowserOracle(failAt: Option<Stage>, browserId: nat, pageId: nat)

  /** Step `st` completed: no step threw, or the one that threw comes later. */
  predicate Passed(o: BrowserOracle, st: Stage) {
    o.failAt.None? || StageIndex(st) < StageIndex(o.failAt.value)
  }

  /** The shared registry together with the utility's `browser` and `page` fields. */
  datatype Lifecycle = Lifecycle(clients: map<string, Client>, browser: Option<nat>, page: Option<Page>)

  /** The guard: a status that is present and not CLOSED means the session is already initializing or connected. */
  predicate Busy(c: Client) {
    c.status.Some? && c.status.value != CLOSED
  }

  /** The registry after the record for an unknown name is inserted. */
  function WithRecord(clients: map<string, Client>, session: string): (r: map<string, Client>)
    ensures session in r
    ensures session in clients ==> r == clients
    ensures session !in clients ==> r[session] == FreshClient(session)
    ensures session !in clients ==> r - {session} == clients
  {
    if session in clients then clients else clients[session := FreshClient(session)]
  }

  /**
   * The browser steps from the INITIALIZING record on: the handles are set
   * as their steps complete, the record is republished CONNECTED once the
   * page is ready, and any throw marks it CLOSED.
   */
  function AfterSteps(l: Lifecycle, session: string, o: BrowserOracle): Lifecycle
    requires session in l.clients
  {
    var c := l.clients[session];
    var browser := if Passed(o, Launch) then Some(o.browserId) else l.browser;
    var page := if Passed(o, ListPages) then Some(Page(o.pageId, true)) else l.page;
    var published := if Passed(o, AwaitReady) then Client(session, Some(CONNECTED), c.config, page, browser) else c;
    var final := if o.failAt.None? then published else published.(status := Some(CLOSED));
    Lifecycle(l.clients[session := final], browser, page)
  }

  /**
   * The state after `createSessionUtil(req, session)` with `req.body ==
   * body`: the outcome of the whole sequence, described by which steps
   * completed rather than step by step.
   */
  function AfterCreate(l: Lifecycle, body: Json, session: string, o: BrowserOracle): Lifecycle {
    var clients := WithRecord(l.clients, session);
    var c := clients[session];
    if Busy(c) then l.(clients := clients)
    else AfterSteps(Lifecycle(clients[session := c.(status := Some(INITIALIZING), config := body)], l.browser, l.page), session, o)
  }

  class WAJsUtil {
    var browser: Option<nat>
    var page: Option<Page>
    const registry: Registry

    constructor(registry: Registry)
      ensures this.registry == registry && browser.None? && page.None?
    {
      this.registry := registry;
      browser, page := None, None;
    }

    function Snapshot(): Lifecycle
      reads this, registry
    {
      Lifecycle(registry.clients, browser, page)
    }

    /** `getClient(session)`. */
    function GetClient(session: string): (r: Option<Client>)
      reads this, registry
      ensures r == Lookup(registry.clients, session)
    {
      registry.GetClient(session)
    }

    /** The `catch` block: the record, if any, gets status CLOSED; nothing else is released. */
    method MarkClosed(session: string)
      modifies registry
      ensures session in old(registry.clients) ==>
                registry.clients == old(registry.clients)[session := old(registry.clients)[session].(status := Some(CLOSED))]
      ensures session !in old(registry.clients) ==> registry.clients == old(registry.clients)
    {
      var c := GetClient(session);
      if c.Some? {
        registry.clients := registry.clients[session := c.value.(status := Some(CLOSED))];
      }
    }

    method CreateSessionUtil(body: Json, session: string, o: BrowserOracle)
      modifies this, registry
      ensures Snapshot() == AfterCreate(old(Snapshot()), body, session, o)
    {
      var found := GetClient(session);
      var client: Client;
      if found.None? {
        client := FreshClient(session);
        registry.clients := registry.clients[session := client];
      } else {
        client := found.value;
      }
      if client.status.Some? && client.status.value != CLOSED {
        return;
      }
      client := client.(status := Some(INITIALIZING), config := body);
      registry.clients := registry.clients[session := client];
      BrowserSteps(session, o);
    }

    /** From `puppeteer.launch` to the in-page QR registration, inside the `try`. */
    method BrowserSteps(session: string, o: BrowserOracle)
      requires session in registry.clients
      modifies this, registry
      ensures Snapshot() == AfterSteps(old(Snapshot()), session, o)
    {
      if o.failAt == Some(PrepareLaunch) || o.failAt == Some(Launch) {
        MarkClosed(session);
        return;
      }
      browser := Some(o.browserId);
      if o.failAt == Some(ListPages) {
        MarkClosed(session);
        return;
      }
      page := Some(Page(o.pageId, true));
      if o.failAt.Some? && StageIndex(o.failAt.value) <= StageIndex(AwaitReady) {
        // setViewport through waitForFunction
        MarkClosed(session);
        return;
      }
      var client := Client(session, Some(CONNECTED), registry.clients[session].config, page, browser);
      registry.clients := registry.clients[session := client];
      if o.failAt.Some? {
        // exposeFunction or the in-page registration
        MarkClosed(session);
        return;
      }
    }
  }

  // ---------------------------------------------------------------------
  // Lemmas

  lemma StatusesDistinct()
    ensures CLOSED != CONNECTED && CLOSED != INITIALIZING && CONNECTED != INITIALIZING
  {
    assert CLOSED[1] == 'L' && CONNECTED[1] == 'O' && INITIALIZING[0] == 'I' && CLOSED[0] == 'C';
  }

  /** A session that is initializing or connected is left exactly as it was. */
  lemma BusyIsNoOp(l: Lifecycle, body: Json, session: string, o: BrowserOracle)
    requires session in l.clients && Busy(l.clients[session])
    ensures AfterCreate(l, body, session, o) == l
  {
  }

  /** An unknown name first gets a CLOSED record with an empty configuration, so it always passes the guard. */
  lemma UnknownSessionPassesGuard(l: Lifecycle, session: string)
    requires session !in l.clients
    ensures WithRecord(l.clients, session)[session] == Client(session, Some(CLOSED), EmptyObject, None, None)
    ensures !Busy(WithRecord(l.clients, session)[session])
  {
  }

  /**
   * On the guarded path the record ends CONNECTED exactly when no step
   * threw and CLOSED exactly when one did: never INITIALIZING. The
   * configuration is the request body either way.
   */
  lemma GuardedOutcome(l: Lifecycle, body: Json, session: string, o: BrowserOracle)
    requires !Busy(WithRecord(l.clients, session)[session])
    ensures var r := AfterCreate(l, body, session, o).clients[session];
            && (r.status == Some(CONNECTED) <==> o.failAt.None?)
            && (r.status == Some(CLOSED) <==> o.failAt.Some?)
            && r.status != Some(INITIALIZING)
            && r.config == body
  {
    StatusesDistinct();
  }

  /** A successful creation leaves the page and the browser it opened in the record. */
  lemma ConnectedRecordHoldsHandles(l: Lifecycle, body: Json, session: string, o: BrowserOracle)
    requires !Busy(WithRecord(l.clients, session)[session]) && o.failAt.None?
    ensures AfterCreate(l, body, session, o).clients[session] ==
              Client(session, Some(CONNECTED), body, Some(Page(o.pageId, true)), Some(o.browserId))
  {
  }

  /** Creating after a success is a no-op: the second call meets a CONNECTED record. */
  lemma CreateIdempotent(l: Lifecycle, body: Json, body2: Json, session: string, o: BrowserOracle, o2: BrowserOracle)
    requires o.failAt.None?
    ensures var once := AfterCreate(l, body, session, o);
            AfterCreate(once, body2, session, o2) == once
  {
    var once := AfterCreate(l, body, session, o);
    if !Busy(WithRecord(l.clients, session)[session]) {
      GuardedOutcome(l, body, session, o);
    }
    assert Busy(once.clients[session]);
  }

  /** After a failure the session can be created again: the CLOSED record passes the guard. */
  lemma RetryAfterFailure(l: Lifecycle, body: Json, session: string, o: BrowserOracle)
    requires !Busy(WithRecord(l.clients, session)[session]) && o.failAt.Some?
    ensures !Busy(AfterCreate(l, body, session, o).clients[session])
  {
  }

  /** No other session's record is touched, and the call's own name is present afterwards. */
  lemma OthersUntouched(l: Lifecycle, body: Json, session: string, o: BrowserOracle, other: string)
    requires other != session
    ensures session in AfterCreate(l, body, session, o).clients
    ensures other in AfterCreate(l, body, session, o).clients <==> other in l.clients
    ensures other in l.clients ==> AfterCreate(l, body, session, o).clients[other] == l.clients[other]
  {
  }

  /**
   * Read after write for `getClient`: after a creation the session is found,
   * every other name reads as before, and a creation that got past the guard
   * and did not fail leaves a CONNECTED record with a page.
   */
  lemma LookupAfterCreate(l: Lifecycle, body: Json, session: string, o: BrowserOracle, other: string)
    requires other != session
    ensures Lookup(AfterCreate(l, body, session, o).clients, session).Some?
    ensures Lookup(AfterCreate(l, body, session, o).clients, other) == Lookup(l.clients, other)
    ensures !Busy(WithRecord(l.clients, session)[session]) && o.failAt.None? ==>
              var r := Lookup(AfterCreate(l, body, session, o).clients, session).value;
              r.status == Some(CONNECTED) && r.page.Some?
  {
    OthersUntouched(l, body, session, o, other);
    if !Busy(WithRecord(l.clients, session)[session]) && o.failAt.None? {
      ConnectedRecordHoldsHandles(l, body, session, o);
    }
  }

  /**
   * A step failing after the record was published leaves a CLOSED record
   * that still holds the page and the browser: nothing is released.
   */
  lemma LateFailureKeepsHandles(l: Lifecycle, body: Json, session: string, o: BrowserOracle)
    requires !Busy(WithRecord(l.clients, session)[session])
    requires o.failAt == Some(ExposeQrHandler) || o.failAt == Some(WireQrEvent)
    ensures AfterCreate(l, body, session, o).clients[session] ==
              Client(session, Some(CLOSED), body, Some(Page(o.pageId, true)), Some(o.browserId))
    ensures AfterCreate(l, body, session, o).browser == Some(o.browserId)
  {
  }

  /** A failure before the launch completes leaves the utility's handles as they were. */
  lemma EarlyFailureKeepsFields(l: Lifecycle, body: Json, session: string, o: BrowserOracle)
    requires o.failAt == Some(PrepareLaunch) || o.failAt == Some(Launch)
    ensures AfterCreate(l, body, session, o).browser == l.browser
    ensures AfterCreate(l, body, session, o).page == l.page
  {
  }

  /**
   * A latent property of the class: its `page` field is per object, not per
   * session, so creating a second session through the same object
   * overwrites it, while the first session's record keeps its own page.
   * The controllers and middlewares build a new object for each request,
   * so no caller creates two sessions through one object.
   */
  lemma HandlesShared(l: Lifecycle, a: string, b: string, body: Json, oa: BrowserOracle, ob: BrowserOracle)
    requires a != b && oa.failAt.None? && ob.failAt.None? && oa.pageId != ob.pageId
    requires !Busy(WithRecord(l.clients, a)[a])
    requires !Busy(WithRecord(AfterCreate(l, body, a, oa).clients, b)[b])
    ensures var l2 := AfterCreate(AfterCreate(l, body, a, oa), body, b, ob);
            && l2.page == Some(Page(ob.pageId, true))
            && l2.clients[a].page == Some(Page(oa.pageId, true))
  {
    var l1 := AfterCreate(l, body, a, oa);
    ConnectedRecordHoldsHandles(l, body, a, oa);
    OthersUntouched(l1, body, b, ob, a);
  }
}

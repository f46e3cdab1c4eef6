/**
 * The process-wide registry `clientsArray`: a dictionary from session name to
 * the session's record, shared by the WA-JS utility, the middlewares and the
 * session management functions.
 */
module SessionRegistry {
  import opened Wrappers
  import opened Json

  const CLOSED := "CLOSED"
  const INITIALIZING := "INITIALIZING"
  const CONNECTED := "CONNECTED"

  /** A browser page handle; `hasBrowser` says whether it exposes `page.browser`. */
  datatype Page = Page(id: nat, hasBrowser: bool)

  /**
   * A session record. `status` is None where the record carries no status
   * (`null`/`undefined`); `browser` is the handle of the browser process.
   */
  datatype Client = Client(
    session: string,
    status: Option<string>,
    config: Json,
    page: Option<Page>,
    browser: Option<nat>)

  /** JavaScript truthiness of `client.status`: present and not the empty string. */
  predicate StatusTruthy(c: Client) {
    c.status.Some? && c.status.value != ""
  }

  /** The record `createSessionUtil` inserts for a name it has never seen. */
  function FreshClient(session: string): (c: Client)
    ensures c.session == session && c.status == Some(CLOSED)
    ensures c.config == EmptyObject && c.page.None? && c.browser.None?
  {
    Client(session, Some(CLOSED), EmptyObject, None, None)
  }

  /** `clientsArray[session]`, None for `undefined`. */
  function Lookup(clients: map<string, Client>, session: string): (r: Option<Client>)
    ensures r.Some? <==> session in clients
    ensures r.Some? ==> r.value == clients[session]
  {
    if session in clients then Some(clients[session]) else None
  }

  class Registry {
    var clients: map<string, Client>

    constructor()
      ensures clients == map[]
    {
      clients := map[];
    }

    /** `getClient(session)`: a lookup that never creates a record. */
    function GetClient(session: string): (r: Option<Client>)
      reads this
      ensures r == Lookup(clients, session)
    {
      Lookup(clients, session)
    }
  }
}

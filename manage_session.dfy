/**
 * The registry side of session management (src/util/manageSession.ts):
 * `closeAllSessions` removes every listed session from the registry and asks
 * the browsers of the removed records to close; `restoreSessions` refuses
 * anything but a zip upload before closing anything.
 *
 * The token listing (`getAllTokens`) and the outcome of each browser close
 * are parameters; archive streaming and the file copies are not modelled.
 */
module ManageSession {
  import opened Wrappers
  import opened Text
  import opened SessionRegistry

  /** A close of the browser behind a removed record, in the order the loop asked for them. */
  datatype CloseRequest = CloseRequest(session: string, page: Page)

  /** The close condition: truthy status and a page exposing its browser. */
  predicate WantsClose(c: Client) {
    StatusTruthy(c) && c.page.Some? && c.page.value.hasBrowser
  }

  /** The names of a listing, as a set. */
  function Listed(names: seq<string>): set<string> {
    set n | n in names
  }

  /**
   * The closes asked for while walking `names` over `clients`: a present
   * name is removed at once, so a repeated name finds nothing the second
   * time.
   */
  function CloseRequests(clients: map<string, Client>, names: seq<string>): seq<CloseRequest>
    decreases |names|
  {
    if |names| == 0 then []
    else
      var n := names[0];
      if n in clients then
        (if WantsClose(clients[n]) then [CloseRequest(n, clients[n].page.value)] else [])
        + CloseRequests(clients - {n}, names[1..])
      else CloseRequests(clients, names[1..])
  }

  /** `'Not was possible stop session: ' + session` for each close that fails. */
  function CloseErrors(requests: seq<CloseRequest>, closeFails: Page -> bool): seq<string> {
    if |requests| == 0 then []
    else
      (if closeFails(requests[0].page) then ["Not was possible stop session: " + requests[0].session] else [])
      + CloseErrors(requests[1..], closeFails)
  }

  /**
   * `closeAllSessions`: every listed name is deleted from the registry
   * before its browser is asked to close, so a failing close leaves it
   * deleted; names not listed keep their records.
   */
  method CloseAllSessions(registry: Registry, names: seq<string>, closeFails: Page -> bool)
    returns (requests: seq<CloseRequest>, errors: seq<string>)
    modifies registry
    ensures registry.clients == old(registry.clients) - Listed(names)
    ensures requests == CloseRequests(old(registry.clients), names)
    ensures errors == CloseErrors(requests, closeFails)
  {
    ghost var original := registry.clients;
    requests := [];
    var i := 0;
    while i < |names|
      invariant 0 <= i <= |names|
      invariant registry.clients == original - Listed(names[..i])
      invariant requests + CloseRequests(registry.clients, names[i..]) == CloseRequests(original, names)
    {
      var session := names[i];
      var client := registry.GetClient(session);
      assert names[i..][0] == session && names[i..][1..] == names[i + 1..];
      if client.Some? {
        registry.clients := registry.clients - {session};
        if StatusTruthy(client.value) && client.value.page.Some? && client.value.page.value.hasBrowser {
          requests := requests + [CloseRequest(session, client.value.page.value)];
        }
      }
      assert Listed(names[..i + 1]) == Listed(names[..i]) + {session} by {
        assert names[..i + 1] == names[..i] + [session];
      }
      i := i + 1;
    }
    assert names[..i] == names;
    // the closes settle after the loop; each failure is logged
    errors := CloseErrors(requests, closeFails);
  }

  // ---- restoreSessions ----

  /** An uploaded file as multer describes it. */
  datatype Upload = Upload(mimetype: Option<string>, path: string)

  datatype RestoreReply = RestoreRefused(message: string) | RestoreStarted

  /** The guard `file?.mimetype?.includes('zip')`. */
  predicate IsZipUpload(file: Option<Upload>) {
    file.Some? && file.value.mimetype.Some? && Contains(file.value.mimetype.value, "zip")
  }

  /**
   * `restoreSessions` up to the extraction: a non-zip upload throws before
   * any session is closed; otherwise all listed sessions are removed, the
   * closes of their browsers are requested, and the extraction is started.
   */
  method RestoreSessions(registry: Registry, file: Option<Upload>, names: seq<string>, closeFails: Page -> bool)
    returns (r: RestoreReply, requests: seq<CloseRequest>)
    modifies registry
    ensures !IsZipUpload(file) <==> r == RestoreRefused("Please, send zipped file")
    ensures !IsZipUpload(file) ==> registry.clients == old(registry.clients) && requests == []
    ensures IsZipUpload(file) ==> r == RestoreStarted && registry.clients == old(registry.clients) - Listed(names)
    ensures IsZipUpload(file) ==> requests == CloseRequests(old(registry.clients), names)
  {
    if !IsZipUpload(file) {
      return RestoreRefused("Please, send zipped file"), [];
    }
    var errors;
    requests, errors := CloseAllSessions(registry, names, closeFails);
    return RestoreStarted, requests;
  }

  // ---- lemmas ----

  /** Read after write for `getClient`: a listed name is gone afterwards, and every other name reads as before. */
  lemma LookupAfterClose(clients: map<string, Client>, names: seq<string>, n: string)
    ensures Lookup(clients - Listed(names), n) == if n in names then None else Lookup(clients, n)
  {
  }

  /** Every close request is for a listed name whose record was present and qualified; none is for a name twice. */
  lemma {:induction false} CloseRequestsSound(clients: map<string, Client>, names: seq<string>)
    ensures forall k :: 0 <= k < |CloseRequests(clients, names)| ==>
              var q := CloseRequests(clients, names)[k];
              q.session in names && q.session in clients && WantsClose(clients[q.session])
              && clients[q.session].page == Some(q.page)
    ensures forall j, k :: 0 <= j < k < |CloseRequests(clients, names)| ==>
              CloseRequests(clients, names)[j].session != CloseRequests(clients, names)[k].session
    decreases |names|
  {
    if |names| > 0 {
      var n := names[0];
      if n in clients {
        var rest := clients - {n};
        CloseRequestsSound(rest, names[1..]);
        var tail := CloseRequests(rest, names[1..]);
        assert forall k :: 0 <= k < |tail| ==> tail[k].session in rest;
      } else {
        CloseRequestsSound(clients, names[1..]);
      }
    }
  }

  /** Every listed, present record that qualifies gets a close request. */
  lemma {:induction false} CloseRequestsComplete(clients: map<string, Client>, names: seq<string>, n: string)
    requires n in names && n in clients && WantsClose(clients[n])
    ensures exists k :: 0 <= k < |CloseRequests(clients, names)| && CloseRequests(clients, names)[k] == CloseRequest(n, clients[n].page.value)
    decreases |names|
  {
    var m := names[0];
    var reqs := CloseRequests(clients, names);
    if m == n {
      assert reqs[0] == CloseRequest(n, clients[n].page.value);
    } else {
      assert n in names[1..];
      if m in clients {
        var rest := clients - {m};
        CloseRequestsComplete(rest, names[1..], n);
        var tail := CloseRequests(rest, names[1..]);
        var k :| 0 <= k < |tail| && tail[k] == CloseRequest(n, rest[n].page.value);
        var head := if WantsClose(clients[m]) then [CloseRequest(m, clients[m].page.value)] else [];
        assert reqs[|head| + k] == tail[k];
      } else {
        CloseRequestsComplete(clients, names[1..], n);
      }
    }
  }

  /** A record that does not qualify (falsy status, or no page with a browser) is removed without a close. */
  lemma {:induction false} NoCloseWithoutBrowser(clients: map<string, Client>, names: seq<string>, n: string)
    requires n in clients && !WantsClose(clients[n])
    ensures forall k :: 0 <= k < |CloseRequests(clients, names)| ==> CloseRequests(clients, names)[k].session != n
  {
    CloseRequestsSound(clients, names);
  }
}

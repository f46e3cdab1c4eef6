/**
 * The `statusConnection` middleware (src/middleware/statusConnection.ts).
 * Requests for the WA-JS routes are gated on the session's record in the
 * registry; other requests go through the older check, which verifies every
 * destination number with the request's client.
 *
 * `contactToArray` (src/util/functions.ts) and the older client's
 * `checkNumberStatus` are parameters.
 */
module StatusConnection {
  import opened Wrappers
  import opened Text
  import opened Json
  import opened SessionRegistry

  /** The gate applies exactly to paths containing one of the four WA-JS route names. */
  predicate IsWAJsRoute(path: string) {
    Contains(path, "/all-chats") || Contains(path, "/all-contacts")
    || Contains(path, "/send-message") || Contains(path, "/execute-script")
  }

  /** A JSON answer `{ response: null, status, message }` with its status code. */
  datatype Reply = Reply(code: nat, status: string, message: string)

  const SESSION_REQUIRED := Reply(400, "Error", "Session parameter is required.")
  const DISCONNECTED := Reply(404, "Disconnected", "A sessão do WhatsApp não está ativa.")

  /**
   * What the middleware did: the answer sent (the first one; Express refuses
   * a second), whether `next()` was called, the request body afterwards,
   * and whether an error escaped the middleware.
   */
  datatype Outcome = Outcome(reply: Option<Reply>, nextCalled: bool, body: Option<Json>, escaped: bool)

  /** JavaScript truthiness of a JSON value that may be `undefined`. */
  predicate Truthy(j: Option<Json>) {
    match j
    case None => false
    case Some(v) =>
      match v
      case JNull => false
      case JBool(b) => b
      case JNum(n) => n != 0
      case JStr(s) => s != ""
      case JArr(_) => true
      case JObj(_) => true
  }

  /** `body.name`, `undefined` when the body is not an object or lacks the member. */
  function Field(body: Option<Json>, name: string): (r: Option<Json>)
    ensures r.Some? <==> body.Some? && body.value.JObj? && name in body.value.fields
  {
    if body.Some? && body.value.JObj? && name in body.value.fields then Some(body.value.fields[name]) else None
  }

  /** `body.name = v` on an object body. */
  function SetField(body: Option<Json>, name: string, v: Json): (r: Option<Json>)
    ensures body.Some? && body.value.JObj? ==> Field(r, name) == Some(v)
    ensures forall other :: other != name ==> Field(r, other) == Field(body, other)
  {
    if body.Some? && body.value.JObj? then Some(JObj(body.value.fields[name := v])) else body
  }

  /** `contactToArray(numbers, isGroup, isNewsletter, isLid)`. */
  type ContactToArray = (Json, Option<Json>, Option<Json>, Option<Json>) -> seq<string>

  /** The list of numbers the middleware builds from `value` and the body's flags. */
  function Contacts(contactToArray: ContactToArray, value: Option<Json>, body: Option<Json>): seq<string> {
    contactToArray(value.GetOr(JArr([])), Field(body, "isGroup"), Field(body, "isNewsletter"), Field(body, "isLid"))
  }

  /**
   * The WA-JS gate: a missing session is a 400 and an absent or CLOSED
   * record a 404, neither calling `next`; any other record, whatever its
   * status, calls `next` once, after replacing `body.phone` by the number
   * list when `body.to` is set.
   */
  function WAJsGate(session: Option<string>, clients: map<string, Client>, body: Option<Json>,
                    contactToArray: ContactToArray): (r: Outcome)
    ensures !r.escaped
    ensures r.nextCalled <==> r.reply.None?
    ensures (session.None? || session.value == "") <==> r.reply == Some(SESSION_REQUIRED)
    ensures r.reply == Some(DISCONNECTED) <==>
              session.Some? && session.value != "" &&
              (session.value !in clients || clients[session.value].status == Some(CLOSED))
    ensures r.nextCalled && Truthy(Field(body, "to")) ==>
              r.body == SetField(body, "phone", JArr(Strings(Contacts(contactToArray, Field(body, "to"), body))))
    ensures !(r.nextCalled && Truthy(Field(body, "to"))) ==> r.body == body
  {
    if session.None? || session.value == "" then Outcome(Some(SESSION_REQUIRED), false, body, false)
    else
      match Lookup(clients, session.value)
      case None => Outcome(Some(DISCONNECTED), false, body, false)
      case Some(c) =>
        if c.status == Some(CLOSED) then Outcome(Some(DISCONNECTED), false, body, false)
        else if Truthy(Field(body, "to")) then
          var numbers := Contacts(contactToArray, Field(body, "to"), body);
          Outcome(None, true, SetField(body, "phone", JArr(Strings(numbers))), false)
        else Outcome(None, true, body, false)
  }

  // ---------------------------------------------------------------------
  // The older path, for a request whose client has `isConnected`

  /** What `checkNumberStatus` resolves with; None when it rejects (the rejection is logged and yields `undefined`). */
  datatype Profile = Profile(numberExists: bool, serialized: string)

  /** The request's older client: whether `isConnected()` rejects, and its number lookup. */
  datatype LegacyClient = LegacyClient(isConnectedFails: bool, checkNumberStatus: string -> Option<Profile>)

  predicate NumberMissing(contact: string, skip: bool, check: string -> Option<Profile>) {
    !skip && (check(contact).None? || !check(contact).value.numberExists)
  }

  /** The entry after the check: the serialised id of an existing number, else the number as given. */
  function CheckedContact(contact: string, skip: bool, check: string -> Option<Profile>): string {
    if NumberMissing(contact, skip, check) || skip then contact else check(contact).value.serialized
  }

  /** `contact.split('@')[0]`, the number shown in the 400 message. */
  function NumberOf(contact: string): string {
    Split(contact, '@')[0]
  }

  /** The numbers of the missing contacts, in order. */
  function MissingNumbers(contacts: seq<string>, skip: bool, check: string -> Option<Profile>): (r: seq<string>)
    ensures skip ==> r == []
    ensures |r| <= |contacts|
    decreases |contacts|
  {
    if |contacts| == 0 then []
    else
      var last := contacts[|contacts| - 1];
      MissingNumbers(contacts[..|contacts| - 1], skip, check) +
        (if NumberMissing(last, skip, check) then [NumberOf(last)] else [])
  }

  /**
   * The `for ... of` loop with its `index` counter: every entry is checked
   * in place; the result lists the numbers that would be answered with 400,
   * in order.
   */
  method CheckNumbers(localArr: array<string>, skip: bool, check: string -> Option<Profile>)
    returns (missing: seq<string>)
    modifies localArr
    ensures forall i :: 0 <= i < localArr.Length ==> localArr[i] == CheckedContact(old(localArr[i]), skip, check)
    ensures missing == MissingNumbers(old(localArr[..]), skip, check)
  {
    ghost var original := localArr[..];
    missing := [];
    var index := 0;
    while index < localArr.Length
      invariant 0 <= index <= localArr.Length
      invariant forall i :: 0 <= i < index ==> localArr[i] == CheckedContact(original[i], skip, check)
      invariant forall i :: index <= i < localArr.Length ==> localArr[i] == original[i]
      invariant missing == MissingNumbers(original[..index], skip, check)
    {
      var contact := localArr[index];
      if skip {
        localArr[index] := contact;
      } else {
        var profile := check(contact);
        if profile.None? || !profile.value.numberExists {
          missing := missing + [NumberOf(contact)];
        } else {
          localArr[index] := profile.value.serialized;
        }
      }
      assert original[..index + 1][..index] == original[..index];
      index := index + 1;
    }
    assert original[..index] == original;
  }

  function MissingReply(number: string): Reply {
    Reply(400, "Connected", "O número " + number + " não existe.")
  }

  function CheckedContacts(contacts: seq<string>, skip: bool, check: string -> Option<Profile>): (r: seq<string>)
    ensures |r| == |contacts|
    ensures forall i :: 0 <= i < |contacts| ==> r[i] == CheckedContact(contacts[i], skip, check)
  {
    seq(|contacts|, i requires 0 <= i < |contacts| => CheckedContact(contacts[i], skip, check))
  }

  /** `contactToArray(req.body.phone || [], ...)`: the numbers the older path checks. */
  function LegacyContacts(body: Option<Json>, contactToArray: ContactToArray): seq<string> {
    var phone := Field(body, "phone");
    Contacts(contactToArray, if Truthy(phone) then phone else None, body)
  }

  /** Groups and newsletters are not checked. */
  predicate LegacySkip(body: Option<Json>) {
    Truthy(Field(body, "isGroup")) || Truthy(Field(body, "isNewsletter"))
  }

  /**
   * The older path. Without a client having `isConnected` the answer is 404
   * and `next` is still called. Otherwise each missing number is answered
   * with 400 and `next` is still called afterwards; a second missing number
   * makes the second answer throw, and the 404 of the `catch` throws too,
   * so the error escapes with the first 400 sent and `next` not called.
   */
  function LegacyCheck(legacy: Option<LegacyClient>, body: Option<Json>, contactToArray: ContactToArray): Outcome {
    match legacy
    case None => Outcome(Some(DISCONNECTED), true, body, false)
    case Some(client) =>
      if client.isConnectedFails || body.None? then Outcome(Some(DISCONNECTED), false, body, false)
      else
        var contacts := LegacyContacts(body, contactToArray);
        var skip := LegacySkip(body);
        var missing := MissingNumbers(contacts, skip, client.checkNumberStatus);
        var checked := CheckedContacts(contacts, skip, client.checkNumberStatus);
        if |missing| >= 2 then Outcome(Some(MissingReply(missing[0])), false, body, true)
        else
          Outcome(if |missing| == 1 then Some(MissingReply(missing[0])) else None, true,
                  SetField(body, "phone", JArr(Strings(checked))), false)
  }

  /** The whole middleware. */
  function StatusConnection(path: string, session: Option<string>, clients: map<string, Client>,
                            body: Option<Json>, legacy: Option<LegacyClient>,
                            contactToArray: ContactToArray): Outcome {
    if IsWAJsRoute(path) then WAJsGate(session, clients, body, contactToArray)
    else LegacyCheck(legacy, body, contactToArray)
  }

  /** The middleware as it runs: the older path builds `localArr` and checks it in place. */
  method RunStatusConnection(path: string, session: Option<string>, registry: Registry,
                             body: Option<Json>, legacy: Option<LegacyClient>,
                             contactToArray: ContactToArray)
    returns (r: Outcome)
    ensures r == StatusConnection(path, session, registry.clients, body, legacy, contactToArray)
  {
    if IsWAJsRoute(path) {
      return WAJsGate(session, registry.clients, body, contactToArray);
    }
    if legacy.None? {
      return Outcome(Some(DISCONNECTED), true, body, false);
    }
    var client := legacy.value;
    if client.isConnectedFails || body.None? {
      return Outcome(Some(DISCONNECTED), false, body, false);
    }
    var contacts := LegacyContacts(body, contactToArray);
    var localArr := new string[|contacts|](i requires 0 <= i < |contacts| => contacts[i]);
    assert localArr[..] == contacts;
    var skip := LegacySkip(body);
    var missing := CheckNumbers(localArr, skip, client.checkNumberStatus);
    assert localArr[..] == CheckedContacts(contacts, skip, client.checkNumberStatus);
    if |missing| >= 2 {
      return Outcome(Some(MissingReply(missing[0])), false, body, true);
    }
    var reply := if |missing| == 1 then Some(MissingReply(missing[0])) else None;
    return Outcome(reply, true, SetField(body, "phone", JArr(Strings(localArr[..]))), false);
  }

  // ---------------------------------------------------------------------
  // Lemmas

  /** Each of the four route names marks a WA-JS route wherever it occurs in the path. */
  lemma RouteNamesClassified(prefix: string, name: string, suffix: string)
    requires name in ["/all-chats", "/all-contacts", "/send-message", "/execute-script"]
    ensures IsWAJsRoute(prefix + name + suffix)
  {
    var p := prefix + name + suffix;
    assert p[|prefix|..][..|name|] == name;
    assert StartsWith(p[|prefix|..], name);
  }

  /** An INITIALIZING record passes the gate: only an absent or CLOSED record is turned away. */
  lemma InitializingPasses(session: string, clients: map<string, Client>, body: Option<Json>,
                           contactToArray: ContactToArray)
    requires session != "" && session in clients && clients[session].status == Some(INITIALIZING)
    ensures WAJsGate(Some(session), clients, body, contactToArray).nextCalled
  {
    assert INITIALIZING[0] != CLOSED[0];
  }

  /** The older path with no suitable client still calls `next` after its 404. */
  lemma FallbackCallsNext(body: Option<Json>, contactToArray: ContactToArray)
    ensures LegacyCheck(None, body, contactToArray) == Outcome(Some(DISCONNECTED), true, body, false)
  {
  }

  /** A group or newsletter send skips the check: no 400, the list kept as built. */
  lemma GroupSkipsCheck(contacts: seq<string>, check: string -> Option<Profile>)
    ensures MissingNumbers(contacts, true, check) == []
    ensures CheckedContacts(contacts, true, check) == contacts
  {
  }

  /** One 400 per contact whose lookup failed or said the number does not exist: the count of reported numbers is the count of such contacts. */
  lemma {:induction false} MissingExactly(contacts: seq<string>, skip: bool, check: string -> Option<Profile>)
    ensures |MissingNumbers(contacts, skip, check)| == |set i | 0 <= i < |contacts| && NumberMissing(contacts[i], skip, check)|
    decreases |contacts|
  {
    if |contacts| > 0 {
      var init := contacts[..|contacts| - 1];
      MissingExactly(init, skip, check);
      var n := |contacts| - 1;
      var all := set i | 0 <= i < |contacts| && NumberMissing(contacts[i], skip, check);
      var part := set i | 0 <= i < |init| && NumberMissing(init[i], skip, check);
      if NumberMissing(contacts[n], skip, check) {
        assert all == part + {n};
      } else {
        assert all == part;
      }
    }
  }

  /**
   * A connected client: no missing number means no answer, one means its
   * 400 and a call to `next` anyway, two or more an escaped error after the
   * first 400. Whenever `next` is called, `phone` holds the checked numbers.
   */
  lemma LegacyCheckOutcome(client: LegacyClient, body: Option<Json>, contactToArray: ContactToArray)
    requires !client.isConnectedFails && body.Some?
    ensures var o := LegacyCheck(Some(client), body, contactToArray);
            var contacts := LegacyContacts(body, contactToArray);
            var missing := MissingNumbers(contacts, LegacySkip(body), client.checkNumberStatus);
            && (o.reply.None? <==> |missing| == 0)
            && (|missing| > 0 ==> o.reply == Some(MissingReply(missing[0])))
            && (o.nextCalled <==> |missing| <= 1)
            && (o.escaped <==> |missing| >= 2)
            && (o.nextCalled && body.value.JObj? ==>
                  Field(o.body, "phone") == Some(JArr(Strings(CheckedContacts(contacts, LegacySkip(body), client.checkNumberStatus)))))
  {
  }
}

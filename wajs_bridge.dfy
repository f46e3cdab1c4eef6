/**
 * The call bridge of `executeWAJsFunction` (src/util/waJsUtil.ts): a function
 * of the in-page WA-JS API, named by a dot-separated path, is called inside
 * the browser page; the page writes the outcome to its console as a tagged
 * line, and a console listener on the server side picks the line up and
 * settles the caller's promise, racing a timer.
 *
 * The page's namespace, the called function's behaviour, JSON and the order
 * in which console lines and the timer arrive are inputs of the model.
 */
module WAJsBridge {
  import opened Wrappers
  import opened Text
  import opened Json
  import opened SessionRegistry

  // ---------------------------------------------------------------------
  // The in-page namespace `window.WPP`

  /**
   * A value reachable from `window.WPP`: an object with named members, a
   * function (identified by `id`), or anything else (`undefined`, `null`, a
   * boolean such as `isReady`, a string, ...).
   */
  datatype Member = Namespace(members: map<string, Member>) | Function(id: nat) | Plain

  datatype Resolution = NotFound | NotCallable | Callable(id: nat)

  /** Walking a path of member names: a step succeeds only on an object that has the member. */
  function Walk(v: Member, path: seq<string>): Option<Member>
    decreases |path|
  {
    if |path| == 0 then Some(v)
    else if v.Namespace? && path[0] in v.members then Walk(v.members[path[0]], path[1..])
    else None
  }

  /** Resolution of `fn` from `window.WPP`: a missing step is "not found", a final non-function "not callable". */
  function Resolve(root: Member, fn: string): Resolution {
    match Walk(root, Split(fn, '.'))
    case None => NotFound
    case Some(Function(id)) => Callable(id)
    case Some(_) => NotCallable
  }

  /** The in-page loop that walks `fn.split('.')`, reassigning the current value. */
  method ResolvePath(root: Member, fn: string) returns (r: Resolution)
    ensures r == Resolve(root, fn)
    ensures r.Callable? ==> Walk(root, Split(fn, '.')) == Some(Function(r.id))
  {
    var segments := Split(fn, '.');
    var current := root;
    var i := 0;
    while i < |segments|
      invariant 0 <= i <= |segments|
      invariant Walk(root, segments) == Walk(current, segments[i..])
    {
      var segment := segments[i];
      if current.Namespace? && segment in current.members {
        current := current.members[segment];
      } else {
        return NotFound;
      }
      i := i + 1;
    }
    if !current.Function? {
      return NotCallable;
    }
    return Callable(current.id);
  }

  // ---------------------------------------------------------------------
  // Arguments

  /** `Array.isArray(params) ? params : [params]`, with `params` defaulting to `{}`. */
  function NormalizeArgs(params: Option<Json>): seq<Json> {
    var p := params.GetOr(EmptyObject);
    if p.JArr? then p.items else [p]
  }

  // ---------------------------------------------------------------------
  // Framing of the console lines

  const RESULT_TAG := "[WA-JS-RESULT] "
  const ERROR_TAG := "[WA-JS-ERROR] "

  function ResultPrefix(fn: string): string { RESULT_TAG + fn + ":" }
  function ErrorPrefix(fn: string): string { ERROR_TAG + fn + ":" }

  /** The text of `console.log(prefix, payload)`: the two arguments joined by a space. */
  function ResultLine(fn: string, payload: string): string { ResultPrefix(fn) + " " + payload }
  function ErrorLine(fn: string, message: string): string { ErrorPrefix(fn) + " " + message }

  function NotFoundMessage(fn: string): string { "Função " + fn + " não encontrada no WA-JS" }
  function NotCallableMessage(fn: string): string { fn + " não é uma função válida" }

  /** What the value handed to `JSON.stringify` turns out to be. */
  datatype Payload = Serializable(value: Json) | Undefined | Unserializable(message: string)

  /**
   * What calling the resolved function does: it returns (or its promise
   * resolves), it throws (or its promise rejects) with a message, or its
   * promise never settles.
   */
  datatype Invocation = Returned(payload: Payload) | Raised(message: string) | Pending

  /** The console lines the in-page script writes for one call. */
  function PageLines(root: Member, fn: string, args: seq<Json>,
                     behave: (nat, seq<Json>) -> Invocation, codec: Codec): seq<string> {
    match Resolve(root, fn)
    case NotFound => [ErrorLine(fn, NotFoundMessage(fn))]
    case NotCallable => [ErrorLine(fn, NotCallableMessage(fn))]
    case Callable(id) =>
      match behave(id, args)
      case Returned(Serializable(v)) => [ResultLine(fn, codec.encode(v))]
      case Returned(Undefined) => [ResultLine(fn, "")]
      case Returned(Unserializable(m)) => [ErrorLine(fn, m)]
      case Raised(m) => [ErrorLine(fn, m)]
      case Pending => []
  }

  /** How the listener for `fn` reads a console line. */
  datatype LineKind = TaggedResult(payload: string) | TaggedError(message: string) | Untagged

  /** The listener's tests: the result tag first, then the error tag; the tag is replaced by nothing and the rest trimmed. */
  function Classify(line: string, fn: string): LineKind {
    if StartsWith(line, ResultPrefix(fn)) then TaggedResult(Trim(ReplaceFirst(line, ResultPrefix(fn), "")))
    else if StartsWith(line, ErrorPrefix(fn)) then TaggedError(Trim(ReplaceFirst(line, ErrorPrefix(fn), "")))
    else Untagged
  }

  // ---------------------------------------------------------------------
  // The pending call: the settle-once state machine

  datatype BridgeError =
    | NoSession                       // no record, or a record without a page
    | Timeout(fn: string, ms: nat)
    | ParseFailure(detail: string)    // JSON.parse threw
    | ExecutionFailure(message: string)
    | EvaluateFailure(message: string) // page.evaluate itself rejected

  datatype CallResult = Resolved(value: Json) | Rejected(error: BridgeError)

  /** The `message` of the Error each failure rejects with. */
  function ErrorMessage(e: BridgeError): string {
    match e
    case NoSession => "Sessão não encontrada ou página não inicializada"
    case Timeout(fn, ms) => "Timeout: Função " + fn + " não retornou em " + NatToString(ms) + "ms"
    case ParseFailure(d) => "Erro ao parsear resultado: " + d
    case ExecutionFailure(m) => "Erro na execução: " + m
    case EvaluateFailure(m) => m
  }

  /** Something that reaches the pending call: a console line, the timer, or the rejection of `page.evaluate`. */
  datatype Event = ConsoleLine(text: string) | TimerFired | EvaluateRejected(message: string)

  /** The fixed parameters of one call. */
  datatype Call = Call(fn: string, ms: nat, codec: Codec)

  /**
   * The mutable part of one call: the promise's outcome (set at most once),
   * the `resultCaptured` flag, whether the console listener is registered and
   * whether the timer is still armed.
   */
  datatype CallState = CallState(outcome: Option<CallResult>, captured: bool, listening: bool, timerArmed: bool)

  /** Right after the listener is registered and the timer set. */
  const Registered := CallState(None, false, true, true)

  /** `resolve`/`reject`: only the first one has an effect. */
  function Settle(s: CallState, r: CallResult): CallState {
    if s.outcome.None? then s.(outcome := Some(r)) else s
  }

  /** A tagged line: `resultCaptured = true`, `clearTimeout`, `page.off`, then settle. */
  function Capture(s: CallState, r: CallResult): CallState {
    Settle(s, r).(captured := true, timerArmed := false, listening := false)
  }

  function Step(c: Call, s: CallState, e: Event): CallState {
    match e
    case ConsoleLine(text) =>
      if !s.listening then s
      else (
        match Classify(text, c.fn)
        case TaggedResult(p) =>
          (match c.codec.decode(p)
           case Parsed(v) => Capture(s, Resolved(v))
           case SyntaxError(d) => Capture(s, Rejected(ParseFailure(d))))
        case TaggedError(m) => Capture(s, Rejected(ExecutionFailure(m)))
        case Untagged => s)
    case TimerFired =>
      if !s.timerArmed then s
      else if s.captured then s.(timerArmed := false)
      else Settle(s.(timerArmed := false), Rejected(Timeout(c.fn, c.ms)))
    case EvaluateRejected(m) => Settle(s, Rejected(EvaluateFailure(m)))
  }

  function Run(c: Call, s: CallState, events: seq<Event>): CallState
    decreases |events|
  {
    if |events| == 0 then s else Run(c, Step(c, s, events[0]), events[1..])
  }

  /** The bookkeeping that holds in every reachable state: capturing and the timer's expiry both settle. */
  predicate Consistent(s: CallState) {
    (s.captured ==> s.outcome.Some?) && (!s.timerArmed ==> s.outcome.Some?)
  }

  // ---------------------------------------------------------------------
  // One whole call

  const DEFAULT_TIMEOUT: nat := 10000

  /**
   * What the page and the console do during one call: the namespace, the
   * behaviour of its functions, the JSON codec, the console lines (and other
   * events) that arrive before this call's own line, whether `page.evaluate`
   * rejects, and whether the timer fires before this call's own line.
   */
  datatype Environment = Environment(
    root: Member,
    behave: (nat, seq<Json>) -> Invocation,
    codec: Codec,
    noise: seq<Event>,
    evaluateError: Option<string>,
    timerFirst: bool)

  function ConsoleEvents(lines: seq<string>): (r: seq<Event>)
    ensures |r| == |lines|
    ensures forall i :: 0 <= i < |lines| ==> r[i] == ConsoleLine(lines[i])
  {
    if |lines| == 0 then [] else [ConsoleLine(lines[0])] + ConsoleEvents(lines[1..])
  }

  /** The events the pending call sees, ending with (or after) the timer. */
  function Events(env: Environment, lines: seq<string>): (r: seq<Event>)
    ensures TimerFired in r
  {
    env.noise +
      match env.evaluateError
      case Some(m) => [EvaluateRejected(m), TimerFired]
      case None =>
        if env.timerFirst then [TimerFired] + ConsoleEvents(lines) else ConsoleEvents(lines) + [TimerFired]
  }

  /** The lines the page writes, none when `page.evaluate` is rejected. */
  function CallLines(env: Environment, fn: string, params: Option<Json>): seq<string> {
    if env.evaluateError.Some? then [] else PageLines(env.root, fn, NormalizeArgs(params), env.behave, env.codec)
  }

  /**
   * `executeWAJsFunction(session, fn, params, timeout)`: with no record or no
   * page it throws before registering anything; otherwise the outcome is
   * the one the settle-once machine reaches over the call's events.
   */
  function Invoke(clients: map<string, Client>, session: string, fn: string,
                  params: Option<Json>, timeout: Option<nat>, env: Environment): (r: CallResult)
    ensures (session !in clients || clients[session].page.None?) <==> r == Rejected(NoSession)
  {
    if session !in clients || clients[session].page.None? then Rejected(NoSession)
    else
      var c := Call(fn, timeout.GetOr(DEFAULT_TIMEOUT), env.codec);
      var events := Events(env, CallLines(env, fn, params));
      RunSettles(c, Registered, events);
      RunNeverNoSession(c, Registered, events);
      Run(c, Registered, events).outcome.value
  }

  /**
   * The server side of one call, as the event loop drives it: the record
   * and its page are checked, a pending call is registered, and each event
   * is handed to its handler.
   */
  method ExecuteWAJsFunction(registry: Registry, session: string, fn: string,
                             params: Option<Json>, timeout: Option<nat>, env: Environment)
    returns (r: CallResult)
    ensures r == Invoke(registry.clients, session, fn, params, timeout, env)
  {
    var client := registry.GetClient(session);
    if client.None? || client.value.page.None? {
      return Rejected(NoSession);
    }
    var c := Call(fn, timeout.GetOr(DEFAULT_TIMEOUT), env.codec);
    var pending := new PendingCall(c);
    var events := Events(env, CallLines(env, fn, params));
    var i := 0;
    while i < |events|
      invariant 0 <= i <= |events|
      invariant pending.call == c
      invariant Run(c, pending.State(), events[i..]) == Run(c, Registered, events)
    {
      assert events[i..] == [events[i]] + events[i + 1..];
      match events[i] {
        case ConsoleLine(text) => pending.OnConsoleLine(text);
        case TimerFired => pending.OnTimerFired();
        case EvaluateRejected(m) => pending.OnEvaluateRejected(m);
      }
      i := i + 1;
    }
    RunSettles(c, Registered, events);
    return pending.outcome.value;
  }

  /** The promise of one call with the closure variables its handlers share. */
  class PendingCall {
    const call: Call
    var outcome: Option<CallResult>
    var captured: bool
    var listening: bool
    var timerArmed: bool

    function State(): CallState
      reads this
    {
      CallState(outcome, captured, listening, timerArmed)
    }

    /** `new Promise(...)`: the timer is set and the console listener registered. */
    constructor(call: Call)
      ensures this.call == call && State() == Registered
    {
      this.call := call;
      outcome, captured, listening, timerArmed := None, false, true, true;
    }

    method SettleWith(r: CallResult)
      modifies this
      ensures State() == Settle(old(State()), r)
    {
      if outcome.None? {
        outcome := Some(r);
      }
    }

    /** `consoleHandler`: runs only while registered; a tagged line captures, clears the timer and unregisters. */
    method OnConsoleLine(text: string)
      modifies this
      ensures State() == Step(call, old(State()), ConsoleLine(text))
    {
      if !listening {
        return;
      }
      var kind := Classify(text, call.fn);
      var r: CallResult;
      match kind {
        case Untagged =>
          return;
        case TaggedResult(p) =>
          match call.codec.decode(p) {
            case Parsed(v) => r := Resolved(v);
            case SyntaxError(d) => r := Rejected(ParseFailure(d));
          }
        case TaggedError(m) =>
          r := Rejected(ExecutionFailure(m));
      }
      captured := true;
      timerArmed := false;
      listening := false;
      SettleWith(r);
    }

    /** The timer callback: rejects only if nothing was captured, and leaves the listener registered. */
    method OnTimerFired()
      modifies this
      ensures State() == Step(call, old(State()), TimerFired)
    {
      if !timerArmed {
        return;
      }
      timerArmed := false;
      if !captured {
        SettleWith(Rejected(Timeout(call.fn, call.ms)));
      }
    }

    /** `.catch(reject)` on `page.evaluate`: neither the timer nor the listener is touched. */
    method OnEvaluateRejected(message: string)
      modifies this
      ensures State() == Step(call, old(State()), EvaluateRejected(message))
    {
      SettleWith(Rejected(EvaluateFailure(message)));
    }
  }

  // ---------------------------------------------------------------------
  // The calls the utility makes on behalf of the routes

  /** The fixed-path wrappers of the utility, each one call of `executeWAJsFunction`. */
  datatype Operation =
    | ListAllChats | GetChatDetails(chatId: string) | GetAllContacts | GetContactDetails(contactId: string)
    | SendMessage(to: string, content: string) | SendImage(to: string, image: string, imageCaption: Option<string>)
    | SendFile(to: string, file: string, fileCaption: Option<string>)
    | DeleteMessage(msgChatId: string, messageId: string)
    | CreateGroup(name: string, participants: seq<string>)
    | AddParticipant(groupId: string, addedId: string) | RemoveParticipant(fromGroupId: string, removedId: string)
    | BlockContact(blockedId: string) | UnblockContact(unblockedId: string)
    | IsAuthenticated | GetConnectionState

  /** An omitted caption: `undefined` in the argument array reaches the page as `null`, as JSON carries it. */
  function OptStr(s: Option<string>): Json {
    match s
    case Some(v) => JStr(v)
    case None => JNull
  }

  /** The path and the parameters each wrapper passes. */
  function OperationPath(op: Operation): string {
    match op
    case ListAllChats => "chat.list"
    case GetChatDetails(_) => "chat.getChat"
    case GetAllContacts => "contact.getAllContacts"
    case GetContactDetails(_) => "contact.getContact"
    case SendMessage(_, _) => "chat.sendTextMessage"
    case SendImage(_, _, _) => "chat.sendImageMessage"
    case SendFile(_, _, _) => "chat.sendFileMessage"
    case DeleteMessage(_, _) => "chat.deleteMessage"
    case CreateGroup(_, _) => "group.createGroup"
    case AddParticipant(_, _) => "group.addParticipant"
    case RemoveParticipant(_, _) => "group.removeParticipant"
    case BlockContact(_) => "contact.blockContact"
    case UnblockContact(_) => "contact.unblockContact"
    case IsAuthenticated => "conn.isAuthenticated"
    case GetConnectionState => "conn.getState"
  }

  function OperationParams(op: Operation): Option<Json> {
    match op
    case ListAllChats => None
    case GetChatDetails(id) => Some(JArr([JStr(id)]))
    case GetAllContacts => None
    case GetContactDetails(id) => Some(JArr([JStr(id)]))
    case SendMessage(to, content) => Some(JArr([JStr(to), JStr(content)]))
    case SendImage(to, image, caption) => Some(JArr([JStr(to), JStr(image), OptStr(caption)]))
    case SendFile(to, file, caption) => Some(JArr([JStr(to), JStr(file), OptStr(caption)]))
    case DeleteMessage(chat, msg) => Some(JArr([JStr(chat), JStr(msg)]))
    case CreateGroup(name, ps) => Some(JArr([JStr(name), JArr(Strings(ps))]))
    case AddParticipant(g, p) => Some(JArr([JStr(g), JStr(p)]))
    case RemoveParticipant(g, p) => Some(JArr([JStr(g), JStr(p)]))
    case BlockContact(id) => Some(JArr([JStr(id)]))
    case UnblockContact(id) => Some(JArr([JStr(id)]))
    case IsAuthenticated => None
    case GetConnectionState => None
  }

  /** A wrapper's call, with the default timeout. */
  function RunOperation(clients: map<string, Client>, session: string, op: Operation, env: Environment): CallResult {
    Invoke(clients, session, OperationPath(op), OperationParams(op), None, env)
  }

  /** `isAuthenticated`: true exactly when the call resolves with `true`; any failure reads as false. */
  function IsSessionAuthenticated(clients: map<string, Client>, session: string, env: Environment): (b: bool)
    ensures b <==> RunOperation(clients, session, IsAuthenticated, env) == Resolved(JBool(true))
  {
    match RunOperation(clients, session, IsAuthenticated, env)
    case Resolved(v) => v == JBool(true)
    case Rejected(_) => false
  }

  // ---------------------------------------------------------------------
  // Lemmas: the machine

  lemma {:induction false} RunSettles(c: Call, s: CallState, events: seq<Event>)
    requires Consistent(s)
    ensures Consistent(Run(c, s, events))
    ensures TimerFired in events || s.outcome.Some? ==> Run(c, s, events).outcome.Some?
    decreases |events|
  {
    if |events| > 0 {
      var s' := Step(c, s, events[0]);
      assert events == [events[0]] + events[1..];
      assert events[0] == TimerFired || s.outcome.Some? ==> s'.outcome.Some?;
      RunSettles(c, s', events[1..]);
    }
  }

  lemma {:induction false} RunNeverNoSession(c: Call, s: CallState, events: seq<Event>)
    requires s.outcome != Some(Rejected(NoSession))
    ensures Run(c, s, events).outcome != Some(Rejected(NoSession))
    decreases |events|
  {
    if |events| > 0 {
      RunNeverNoSession(c, Step(c, s, events[0]), events[1..]);
    }
  }

  /** Settle once: after the promise is settled no event changes its outcome. */
  lemma {:induction false} SettledStaysSettled(c: Call, s: CallState, events: seq<Event>)
    requires s.outcome.Some?
    ensures Run(c, s, events).outcome == s.outcome
    decreases |events|
  {
    if |events| > 0 {
      SettledStaysSettled(c, Step(c, s, events[0]), events[1..]);
    }
  }

  /** The first tagged line settles the call, clears the timer and removes the listener. */
  lemma TaggedLineCaptures(c: Call, s: CallState, text: string)
    requires s.listening && s.outcome.None? && !Classify(text, c.fn).Untagged?
    ensures var s' := Step(c, s, ConsoleLine(text));
            s'.outcome.Some? && s'.captured && !s'.listening && !s'.timerArmed
    ensures Classify(text, c.fn).TaggedError? ==>
              Step(c, s, ConsoleLine(text)).outcome == Some(Rejected(ExecutionFailure(Classify(text, c.fn).message)))
    ensures Classify(text, c.fn).TaggedResult? ==>
              Step(c, s, ConsoleLine(text)).outcome ==
                Some(match c.codec.decode(Classify(text, c.fn).payload)
                     case Parsed(v) => Resolved(v)
                     case SyntaxError(d) => Rejected(ParseFailure(d)))
  {
  }

  /** Any other line is ignored and the listener stays registered. */
  lemma UntaggedLineIgnored(c: Call, s: CallState, text: string)
    requires Classify(text, c.fn).Untagged?
    ensures Step(c, s, ConsoleLine(text)) == s
  {
  }

  /**
   * On expiry the timer rejects only when nothing was captured, and the
   * console listener is NOT removed: a late tagged line still reaches it.
   */
  lemma TimeoutLeavesListener(c: Call, s: CallState)
    requires s.timerArmed && s.outcome.None? && !s.captured && s.listening
    ensures Step(c, s, TimerFired) == CallState(Some(Rejected(Timeout(c.fn, c.ms))), false, true, false)
  {
  }

  /** A zombie completion: a tagged line after the timeout is consumed by the leftover listener but the outcome stays the timeout. */
  lemma LateLineAfterTimeout(c: Call, text: string)
    requires !Classify(text, c.fn).Untagged?
    ensures var s := Run(c, Registered, [TimerFired, ConsoleLine(text)]);
            s.outcome == Some(Rejected(Timeout(c.fn, c.ms))) && !s.listening
  {
    var s1 := Step(c, Registered, TimerFired);
    assert s1.listening && s1.outcome == Some(Rejected(Timeout(c.fn, c.ms)));
    var s2 := Step(c, s1, ConsoleLine(text));
    assert [TimerFired, ConsoleLine(text)][1..] == [ConsoleLine(text)];
    assert Run(c, Registered, [TimerFired, ConsoleLine(text)]) == Run(c, s1, [ConsoleLine(text)]);
    assert Run(c, s1, [ConsoleLine(text)]) == Run(c, s2, []);
  }

  /** Lines no listener of `fn` recognises. */
  predicate Quiet(fn: string, noise: seq<Event>) {
    forall i :: 0 <= i < |noise| ==> noise[i].ConsoleLine? && Classify(noise[i].text, fn).Untagged?
  }

  lemma {:induction false} QuietRun(c: Call, s: CallState, noise: seq<Event>, rest: seq<Event>)
    requires Quiet(c.fn, noise)
    ensures Run(c, s, noise + rest) == Run(c, s, rest)
    decreases |noise|
  {
    if |noise| > 0 {
      assert (noise + rest)[0] == noise[0];
      assert (noise + rest)[1..] == noise[1..] + rest;
      assert Step(c, s, noise[0]) == s;
      assert Quiet(c.fn, noise[1..]) by {
        forall i | 0 <= i < |noise[1..]| ensures noise[1..][i] == noise[i + 1] { }
      }
      QuietRun(c, s, noise[1..], rest);
    } else {
      assert noise + rest == rest;
    }
  }

  // ---------------------------------------------------------------------
  // Lemmas: framing

  /** A common prefix does not change whether one string starts with another. */
  lemma StartsWithCommon(t: string, x: string, y: string)
    ensures StartsWith(t + x, t + y) <==> StartsWith(x, y)
  {
    if |y| <= |x| {
      assert (t + x)[..|t + y|] == t + x[..|y|];
      assert (t + x[..|y|])[|t|..] == x[..|y|];
      assert (t + y)[|t|..] == y;
    }
  }

  /** Two strings that differ at a position the prefix covers. */
  lemma DiffersAt(s: string, p: string, k: nat)
    requires k < |p| && k < |s| && s[k] != p[k]
    ensures !StartsWith(s, p)
  {
    if |p| <= |s| {
      assert s[..|p|][k] == s[k];
    }
  }

  /** The listener recognises its own result line and gets back, after trimming, exactly the text after the tag. */
  lemma ResultLineClassified(fn: string, payload: string)
    ensures Classify(ResultLine(fn, payload), fn) == TaggedResult(Trim(payload))
  {
    var line := ResultLine(fn, payload);
    StartsWithAppend(line, ResultPrefix(fn), " " + payload);
    ReplaceFirstOfPrefix(line, ResultPrefix(fn));
    assert line[|ResultPrefix(fn)|..] == " " + payload;
    TrimSpacePrefix(payload);
  }

  lemma ErrorLineClassified(fn: string, message: string)
    ensures Classify(ErrorLine(fn, message), fn) == TaggedError(Trim(message))
  {
    var line := ErrorLine(fn, message);
    var p := ResultPrefix(fn);
    assert line[7] == 'E' && |p| > 7 && p[7] == 'R';
    DiffersAt(line, p, 7);
    StartsWithAppend(line, ErrorPrefix(fn), " " + message);
    ReplaceFirstOfPrefix(line, ErrorPrefix(fn));
    assert line[|ErrorPrefix(fn)|..] == " " + message;
    TrimSpacePrefix(message);
  }

  /** Framing round trip: the result line written for `v` is decoded by the listener of the same path back to `v`. */
  lemma FramingRoundTrip(c: Call, v: Json)
    requires RoundTrips(c.codec, v)
    ensures Classify(ResultLine(c.fn, c.codec.encode(v)), c.fn) == TaggedResult(c.codec.encode(v))
    ensures Step(c, Registered, ConsoleLine(ResultLine(c.fn, c.codec.encode(v)))).outcome == Some(Resolved(v))
  {
    ResultLineClassified(c.fn, c.codec.encode(v));
    TrimOfTrimmed(c.codec.encode(v));
  }

  /** Two different paths without `:` never capture each other's tags. */
  lemma PathsDisjoint(fn: string, other: string, rest: string)
    requires ':' !in fn && ':' !in other && fn != other
    ensures !StartsWith(fn + ":" + rest, other + ":")
  {
    var s := fn + ":" + rest;
    var t := other + ":";
    var n := |other|;
    if n < |fn| {
      assert s[n] == fn[n] && t[n] == ':';
      DiffersAt(s, t, n);
    } else if n == |fn| {
      if |t| <= |s| {
        assert s[..|t|][..n] == fn;
        assert t[..n] == other;
      }
    } else {
      assert s[|fn|] == ':' && t[|fn|] == other[|fn|];
      DiffersAt(s, t, |fn|);
    }
  }

  /** The lines written for one path are untagged for a listener on another path, when neither holds `:`. */
  lemma FramingIsolated(fn: string, other: string, text: string)
    requires ':' !in fn && ':' !in other && fn != other
    ensures Classify(ResultLine(fn, text), other).Untagged?
    ensures Classify(ErrorLine(fn, text), other).Untagged?
  {
    var rl := ResultLine(fn, text);
    var el := ErrorLine(fn, text);
    assert rl == RESULT_TAG + (fn + ":" + (" " + text));
    assert el == ERROR_TAG + (fn + ":" + (" " + text));
    assert ResultPrefix(other) == RESULT_TAG + (other + ":");
    assert ErrorPrefix(other) == ERROR_TAG + (other + ":");
    PathsDisjoint(fn, other, " " + text);
    StartsWithCommon(RESULT_TAG, fn + ":" + (" " + text), other + ":");
    StartsWithCommon(ERROR_TAG, fn + ":" + (" " + text), other + ":");
    var ep := ErrorPrefix(other);
    assert rl[7] == 'R' && ep[7] == 'E';
    DiffersAt(rl, ep, 7);
    var rp := ResultPrefix(other);
    assert el[7] == 'E' && rp[7] == 'R';
    DiffersAt(el, rp, 7);
  }

  /** Correlation is by prefix only: with `:` in a path, the listener for `conn` takes the line of `conn:state`. */
  lemma PrefixCollision(text: string)
    ensures Classify(ResultLine("conn:state", text), "conn").TaggedResult?
  {
    var line := ResultLine("conn:state", text);
    assert line == ResultPrefix("conn") + ("state: " + text);
    StartsWithAppend(line, ResultPrefix("conn"), "state: " + text);
  }

  /** Two pending calls on the same path are settled by the same single line, whichever call wrote it. */
  lemma SharedPathHazard(c1: Call, c2: Call, v: Json)
    requires c1.fn == c2.fn && c1.codec == c2.codec && RoundTrips(c1.codec, v)
    ensures Step(c1, Registered, ConsoleLine(ResultLine(c1.fn, c1.codec.encode(v)))).outcome == Some(Resolved(v))
    ensures Step(c2, Registered, ConsoleLine(ResultLine(c1.fn, c1.codec.encode(v)))).outcome == Some(Resolved(v))
  {
    FramingRoundTrip(c1, v);
    FramingRoundTrip(c2, v);
  }

  /** Same-tag lines of other wrappers cannot reach a wrapper's listener: the fixed paths hold no `:`. */
  lemma OperationPathsHaveNoColon(op: Operation)
    ensures ':' !in OperationPath(op)
  {
  }

  /** Two wrappers with different paths never capture each other's lines: no fixed path is exposed to the prefix collision. */
  lemma WrapperLinesIsolated(op1: Operation, op2: Operation, text: string)
    requires OperationPath(op1) != OperationPath(op2)
    ensures Classify(ResultLine(OperationPath(op1), text), OperationPath(op2)).Untagged?
    ensures Classify(ErrorLine(OperationPath(op1), text), OperationPath(op2)).Untagged?
  {
    OperationPathsHaveNoColon(op1);
    OperationPathsHaveNoColon(op2);
    FramingIsolated(OperationPath(op1), OperationPath(op2), text);
  }

  /**
   * A stale line: the result line of an earlier call on the same path that
   * timed out, arriving before anything of this call, settles this call
   * with the earlier value whatever follows.
   */
  lemma StaleLineSettles(c: Call, v: Json, rest: seq<Event>)
    requires RoundTrips(c.codec, v)
    ensures Run(c, Registered, [ConsoleLine(ResultLine(c.fn, c.codec.encode(v)))] + rest).outcome == Some(Resolved(v))
  {
    var events := [ConsoleLine(ResultLine(c.fn, c.codec.encode(v)))] + rest;
    FramingRoundTrip(c, v);
    var s1 := Step(c, Registered, events[0]);
    assert events[1..] == rest;
    SettledStaysSettled(c, s1, rest);
  }

  // ---------------------------------------------------------------------
  // Lemmas: resolution and arguments

  lemma NormalizeArgsCases(params: Option<Json>)
    ensures params.None? ==> NormalizeArgs(params) == [EmptyObject]
    ensures params.Some? && params.value.JArr? ==> NormalizeArgs(params) == params.value.items
    ensures params.Some? && !params.value.JArr? ==> NormalizeArgs(params) == [params.value]
  {
  }

  /** Normalising the normalised list changes nothing: an array is passed unchanged. */
  lemma NormalizeArgsIdempotent(params: Option<Json>)
    ensures NormalizeArgs(Some(JArr(NormalizeArgs(params)))) == NormalizeArgs(params)
  {
  }

  /** Resolving `ns.name`. */
  lemma {:induction false} ResolveTwoSegments(root: Member, ns: string, name: string)
    requires '.' !in ns && '.' !in name
    ensures Split(ns + "." + name, '.') == [ns, name]
    ensures Resolve(root, ns + "." + name) ==
              if root.Namespace? && ns in root.members && root.members[ns].Namespace?
                 && name in root.members[ns].members
              then (match root.members[ns].members[name]
                    case Function(id) => Callable(id)
                    case _ => NotCallable)
              else NotFound
  {
    assert ns + "." + name == ns + ['.'] + name;
    SplitAt(ns, '.', name);
    SplitWithout(name, '.');
    var path := [ns, name];
    if root.Namespace? && ns in root.members {
      var m := root.members[ns];
      assert Walk(root, path) == Walk(m, [name]);
      if m.Namespace? && name in m.members {
        assert Walk(m, [name]) == Walk(m.members[name], []);
      }
    }
  }

  // ---------------------------------------------------------------------
  // Lemmas: whole calls

  /** Preconditions of a call that runs undisturbed: record with a page, evaluate accepted, timer after the line, no foreign tagged line. */
  predicate Undisturbed(clients: map<string, Client>, session: string, fn: string, env: Environment) {
    session in clients && clients[session].page.Some?
    && env.evaluateError.None? && !env.timerFirst && Quiet(fn, env.noise)
  }

  /** An undisturbed call that writes one line settles on that line. */
  lemma InvokeOwnLine(clients: map<string, Client>, session: string, fn: string,
                      params: Option<Json>, timeout: Option<nat>, env: Environment, line: string)
    requires Undisturbed(clients, session, fn, env)
    requires CallLines(env, fn, params) == [line]
    requires Step(Call(fn, timeout.GetOr(DEFAULT_TIMEOUT), env.codec), Registered, ConsoleLine(line)).outcome.Some?
    ensures Invoke(clients, session, fn, params, timeout, env) ==
              Step(Call(fn, timeout.GetOr(DEFAULT_TIMEOUT), env.codec), Registered, ConsoleLine(line)).outcome.value
  {
    var c := Call(fn, timeout.GetOr(DEFAULT_TIMEOUT), env.codec);
    assert Events(env, [line]) == env.noise + [ConsoleLine(line), TimerFired];
    QuietRun(c, Registered, env.noise, [ConsoleLine(line), TimerFired]);
    var s1 := Step(c, Registered, ConsoleLine(line));
    assert Run(c, Registered, [ConsoleLine(line), TimerFired]) == Run(c, s1, [TimerFired]);
    SettledStaysSettled(c, s1, [TimerFired]);
  }

  /** End to end: a function that resolves with a serialisable value yields that value. */
  lemma InvokeResolves(clients: map<string, Client>, session: string, fn: string,
                       params: Option<Json>, timeout: Option<nat>, env: Environment, id: nat, v: Json)
    requires Undisturbed(clients, session, fn, env)
    requires Resolve(env.root, fn) == Callable(id)
    requires env.behave(id, NormalizeArgs(params)) == Returned(Serializable(v))
    requires RoundTrips(env.codec, v)
    ensures Invoke(clients, session, fn, params, timeout, env) == Resolved(v)
  {
    var c := Call(fn, timeout.GetOr(DEFAULT_TIMEOUT), env.codec);
    var line := ResultLine(fn, env.codec.encode(v));
    assert CallLines(env, fn, params) == [line];
    FramingRoundTrip(c, v);
    InvokeOwnLine(clients, session, fn, params, timeout, env, line);
  }

  /** The not-found message has no outer spaces, so the listener passes it on unchanged. */
  lemma NotFoundMessageTrimmed(fn: string)
    ensures Trim(NotFoundMessage(fn)) == NotFoundMessage(fn)
  {
    var m := NotFoundMessage(fn);
    assert m[0] == 'F' && m[|m| - 1] == 'S';
    TrimOfTrimmed(m);
  }

  /** End to end: a path that does not resolve is reported through the error tag. */
  lemma InvokePathNotFound(clients: map<string, Client>, session: string, fn: string,
                           params: Option<Json>, timeout: Option<nat>, env: Environment)
    requires Undisturbed(clients, session, fn, env)
    requires Resolve(env.root, fn) == NotFound
    ensures Invoke(clients, session, fn, params, timeout, env) == Rejected(ExecutionFailure(NotFoundMessage(fn)))
  {
    var line := ErrorLine(fn, NotFoundMessage(fn));
    assert CallLines(env, fn, params) == [line];
    ErrorLineClassified(fn, NotFoundMessage(fn));
    NotFoundMessageTrimmed(fn);
    InvokeOwnLine(clients, session, fn, params, timeout, env, line);
  }

  /** End to end: a promise that never settles ends in the timeout, with the call's own timeout in it. */
  lemma InvokeTimesOut(clients: map<string, Client>, session: string, fn: string,
                       params: Option<Json>, timeout: Option<nat>, env: Environment, id: nat)
    requires Undisturbed(clients, session, fn, env)
    requires Resolve(env.root, fn) == Callable(id)
    requires env.behave(id, NormalizeArgs(params)) == Pending
    ensures Invoke(clients, session, fn, params, timeout, env) ==
              Rejected(Timeout(fn, timeout.GetOr(DEFAULT_TIMEOUT)))
  {
    var c := Call(fn, timeout.GetOr(DEFAULT_TIMEOUT), env.codec);
    assert CallLines(env, fn, params) == [];
    assert Events(env, []) == env.noise + [TimerFired];
    QuietRun(c, Registered, env.noise, [TimerFired]);
    assert Run(c, Registered, [TimerFired]) == Run(c, Step(c, Registered, TimerFired), []);
  }

  /** `isAuthenticated` is the call of `conn.isAuthenticated` with no parameters and the default timeout. */
  lemma IsAuthenticatedCall(clients: map<string, Client>, session: string, env: Environment)
    ensures RunOperation(clients, session, IsAuthenticated, env) ==
              Invoke(clients, session, "conn.isAuthenticated", None, None, env)
  {
    assert OperationPath(IsAuthenticated) == "conn.isAuthenticated";
    assert OperationParams(IsAuthenticated) == None;
  }

  /** `isAuthenticated` without a record or a page is false: the call throws before reaching the page. */
  lemma NotAuthenticatedWithoutSession(clients: map<string, Client>, session: string, env: Environment)
    requires session !in clients || clients[session].page.None?
    ensures !IsSessionAuthenticated(clients, session, env)
  {
  }

  /** On an undisturbed call, `isAuthenticated` is exactly the boolean `conn.isAuthenticated()` returns in the page. */
  lemma AuthenticatedAsPageSays(clients: map<string, Client>, session: string, env: Environment, id: nat, b: bool)
    requires Undisturbed(clients, session, "conn.isAuthenticated", env)
    requires Resolve(env.root, "conn.isAuthenticated") == Callable(id)
    requires env.behave(id, [EmptyObject]) == Returned(Serializable(JBool(b)))
    requires RoundTrips(env.codec, JBool(b))
    ensures IsSessionAuthenticated(clients, session, env) == b
  {
    NormalizeArgsCases(None);
    InvokeResolves(clients, session, "conn.isAuthenticated", None, None, env, id, JBool(b));
    IsAuthenticatedCall(clients, session, env);
  }

  /** A page without `WPP.conn.isAuthenticated` reads as not authenticated. */
  lemma NotAuthenticatedWhenMissing(clients: map<string, Client>, session: string, env: Environment)
    requires Undisturbed(clients, session, "conn.isAuthenticated", env)
    requires Resolve(env.root, "conn.isAuthenticated") == NotFound
    ensures !IsSessionAuthenticated(clients, session, env)
  {
    InvokePathNotFound(clients, session, "conn.isAuthenticated", None, None, env);
    IsAuthenticatedCall(clients, session, env);
  }
}

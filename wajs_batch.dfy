/**
 * `executeMultipleWAJsFunctions` (src/util/waJsUtil.ts): the calls of a list
 * are made one after another, each failure being recorded rather than
 * stopping the batch.
 */
module WAJsBatch {
  import opened Wrappers
  import opened Json
  import opened SessionRegistry
  import opened WAJsBridge

  /** One element of the input list: `{ functionName, params?, timeout? }`. */
  datatype FunctionCall = FunctionCall(functionName: string, params: Option<Json>, timeout: Option<nat>)

  /** `{ success, functionName, result? , error? }`. */
  datatype BatchEntry = BatchEntry(success: bool, functionName: string, result: Option<Json>, error: Option<string>)

  /** The record pushed for one call: the result, or the message of the Error it was rejected with. */
  function EntryFor(call: FunctionCall, r: CallResult): BatchEntry {
    match r
    case Resolved(v) => BatchEntry(true, call.functionName, Some(v), None)
    case Rejected(e) => BatchEntry(false, call.functionName, None, Some(ErrorMessage(e)))
  }

  /** The outcome of one call of the batch, `env` being what its page and console do. */
  function CallOutcome(clients: map<string, Client>, session: string, call: FunctionCall, env: Environment): CallResult {
    Invoke(clients, session, call.functionName, call.params, call.timeout, env)
  }

  /** The list the batch returns. */
  function Batch(clients: map<string, Client>, session: string, functions: seq<FunctionCall>,
                 envOf: nat -> Environment): seq<BatchEntry>
  {
    seq(|functions|, k requires 0 <= k < |functions| => EntryFor(functions[k], CallOutcome(clients, session, functions[k], envOf(k))))
  }

  method ExecuteMultipleWAJsFunctions(registry: Registry, session: string, functions: seq<FunctionCall>,
                                      envOf: nat -> Environment)
    returns (results: seq<BatchEntry>)
    ensures results == Batch(registry.clients, session, functions, envOf)
  {
    results := [];
    var k := 0;
    while k < |functions|
      invariant 0 <= k <= |functions|
      invariant |results| == k
      invariant forall j :: 0 <= j < k ==>
                  results[j] == EntryFor(functions[j], CallOutcome(registry.clients, session, functions[j], envOf(j)))
    {
      var func := functions[k];
      var r := ExecuteWAJsFunction(registry, session, func.functionName, func.params, func.timeout, envOf(k));
      results := results + [EntryFor(func, r)];
      k := k + 1;
    }
  }

  // ---------------------------------------------------------------------
  // Lemmas

  /**
   * Same length and order as the input; entry `k` names call `k`, succeeds
   * exactly when that call resolved, and then carries its value, and
   * otherwise carries its error message. A failure does not prevent the
   * later calls.
   */
  lemma BatchEntries(clients: map<string, Client>, session: string, functions: seq<FunctionCall>,
                     envOf: nat -> Environment, k: nat)
    requires k < |functions|
    ensures |Batch(clients, session, functions, envOf)| == |functions|
    ensures var e := Batch(clients, session, functions, envOf)[k];
            var r := CallOutcome(clients, session, functions[k], envOf(k));
            && e.functionName == functions[k].functionName
            && (e.success <==> r.Resolved?)
            && (r.Resolved? ==> e.result == Some(r.value) && e.error.None?)
            && (r.Rejected? ==> e.error == Some(ErrorMessage(r.error)) && e.result.None?)
  {
  }

  /** Batching splits over concatenation: the entries of a later call do not depend on the earlier calls. */
  lemma BatchAppend(clients: map<string, Client>, session: string, f1: seq<FunctionCall>, f2: seq<FunctionCall>,
                    envOf: nat -> Environment)
    ensures Batch(clients, session, f1 + f2, envOf) ==
              Batch(clients, session, f1, envOf) + Batch(clients, session, f2, (k: nat) => envOf(|f1| + k))
  {
    var a := Batch(clients, session, f1 + f2, envOf);
    var b := Batch(clients, session, f1, envOf) + Batch(clients, session, f2, (k: nat) => envOf(|f1| + k));
    assert |a| == |b|;
    forall k | 0 <= k < |a| ensures a[k] == b[k] {
      if k < |f1| {
        assert (f1 + f2)[k] == f1[k];
      } else {
        var j := k - |f1|;
        assert (f1 + f2)[k] == f2[j] && envOf(k) == envOf(|f1| + j);
      }
    }
  }

  /** Without a record with a page every entry fails with the "session not found" message. */
  lemma BatchWithoutSession(clients: map<string, Client>, session: string, functions: seq<FunctionCall>,
                            envOf: nat -> Environment)
    requires session !in clients || clients[session].page.None?
    ensures forall k :: 0 <= k < |functions| ==>
              Batch(clients, session, functions, envOf)[k] ==
                BatchEntry(false, functions[k].functionName, None, Some("Sessão não encontrada ou página não inicializada"))
  {
    forall k | 0 <= k < |functions|
      ensures CallOutcome(clients, session, functions[k], envOf(k)) == Rejected(NoSession)
    {
      var call := functions[k];
      var r := Invoke(clients, session, call.functionName, call.params, call.timeout, envOf(k));
    }
  }
}

/** Bounded provider retry inside one execution, and how the orchestrator classifies what came back. */
module LlmPolicy {
  import opened Base

  datatype Reply = Response | TransportError | TerminalError | SdkUnexpectedError

  /** What JSON extraction, parsing and contract validation say about a response. */
  datatype Verdict = ParseFailed | Rejected | Accepted

  /** How one execution of the pipeline ends for the runtime. */
  datatype Outcome = Retryable | Terminal | Analysed

  /** The provider answers its n-th call with script(n). */
  class Provider {
    const script: nat -> Reply
    var calls: nat

    constructor (script: nat -> Reply)
      ensures this.script == script && calls == 0
    {
      this.script := script;
      calls := 0;
    }

    method Generate() returns (r: Reply)
      modifies this
      ensures r == script(old(calls)) && calls == old(calls) + 1
    {
      r := script(calls);
      calls := calls + 1;
    }
  }

  function CallLimit(maxAttempts: int): (r: nat)
    ensures r >= 1 && r >= maxAttempts && (r == 1 || r == maxAttempts)
  {
    if maxAttempts < 1 then 1 else maxAttempts
  }

  /** n calls from position c: all but the last were transport errors, and the last is one only if the budget is spent. */
  predicate StopsAfter(script: nat -> Reply, c: nat, limit: nat, n: nat) {
    && 1 <= n <= limit
    && (forall k :: c <= k < c + n - 1 ==> script(k) == TransportError)
    && (script(c + n - 1) == TransportError ==> n == limit)
  }

  lemma NoEarlierStop(script: nat -> Reply, c: nat, limit: nat, n: nat, m: nat)
    requires StopsAfter(script, c, limit, m) && 1 <= n < m
    ensures !StopsAfter(script, c, limit, n)
  {
    assert script(c + n - 1) == TransportError;
  }

  /** The stopping point is determined by the provider's answers. */
  lemma StopIsUnique(script: nat -> Reply, c: nat, limit: nat, n: nat, m: nat)
    requires StopsAfter(script, c, limit, n) && StopsAfter(script, c, limit, m)
    ensures n == m
  {
    if n < m {
      NoEarlierStop(script, c, limit, n, m);
    }
    if m < n {
      NoEarlierStop(script, c, limit, m, n);
    }
  }

  /** Returns the provider's first answer that is not a transport error, or the last transport error. */
  method GenerateWithRetry(llm: Provider, maxAttempts: int) returns (r: Reply)
    modifies llm
    ensures llm.calls > old(llm.calls)
    ensures StopsAfter(llm.script, old(llm.calls), CallLimit(maxAttempts), llm.calls - old(llm.calls))
    ensures r == llm.script(llm.calls - 1)
  {
    var attempts := CallLimit(maxAttempts);
    var last: Option<Reply> := None;
    for attempt := 1 to attempts + 1
      invariant llm.calls == old(llm.calls) + attempt - 1
      invariant forall k :: old(llm.calls) <= k < llm.calls ==> llm.script(k) == TransportError
      invariant attempt <= attempts
      invariant attempt == 1 || last.Some?
    {
      r := llm.Generate();
      if r == TransportError {
        last := Some(r);
        if attempt == attempts { return r; }
      } else {
        return r;
      }
    }
    // The two raise statements after the loop are never reached.
    assert false;
  }

  function Classify(reply: Reply, verdict: Verdict): Outcome {
    match reply
    case TransportError => Retryable
    case TerminalError => Terminal
    case SdkUnexpectedError => Terminal
    case Response => if verdict == Accepted then Analysed else Terminal
  }

  /**
   * How an execution ends that made the calls from position c up to d. It is retryable exactly if the whole budget went
   * on transport errors, and an analysis exactly if the last answer is a response that was accepted; whatever else
   * comes back is final, as are inputs that cannot be loaded, which cost no call.
   */
  predicate EndsAs(script: nat -> Reply, c: nat, d: nat, limit: nat, loaded: bool, verdict: Verdict, outcome: Outcome) {
    if !loaded then d == c && outcome == Terminal
    else
      && c < d && StopsAfter(script, c, limit, d - c)
      && (outcome == Retryable <==> d - c == limit && forall k :: c <= k < d ==> script(k) == TransportError)
      && (outcome == Analysed <==> script(d - 1) == Response && verdict == Accepted)
  }

  lemma ClassifyEnds(script: nat -> Reply, c: nat, d: nat, limit: nat, verdict: Verdict)
    requires c < d && StopsAfter(script, c, limit, d - c)
    ensures EndsAs(script, c, d, limit, true, verdict, Classify(script(d - 1), verdict))
  {
    if script(d - 1) == TransportError {
      forall k | c <= k < d ensures script(k) == TransportError { }
    }
  }

  /** The provider's answers decide the end: two of them for one script are the same. */
  lemma EndIsUnique(
    script: nat -> Reply, c: nat, d: nat, d': nat, limit: nat, loaded: bool, verdict: Verdict, outcome: Outcome, outcome': Outcome)
    requires EndsAs(script, c, d, limit, loaded, verdict, outcome) && EndsAs(script, c, d', limit, loaded, verdict, outcome')
    ensures d == d' && outcome == outcome'
  {
    if loaded { StopIsUnique(script, c, limit, d - c, d' - c); }
  }
}

/** `Generator`: the generate-run-retry loop.  A run asks the client for
    code, runs it, and retries while its counter is within the iteration
    limit, reporting one status per attempt, until the runner's output is
    empty.  The callback the caller passes is modelled by the sequence of
    statuses it receives, in order. */
module CodeGenerator {
  import opened Status
  import opened Collaborators

  /** `Generator.Result`. */
  datatype Result = Result(generatedCode: string, specifications: string, compliesSpecifications: bool)

  /** The computed `result` view of the loop's current `generated` and
      `output`: the code complies exactly when the runner printed nothing. */
  function ResultOf(generated: string, specs: string, output: string): (r: Result)
    ensures r.generatedCode == generated && r.specifications == specs
    ensures r.compliesSpecifications <==> |output| == 0
  {
    Result(generated, specs, output == "")
  }

  /** The status reported after an attempt on iteration `n` whose runner
      output was `output`. */
  function Report(n: int, output: string): (s: State)
    ensures s.currentIteration == n
    ensures s == SuccessOn(n)  // whatever the output: see `FailureOn`
  {
    if output == "" then SuccessOn(n) else FailureOn(n)
  }

  /** `generateCode`'s default `iterationLimit`. */
  const DefaultIterationLimit: int := 5

  // ---------------------------------------------------------------------
  // Reference specification of one run, over the sequences of codes the
  // client returns and outputs the runner returns, attempt by attempt.
  // ---------------------------------------------------------------------

  /** The most attempts a run may make: the unconditional first one plus
      one retry for each counter value 1 ..= limit. */
  function MaxAttempts(limit: int): (n: nat)
    ensures n == (if limit < 0 then 0 else limit) + 1
  {
    if limit < 1 then 1 else limit + 1
  }

  /** The number of attempts a run makes within a budget of `budget`
      attempts: the first attempt whose output is empty, or the whole
      budget if none is. */
  function Attempts(outs: seq<string>, budget: nat): (n: nat)
    requires 1 <= budget <= |outs|
    ensures 1 <= n <= budget
    ensures forall i :: 0 <= i < n - 1 ==> outs[i] != ""
    ensures n < budget ==> outs[n - 1] == ""
  {
    AttemptsFrom(outs, 0, budget)
  }

  /** The attempts counted from attempt `i + 1` on: the first attempt from
      there whose output is empty, or the whole budget if none is. */
  function AttemptsFrom(outs: seq<string>, i: nat, budget: nat): (n: nat)
    requires i < budget <= |outs|
    ensures i + 1 <= n <= budget
    ensures forall j :: i <= j < n - 1 ==> outs[j] != ""
    ensures n < budget ==> outs[n - 1] == ""
    decreases budget - i
  {
    if outs[i] == "" || i + 1 == budget then i + 1 else AttemptsFrom(outs, i + 1, budget)
  }

  /** The statuses reported for the first `n` attempts. */
  function Reports(outs: seq<string>, n: nat): (rs: seq<State>)
    requires n <= |outs|
    ensures |rs| == n
    ensures forall i :: 0 <= i < n ==> rs[i].currentIteration == i + 1
  {
    seq(n, i requires 0 <= i < n => Report(i + 1, outs[i]))
  }

  /** Everything a run reports: `loading`, then one status per attempt. */
  function Trace(outs: seq<string>, limit: int): (t: seq<State>)
    requires |outs| >= MaxAttempts(limit)
    ensures |t| == Attempts(outs, MaxAttempts(limit)) + 1
    ensures t[0] == LoadingState()
  {
    [LoadingState()] + Reports(outs, Attempts(outs, MaxAttempts(limit)))
  }

  /** The result a run returns: the view of its last attempt. */
  function Outcome(specs: string, codes: seq<string>, outs: seq<string>, limit: int): (r: Result)
    requires |codes| >= MaxAttempts(limit) && |outs| >= MaxAttempts(limit)
    ensures r.specifications == specs
    ensures !r.compliesSpecifications ==> forall i :: 0 <= i < MaxAttempts(limit) ==> outs[i] != ""
  {
    var n := Attempts(outs, MaxAttempts(limit));
    ResultOf(codes[n - 1], specs, outs[n - 1])
  }

  // ---------------------------------------------------------------------
  // The loop.
  // ---------------------------------------------------------------------

  /** `Generator`: a client and a runner. */
  datatype Generator = Generator(client: Client, runner: Runner) {

    /** `generateCode(from:iterationLimit:stateCallback:)`.  `reported` is
        what `stateCallback` receives, in order.  The run's reports and
        result are those of the reference specification fed with the codes
        this client returns and the outputs this runner gives from their
        current counters on, and the client is called exactly once per
        attempt (never after a pass), as is the runner. */
    method GenerateCode(specs: string, iterationLimit: int := DefaultIterationLimit) returns (result: Result, reported: seq<State>)
      modifies client, runner
      ensures var budget := MaxAttempts(iterationLimit);
              var outs := Outputs(runner.kind, old(runner.currentIteration), budget);
              var codes := Codes(client.kind, old(client.calls), budget);
              reported == Trace(outs, iterationLimit) &&
              result == Outcome(specs, codes, outs, iterationLimit) &&
              client.calls == old(client.calls) + Attempts(outs, budget) &&
              runner.currentIteration == old(runner.currentIteration) +
                (if runner.kind.StubRunner? then Attempts(outs, budget) else 0)
    {
      ghost var budget := MaxAttempts(iterationLimit);
      ghost var outs := Outputs(runner.kind, runner.currentIteration, budget);
      ghost var codes := Codes(client.kind, client.calls, budget);
      ghost var start := runner.currentIteration;
      ghost var sent := client.calls;

      reported := [LoadingState()];
      var generated := client.Send(specs);
      var output := runner.Run(generated);
      assert generated == codes[0] && output == outs[0];
      ReportsGrow(outs, 0);

      if ResultOf(generated, specs, output).compliesSpecifications {
        reported := reported + [SuccessOn(1)];
        RunEndsAt(specs, codes, outs, iterationLimit, 1);
        return ResultOf(generated, specs, output), reported;
      } else {
        reported := reported + [FailureOn(1)];
      }

      // Initialising `state` does not fire its `didSet`: nothing is reported.
      var state := LoadingState();

      while state.currentIteration <= iterationLimit
        invariant 1 <= state.currentIteration <= budget
        invariant forall i :: 0 <= i < state.currentIteration ==> outs[i] != ""
        invariant output == outs[state.currentIteration - 1]
        invariant generated == codes[state.currentIteration - 1]
        invariant reported == [LoadingState()] + Reports(outs, state.currentIteration)
        invariant runner.currentIteration == start + (if runner.kind.StubRunner? then state.currentIteration else 0)
        invariant client.calls == sent + state.currentIteration
        decreases budget - state.currentIteration
      {
        generated := client.Send(specs);
        output := runner.Run(generated);
        assert generated == codes[state.currentIteration];
        assert output == outs[state.currentIteration];

        var currentIteration := state.currentIteration + 1;
        state := if ResultOf(generated, specs, output).compliesSpecifications
          then SuccessOn(currentIteration)
          else FailureOn(currentIteration);
        // `didSet`
        reported := reported + [state];
        ReportsGrow(outs, currentIteration - 1);

        if ResultOf(generated, specs, output).compliesSpecifications {
          break;
        }
      }
      RunEndsAt(specs, codes, outs, iterationLimit, state.currentIteration);
      result := ResultOf(generated, specs, output);
    }
  }

  /** One more attempt adds its status to the end of the reports. */
  lemma ReportsGrow(outs: seq<string>, n: nat)
    requires n < |outs|
    ensures Reports(outs, n + 1) == Reports(outs, n) + [Report(n + 1, outs[n])]
  {
  }

  /** A run whose first pass is attempt `n`, or which fails all `n`
      attempts of its budget, makes `n` attempts, reports `loading` and the
      statuses of those attempts, and returns the view of attempt `n`. */
  lemma RunEndsAt(specs: string, codes: seq<string>, outs: seq<string>, limit: int, n: nat)
    requires |codes| >= MaxAttempts(limit) && |outs| >= MaxAttempts(limit)
    requires 1 <= n <= MaxAttempts(limit)
    requires forall i :: 0 <= i < n - 1 ==> outs[i] != ""
    requires outs[n - 1] == "" || n == MaxAttempts(limit)
    ensures Attempts(outs, MaxAttempts(limit)) == n
    ensures Trace(outs, limit) == [LoadingState()] + Reports(outs, n)
    ensures Outcome(specs, codes, outs, limit) == ResultOf(codes[n - 1], specs, outs[n - 1])
  {
  }

  // ---------------------------------------------------------------------
  // Properties of a run.
  // ---------------------------------------------------------------------

  /** `loading` on iteration 1 is always reported first, and the first
      attempt is always made and reported, whatever the limit (even one
      below 1). */
  lemma FirstAttemptIsUnconditional(outs: seq<string>, limit: int)
    requires |outs| >= MaxAttempts(limit)
    ensures |Trace(outs, limit)| >= 2
    ensures Trace(outs, limit)[0] == LoadingState() && Trace(outs, limit)[0].currentIteration == 1
    ensures Trace(outs, limit)[1] == Report(1, outs[0])
  {
  }

  /** A run whose first output is empty reports exactly `loading` and
      `success(onIteration: 1)`, makes one attempt (so, by `GenerateCode`,
      one client call and one runner call), and returns the first code as
      complying. */
  lemma SuccessOnFirstAttempt(specs: string, codes: seq<string>, outs: seq<string>, limit: int)
    requires |codes| >= MaxAttempts(limit) && |outs| >= MaxAttempts(limit)
    requires outs[0] == ""
    ensures Attempts(outs, MaxAttempts(limit)) == 1
    ensures Trace(outs, limit) == [LoadingState(), SuccessOn(1)]
    ensures Outcome(specs, codes, outs, limit) == Result(codes[0], specs, true)
  {
  }

  /** The result is the view of the last attempt: it carries that
      attempt's code and complies exactly when that attempt's output is
      empty, that is, exactly when some attempt within the budget passed. */
  lemma ResultReflectsLastAttempt(specs: string, codes: seq<string>, outs: seq<string>, limit: int)
    requires |codes| >= MaxAttempts(limit) && |outs| >= MaxAttempts(limit)
    ensures var n := Attempts(outs, MaxAttempts(limit));
            Outcome(specs, codes, outs, limit).generatedCode == codes[n - 1] &&
            Outcome(specs, codes, outs, limit).specifications == specs &&
            (Outcome(specs, codes, outs, limit).compliesSpecifications <==> outs[n - 1] == "")
    ensures Outcome(specs, codes, outs, limit).compliesSpecifications <==>
            exists i :: 0 <= i < MaxAttempts(limit) && outs[i] == ""
  {
  }

  /** The run terminates within its budget: it makes between 1 and
      `max(limit, 0) + 1` attempts, so at most `max(limit, 0)` retries, and
      the statuses after `loading` carry the iterations 1, 2, 3, ... in
      strictly increasing order, one per attempt. */
  lemma IterationsCountUp(outs: seq<string>, limit: int)
    requires |outs| >= MaxAttempts(limit)
    ensures 2 <= |Trace(outs, limit)| <= MaxAttempts(limit) + 1
    ensures |Trace(outs, limit)| - 1 == Attempts(outs, MaxAttempts(limit))
    ensures forall k :: 1 <= k < |Trace(outs, limit)| ==> Trace(outs, limit)[k].currentIteration == k
    ensures forall i, j :: 1 <= i < j < |Trace(outs, limit)| ==>
              Trace(outs, limit)[i].currentIteration < Trace(outs, limit)[j].currentIteration
  {
  }

  /** If the first empty output comes on attempt `n` within the budget,
      the run reports `loading`, `failure(onIteration: 1)` ...
      `failure(onIteration: n - 1)`, `success(onIteration: n)` and returns
      attempt `n`'s code as complying. */
  lemma SucceedsOnAttempt(specs: string, codes: seq<string>, outs: seq<string>, limit: int, n: nat)
    requires |codes| >= MaxAttempts(limit) && |outs| >= MaxAttempts(limit)
    requires 1 <= n <= MaxAttempts(limit)
    requires forall i :: 0 <= i < n - 1 ==> outs[i] != ""
    requires outs[n - 1] == ""
    ensures Attempts(outs, MaxAttempts(limit)) == n
    ensures Trace(outs, limit) == [LoadingState()] + seq(n - 1, i => FailureOn(i + 1)) + [SuccessOn(n)]
    ensures Outcome(specs, codes, outs, limit) == Result(codes[n - 1], specs, true)
  {
    RunEndsAt(specs, codes, outs, limit, n);
    var expected := seq(n - 1, i => FailureOn(i + 1)) + [SuccessOn(n)];
    forall k | 0 <= k < n ensures Reports(outs, n)[k] == expected[k] {
      assert Reports(outs, n)[k] == Report(k + 1, outs[k]);
    }
  }

  /** If no output within the budget is empty, the run makes every attempt
      it may, reports `failure` on each, and returns a non-complying
      result: exhausting the budget is not an error. */
  lemma BudgetExhausted(specs: string, codes: seq<string>, outs: seq<string>, limit: int)
    requires |codes| >= MaxAttempts(limit) && |outs| >= MaxAttempts(limit)
    requires forall i :: 0 <= i < MaxAttempts(limit) ==> outs[i] != ""
    ensures Attempts(outs, MaxAttempts(limit)) == MaxAttempts(limit)
    ensures Trace(outs, limit) == [LoadingState()] + seq(MaxAttempts(limit), i => FailureOn(i + 1))
    ensures Outcome(specs, codes, outs, limit) == Result(codes[MaxAttempts(limit) - 1], specs, false)
  {
    RunEndsAt(specs, codes, outs, limit, MaxAttempts(limit));
    var expected := seq(MaxAttempts(limit), i => FailureOn(i + 1));
    forall k | 0 <= k < MaxAttempts(limit) ensures Reports(outs, MaxAttempts(limit))[k] == expected[k] {
      assert Reports(outs, MaxAttempts(limit))[k] == Report(k + 1, outs[k]);
    }
  }

  /** Because `failure(onIteration:)` builds a `.success` status, every
      status a run reports after `loading` is tagged `.success`: the
      reports alone never tell a failing attempt from a passing one; only
      the result's `compliesSpecifications` does. */
  lemma ReportsNeverTaggedFailure(outs: seq<string>, limit: int)
    requires |outs| >= MaxAttempts(limit)
    ensures forall k :: 1 <= k < |Trace(outs, limit)| ==> Trace(outs, limit)[k].tag == Success
    ensures forall k :: 0 <= k < |Trace(outs, limit)| ==> Trace(outs, limit)[k].tag != Failure
  {
  }
}

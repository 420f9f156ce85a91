/** The two scenarios `TestDrivenAIGeneratorTests` checks, each as a
    method whose postcondition is the test's expectations, and the second
    one generalised to any `StubRunner` and any limit. */
module GeneratorTests {
  import opened Status
  import opened Collaborators
  import opened CodeGenerator

  /** `anySpecs()`: the specification text the tests pass, the source of
      a `test_adder` test with the common margin of the multi-line literal
      stripped.  The tests only need it to be some non-empty text. */
  function AnySpecs(): (specs: string)
    ensures |specs| > 0
  {
    "func test_adder() {\n    let sut = Adder(1,2)\n    assert(sut.result == 3)\n}"
  }

  /** `test_generator_delivers_success_output`: with a `DummyClient`, a
      `DummyRunner` and the default limit, the result complies, the
      callback receives `loading` and `success(onIteration: 1)` only, and
      the client is asked for code once. */
  method DeliversSuccessOutput() returns (result: Result, capturedStates: seq<State>, clientCalls: nat)
    ensures result.compliesSpecifications
    ensures capturedStates == [LoadingState(), SuccessOn(1)]
    ensures clientCalls == 1
  {
    var client := new Client.Dummy();
    var runner := new Runner.Dummy();
    var sut := Generator(client, runner);
    result, capturedStates := sut.GenerateCode(AnySpecs());
    clientCalls := client.calls;
    var budget := MaxAttempts(DefaultIterationLimit);
    SuccessOnFirstAttempt(AnySpecs(), Codes(DummyClient, 0, budget), Outputs(DummyRunner, 1, budget), DefaultIterationLimit);
  }

  /** A run with a fresh client of kind `clientKind` and a fresh
      `StubRunner(succedingOnIteration: n)`: it complies exactly when `n`
      is an attempt within the budget.  Then the callback receives
      `loading`, `failure` on iterations 1 to `n - 1` and `success` on
      iteration `n`, and the client is called `n` times; otherwise the
      callback receives `failure` on every iteration of the budget, which
      is also the number of client calls.  The result carries the code of
      the client's last call. */
  method RunWithStub(clientKind: ClientKind, n: int, iterationLimit: int)
    returns (result: Result, capturedStates: seq<State>, clientCalls: nat)
    ensures result.compliesSpecifications <==> 1 <= n <= MaxAttempts(iterationLimit)
    ensures clientCalls == if 1 <= n <= MaxAttempts(iterationLimit) then n else MaxAttempts(iterationLimit)
    ensures result.generatedCode == CodeOn(clientKind, clientCalls - 1)
    ensures result.specifications == AnySpecs()
    ensures 1 <= n <= MaxAttempts(iterationLimit) ==>
              capturedStates == [LoadingState()] + seq(n - 1, i => FailureOn(i + 1)) + [SuccessOn(n)]
    ensures !(1 <= n <= MaxAttempts(iterationLimit)) ==>
              capturedStates == [LoadingState()] + seq(MaxAttempts(iterationLimit), i => FailureOn(i + 1))
  {
    var client: Client;
    if clientKind.ScriptedClient? {
      client := new Client.Scripted(clientKind.codes);
    } else {
      client := new Client.Dummy();
    }
    var runner := new Runner.Stub(n);
    var sut := Generator(client, runner);
    result, capturedStates := sut.GenerateCode(AnySpecs(), iterationLimit);
    clientCalls := client.calls;
    var budget := MaxAttempts(iterationLimit);
    var codes := Codes(clientKind, 0, budget);
    var outs := Outputs(StubRunner(n), 1, budget);
    if 1 <= n <= budget {
      forall i | 0 <= i < n - 1 ensures outs[i] != "" {
        StubPassesOnlyOnItsIteration(n, budget, i + 1);
      }
      StubPassesOnlyOnItsIteration(n, budget, n);
      SucceedsOnAttempt(AnySpecs(), codes, outs, iterationLimit, n);
    } else {
      forall i | 0 <= i < budget ensures outs[i] != "" {
        StubPassesOnlyOnItsIteration(n, budget, i + 1);
      }
      BudgetExhausted(AnySpecs(), codes, outs, iterationLimit);
    }
  }

  /** `test_generator_delivers_success_output_after_N_iterations`: with a
      `DummyClient`, a `StubRunner(succedingOnIteration: 3)` and limit 3,
      the result complies and the callback receives `loading`,
      `failure(onIteration: 1)`, `failure(onIteration: 2)` and
      `success(onIteration: 3)`. */
  method DeliversSuccessOutputAfterNIterations() returns (result: Result, capturedStates: seq<State>)
    ensures result.compliesSpecifications
    ensures capturedStates == [LoadingState(), FailureOn(1), FailureOn(2), SuccessOn(3)]
  {
    var clientCalls: nat;
    result, capturedStates, clientCalls := RunWithStub(DummyClient, 3, 3);
    assert seq(2, i => FailureOn(i + 1)) == [FailureOn(1), FailureOn(2)];
  }
}

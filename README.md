# Test-driven AI code generator: the generate-run-retry loop

This project models `Generator.generateCode` from the Swift test target
`TestDrivenAIGeneratorTests`, together with its status type
`Generator.State`, its `Result`, the `Client` and `Runner` protocols it
depends on, and the test doubles `DummyClient`, `DummyRunner` and
`StubRunner` that the two tests use.

A run of the generator:

1. reports `loading` (iteration 1) through the state callback;
2. makes one unconditional attempt: it asks the client for code and runs it;
3. if the runner's output is empty, reports `success(onIteration: 1)` and
   returns; otherwise reports `failure(onIteration: 1)`;
4. starts a counter `state` at `loading` (iteration 1) without reporting it,
   and while the counter is at most `iterationLimit` it asks for code, runs
   it, sets `state` to `success`/`failure` on the counter plus one (which
   reports it through `didSet`) and stops at the first empty output;
5. returns the `Result` view of the last attempt: its code, the
   specification, and `compliesSpecifications` = "the last output is empty".

So a run makes at most `max(iterationLimit, 0) + 1` attempts, and the loop's
first report is on iteration 2.

Modules:

- `Status` (`status.dfy`): `Generator.State` and `_State`, `State.loading`,
  and the `success`/`failure` helpers.
- `Collaborators` (`collaborators.dfy`): each protocol is a class over the
  closed set of its conformers. `Client` is `DummyClient` or a scripted
  client that answers its calls with given codes in order, and it counts
  the `send` calls it answers. `Runner` is `DummyRunner` or `StubRunner`,
  and it holds `StubRunner`'s call counter `currentIteration`.
- `CodeGenerator` (`generator.dfy`): `Result`, a reference specification of
  one run, and `Generator.GenerateCode`. The reference specification takes
  the sequence of codes the client returns and the sequence of outputs the
  runner returns, attempt by attempt, and gives `Attempts`, `Trace` (the
  statuses reported) and `Outcome` (the result). `GenerateCode` is the loop
  itself, with its local `generated`, `output` and `state` variables. Its
  postcondition equates what it reports and returns with the reference
  specification fed with the codes this client returns and the outputs
  this runner gives, and it counts the client calls the run makes. The
  lemmas state the run's properties on that specification for any codes
  and any outputs.
- `GeneratorTests` (`generator_tests.dfy`): the two tests of
  `TestDrivenAIGeneratorTests`, as methods whose postconditions are the
  tests' expectations, and the stub scenario for any `succedingOnIteration`
  and any limit.

The state callback is modelled by the sequence of statuses it receives.
`GenerateCode` returns that sequence as `reported`, as the tests'
`capturedStates.append` builds it.

Two behaviours are modelled exactly as the code has them:

- `State.failure(onIteration:)` builds a status tagged `.success`. A
  "failure" and a "success" on the same iteration are therefore equal, and
  no reported status is ever tagged `.failure` (`Status.HelpersAgree`,
  `CodeGenerator.ReportsNeverTaggedFailure`). The second test's expectation
  holds, but it cannot tell failures from successes.
- `state` starts as `State.loading` (iteration 1), and initialising it does
  not fire `didSet`. The loop's reports therefore start at iteration 2.

In the code, `State` holds only a tag and an iteration, and `Client.send`
cannot fail.

## Model

| member | source | states |
|---|---|---|
| `Status.HelpersAgree` | TestDrivenAIGeneratorTests/TestDrivenAIGeneratorTests.swift:32-38 | `success(onIteration: n)` and `failure(onIteration: n)` both carry iteration `n` and the tag `.success`; a failure equals a success exactly when their iterations are equal |
| `Status.HelpersAreNotLoading` | TestDrivenAIGeneratorTests/TestDrivenAIGeneratorTests.swift:21-38 | no status built by the helpers equals `State.loading` (tag `.loading`, iteration 1) |
| `Status.LoadingState` | TestDrivenAIGeneratorTests/TestDrivenAIGeneratorTests.swift:31 | `State.loading` is the tag `.loading` on iteration 1 |
| `Status.SuccessOn` | TestDrivenAIGeneratorTests/TestDrivenAIGeneratorTests.swift:32-34 | `success(onIteration: n)` is tagged `.success` and carries iteration `n` |
| `Status.FailureOn` | TestDrivenAIGeneratorTests/TestDrivenAIGeneratorTests.swift:36-38 | `failure(onIteration: n)` carries iteration `n` and, as written, equals `success(onIteration: n)` |
| `Collaborators.CodeOn` | TestDrivenAIGeneratorTests/TestDrivenAIGeneratorTests.swift:171-172 | a `DummyClient` answers every call with ""; a scripted client answers call k with the k-th code of its script |
| `Collaborators.Client.Dummy` | TestDrivenAIGeneratorTests/TestDrivenAIGeneratorTests.swift:171-173 | builds a client of kind `DummyClient` that has answered no call yet |
| `Collaborators.Client.Scripted` | TestDrivenAIGeneratorTests/TestDrivenAIGeneratorTests.swift:89-91 | builds a client that answers with the given codes, in order, and has answered no call yet |
| `Collaborators.Client.Send` | TestDrivenAIGeneratorTests/TestDrivenAIGeneratorTests.swift:171-173 | the code is the kind's answer to the call numbered by the counter before the call, whatever the specification; each call adds exactly 1 to the counter |
| `Collaborators.Codes` | TestDrivenAIGeneratorTests/TestDrivenAIGeneratorTests.swift:48-71 | the codes a client of a given kind returns on `count` successive `send` calls from a given call number: the i-th is `CodeOn(kind, start + i)` |
| `Collaborators.OutputOn` | TestDrivenAIGeneratorTests/TestDrivenAIGeneratorTests.swift:157-168 | a runner's output is empty exactly when it is a `DummyRunner` or a `StubRunner` whose counter equals `succedingOnIteration`; otherwise it is "failure" |
| `Collaborators.StubPassesOnlyOnItsIteration` | TestDrivenAIGeneratorTests/TestDrivenAIGeneratorTests.swift:150-169 | a fresh `StubRunner(succedingOnIteration: n)` answers its k-th call with "" exactly when k = n, and with "failure" otherwise |
| `Collaborators.Outputs` | TestDrivenAIGeneratorTests/TestDrivenAIGeneratorTests.swift:49-72 | the outputs a runner of a given kind gives on `count` successive `run` calls from a given counter value: the i-th is `OutputOn(kind, start + i)` |
| `Collaborators.Runner.Dummy` | TestDrivenAIGeneratorTests/TestDrivenAIGeneratorTests.swift:175-177 | builds a runner of kind `DummyRunner` |
| `Collaborators.Runner.Stub` | TestDrivenAIGeneratorTests/TestDrivenAIGeneratorTests.swift:150-156 | builds a `StubRunner` with the given `succedingOnIteration` and its counter at 1 |
| `Collaborators.Runner.ShouldReturnSuccess` | TestDrivenAIGeneratorTests/TestDrivenAIGeneratorTests.swift:157-159 | a `StubRunner` passes this call exactly when its output at the current counter is empty, that is, when the counter equals `succedingOnIteration` |
| `Collaborators.Runner.Run` | TestDrivenAIGeneratorTests/TestDrivenAIGeneratorTests.swift:161-168 | the output is the kind's output at the counter before the call; a `StubRunner`'s counter goes up by exactly 1 on every call, pass or fail, and a `DummyRunner` changes nothing |
| `CodeGenerator.ResultOf` | TestDrivenAIGeneratorTests/TestDrivenAIGeneratorTests.swift:50-56 | the `result` view carries the current code and the specification, and complies exactly when the current output is empty |
| `CodeGenerator.Report` | TestDrivenAIGeneratorTests/TestDrivenAIGeneratorTests.swift:74-77 | the status reported after an attempt carries that attempt's iteration, and, whatever the output, equals `success` on that iteration |
| `CodeGenerator.DefaultIterationLimit` | TestDrivenAIGeneratorTests/TestDrivenAIGeneratorTests.swift:44 | the default `iterationLimit` is 5; `GenerateCode` takes it when the caller gives no limit |
| `CodeGenerator.MaxAttempts` | TestDrivenAIGeneratorTests/TestDrivenAIGeneratorTests.swift:65-77 | a run may make `max(iterationLimit, 0) + 1` attempts: the first attempt plus one retry per counter value 1 to `iterationLimit` |
| `CodeGenerator.Attempts` | TestDrivenAIGeneratorTests/TestDrivenAIGeneratorTests.swift:69-82 | the number of attempts is between 1 and the budget; every attempt before the last failed; a last attempt short of the budget passed (the loop stops at the first empty output) |
| `CodeGenerator.AttemptsFrom` | TestDrivenAIGeneratorTests/TestDrivenAIGeneratorTests.swift:69-82 | counting from attempt i + 1, the attempts end at the first empty output or at the budget: every attempt before the last failed, and a last attempt short of the budget passed |
| `CodeGenerator.Reports` | TestDrivenAIGeneratorTests/TestDrivenAIGeneratorTests.swift:58-77 | the statuses of the first n attempts: one per attempt, the k-th (from 1) being `Report(k, outs[k-1])` and so on iteration k |
| `CodeGenerator.Trace` | TestDrivenAIGeneratorTests/TestDrivenAIGeneratorTests.swift:47-84 | everything a run reports: `loading`, then `Report(k, outs[k-1])` for k = 1 … `Attempts(outs, MaxAttempts(limit))`, so one status more than the attempts made |
| `CodeGenerator.Outcome` | TestDrivenAIGeneratorTests/TestDrivenAIGeneratorTests.swift:50-84 | the result of a run: `ResultOf` the last attempt's code and output; it carries the specification, and a non-complying result means every attempt of the budget failed |
| `CodeGenerator.RunEndsAt` | TestDrivenAIGeneratorTests/TestDrivenAIGeneratorTests.swift:58-84 | a run whose first pass is attempt n, or that fails all n attempts of its budget, makes n attempts, reports `loading` and those n statuses, and returns attempt n's view |
| `CodeGenerator.Generator.GenerateCode` | TestDrivenAIGeneratorTests/TestDrivenAIGeneratorTests.swift:42-85 | the statuses reported are the reference `Trace` and the result is the reference `Outcome`, both for the codes this client returns from its current call count on and the outputs this runner gives from its current counter on; the client is called exactly once per attempt, never after a pass, and a `StubRunner`'s counter goes up by exactly the number of attempts |
| `CodeGenerator.FirstAttemptIsUnconditional` | TestDrivenAIGeneratorTests/TestDrivenAIGeneratorTests.swift:47-63 | the first status reported is `loading` on iteration 1, and the first attempt is always made and reported, even with a limit below 1 |
| `CodeGenerator.SuccessOnFirstAttempt` | TestDrivenAIGeneratorTests/TestDrivenAIGeneratorTests.swift:58-60 | if the first output is empty, the run makes exactly one attempt (so, with `GenerateCode`, one client call), the reports are exactly `[loading, success(1)]`, and the result is the first code and complies |
| `CodeGenerator.ResultReflectsLastAttempt` | TestDrivenAIGeneratorTests/TestDrivenAIGeneratorTests.swift:50-56 | the result carries the last attempt's code and complies exactly when the last output is empty, which is exactly when some attempt within the budget passed (both directions) |
| `CodeGenerator.IterationsCountUp` | TestDrivenAIGeneratorTests/TestDrivenAIGeneratorTests.swift:65-82 | the run terminates after 1 to `max(limit, 0) + 1` attempts with one report per attempt; the k-th report after `loading` is on iteration k, so iterations strictly increase |
| `CodeGenerator.SucceedsOnAttempt` | TestDrivenAIGeneratorTests/TestDrivenAIGeneratorTests.swift:69-82 | if the first empty output comes on attempt n within the budget, the reports are `loading, failure(1) … failure(n-1), success(n)` and the result is attempt n's code and complies |
| `CodeGenerator.BudgetExhausted` | TestDrivenAIGeneratorTests/TestDrivenAIGeneratorTests.swift:69-84 | if no output within the budget is empty, every allowed attempt is made and reported as `failure`, and the result, the last attempt's code, does not comply |
| `CodeGenerator.ReportsNeverTaggedFailure` | TestDrivenAIGeneratorTests/TestDrivenAIGeneratorTests.swift:74-77 | because of the failure helper's tag, every status reported after `loading` is tagged `.success`, and none is tagged `.failure` |
| `GeneratorTests.AnySpecs` | TestDrivenAIGeneratorTests/TestDrivenAIGeneratorTests.swift:137-144 | `anySpecs()` is the non-empty source of `test_adder` |
| `GeneratorTests.DeliversSuccessOutput` | TestDrivenAIGeneratorTests/TestDrivenAIGeneratorTests.swift:101-111 | with `DummyClient`, `DummyRunner` and the default limit 5, the result complies, the callback receives `[loading, success(1)]`, and the client is called once |
| `GeneratorTests.RunWithStub` | TestDrivenAIGeneratorTests/TestDrivenAIGeneratorTests.swift:113-135 | with a fresh client of any kind, a fresh `StubRunner(succedingOnIteration: n)` and any limit, the result complies exactly when 1 ≤ n ≤ max(limit, 0) + 1. Then the callback receives `loading, failure(1) … failure(n-1), success(n)` and the client is called n times; otherwise the callback receives `failure` on every iteration of the budget and the client is called once per iteration. The result carries the specification and the code of the client's last call |
| `GeneratorTests.DeliversSuccessOutputAfterNIterations` | TestDrivenAIGeneratorTests/TestDrivenAIGeneratorTests.swift:113-135 | with `StubRunner(succedingOnIteration: 3)` and limit 3, the result complies and the callback receives `[loading, failure(1), failure(2), success(3)]` |

## Left out

- `async`/`await`: the client call is an ordinary sequential call. The run awaits each call before going on, and no other task shares the test doubles' state. The callback is modelled by the statuses it receives, in order, not by when it fires relative to the client and runner calls.
- Open protocols: `Client` and `Runner` are closed over the conformers of the test target, plus a scripted client. `GenerateCode`'s postcondition holds for those kinds only. The lemmas of `CodeGenerator` hold for any sequence of codes and outputs, but no lemma ties them to a conformer outside this set.
- The runner's `code` argument: every runner double ignores it, and so does the model.
- The `Testing` macros (`@Test`, `#expect`): each test is a method whose postcondition is the test's expectations.
- `GeminiClientTests.swift` (HTTP client stub, shared singleton, URL building) and `APIKeys.swift` (reading a property list from the bundle): I/O plumbing outside the loop, not part of this model.
- Generation failures: `Client.send` is non-throwing, so the code has no failure path for the model to capture.
- `CodeGenerator.Generator.GenerateCode`: does not model Swift's 64-bit `Int` overflow trap. Integers here are unbounded. `state.currentIteration + 1` (`TestDrivenAIGeneratorTests.swift:74`) traps in Swift only when `iterationLimit` is `Int.max`, and the model instead keeps counting.
- `Collaborators.Runner.Run`: does not model the overflow trap of `StubRunner`'s `currentIteration += 1` (`TestDrivenAIGeneratorTests.swift:166`), which needs `Int.max` calls from a fresh runner.

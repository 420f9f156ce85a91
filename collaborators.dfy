/** The generator's two collaborators, the `Client` and `Runner` protocols,
    as the test doubles that conform to them: `DummyClient`, `DummyRunner`
    and `StubRunner`, plus a scripted client.  Without open protocols, each
    protocol is a class over the closed set of its conformers. */
module Collaborators {

  /** Which `Client` conformer a client object is: the test target's
      `DummyClient`, which answers every specification with "", or a
      scripted client that answers its calls with the codes of a script in
      order (and with "" once the script is used up), so that a run's
      result can be traced back to the attempt whose code it carries. */
  datatype ClientKind =
    | DummyClient
    | ScriptedClient(codes: seq<string>)

  /** The code a client of kind `kind` returns on its call numbered `call`
      (from 0). */
  function CodeOn(kind: ClientKind, call: nat): (code: string)
    ensures kind.DummyClient? ==> code == ""
    ensures kind.ScriptedClient? && call < |kind.codes| ==> code == kind.codes[call]
  {
    match kind
    case DummyClient => ""
    case ScriptedClient(codes) => if call < |codes| then codes[call] else ""
  }

  /** The codes a client of kind `kind` returns on `count` calls, starting
      with its call numbered `start`. */
  function Codes(kind: ClientKind, start: nat, count: nat): (codes: seq<string>)
  {
    seq(count, i requires 0 <= i < count => CodeOn(kind, start + i))
  }

  /** `Client`: generates code for a specification.  `calls` counts the
      `send` calls the client has answered; the test target's clients keep
      no state, so the counter only records what the generator asked. */
  class Client {
    const kind: ClientKind
    var calls: nat

    /** `DummyClient()`. */
    constructor Dummy()
      ensures kind == DummyClient && calls == 0
    {
      kind := DummyClient;
      calls := 0;
    }

    /** A client that answers with `codes`, in order. */
    constructor Scripted(codes: seq<string>)
      ensures kind == ScriptedClient(codes) && calls == 0
    {
      kind := ScriptedClient(codes);
      calls := 0;
    }

    /** `send(specs:)`: the code for the next call, whatever `specs` is;
        every call is counted. */
    method Send(specs: string) returns (code: string)
      modifies this
      ensures code == CodeOn(kind, old(calls))
      ensures calls == old(calls) + 1
    {
      code := CodeOn(kind, calls);
      calls := calls + 1;
    }
  }

  /** Which `Runner` conformer a runner object is. */
  datatype RunnerKind =
    | DummyRunner
    | StubRunner(succedingOnIteration: int)

  /** The output a runner of kind `kind` gives when its counter reads
      `counter`: a `DummyRunner` always passes ("" is a pass), a
      `StubRunner` passes exactly when its counter equals the iteration it
      was built to succeed on and otherwise says "failure". */
  function OutputOn(kind: RunnerKind, counter: int): (output: string)
    ensures output == "" <==> kind.DummyRunner? || kind.succedingOnIteration == counter
    ensures output == "" || output == "failure"
  {
    match kind
    case DummyRunner => ""
    case StubRunner(n) => if n == counter then "" else "failure"
  }

  /** The first `count` outputs of a runner of kind `kind` whose counter
      starts at `start`: call `i` (from 0) sees the counter at `start + i`. */
  function Outputs(kind: RunnerKind, start: int, count: nat): (outs: seq<string>)
  {
    seq(count, i requires 0 <= i < count => OutputOn(kind, start + i))
  }

  /** A freshly built `StubRunner(succedingOnIteration: n)` answers its
      `k`-th call (from 1) with "" exactly when `k == n`, and with
      "failure" otherwise. */
  lemma StubPassesOnlyOnItsIteration(n: int, count: nat, k: nat)
    requires 1 <= k <= count
    ensures Outputs(StubRunner(n), 1, count)[k - 1] == "" <==> k == n
    ensures Outputs(StubRunner(n), 1, count)[k - 1] != "" ==> Outputs(StubRunner(n), 1, count)[k - 1] == "failure"
  {
  }

  /** `Runner`: runs generated code and returns its test output, "" when
      the code passes.  `currentIteration` is `StubRunner`'s call counter;
      a `DummyRunner` has no state and leaves it alone. */
  class Runner {
    const kind: RunnerKind
    var currentIteration: int

    /** `DummyRunner()`. */
    constructor Dummy()
      ensures kind == DummyRunner && currentIteration == 1
    {
      kind := DummyRunner;
      currentIteration := 1;
    }

    /** `StubRunner(succedingOnIteration:)`: the counter starts at 1. */
    constructor Stub(succedingOnIteration: int)
      ensures kind == StubRunner(succedingOnIteration) && currentIteration == 1
    {
      kind := StubRunner(succedingOnIteration);
      currentIteration := 1;
    }

    /** `StubRunner.shoudReturnSuccess`: whether this call passes. */
    predicate ShouldReturnSuccess(): (pass: bool)
      requires kind.StubRunner?
      reads this
      ensures pass <==> OutputOn(kind, currentIteration) == ""
    {
      kind.succedingOnIteration == currentIteration
    }

    /** `run(_:)`: the output depends on the kind and the counter only,
        never on `code`; a `StubRunner` advances its counter on every call,
        pass or fail. */
    method Run(code: string) returns (output: string)
      modifies this
      ensures output == OutputOn(kind, old(currentIteration))
      ensures currentIteration == old(currentIteration) + (if kind.StubRunner? then 1 else 0)
    {
      match kind
      case DummyRunner =>
        output := "";
      case StubRunner(_) =>
        output := if ShouldReturnSuccess() then "" else "failure";
        currentIteration := currentIteration + 1;
    }
  }
}

/** The status a run of the generator reports through its callback:
    `Generator.State` and its nested `_State` enum.  Statuses are plain
    values compared structurally (the Swift type is `Equatable`). */
module Status {

  /** `Generator.State._State`. */
  datatype Tag = Loading | Failure | Success

  /** `Generator.State`: a tag and the iteration it was reported on. */
  datatype State = State(tag: Tag, currentIteration: int)

  /** `State.loading`: the tag `.loading` on iteration 1.  It is both the
      first status a run reports and the initial value of the loop's
      `state` variable. */
  function LoadingState(): (s: State)
    ensures s.tag == Loading && s.currentIteration == 1
  {
    State(Loading, 1)
  }

  /** `State.success(onIteration:)`. */
  function SuccessOn(onIteration: int): (s: State)
    ensures s.tag == Success && s.currentIteration == onIteration
  {
    State(Success, onIteration)
  }

  /** `State.failure(onIteration:)` AS WRITTEN: the helper builds a state
      tagged `.success`, not `.failure`. */
  function FailureOn(onIteration: int): (s: State)
    ensures s.currentIteration == onIteration
    ensures s == SuccessOn(onIteration)
  {
    State(Success, onIteration)
  }

  /** Both helpers carry the iteration they are given, and, because of the
      tag the failure helper uses, they build the same value: a success and
      a failure on one iteration cannot be told apart, while statuses of
      different iterations always can. */
  lemma HelpersAgree(n: int, m: int)
    ensures SuccessOn(n).currentIteration == n && FailureOn(n).currentIteration == n
    ensures SuccessOn(n).tag == Success && FailureOn(n).tag == Success
    ensures FailureOn(n) == SuccessOn(m) <==> n == m
  {
  }

  /** No helper-built status equals `loading`, whatever its iteration. */
  lemma HelpersAreNotLoading(n: int)
    ensures SuccessOn(n) != LoadingState() && FailureOn(n) != LoadingState()
  {
  }
}

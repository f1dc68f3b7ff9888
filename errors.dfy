/**
 * The crate's error handling (lib.rs): every driver call is checked with
 * check_pico_status!, which returns the status as the error when it is not
 * PICO_OK. A `Run` is what a step does at the driver boundary: the calls it
 * issues, in order, and its result.
 */
module Errors {
  import opened Ps4000Api

  /**
   * A driver status, or one of the software-level errors: a range that cannot
   * be resolved under the attenuation, a sample rate with no timebase, sample
   * counts the run-block call cannot take, and a timebase search that found
   * nothing the driver accepts.
   */
  datatype Error =
    | Pico(status: Status)
    | InvalidRange
    | InvalidSampleRate
    | InvalidSampleCounts
    | NoValidTimebase

  datatype Result<T> = Ok(value: T) | Err(error: Error)

  /** check_pico_status!: an error exactly when the status is not PICO_OK. */
  function CheckPicoStatus(s: Status): (r: Result<()>)
    ensures r.Ok? <==> s == OK
    ensures r.Err? ==> r.error == Pico(s)
  {
    if s == OK then Ok(()) else Err(Pico(s))
  }

  datatype Run<T> = Run(calls: seq<Call>, result: Result<T>)

  /** One checked driver call. */
  function Issue(c: Call, o: Oracle): Run<()>
  {
    Run([c], CheckPicoStatus(o.status(c)))
  }

  /** `first`, then `next` only if `first` succeeded (the `?` operator). */
  function Then<T>(first: Run<()>, next: Run<T>): Run<T>
  {
    if first.result.Err? then Run(first.calls, Err(first.result.error))
    else Run(first.calls + next.calls, next.result)
  }

  /** Calls whose status is checked; get-timebase's status only says whether a timebase is accepted. */
  predicate Checked(c: Call)
  {
    !c.GetTimebase?
  }

  /**
   * Fail-fast: on a driver error, every checked call before the last one
   * returned PICO_OK and the last one is the checked call that returned the
   * error; on success or a software-level error, every checked call returned
   * PICO_OK.
   */
  ghost predicate FailFast<T>(run: Run<T>, o: Oracle)
  {
    if run.result.Err? && run.result.error.Pico? then
      && |run.calls| > 0
      && (forall i :: 0 <= i < |run.calls| - 1 && Checked(run.calls[i]) ==> o.status(run.calls[i]) == OK)
      && Checked(run.calls[|run.calls| - 1])
      && o.status(run.calls[|run.calls| - 1]) == run.result.error.status != OK
    else
      forall i :: 0 <= i < |run.calls| && Checked(run.calls[i]) ==> o.status(run.calls[i]) == OK
  }

  lemma IssueFailFast(c: Call, o: Oracle)
    requires Checked(c)
    ensures FailFast(Issue(c, o), o)
  {
  }

  /** Sequencing two fail-fast steps with `Then` is fail-fast. */
  lemma ThenFailFast<T>(first: Run<()>, next: Run<T>, o: Oracle)
    requires FailFast(first, o) && FailFast(next, o)
    ensures FailFast(Then(first, next), o)
  {
    if first.result.Ok? {
      var calls := first.calls + next.calls;
      forall i | 0 <= i < |calls| && Checked(calls[i]) && (i < |calls| - 1 || !(next.result.Err? && next.result.error.Pico?))
        ensures o.status(calls[i]) == OK
      {
        if i < |first.calls| {
          assert calls[i] == first.calls[i];
        } else {
          assert calls[i] == next.calls[i - |first.calls|];
        }
      }
    }
  }
}

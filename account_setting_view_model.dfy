/**
 * `AccountSettingViewModel`: the account screen's view-model. On creation it
 * asks for a Login-with-Amazon token, retrying a bounded number of times
 * with a growing delay when the request fails without an exception; it also
 * logs in, logs out and deregisters a device.
 */
module AccountSettingViewModels {
  import opened Sdk

  datatype AccountSettingEvent = RequestLwaToken | Login | Logout | Deregister(smsn: string)

  /** The `message` label of each event. */
  function EventMessage(event: AccountSettingEvent): (m: string)
    ensures event == RequestLwaToken <==> m == "RequestLwaToken"
    ensures event == Login <==> m == "Login"
    ensures event == Logout <==> m == "Logout"
    ensures event.Deregister? <==> m == "Deregister"
  {
    match event
    case RequestLwaToken => "RequestLwaToken"
    case Login => "Login"
    case Logout => "Logout"
    case Deregister(_) => "Deregister"
  }

  datatype AccountSettingUiState =
    | Idle
    | Loading(event: AccountSettingEvent)
    | LwaToken(token: string)
    | LoggedIn
    | LoggedOut
    | Deregistered(smsn: string)
    | Failure(event: AccountSettingEvent, exception: Option<Exception>)

  /** The default number of retries after the first request. */
  const DefaultRetry := 3

  /** The default wait before the first retry, in milliseconds. */
  const DefaultDelayMillis := 200

  /** How much longer each further wait is, in milliseconds. */
  const DelayStepMillis := 50

  /** A request is tried again iff it failed without an exception and retries remain. */
  predicate Retries(result: SdkResult<string>, retry: int) {
    result.Failure? && result.exception.None? && retry > 0
  }

  /** The state the last token request publishes. */
  function TokenState(result: SdkResult<string>): (state: AccountSettingUiState)
    ensures result.Success? ==> state == LwaToken(result.value)
    ensures result.Failure? ==> state == AccountSettingUiState.Failure(RequestLwaToken, result.exception)
    ensures state.LwaToken? <==> result.Success?
  {
    match result
    case Success(token) => LwaToken(token)
    case Failure(e) => AccountSettingUiState.Failure(RequestLwaToken, e)
  }

  /**
   * One run of `requestLwaToken`: how many requests it makes, the waits
   * between them, and the single state it finally publishes.
   */
  datatype TokenRun = TokenRun(requests: nat, delays: seq<int>, final: AccountSettingUiState)

  /**
   * The run of `requestLwaToken(retry, delayMillis)` whose first request is
   * request number `attempt`; `outcome(n)` is what the n-th request returns.
   */
  function TokenRequests(outcome: nat -> SdkResult<string>, attempt: nat, retry: int, delayMillis: int): (run: TokenRun)
    ensures 1 <= run.requests <= (if retry > 0 then retry else 0) + 1
    ensures |run.delays| == run.requests - 1
    ensures run.requests > 1 <==> Retries(outcome(attempt), retry)
    decreases if retry > 0 then retry else 0
  {
    var result := outcome(attempt);
    if Retries(result, retry) then
      var rest := TokenRequests(outcome, attempt + 1, retry - 1, delayMillis + DelayStepMillis);
      TokenRun(rest.requests + 1, [delayMillis] + rest.delays, rest.final)
    else
      TokenRun(1, [], TokenState(result))
  }

  /**
   * The last request of a run is one that is not retried, and the state the
   * run publishes is that request's outcome.
   */
  lemma {:induction false} LastRequest(outcome: nat -> SdkResult<string>, attempt: nat, retry: int, delayMillis: int)
    ensures var run := TokenRequests(outcome, attempt, retry, delayMillis);
      !Retries(outcome(attempt + run.requests - 1), retry - (run.requests - 1)) &&
      run.final == TokenState(outcome(attempt + run.requests - 1))
    decreases if retry > 0 then retry else 0
  {
    if Retries(outcome(attempt), retry) {
      var rest := TokenRequests(outcome, attempt + 1, retry - 1, delayMillis + DelayStepMillis);
      LastRequest(outcome, attempt + 1, retry - 1, delayMillis + DelayStepMillis);
      assert attempt + 1 + rest.requests - 1 == attempt + (rest.requests + 1) - 1;
    }
  }

  /**
   * Every request of a run but the last was retried, and the i-th wait is
   * `delayMillis + 50 * i`: each retry waits 50 ms longer than the one before.
   */
  lemma {:induction false} RetriedRequests(outcome: nat -> SdkResult<string>, attempt: nat, retry: int, delayMillis: int, i: nat)
    requires i < TokenRequests(outcome, attempt, retry, delayMillis).requests - 1
    ensures Retries(outcome(attempt + i), retry - i)
    ensures TokenRequests(outcome, attempt, retry, delayMillis).delays[i] == delayMillis + DelayStepMillis * i
    decreases i
  {
    var run := TokenRequests(outcome, attempt, retry, delayMillis);
    assert Retries(outcome(attempt), retry);
    var rest := TokenRequests(outcome, attempt + 1, retry - 1, delayMillis + DelayStepMillis);
    assert run.delays == [delayMillis] + rest.delays;
    if i > 0 {
      RetriedRequests(outcome, attempt + 1, retry - 1, delayMillis + DelayStepMillis, i - 1);
      assert attempt + 1 + (i - 1) == attempt + i;
    }
  }

  /** A failure that carries an exception ends the run at once: it is never retried. */
  lemma NonNullNeverRetried(outcome: nat -> SdkResult<string>, attempt: nat, retry: int, delayMillis: int)
    requires outcome(attempt).Failure? && outcome(attempt).exception.Some?
    ensures TokenRequests(outcome, attempt, retry, delayMillis) ==
      TokenRun(1, [], AccountSettingUiState.Failure(RequestLwaToken, outcome(attempt).exception))
  {
    var run := TokenRequests(outcome, attempt, retry, delayMillis);
    assert !Retries(outcome(attempt), retry);
    assert run.requests == 1;
    LastRequest(outcome, attempt, retry, delayMillis);
  }

  /**
   * With the defaults at most four requests are made, and the waits before
   * the retries are 200, 250 and 300 ms, as far as the run goes.
   */
  lemma DefaultSchedule(outcome: nat -> SdkResult<string>)
    ensures var run := TokenRequests(outcome, 0, DefaultRetry, DefaultDelayMillis);
      run.requests <= 4 && run.delays <= [200, 250, 300]
  {
    var run := TokenRequests(outcome, 0, DefaultRetry, DefaultDelayMillis);
    forall i | 0 <= i < |run.delays| ensures run.delays[i] == [200, 250, 300][i] {
      RetriedRequests(outcome, 0, DefaultRetry, DefaultDelayMillis, i);
    }
  }

  /** When every request fails without an exception the full schedule is used up. */
  lemma AlwaysFailingWithoutException(outcome: nat -> SdkResult<string>)
    requires forall n :: outcome(n) == SdkResult.Failure(None)
    ensures TokenRequests(outcome, 0, DefaultRetry, DefaultDelayMillis) ==
      TokenRun(4, [200, 250, 300], AccountSettingUiState.Failure(RequestLwaToken, None))
  {
    var run := TokenRequests(outcome, 0, DefaultRetry, DefaultDelayMillis);
    LastRequest(outcome, 0, DefaultRetry, DefaultDelayMillis);
    assert outcome(run.requests - 1) == SdkResult.Failure(None);
    assert run.requests == 4;
    forall i | 0 <= i < 3 ensures run.delays[i] == [200, 250, 300][i] {
      RetriedRequests(outcome, 0, DefaultRetry, DefaultDelayMillis, i);
    }
  }

  class AccountSettingViewModel {
    var uiState: AccountSettingUiState
    ghost var emitted: seq<AccountSettingUiState>
    /** The number of token requests made so far. */
    ghost var tokenRequests: nat
    /** The waits taken before retries so far, in milliseconds. */
    ghost var waits: seq<int>

    ghost predicate Valid()
      reads this
    {
      |emitted| > 0 && uiState == emitted[|emitted| - 1]
    }

    /** Creation: the state starts `Idle` and a token request runs with the defaults. */
    constructor (outcome: nat -> SdkResult<string>)
      ensures Valid()
      ensures var run := TokenRequests(outcome, 0, DefaultRetry, DefaultDelayMillis);
        emitted == [Idle, run.final] && tokenRequests == run.requests && waits == run.delays
    {
      uiState := Idle;
      emitted := [Idle];
      tokenRequests := 0;
      waits := [];
      new;
      RequestLwaToken(outcome, 0, DefaultRetry, DefaultDelayMillis);
    }

    /** `_uiState.update { state }`. */
    method Publish(state: AccountSettingUiState)
      modifies this`uiState, this`emitted
      ensures uiState == state && emitted == old(emitted) + [state]
    {
      uiState := state;
      emitted := emitted + [state];
    }

    /**
     * `requestLwaToken(retry, delayMillis)`: a retried request publishes
     * nothing; only the last request of the run publishes its state.
     */
    method RequestLwaToken(outcome: nat -> SdkResult<string>, attempt: nat, retry: int, delayMillis: int)
      requires Valid()
      modifies this
      ensures Valid()
      ensures emitted == old(emitted) + [TokenRequests(outcome, attempt, retry, delayMillis).final]
      ensures tokenRequests == old(tokenRequests) + TokenRequests(outcome, attempt, retry, delayMillis).requests
      ensures waits == old(waits) + TokenRequests(outcome, attempt, retry, delayMillis).delays
      decreases if retry > 0 then retry else 0
    {
      var result := outcome(attempt);
      tokenRequests := tokenRequests + 1;
      if result.Failure? && result.exception.None? && retry > 0 {
        ghost var rest := TokenRequests(outcome, attempt + 1, retry - 1, delayMillis + DelayStepMillis);
        assert TokenRequests(outcome, attempt, retry, delayMillis)
          == TokenRun(rest.requests + 1, [delayMillis] + rest.delays, rest.final);
        waits := waits + [delayMillis];
        RequestLwaToken(outcome, attempt + 1, retry - 1, delayMillis + DelayStepMillis);
      } else {
        assert TokenRequests(outcome, attempt, retry, delayMillis) == TokenRun(1, [], TokenState(result));
        Publish(TokenState(result));
      }
    }

    /** `login`: publish `LoggedIn` or `Failure(Login, e)`, with no `Loading` before it. */
    method Login(result: SdkResult<()>)
      requires Valid()
      modifies this
      ensures Valid()
      ensures emitted == old(emitted) +
        [if result.Success? then LoggedIn else AccountSettingUiState.Failure(AccountSettingEvent.Login, result.exception)]
      ensures tokenRequests == old(tokenRequests) && waits == old(waits)
    {
      var newUiState: AccountSettingUiState;
      match result {
        case Success(_) =>
          newUiState := LoggedIn;
        case Failure(e) =>
          newUiState := AccountSettingUiState.Failure(AccountSettingEvent.Login, e);
      }
      Publish(newUiState);
    }

    /** `logout`: publish `Loading(Logout)`, then `LoggedOut` or `Failure(Logout, e)`. */
    method Logout(result: SdkResult<()>)
      requires Valid()
      modifies this
      ensures Valid()
      ensures emitted == old(emitted) + [Loading(AccountSettingEvent.Logout),
        if result.Success? then LoggedOut else AccountSettingUiState.Failure(AccountSettingEvent.Logout, result.exception)]
      ensures tokenRequests == old(tokenRequests) && waits == old(waits)
    {
      Publish(Loading(AccountSettingEvent.Logout));
      var newUiState: AccountSettingUiState;
      match result {
        case Success(_) =>
          newUiState := LoggedOut;
        case Failure(e) =>
          newUiState := AccountSettingUiState.Failure(AccountSettingEvent.Logout, e);
      }
      Publish(newUiState);
    }

    /**
     * `deregisterDevice(smsn)`: publish `Loading(Deregister(smsn))`, then
     * `Deregistered(smsn)` for the same serial number or the failure.
     */
    method DeregisterDevice(smsn: string, result: SdkResult<()>)
      requires Valid()
      modifies this
      ensures Valid()
      ensures emitted == old(emitted) + [Loading(Deregister(smsn)),
        if result.Success? then Deregistered(smsn) else AccountSettingUiState.Failure(Deregister(smsn), result.exception)]
      ensures tokenRequests == old(tokenRequests) && waits == old(waits)
    {
      Publish(Loading(Deregister(smsn)));
      var newUiState: AccountSettingUiState;
      match result {
        case Success(_) =>
          newUiState := Deregistered(smsn);
        case Failure(e) =>
          newUiState := AccountSettingUiState.Failure(Deregister(smsn), e);
      }
      Publish(newUiState);
    }
  }
}

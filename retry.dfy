/**
 * The bounded retry loop shared by the Bitcoin, Litecoin, Ethereum and Solana adapters,
 * and the dial schedule their `connectWithRetry` consumes.
 *
 * An adapter's `GetBalance` makes at most `MaxRetryAttempts` attempts. In each, the live
 * client handle is either unusable (`Dead`: shut down, or nil when not connected), which
 * costs a reconnect and the attempt but records no error, or answers the query (`Reply`).
 * The first successful reply is returned at once; a failed reply becomes the last error and,
 * when it is a cancellation or a deadline, costs a reconnect before the next attempt. Once
 * the attempts are used up, the last error is returned, or a zero balance with no error
 * when no query ever failed.
 */
module Retry {
  import opened Wrappers
  import opened Errors

  const MaxRetryAttempts: nat := 3

  /** What one attempt of the loop sees. */
  datatype Attempt<T> = Dead | Reply(result: Result<T, Error>)

  predicate Succeeded<T>(a: Attempt<T>) {
    a.Reply? && a.result.Ok?
  }

  /** Whether the loop reconnects after this attempt. */
  predicate Reconnects<T>(a: Attempt<T>) {
    a.Dead? || (a.Reply? && a.result.Err? && IsContextError(a.result.error))
  }

  /** `lastErr` after an attempt. */
  function LastErrorAfter<T>(a: Attempt<T>, lastErr: Option<Error>): Option<Error> {
    if a.Reply? && a.result.Err? then Some(a.result.error) else lastErr
  }

  /** `return 0, lastErr` after the last attempt. */
  function Exhausted<T>(lastErr: Option<Error>, zero: T): Result<T, Error> {
    match lastErr
    case None => Ok(zero)
    case Some(e) => Err(e)
  }

  /** Some attempt from `i` on, within the three, answered with `r`. */
  ghost predicate RepliedFrom<T>(attempts: nat -> Attempt<T>, i: nat, r: Result<T, Error>) {
    exists j :: i <= j < MaxRetryAttempts && attempts(j) == Reply(r)
  }

  /**
   * The loop's outcome from attempt `i` on, given `lastErr` so far; `attempts(i)` is what
   * attempt `i` sees. It never invents an outcome: the result is the reply of one of the
   * remaining attempts, or else the error carried in, or the zero value when none was.
   */
  function RunFrom<T>(attempts: nat -> Attempt<T>, i: nat, lastErr: Option<Error>, zero: T): (r: Result<T, Error>)
    ensures r.Err? ==> lastErr == Some(r.error) || RepliedFrom(attempts, i, r)
    ensures r.Ok? ==> (lastErr == None && r.value == zero) || RepliedFrom(attempts, i, r)
    decreases MaxRetryAttempts - i
  {
    if i >= MaxRetryAttempts then Exhausted(lastErr, zero)
    else if Succeeded(attempts(i)) then attempts(i).result
    else RunFrom(attempts, i + 1, LastErrorAfter(attempts(i), lastErr), zero)
  }

  function Run<T>(attempts: nat -> Attempt<T>, zero: T): Result<T, Error> {
    RunFrom(attempts, 0, None, zero)
  }

  /** How many reconnects the loop makes from attempt `i` on: at most one per remaining attempt. */
  function ReconnectsFrom<T>(attempts: nat -> Attempt<T>, i: nat): (n: nat)
    ensures n <= if i < MaxRetryAttempts then MaxRetryAttempts - i else 0
    ensures i < MaxRetryAttempts && Succeeded(attempts(i)) ==> n == 0
    decreases MaxRetryAttempts - i
  {
    if i >= MaxRetryAttempts || Succeeded(attempts(i)) then 0
    else (if Reconnects(attempts(i)) then 1 else 0) + ReconnectsFrom(attempts, i + 1)
  }

  /** No more than three attempts are made: what the fourth and later would see is irrelevant. */
  lemma {:induction false} AtMostThreeAttempts<T>(a: nat -> Attempt<T>, b: nat -> Attempt<T>, i: nat, lastErr: Option<Error>, zero: T)
    requires forall j :: i <= j < MaxRetryAttempts ==> a(j) == b(j)
    ensures RunFrom(a, i, lastErr, zero) == RunFrom(b, i, lastErr, zero)
    ensures ReconnectsFrom(a, i) == ReconnectsFrom(b, i)
    decreases MaxRetryAttempts - i
  {
    if i < MaxRetryAttempts {
      AtMostThreeAttempts(a, b, i + 1, LastErrorAfter(a(i), lastErr), zero);
    }
  }

  /** The first successful attempt's value is returned, and no reconnect follows it. */
  lemma {:induction false} FirstSuccessWins<T>(a: nat -> Attempt<T>, i: nat, lastErr: Option<Error>, zero: T, k: nat, v: T)
    requires i <= k < MaxRetryAttempts && a(k) == Reply(Ok(v))
    requires forall j :: i <= j < k ==> !Succeeded(a(j))
    ensures RunFrom(a, i, lastErr, zero) == Ok(v)
    ensures ReconnectsFrom(a, i) == |set j: nat | i <= j < k && Reconnects(a(j))|
    decreases k - i
  {
    if i < k {
      assert !Succeeded(a(i));
      assert RunFrom(a, i, lastErr, zero) == RunFrom(a, i + 1, LastErrorAfter(a(i), lastErr), zero);
      FirstSuccessWins(a, i + 1, LastErrorAfter(a(i), lastErr), zero, k, v);
      var later := set j: nat | i + 1 <= j < k && Reconnects(a(j));
      var all := set j: nat | i <= j < k && Reconnects(a(j));
      assert ReconnectsFrom(a, i) == (if Reconnects(a(i)) then 1 else 0) + |later|;
      if Reconnects(a(i)) {
        assert all == {i} + later;
        assert i !in later;
        assert |all| == 1 + |later|;
      } else {
        assert all == later;
      }
    } else {
      assert (set j: nat | i <= j < k && Reconnects(a(j))) == {};
    }
  }

  /**
   * When no attempt succeeds, the result is the error of the last attempt that replied
   * (every later one found a dead handle), or, if no attempt from `i` on replied, what was
   * already recorded: a zero balance with no error when nothing had failed.
   */
  lemma {:induction false} ExhaustedReturnsLastError<T>(a: nat -> Attempt<T>, i: nat, lastErr: Option<Error>, zero: T)
    requires i <= MaxRetryAttempts
    requires forall j :: i <= j < MaxRetryAttempts ==> !Succeeded(a(j))
    ensures var r := RunFrom(a, i, lastErr, zero);
      && (r.Ok? ==> r.value == zero)
      && ((forall j :: i <= j < MaxRetryAttempts ==> a(j).Dead?) ==> r == Exhausted(lastErr, zero))
      && (forall e :: r == Err(e) && (exists j :: i <= j < MaxRetryAttempts && a(j).Reply?) ==>
            exists j :: i <= j < MaxRetryAttempts && a(j) == Reply(Err(e))
                        && forall k :: j < k < MaxRetryAttempts ==> a(k).Dead?)
    decreases MaxRetryAttempts - i
  {
    if i < MaxRetryAttempts {
      var next := LastErrorAfter(a(i), lastErr);
      ExhaustedReturnsLastError(a, i + 1, next, zero);
      var r := RunFrom(a, i, lastErr, zero);
      assert r == RunFrom(a, i + 1, next, zero);
      forall e | r == Err(e) && (exists j :: i <= j < MaxRetryAttempts && a(j).Reply?)
        ensures exists j :: i <= j < MaxRetryAttempts && a(j) == Reply(Err(e))
                            && forall k :: j < k < MaxRetryAttempts ==> a(k).Dead?
      {
        if exists j :: i + 1 <= j < MaxRetryAttempts && a(j).Reply? {
        } else {
          assert a(i).Reply?;
          assert forall j :: i + 1 <= j < MaxRetryAttempts ==> a(j).Dead?;
          assert next == Some(a(i).result.error);
          assert a(i) == Reply(Err(e));
        }
      }
    }
  }

  /** Failures that are neither cancellations nor deadlines never cost a reconnect. */
  lemma {:induction false} PlainErrorsNeverReconnect<T>(a: nat -> Attempt<T>, i: nat)
    requires forall j :: i <= j < MaxRetryAttempts ==> a(j).Reply? && (a(j).result.Err? ==> !IsContextError(a(j).result.error))
    ensures ReconnectsFrom(a, i) == 0
    decreases MaxRetryAttempts - i
  {
    if i < MaxRetryAttempts {
      PlainErrorsNeverReconnect(a, i + 1);
    }
  }

  /**
   * Two timeouts and then a success: the caller sees the third attempt's value and no
   * error, and the loop reconnected twice.
   */
  lemma TwoTimeoutsThenSuccess<T>(a: nat -> Attempt<T>, v: T, zero: T)
    requires a(0) == Reply(Err(DeadlineExceeded)) && a(1) == Reply(Err(Wrapped("get balance from electrum", DeadlineExceeded)))
    requires a(2) == Reply(Ok(v))
    ensures Run(a, zero) == Ok(v)
    ensures ReconnectsFrom(a, 0) == 2
  {
    assert Reconnects(a(0)) && Reconnects(a(1));
  }

  /** A schedule of connection attempts for `connectWithRetry`: each is refused or comes up. */
  datatype Dial = Refused(error: Error) | Up

  /**
   * `connectWithRetry` loops until a connection comes up; the model hands it a finite
   * schedule that contains one, which is what the source assumes of the network.
   */
  predicate Connects(dials: seq<Dial>) {
    exists k :: 0 <= k < |dials| && dials[k].Up?
  }
}

/**
 * The payments service's ledger client: bounded attempts per request and a circuit breaker over all
 * of them. `log` is every fetch ever made; what the two counters mean is said by functions of it.
 */
module CircuitBreaker {
  import opened Base

  datatype Outcome = Success | Terminal | Retryable

  /**
   * One fetch: when it started, how it ended, when a failure was recorded, and when the loop then
   * looked at the clock again. Requests do not overlap and the clock never goes back.
   */
  datatype Fetch = Fetch(startAt: Time, outcome: Outcome, failedAt: Time, checkedAt: Time)

  datatype Answer = CircuitOpen | Responded | TerminalError | Unavailable

  /** The environment's settings. */
  datatype Config = Config(maxAttempts: int, threshold: int, cooldown: nat)

  /** How one fetch ends: a response with its HTTP status, or none. */
  datatype Response = Http(status: nat) | TimedOut | Unreachable | NoCredential

  /** `fetchOnce` and `classify`. */
  function Classify(r: Response): Outcome {
    match r
    case Http(status) =>
      if 200 <= status <= 299 then Success
      else if status == 408 || status == 429 || status >= 500 then Retryable
      else Terminal
    case TimedOut => Retryable
    case Unreachable => Retryable
    case NoCredential => Terminal
  }

  /** A refusal by the ledger is final; what may pass, a lost reply or an overload, is retried. */
  lemma ClassifyIff(r: Response)
    ensures Classify(r) == Terminal <==>
      r == NoCredential || (r.Http? && r.status !in {408, 429} && (r.status < 200 || 300 <= r.status < 500))
    ensures Classify(r) == Retryable <==>
      r == TimedOut || r == Unreachable || (r.Http? && (r.status in {408, 429} || r.status >= 500))
  {
  }

  // ------------------------------------------------- what the counters mean

  /** Retryable failures since the last success; terminal answers count neither way. */
  function Failures(log: seq<Fetch>): nat {
    if |log| == 0 then 0
    else
      var front := Failures(log[..|log| - 1]);
      match log[|log| - 1].outcome
      case Success => 0
      case Terminal => front
      case Retryable => front + 1
  }

  /** The last retryable failure since the last success. */
  function LastFailure(log: seq<Fetch>): Option<Time> {
    if |log| == 0 then None
    else
      match log[|log| - 1].outcome
      case Success => None
      case Terminal => LastFailure(log[..|log| - 1])
      case Retryable => Some(log[|log| - 1].failedAt)
  }

  /** The breaker is open for one cooldown after each failure at or past the threshold. */
  function OpenUntil(cfg: Config, log: seq<Fetch>): Time {
    if LastFailure(log).Some? && Failures(log) >= cfg.threshold then LastFailure(log).value + cfg.cooldown else 0
  }

  /** The clock readings of a fetch come one after the other. */
  predicate Ordered(f: Fetch) {
    f.startAt <= f.failedAt <= f.checkedAt
  }

  predicate Monotone(log: seq<Fetch>) {
    && (forall i :: 0 <= i < |log| ==> Ordered(log[i]))
    && (forall i, j :: 0 <= i < j < |log| ==> log[i].checkedAt <= log[j].startAt)
  }

  /** No fetch starts while the breaker is open. */
  ghost predicate Respected(cfg: Config, log: seq<Fetch>) {
    forall j :: 0 <= j < |log| ==> OpenUntil(cfg, log[..j]) <= log[j].startAt
  }

  ghost predicate Legal(cfg: Config, log: seq<Fetch>) {
    Monotone(log) && Respected(cfg, log)
  }

  /** Every clock reading in the log is before `now`. */
  predicate Past(log: seq<Fetch>, now: Time) {
    |log| > 0 ==> log[|log| - 1].checkedAt <= now
  }

  /** A script of fetches that a request starting at `now` could make. */
  predicate Future(script: seq<Fetch>, now: Time) {
    Monotone(script) && (|script| > 0 ==> now <= script[0].startAt)
  }

  predicate NoSuccess(log: seq<Fetch>) {
    forall i :: 0 <= i < |log| ==> log[i].outcome != Success
  }

  // ------------------------------------------------------------------ the client

  class LedgerHttpClient {
    const cfg: Config
    var consecutiveFailures: nat
    var openUntil: Time
    ghost var log: seq<Fetch>

    ghost predicate Valid()
      reads this
    {
      && consecutiveFailures == Failures(log)
      && openUntil == OpenUntil(cfg, log)
      && Legal(cfg, log)
    }

    constructor (cfg: Config)
      ensures Valid() && log == [] && this.cfg == cfg
    {
      this.cfg := cfg;
      consecutiveFailures, openUntil, log := 0, 0, [];
    }

    method RecordFailure(now: Time)
      modifies this`consecutiveFailures, this`openUntil
      ensures consecutiveFailures == old(consecutiveFailures) + 1
      ensures openUntil == if consecutiveFailures >= cfg.threshold then now + cfg.cooldown else old(openUntil)
    {
      consecutiveFailures := consecutiveFailures + 1;
      if consecutiveFailures >= cfg.threshold {
        openUntil := now + cfg.cooldown;
      }
    }

    /**
     * `script` is what the fetches of this request would meet. The request makes the first `n` of
     * them: none when the breaker is open, at most `maxAttempts`, stopping at the first success or
     * terminal answer, and giving up on a retryable one only when attempts or the breaker say so.
     */
    method Request(now: Time, script: seq<Fetch>) returns (answer: Answer, n: nat)
      requires Valid() && Past(log, now) && Future(script, now) && |script| >= cfg.maxAttempts
      modifies this
      ensures Valid() && n <= |script| && log == old(log) + script[..n]
      ensures n <= if cfg.maxAttempts < 0 then 0 else cfg.maxAttempts
      ensures answer == CircuitOpen <==> now < old(openUntil)
      ensures answer == CircuitOpen ==> n == 0 && openUntil == old(openUntil)
      ensures forall i :: 0 <= i < n - 1 ==> script[i].outcome == Retryable
      ensures answer == Responded <==> n > 0 && script[n - 1].outcome == Success
      ensures answer == TerminalError <==> n > 0 && script[n - 1].outcome == Terminal
      ensures answer == Unavailable ==> n >= cfg.maxAttempts || (n > 0 && script[n - 1].checkedAt < openUntil)
    {
      hide Failures, OpenUntil, Legal, Monotone;
      n := 0;
      assert script[..0] == [];
      if now < openUntil {
        return CircuitOpen, 0;
      }
      while n < cfg.maxAttempts
        invariant n <= |script| && (n == 0 || n <= cfg.maxAttempts)
        invariant Valid() && log == old(log) + script[..n]
        invariant forall i :: 0 <= i < n ==> script[i].outcome == Retryable
        invariant n < |script| ==> openUntil <= script[n].startAt
      {
        var f := script[n];
        assert script[..n + 1] == script[..n] + [f];
        FetchIsLegal(cfg, old(log), script, now, n);
        LogStep(cfg, log, f);
        log := log + [f];
        n := n + 1;
        match f.outcome {
          case Success =>
            consecutiveFailures, openUntil := 0, 0;
            return Responded, n;
          case Terminal =>
            return TerminalError, n;
          case Retryable =>
            RecordFailure(f.failedAt);
            if n < cfg.maxAttempts && f.checkedAt >= openUntil {
              ScriptOrder(script, n);
              continue;
            }
            return Unavailable, n;
        }
      }
      return Unavailable, n;
    }
  }

  // ------------------------------------------------------------------------ proof

  lemma LogStep(cfg: Config, log: seq<Fetch>, f: Fetch)
    ensures Failures(log + [f])
      == (match f.outcome case Success => 0 case Terminal => Failures(log) case Retryable => Failures(log) + 1)
    ensures OpenUntil(cfg, log + [f]) == (match f.outcome
      case Success => 0
      case Terminal => OpenUntil(cfg, log)
      case Retryable => if Failures(log) + 1 >= cfg.threshold then f.failedAt + cfg.cooldown else OpenUntil(cfg, log))
  {
    assert (log + [f])[..|log|] == log;
    FailuresHaveATime(log);
  }

  lemma {:induction false} FailuresHaveATime(log: seq<Fetch>)
    ensures Failures(log) > 0 <==> LastFailure(log).Some?
  {
    if |log| > 0 { FailuresHaveATime(log[..|log| - 1]); }
  }

  lemma ScriptOrder(script: seq<Fetch>, n: nat)
    requires Monotone(script) && 0 < n < |script|
    ensures script[n - 1].checkedAt <= script[n].startAt
  {
  }

  /** A fetch that starts after the breaker's deadline keeps the log legal. */
  lemma FetchIsLegal(cfg: Config, before: seq<Fetch>, script: seq<Fetch>, now: Time, n: nat)
    requires Past(before, now) && Future(script, now) && n < |script|
    requires Legal(cfg, before + script[..n]) && OpenUntil(cfg, before + script[..n]) <= script[n].startAt
    ensures Legal(cfg, before + script[..n] + [script[n]])
  {
    var log := before + script[..n];
    var longer := log + [script[n]];
    assert longer[..|log|] == log;
    forall j | 0 <= j < |longer| ensures OpenUntil(cfg, longer[..j]) <= longer[j].startAt {
      assert longer[..j] == log[..j];
    }
    forall i | 0 <= i < |log| ensures log[i].checkedAt <= script[n].startAt {
      if i < |before| {
        assert log[i] == before[i] && before[|before| - 1] == log[|before| - 1];
        assert before[|before| - 1].checkedAt <= now <= script[0].startAt;
      } else {
        assert log[i] == script[i - |before|];
      }
    }
  }

  /** With no success in between, a failure that opened the breaker is still counted. */
  lemma {:induction false} StaysOpen(cfg: Config, log: seq<Fetch>, i: nat, j: nat)
    requires Monotone(log) && i < j <= |log| && NoSuccess(log[i..j])
    requires log[i].outcome == Retryable && Failures(log[..i + 1]) >= cfg.threshold
    ensures Failures(log[..j]) >= cfg.threshold
    ensures LastFailure(log[..j]).Some? && log[i].failedAt <= LastFailure(log[..j]).value
    decreases j
  {
    var front := log[..j];
    assert front[..j - 1] == log[..j - 1];
    if j == i + 1 {
      assert front[|front| - 1] == log[i];
    } else {
      assert log[i..j][j - 1 - i] == log[j - 1];
      assert NoSuccess(log[i..j - 1]) by {
        assert forall k :: 0 <= k < j - 1 - i ==> log[i..j - 1][k] == log[i..j][k];
      }
      StaysOpen(cfg, log, i, j - 1);
      assert Ordered(log[i]) && Ordered(log[j - 1]);
    }
  }

  /** A failure that leaves the breaker open delays all later fetches. */
  lemma {:induction false} OpenMeansWait(cfg: Config, log: seq<Fetch>, i: nat, j: nat)
    requires Legal(cfg, log) && i < j < |log|
    requires log[i].outcome == Retryable && Failures(log[..i + 1]) >= cfg.threshold
    ensures log[i].failedAt + cfg.cooldown <= log[j].startAt <= log[j].failedAt
  {
    hide Failures;
    assert OpenUntil(cfg, log[..i + 1]) <= log[i + 1].startAt;
    assert log[..i + 1][i] == log[i];
    assert Ordered(log[i + 1]) && Ordered(log[j]);
  }

  /**
   * Over any run: once failure `o` has opened the breaker, and until a fetch succeeds, every
   * retryable failure is followed by a whole cooldown before the next fetch starts.
   */
  lemma {:induction false} CooldownApart(cfg: Config, log: seq<Fetch>, o: nat, i: nat, j: nat)
    requires Legal(cfg, log) && o <= i < j < |log| && NoSuccess(log[o..i + 1])
    requires log[o].outcome == Retryable && Failures(log[..o + 1]) >= cfg.threshold
    requires log[i].outcome == Retryable
    ensures log[i].failedAt + cfg.cooldown <= log[j].startAt <= log[j].failedAt
  {
    hide Respected, OpenUntil, LastFailure;
    StaysOpen(cfg, log, o, i + 1);
    OpenMeansWait(cfg, log, i, j);
  }

  /**
   * The load a failing ledger sees: after `f` retryable failures without a success, the failures
   * past the threshold have taken a cooldown each.
   */
  lemma {:induction false} FailingLoadBounded(cfg: Config, log: seq<Fetch>)
    requires Legal(cfg, log) && NoSuccess(log) && cfg.threshold >= 1 && Failures(log) >= cfg.threshold
    ensures LastFailure(log).Some?
    ensures log[0].startAt + (Failures(log) - cfg.threshold) * cfg.cooldown <= LastFailure(log).value
  {
    hide Legal, Monotone, Respected;
    FailuresHaveATime(log);
    var n := |log| - 1;
    var front, last := log[..n], log[n];
    LegalFront(cfg, log);
    FrontOrder(cfg, log);
    if last.outcome == Terminal {
      FailingLoadBounded(cfg, front);
    } else if Failures(front) >= cfg.threshold {
      FailingLoadBounded(cfg, front);
      OneMore(Failures(front) - cfg.threshold, cfg.cooldown);
    } else {
      assert (Failures(log) - cfg.threshold) * cfg.cooldown == 0;
    }
  }

  /** What legality says of the last fetch. */
  lemma FrontOrder(cfg: Config, log: seq<Fetch>)
    requires Legal(cfg, log) && |log| > 0
    ensures var n := |log| - 1;
      OpenUntil(cfg, log[..n]) <= log[n].startAt <= log[n].failedAt && log[0].startAt <= log[n].startAt
  {
    var n := |log| - 1;
    assert Ordered(log[n]) && Ordered(log[0]);
  }

  lemma LegalFront(cfg: Config, log: seq<Fetch>)
    requires Legal(cfg, log) && NoSuccess(log) && |log| > 0
    ensures Legal(cfg, log[..|log| - 1]) && NoSuccess(log[..|log| - 1])
  {
    var front := log[..|log| - 1];
    forall j | 0 <= j < |front| ensures OpenUntil(cfg, front[..j]) <= front[j].startAt {
      assert front[..j] == log[..j];
    }
  }

  lemma OneMore(k: int, c: int)
    ensures (k + 1) * c == k * c + c
  {
  }
}

/**
 * The sequential backtest driver (`run_backtest_by_wq_api`): one candidate
 * at a time, it submits the simulation with up to fifteen tries, polls its
 * status up to 240 times, fetches the metrics up to twenty times and
 * appends one row to the ledger when they arrive.
 *
 * The server is an oracle: replies are looked up by the candidate's
 * position in the list (which stands for the time of the request), the URL
 * or alpha id asked for, and the attempt.  Exceptions that nothing in the
 * driver catches end the run, with the rows written so far kept in the
 * ledger file.
 */
module SequentialBacktest {
  import opened Wrappers
  import opened Json
  import opened Backtest

  const SUBMIT_TOLERANCE := 15
  const POLL_LIMIT := 240
  const FETCH_LIMIT := 20

  /** Replies, by candidate position: submissions by attempt, polls by URL and round, fetches by alpha id and attempt. */
  datatype SeqServer = SeqServer(
    submit: (nat, nat) -> SubmitReply,
    poll: (nat, string, nat) -> PollReply,
    fetch: (nat, Value, nat) -> FetchReply)

  /** The local `sim_progress_url`: never assigned yet, or the last `Location` header read (`None` when absent). */
  datatype Binding = Unbound | Bound(header: Option<string>)

  // ---------------------------------------------------------------------
  // The submit loop

  /** A reply that assigns `sim_progress_url`: a 200 or 201, with or without a `Location`. */
  predicate Assigns(reply: SubmitReply)
  {
    reply.Submitted? && IsSuccessCode(reply.code)
  }

  /** A reply that ends the loop: a 200 or 201 with a non-empty `Location`. */
  predicate Accepted(reply: SubmitReply)
  {
    Assigns(reply) && Present(reply.location)
  }

  /** Where the submit loop leaves `sim_progress_url`, and whether it gave up and signed in again. */
  datatype Submitting = Submitting(url: Binding, relogin: bool)

  /**
   * The `while keep_trying` loop from try number `attempt` on; `failure_count`
   * equals the try number, since every try before it failed.
   */
  function SubmitFrom(srv: SeqServer, i: nat, attempt: nat, url: Binding): Submitting
    requires attempt < SUBMIT_TOLERANCE
    decreases SUBMIT_TOLERANCE - attempt
  {
    var reply := srv.submit(i, attempt);
    var url' := if Assigns(reply) then Bound(reply.location) else url;
    if Accepted(reply) then Submitting(url', false)
    else if attempt + 1 >= SUBMIT_TOLERANCE then Submitting(url', true)
    else SubmitFrom(srv, i, attempt + 1, url')
  }

  /** The loop gives up, after fifteen tries, exactly when none of them is accepted. */
  lemma {:induction false} SubmitFromRelogin(srv: SeqServer, i: nat, attempt: nat, url: Binding)
    requires attempt < SUBMIT_TOLERANCE
    ensures SubmitFrom(srv, i, attempt, url).relogin <==>
      forall k :: attempt <= k < SUBMIT_TOLERANCE ==> !Accepted(srv.submit(i, k))
    decreases SUBMIT_TOLERANCE - attempt
  {
    if attempt + 1 < SUBMIT_TOLERANCE {
      var reply := srv.submit(i, attempt);
      SubmitFromRelogin(srv, i, attempt + 1, if Assigns(reply) then Bound(reply.location) else url);
    }
  }

  /**
   * The URL the loop ends with is the one it started with, or the
   * `Location` of some try with a 200 or 201; when the loop did not give
   * up, it is a non-empty one.
   */
  lemma {:induction false} SubmitFromOrigin(srv: SeqServer, i: nat, attempt: nat, url: Binding)
    requires attempt < SUBMIT_TOLERANCE
    ensures var r := SubmitFrom(srv, i, attempt, url);
      r.url == url ||
      exists k :: attempt <= k < SUBMIT_TOLERANCE && Assigns(srv.submit(i, k)) && r.url == Bound(srv.submit(i, k).location)
    ensures var r := SubmitFrom(srv, i, attempt, url);
      !r.relogin ==> r.url.Bound? && Present(r.url.header)
    decreases SUBMIT_TOLERANCE - attempt
  {
    var reply := srv.submit(i, attempt);
    var url' := if Assigns(reply) then Bound(reply.location) else url;
    if !Accepted(reply) && attempt + 1 < SUBMIT_TOLERANCE {
      SubmitFromOrigin(srv, i, attempt + 1, url');
    }
  }

  /** Tries that raise or are refused leave `sim_progress_url` as it was. */
  lemma {:induction false} SubmitFromKeeps(srv: SeqServer, i: nat, attempt: nat, url: Binding)
    requires attempt < SUBMIT_TOLERANCE
    requires forall k :: attempt <= k < SUBMIT_TOLERANCE ==> !Assigns(srv.submit(i, k))
    ensures SubmitFrom(srv, i, attempt, url) == Submitting(url, true)
    decreases SUBMIT_TOLERANCE - attempt
  {
    if attempt + 1 < SUBMIT_TOLERANCE {
      SubmitFromKeeps(srv, i, attempt + 1, url);
    }
  }

  /** At most fifteen tries: the loop never looks at a reply past the fifteenth. */
  lemma {:induction false} SubmitFromBounded(srv: SeqServer, srv': SeqServer, i: nat, attempt: nat, url: Binding)
    requires attempt < SUBMIT_TOLERANCE
    requires forall k :: attempt <= k < SUBMIT_TOLERANCE ==> srv.submit(i, k) == srv'.submit(i, k)
    ensures SubmitFrom(srv, i, attempt, url) == SubmitFrom(srv', i, attempt, url)
    decreases SUBMIT_TOLERANCE - attempt
  {
    if attempt + 1 < SUBMIT_TOLERANCE {
      var reply := srv.submit(i, attempt);
      SubmitFromBounded(srv, srv', i, attempt + 1, if Assigns(reply) then Bound(reply.location) else url);
    }
  }

  /** The loop itself, with `keep_trying` and `failure_count`. */
  method SubmitWithRetry(srv: SeqServer, i: nat, url0: Binding) returns (url: Binding, relogin: bool)
    ensures Submitting(url, relogin) == SubmitFrom(srv, i, 0, url0)
  {
    var keepTrying := true;
    var failureCount := 0;
    url, relogin := url0, false;
    while keepTrying
      invariant 0 <= failureCount < SUBMIT_TOLERANCE
      invariant keepTrying ==> SubmitFrom(srv, i, failureCount, url) == SubmitFrom(srv, i, 0, url0)
      invariant !keepTrying ==> Submitting(url, relogin) == SubmitFrom(srv, i, 0, url0)
      decreases SUBMIT_TOLERANCE - failureCount, if keepTrying then 1 else 0
    {
      var reply := srv.submit(i, failureCount);
      var failed := true;
      if reply.Submitted? && IsSuccessCode(reply.code) {
        url := Bound(reply.location);
        failed := !Present(reply.location);
      }
      if !failed {
        keepTrying := false;
      } else {
        failureCount := failureCount + 1;
        if failureCount >= SUBMIT_TOLERANCE {
          relogin := true;
          failureCount := 0;
          break;
        }
      }
    }
  }

  // ---------------------------------------------------------------------
  // The status poll

  /** How the `for _ in range(240)` poll ends. */
  datatype PollOutcome = PollCrash(error: string) | Completed(alphaId: Value) | Failed | TimedOut

  /** An answer whose `status` is neither `COMPLETE` nor `ERROR` (a `WARNING` included): poll again. */
  predicate KeepsPolling(reply: PollReply)
  {
    reply.Polled? && reply.body.Some? && reply.body.value.Object? &&
    Get(reply.body.value.fields, "status") != Str("COMPLETE") &&
    Get(reply.body.value.fields, "status") != Str("ERROR")
  }

  /**
   * The poll from round `k` on.  The status code is not looked at; a raised
   * request, a body that is not JSON or one that is not a dict ends the run.
   */
  function PollFrom(srv: SeqServer, i: nat, url: string, k: nat): PollOutcome
    decreases POLL_LIMIT - k
  {
    if k >= POLL_LIMIT then TimedOut
    else
      match srv.poll(i, url, k)
      case PollRaised => PollCrash("RequestException")
      case Polled(_, body) =>
        if body.None? then PollCrash("JSONDecodeError")
        else if !body.value.Object? then PollCrash("AttributeError")
        else
          var status := Get(body.value.fields, "status");
          if status == Str("COMPLETE") then Completed(Get(body.value.fields, "alpha"))
          else if status == Str("ERROR") then Failed
          else PollFrom(srv, i, url, k + 1)
  }

  /** The poll runs out exactly when every remaining round answers with a status that keeps it polling. */
  lemma {:induction false} PollFromTimedOut(srv: SeqServer, i: nat, url: string, k: nat)
    requires k <= POLL_LIMIT
    ensures PollFrom(srv, i, url, k) == TimedOut <==>
      forall j :: k <= j < POLL_LIMIT ==> KeepsPolling(srv.poll(i, url, j))
    decreases POLL_LIMIT - k
  {
    if k < POLL_LIMIT {
      PollFromTimedOut(srv, i, url, k + 1);
    }
  }

  /** A `COMPLETE` status reached within the 240 rounds, after only answers that keep polling, hands its `alpha` on. */
  lemma {:induction false} PollFromCompleted(srv: SeqServer, i: nat, url: string, k: nat, j: nat,
                                             fs: seq<(string, Value)>, code: int)
    requires k <= j < POLL_LIMIT
    requires forall n :: k <= n < j ==> KeepsPolling(srv.poll(i, url, n))
    requires srv.poll(i, url, j) == Polled(code, Some(Object(fs))) && Get(fs, "status") == Str("COMPLETE")
    ensures PollFrom(srv, i, url, k) == Completed(Get(fs, "alpha"))
    decreases j - k
  {
    if k < j {
      PollFromCompleted(srv, i, url, k + 1, j, fs, code);
    }
  }

  /** At most 240 rounds: the poll never looks at an answer past the 240th. */
  lemma {:induction false} PollFromBounded(srv: SeqServer, srv': SeqServer, i: nat, url: string, k: nat)
    requires forall j :: k <= j < POLL_LIMIT ==> srv.poll(i, url, j) == srv'.poll(i, url, j)
    ensures PollFrom(srv, i, url, k) == PollFrom(srv', i, url, k)
    decreases POLL_LIMIT - k
  {
    if k < POLL_LIMIT {
      PollFromBounded(srv, srv', i, url, k + 1);
    }
  }

  /** The loop, with its `finished` flag and `alpha_id`. */
  method PollStatus(srv: SeqServer, i: nat, url: string) returns (p: PollOutcome)
    ensures p == PollFrom(srv, i, url, 0)
  {
    var finished := false;
    var alphaId := Null;
    for k := 0 to POLL_LIMIT
      invariant !finished
      invariant PollFrom(srv, i, url, k) == PollFrom(srv, i, url, 0)
    {
      var reply := srv.poll(i, url, k);
      if reply.PollRaised? {
        return PollCrash("RequestException");
      }
      if reply.body.None? {
        return PollCrash("JSONDecodeError");
      }
      if !reply.body.value.Object? {
        return PollCrash("AttributeError");
      }
      var status := Get(reply.body.value.fields, "status");
      if status == Str("COMPLETE") {
        alphaId := Get(reply.body.value.fields, "alpha");
        finished := true;
        break;
      } else if status == Str("ERROR") {
        finished := false;
        return Failed;
      }
    }
    if finished {
      return Completed(alphaId);
    }
    return TimedOut;
  }

  // ---------------------------------------------------------------------
  // The metrics fetch

  /** How the `for attempt in range(20)` loop ends; `NoMetrics` is its `else`. */
  datatype Metrics = MetricsCrash(error: string) | NoMetrics | Arrived(data: Value)

  function FetchLoop(srv: SeqServer, i: nat, alphaId: Value, attempt: nat): Metrics
    decreases FETCH_LIMIT - attempt
  {
    if attempt >= FETCH_LIMIT then NoMetrics
    else
      match srv.fetch(i, alphaId, attempt)
      case FetchRaised => MetricsCrash("RequestException")
      case Fetched(code, body) =>
        if code != 200 then FetchLoop(srv, i, alphaId, attempt + 1)
        else if body.None? then MetricsCrash("JSONDecodeError")
        else Arrived(body.value)
  }

  /** The `else` branch is taken exactly when every remaining attempt is answered with a non-200 status. */
  lemma {:induction false} FetchLoopNoMetrics(srv: SeqServer, i: nat, alphaId: Value, attempt: nat)
    requires attempt <= FETCH_LIMIT
    ensures FetchLoop(srv, i, alphaId, attempt) == NoMetrics <==>
      forall j :: attempt <= j < FETCH_LIMIT ==> NotReady(srv.fetch(i, alphaId, j))
    decreases FETCH_LIMIT - attempt
  {
    if attempt < FETCH_LIMIT {
      FetchLoopNoMetrics(srv, i, alphaId, attempt + 1);
    }
  }

  /** Metrics arrive exactly when some attempt answers 200 with a JSON body and all earlier ones did not answer 200. */
  lemma {:induction false} FetchLoopArrived(srv: SeqServer, i: nat, alphaId: Value, attempt: nat, d: Value)
    requires attempt <= FETCH_LIMIT
    ensures FetchLoop(srv, i, alphaId, attempt) == Arrived(d) <==>
      exists k :: attempt <= k < FETCH_LIMIT && srv.fetch(i, alphaId, k) == Fetched(200, Some(d)) &&
                  forall j :: attempt <= j < k ==> NotReady(srv.fetch(i, alphaId, j))
    decreases FETCH_LIMIT - attempt
  {
    if attempt < FETCH_LIMIT {
      FetchLoopArrived(srv, i, alphaId, attempt + 1, d);
      var reply := srv.fetch(i, alphaId, attempt);
      if reply == Fetched(200, Some(d)) {
        assert FetchLoop(srv, i, alphaId, attempt) == Arrived(d);
      } else if NotReady(reply) {
        if FetchLoop(srv, i, alphaId, attempt + 1) == Arrived(d) {
          var k :| attempt + 1 <= k < FETCH_LIMIT && srv.fetch(i, alphaId, k) == Fetched(200, Some(d)) &&
                   forall j :: attempt + 1 <= j < k ==> NotReady(srv.fetch(i, alphaId, j));
          assert forall j :: attempt <= j < k ==> NotReady(srv.fetch(i, alphaId, j));
        }
      }
    }
  }

  /** The loop with its `break` and its `else`. */
  method FetchAlpha(srv: SeqServer, i: nat, alphaId: Value) returns (r: Metrics)
    ensures r == FetchLoop(srv, i, alphaId, 0)
  {
    var alphaData := Null;
    var arrived := false;
    for attempt := 0 to FETCH_LIMIT
      invariant !arrived
      invariant FetchLoop(srv, i, alphaId, attempt) == FetchLoop(srv, i, alphaId, 0)
    {
      var reply := srv.fetch(i, alphaId, attempt);
      if reply.FetchRaised? {
        return MetricsCrash("RequestException");
      }
      if reply.code == 200 {
        if reply.body.None? {
          return MetricsCrash("JSONDecodeError");
        }
        alphaData := reply.body.value;
        arrived := true;
        break;
      }
    }
    if !arrived {
      return NoMetrics;
    }
    return Arrived(alphaData);
  }

  // ---------------------------------------------------------------------
  // One candidate

  /** The driver state carried from one candidate to the next. */
  datatype SeqState = SeqState(ledger: seq<Row>, url: Binding, logins: nat)

  /** After the call to `sign_in` at the start. */
  const Start := SeqState([], Unbound, 1)

  /** A run so far: still going, or ended by an exception with the rows already flushed. */
  datatype Progress = Running(st: SeqState) | Stopped(error: string, ledger: seq<Row>)

  /** The rows written so far. */
  function Written(p: Progress): seq<Row>
  {
    if p.Running? then p.st.ledger else p.ledger
  }

  /** The `is` figures of a metrics document, or the exception reading them raises. */
  function RowOf(alpha: string, data: Value): (r: Result<Row>)
    ensures r.Ok? <==> data.Object? && GetOr(data.fields, "is", Object([])).Object?
    ensures r.Ok? ==> r.value == MetricsRow(alpha, GetOr(data.fields, "is", Object([])).fields) && r.value.alpha == alpha
  {
    if !data.Object? then Err("AttributeError")
    else
      var isData := GetOr(data.fields, "is", Object([]));
      if !isData.Object? then Err("AttributeError")
      else Ok(MetricsRow(alpha, isData.fields))
  }

  /** What the fetched metrics lead to. */
  function AfterFetch(st: SeqState, alpha: string, f: Metrics): Progress
  {
    match f
    case MetricsCrash(e) => Stopped(e, st.ledger)
    case NoMetrics => Running(st)
    case Arrived(d) =>
      match RowOf(alpha, d)
      case Err(e) => Stopped(e, st.ledger)
      case Ok(row) => Running(st.(ledger := st.ledger + [row]))
  }

  /** What the status poll leads to. */
  function AfterPoll(srv: SeqServer, st: SeqState, i: nat, alpha: string, p: PollOutcome): Progress
  {
    match p
    case PollCrash(e) => Stopped(e, st.ledger)
    case Failed => Running(st)
    case TimedOut => Running(st)
    case Completed(alphaId) => AfterFetch(st, alpha, FetchLoop(srv, i, alphaId, 0))
  }

  /** The `if not sim_progress_url: continue` guard and what follows it. */
  function AfterSubmit(srv: SeqServer, st: SeqState, i: nat, alpha: string): Progress
  {
    match st.url
    case Unbound => Stopped("UnboundLocalError", st.ledger)
    case Bound(h) =>
      if !Present(h) then Running(st)
      else AfterPoll(srv, st, i, alpha, PollFrom(srv, i, h.value, 0))
  }

  /** One iteration of `for index, alpha_expr in enumerate(alphas, start=1)`, with `i` counted from 0. */
  function CandidateStep(srv: SeqServer, skip: set<string>, st: SeqState, i: nat, alpha: string): Progress
  {
    if alpha in skip then Running(st)
    else
      var sub := SubmitFrom(srv, i, 0, st.url);
      AfterSubmit(srv, st.(url := sub.url, logins := st.logins + if sub.relogin then 1 else 0), i, alpha)
  }

  function RunSeqFrom(srv: SeqServer, skip: set<string>, alphas: seq<string>): Progress
  {
    if alphas == [] then Running(Start)
    else
      match RunSeqFrom(srv, skip, alphas[..|alphas| - 1])
      case Stopped(e, l) => Stopped(e, l)
      case Running(st) => CandidateStep(srv, skip, st, |alphas| - 1, alphas[|alphas| - 1])
  }

  /** What a run ends with: `return None`, an exception (with the rows written before it), or the ledger. */
  datatype SeqOutcome =
    | NotRecognised
    | Crashed(error: string, written: seq<Row>)
    | Done(ledger: seq<Row>, logins: nat)

  /** `run_backtest_by_wq_api`. */
  function RunSeqSpec(data: Value, existing: Option<seq<string>>, srv: SeqServer): SeqOutcome
  {
    match ParseCandidates(data)
    case Unrecognised => NotRecognised
    case Malformed(e) => Crashed(e, [])
    case Candidates(alphas) =>
      match RunSeqFrom(srv, SkipSet(existing), alphas)
      case Stopped(e, l) => Crashed(e, l)
      case Running(st) => Done(st.ledger, st.logins)
  }

  // ---------------------------------------------------------------------
  // What one candidate can write

  /** A candidate in the skip set is not submitted: nothing changes. */
  lemma SkippedUntouched(srv: SeqServer, skip: set<string>, st: SeqState, i: nat, alpha: string)
    requires alpha in skip
    ensures CandidateStep(srv, skip, st, i, alpha) == Running(st)
  {
  }

  /** The fetched metrics add at most their own row. */
  lemma AfterFetchRow(st: SeqState, alpha: string, f: Metrics)
    ensures var r := AfterFetch(st, alpha, f);
      Written(r) != st.ledger ==>
        r.Running? && f.Arrived? && RowOf(alpha, f.data).Ok? && Written(r) == st.ledger + [RowOf(alpha, f.data).value]
  {
  }

  /**
   * A candidate adds at most one row to the ledger, and only when its
   * submission left a URL, the status poll of that URL reached `COMPLETE`
   * and the metrics arrived with a 200; the row carries the candidate's own
   * expression and the `is` figures.  An exception writes nothing more.
   */
  lemma CandidateRow(srv: SeqServer, skip: set<string>, st: SeqState, i: nat, alpha: string)
    ensures var r := CandidateStep(srv, skip, st, i, alpha);
      Written(r) != st.ledger ==>
        alpha !in skip && r.Running? &&
        var h := SubmitFrom(srv, i, 0, st.url).url;
        h.Bound? && Present(h.header) && PollFrom(srv, i, h.header.value, 0).Completed? &&
        var f := FetchLoop(srv, i, PollFrom(srv, i, h.header.value, 0).alphaId, 0);
        f.Arrived? && RowOf(alpha, f.data).Ok? && Written(r) == st.ledger + [RowOf(alpha, f.data).value]
  {
    if alpha !in skip {
      var sub := SubmitFrom(srv, i, 0, st.url);
      var st1 := st.(url := sub.url, logins := st.logins + if sub.relogin then 1 else 0);
      if sub.url.Bound? && Present(sub.url.header) {
        var p := PollFrom(srv, i, sub.url.header.value, 0);
        if p.Completed? {
          AfterFetchRow(st1, alpha, FetchLoop(srv, i, p.alphaId, 0));
        }
      }
    }
  }

  // ---------------------------------------------------------------------
  // The URL that outlives its candidate

  /**
   * As written: when all fifteen tries of a candidate raise or are refused,
   * the guard sees the previous candidate's URL, so the previous simulation
   * is polled and its metrics are filed under this candidate's expression.
   */
  lemma StaleUrlReused(srv: SeqServer, skip: set<string>, st: SeqState, i: nat, alpha: string, u: string)
    requires alpha !in skip && st.url == Bound(Some(u)) && u != ""
    requires forall k :: 0 <= k < SUBMIT_TOLERANCE ==> !Assigns(srv.submit(i, k))
    ensures CandidateStep(srv, skip, st, i, alpha) == AfterSubmit(srv, st.(logins := st.logins + 1), i, alpha)
  {
    SubmitFromKeeps(srv, i, 0, st.url);
  }

  /**
   * A concrete instance: the first candidate `a` is accepted at `u` and its
   * simulation completes with metrics `fs`; every try of the second
   * candidate `b` is refused with a 500, and the server, asked about `u`
   * again, still reports `a`'s simulation.  The ledger then holds `a`'s
   * metrics twice, the second time under `b`.
   */
  lemma StaleUrlMislabelsRow(srv: SeqServer, a: string, b: string, u: string, id: Value, fs: seq<(string, Value)>)
    requires u != ""
    requires srv.submit(0, 0) == Submitted(201, "", Some(u))
    requires forall k :: 0 <= k < SUBMIT_TOLERANCE ==> srv.submit(1, k) == Submitted(500, "", None)
    requires srv.poll(0, u, 0) == Polled(200, Some(Object([("status", Str("COMPLETE")), ("alpha", id)])))
    requires srv.poll(1, u, 0) == srv.poll(0, u, 0)
    requires srv.fetch(0, id, 0) == Fetched(200, Some(Object([("is", Object(fs))])))
    requires srv.fetch(1, id, 0) == srv.fetch(0, id, 0)
    ensures RunSeqFrom(srv, {}, [a, b]) == Running(SeqState([MetricsRow(a, fs), MetricsRow(b, fs)], Bound(Some(u)), 2))
  {
    var ab := [a, b];
    assert ab[..2] == ab;
    FirstCandidateAccepted(srv, ab, u, id, fs);
    var st1 := SeqState([MetricsRow(a, fs)], Bound(Some(u)), 1);
    StaleCandidateCompletes(srv, st1, 1, b, u, id, fs);
    RunSeqFromSnoc(srv, {}, ab, 1, st1);
    assert st1.ledger + [MetricsRow(b, fs)] == [MetricsRow(a, fs), MetricsRow(b, fs)];
  }

  lemma StaleCandidateCompletes(srv: SeqServer, st: SeqState, i: nat, b: string, u: string, id: Value, fs: seq<(string, Value)>)
    requires st.url == Bound(Some(u)) && u != ""
    requires forall k :: 0 <= k < SUBMIT_TOLERANCE ==> srv.submit(i, k) == Submitted(500, "", None)
    requires srv.poll(i, u, 0) == Polled(200, Some(Object([("status", Str("COMPLETE")), ("alpha", id)])))
    requires srv.fetch(i, id, 0) == Fetched(200, Some(Object([("is", Object(fs))])))
    ensures CandidateStep(srv, {}, st, i, b)
         == Running(st.(ledger := st.ledger + [MetricsRow(b, fs)], logins := st.logins + 1))
  {
    StaleUrlReused(srv, {}, st, i, b, u);
    CompletesAtOnce(srv, st.(logins := st.logins + 1), i, b, u, id, fs);
  }

  lemma FirstCandidateAccepted(srv: SeqServer, alphas: seq<string>, u: string, id: Value, fs: seq<(string, Value)>)
    requires |alphas| >= 1 && u != ""
    requires srv.submit(0, 0) == Submitted(201, "", Some(u))
    requires srv.poll(0, u, 0) == Polled(200, Some(Object([("status", Str("COMPLETE")), ("alpha", id)])))
    requires srv.fetch(0, id, 0) == Fetched(200, Some(Object([("is", Object(fs))])))
    ensures RunSeqFrom(srv, {}, alphas[..1]) == Running(SeqState([MetricsRow(alphas[0], fs)], Bound(Some(u)), 1))
  {
    assert alphas[..0] == [];
    assert RunSeqFrom(srv, {}, []) == Running(Start);
    RunSeqFromSnoc(srv, {}, alphas, 0, Start);
    AcceptedAtOnce(srv, Start, 0, alphas[0], u, id, fs);
    assert Start.ledger + [MetricsRow(alphas[0], fs)] == [MetricsRow(alphas[0], fs)];
  }

  lemma AcceptedAtOnce(srv: SeqServer, st: SeqState, i: nat, alpha: string, u: string, id: Value, fs: seq<(string, Value)>)
    requires u != "" && srv.submit(i, 0) == Submitted(201, "", Some(u))
    requires srv.poll(i, u, 0) == Polled(200, Some(Object([("status", Str("COMPLETE")), ("alpha", id)])))
    requires srv.fetch(i, id, 0) == Fetched(200, Some(Object([("is", Object(fs))])))
    ensures CandidateStep(srv, {}, st, i, alpha)
         == Running(st.(url := Bound(Some(u)), ledger := st.ledger + [MetricsRow(alpha, fs)]))
  {
    assert SubmitFrom(srv, i, 0, st.url) == Submitting(Bound(Some(u)), false);
    CompletesAtOnce(srv, st.(url := Bound(Some(u))), i, alpha, u, id, fs);
  }

  /** A URL whose first poll reports `COMPLETE` and whose first fetch answers 200 yields one row at once. */
  lemma CompletesAtOnce(srv: SeqServer, st: SeqState, i: nat, alpha: string, u: string, id: Value, fs: seq<(string, Value)>)
    requires st.url == Bound(Some(u)) && u != ""
    requires srv.poll(i, u, 0) == Polled(200, Some(Object([("status", Str("COMPLETE")), ("alpha", id)])))
    requires srv.fetch(i, id, 0) == Fetched(200, Some(Object([("is", Object(fs))])))
    ensures AfterSubmit(srv, st, i, alpha) == Running(st.(ledger := st.ledger + [MetricsRow(alpha, fs)]))
  {
    var status := [("status", Str("COMPLETE")), ("alpha", id)];
    assert status[..1] == [("status", Str("COMPLETE"))];
    assert Lookup(status, "status") == Lookup(status[..1], "status");
    assert PollFrom(srv, i, u, 0) == Completed(id);
    assert FetchLoop(srv, i, id, 0) == Arrived(Object([("is", Object(fs))]));
  }

  /** As written: on the first candidate submitted, fifteen tries that raise or are refused end the run with `UnboundLocalError`. */
  lemma FirstCandidateUnbound(srv: SeqServer, skip: set<string>, alpha: string, ledger: seq<Row>, logins: nat)
    requires alpha !in skip
    requires forall k :: 0 <= k < SUBMIT_TOLERANCE ==> !Assigns(srv.submit(0, k))
    ensures CandidateStep(srv, skip, SeqState(ledger, Unbound, logins), 0, alpha) == Stopped("UnboundLocalError", ledger)
  {
    SubmitFromKeeps(srv, 0, 0, Unbound);
  }

  /** As evidently intended: `sim_progress_url` starts every candidate as `None`. */
  function CandidateStepFresh(srv: SeqServer, skip: set<string>, st: SeqState, i: nat, alpha: string): Progress
  {
    CandidateStep(srv, skip, st.(url := Bound(None)), i, alpha)
  }

  /** With the reset, a row for a candidate is only ever written from the `Location` of one of its own accepted tries. */
  lemma FreshRowFromOwnSubmission(srv: SeqServer, skip: set<string>, st: SeqState, i: nat, alpha: string)
    ensures Written(CandidateStepFresh(srv, skip, st, i, alpha)) != st.ledger ==>
      exists k :: 0 <= k < SUBMIT_TOLERANCE && Accepted(srv.submit(i, k)) &&
        PollFrom(srv, i, srv.submit(i, k).location.value, 0).Completed?
  {
    var st0 := st.(url := Bound(None));
    CandidateRow(srv, skip, st0, i, alpha);
    if Written(CandidateStep(srv, skip, st0, i, alpha)) != st.ledger {
      var sub := SubmitFrom(srv, i, 0, Bound(None));
      SubmitFromOrigin(srv, i, 0, Bound(None));
      var k :| 0 <= k < SUBMIT_TOLERANCE && Assigns(srv.submit(i, k)) && sub.url == Bound(srv.submit(i, k).location);
      assert Accepted(srv.submit(i, k));
    }
  }

  /** With the reset, a candidate whose tries all fail writes nothing, signs in again and the run goes on. */
  lemma FreshAbandonWritesNothing(srv: SeqServer, skip: set<string>, st: SeqState, i: nat, alpha: string)
    requires alpha !in skip
    requires forall k :: 0 <= k < SUBMIT_TOLERANCE ==> !Accepted(srv.submit(i, k))
    ensures var r := CandidateStepFresh(srv, skip, st, i, alpha);
      r.Running? && r.st.ledger == st.ledger && r.st.logins == st.logins + 1
  {
    var sub := SubmitFrom(srv, i, 0, Bound(None));
    SubmitFromRelogin(srv, i, 0, Bound(None));
    SubmitFromOrigin(srv, i, 0, Bound(None));
    if sub.url != Bound(None) {
      var k :| 0 <= k < SUBMIT_TOLERANCE && Assigns(srv.submit(i, k)) && sub.url == Bound(srv.submit(i, k).location);
      assert !Present(sub.url.header);
    }
  }

  /** With the reset, the guard always finds the name bound, so `UnboundLocalError` cannot happen. */
  lemma FreshNeverUnbound(srv: SeqServer, i: nat)
    ensures SubmitFrom(srv, i, 0, Bound(None)).url.Bound?
  {
    SubmitFromOrigin(srv, i, 0, Bound(None));
  }

  // ---------------------------------------------------------------------
  // What a run writes

  /** One more candidate is one more step. */
  lemma RunSeqFromSnoc(srv: SeqServer, skip: set<string>, alphas: seq<string>, i: nat, st: SeqState)
    requires i < |alphas| && RunSeqFrom(srv, skip, alphas[..i]) == Running(st)
    ensures RunSeqFrom(srv, skip, alphas[..i + 1]) == CandidateStep(srv, skip, st, i, alphas[i])
  {
    assert alphas[..i + 1][..i] == alphas[..i];
  }

  lemma {:induction false} StoppedStays(srv: SeqServer, skip: set<string>, alphas: seq<string>, k: nat)
    requires k <= |alphas| && RunSeqFrom(srv, skip, alphas[..k]).Stopped?
    ensures RunSeqFrom(srv, skip, alphas) == RunSeqFrom(srv, skip, alphas[..k])
    decreases |alphas|
  {
    if k < |alphas| {
      var front := alphas[..|alphas| - 1];
      assert front[..k] == alphas[..k];
      StoppedStays(srv, skip, front, k);
    } else {
      assert alphas[..k] == alphas;
    }
  }

  /** Every row is about a listed candidate outside the skip set, and there is at most one per candidate. */
  lemma {:induction false} RunSeqRows(srv: SeqServer, skip: set<string>, alphas: seq<string>)
    ensures |Written(RunSeqFrom(srv, skip, alphas))| <= |alphas|
    ensures forall r :: r in Written(RunSeqFrom(srv, skip, alphas)) ==> r.alpha in alphas && r.alpha !in skip
  {
    if alphas != [] {
      var front := alphas[..|alphas| - 1];
      var last := alphas[|alphas| - 1];
      RunSeqRows(srv, skip, front);
      var p := RunSeqFrom(srv, skip, front);
      forall a | a in front ensures a in alphas {
        assert a in alphas[..|alphas| - 1];
      }
      if p.Running? {
        CandidateRow(srv, skip, p.st, |alphas| - 1, last);
        var q := CandidateStep(srv, skip, p.st, |alphas| - 1, last);
        if q.Running? && q.st.ledger != p.st.ledger {
          RowsSnoc(q.st.ledger, p.st.ledger, last);
        }
      }
    }
  }

  /** A ledger that is an old one plus one row carrying `alpha`. */
  lemma RowsSnoc(l: seq<Row>, before: seq<Row>, alpha: string)
    requires |l| == |before| + 1 && l[..|before|] == before && l[|before|].alpha == alpha
    ensures forall r :: r in l ==> r in before || r.alpha == alpha
  {
    assert l == before + [l[|before|]];
  }

  /** The whole run: skipped candidates from the existing ledger, and the rows as above. */
  lemma RunSeqSpecRows(data: Value, existing: Option<seq<string>>, srv: SeqServer)
    requires ParseCandidates(data).Candidates?
    ensures var out := RunSeqSpec(data, existing, srv);
      var l := if out.Done? then out.ledger else out.written;
      out != NotRecognised && |l| <= |ParseCandidates(data).alphas| &&
      forall r :: r in l ==> r.alpha in ParseCandidates(data).alphas && r.alpha !in SkipSet(existing)
  {
    RunSeqRows(srv, SkipSet(existing), ParseCandidates(data).alphas);
  }

  // ---------------------------------------------------------------------
  // The imperative driver

  /**
   * The loop body for one candidate.  The driver's locals `finished_alphas`,
   * `sim_progress_url`, the session and the writer are the parameters and
   * the state record.
   */
  method ProcessCandidate(srv: SeqServer, skip: set<string>, st: SeqState, i: nat, alpha: string)
    returns (p: Progress)
    ensures p == CandidateStep(srv, skip, st, i, alpha)
  {
    if alpha in skip {
      return Running(st);
    }
    var simProgressUrl, relogin := SubmitWithRetry(srv, i, st.url);
    var logins := st.logins;
    if relogin {
      logins := logins + 1;
    }
    p := PollAndFetch(srv, st.(url := simProgressUrl, logins := logins), i, alpha);
  }

  /** From the `if not sim_progress_url` guard to the row write. */
  method PollAndFetch(srv: SeqServer, st: SeqState, i: nat, alpha: string) returns (p: Progress)
    ensures p == AfterSubmit(srv, st, i, alpha)
  {
    if st.url.Unbound? {
      return Stopped("UnboundLocalError", st.ledger);
    }
    if !Present(st.url.header) {
      return Running(st);
    }
    var poll := PollStatus(srv, i, st.url.header.value);
    if poll.PollCrash? {
      return Stopped(poll.error, st.ledger);
    }
    if !poll.Completed? {
      return Running(st);
    }
    var f := FetchAlpha(srv, i, poll.alphaId);
    if f.MetricsCrash? {
      return Stopped(f.error, st.ledger);
    }
    if f.NoMetrics? {
      return Running(st);
    }
    var row := RowOf(alpha, f.data);
    if row.Err? {
      return Stopped(row.error, st.ledger);
    }
    p := Running(st.(ledger := st.ledger + [row.value]));
  }

  method RunBacktest(data: Value, existing: Option<seq<string>>, srv: SeqServer) returns (out: SeqOutcome)
    ensures out == RunSeqSpec(data, existing, srv)
  {
    var parsed := ParseCandidates(data);
    if parsed.Unrecognised? {
      return NotRecognised;
    }
    if parsed.Malformed? {
      return Crashed(parsed.error, []);
    }
    var alphas := parsed.alphas;
    var finishedAlphas := ReadSkipSet(existing);
    var st := Start;
    for i := 0 to |alphas|
      invariant RunSeqFrom(srv, finishedAlphas, alphas[..i]) == Running(st)
    {
      RunSeqFromSnoc(srv, finishedAlphas, alphas, i, st);
      var p := ProcessCandidate(srv, finishedAlphas, st, i, alphas[i]);
      if p.Stopped? {
        StoppedStays(srv, finishedAlphas, alphas, i + 1);
        return Crashed(p.error, p.ledger);
      }
      st := p.st;
    }
    assert alphas[..|alphas|] == alphas;
    return Done(st.ledger, st.logins);
  }
}

/**
 * The batched backtest driver (`run_backtest_mul_by_wq_api` and
 * `monitor_pending`): candidates are submitted one after another into a
 * `pending` dict keyed by simulation id, and whenever the dict reaches the
 * batch size it is drained by polling sweeps.  Each sweep works on a
 * snapshot of the dict, appends ledger rows, collects the finished ids and
 * pops them once the sweep is over.
 *
 * The server and the language model are oracles: replies are looked up by
 * the sweep number (counted over the whole run), the progress URL, the
 * alpha id and attempt, the prompt, or the repaired expression.
 */
module BatchedBacktest {
  import opened Wrappers
  import opened Json
  import opened Text
  import opened Grouping
  import opened Backtest
  import FixPrompt

  const LIMIT_MARKER := "SIMULATION_LIMIT_EXCEEDED"
  const FETCH_TRIES := 10

  /** A `pending` entry: `{"alpha", "progress_url", "first_time"}`. */
  datatype Job = Job(alpha: string, progressUrl: string, firstTime: bool)

  /** The chat completion request: raised, or the message content. */
  datatype RepairReply = RepairRaised | Repaired(completion: string)

  /** Everything `monitor_pending` asks the outside world. */
  datatype Monitor = Monitor(
    poll: (nat, string) -> PollReply,        // sweep, progress URL
    fetch: (nat, Value, nat) -> FetchReply,  // sweep, alpha id, attempt
    repair: (nat, string) -> RepairReply,    // sweep, prompt
    resubmit: (nat, string) -> SubmitReply,  // sweep, repaired expression
    promptDoc: Value,                        // the prompt file, as loaded
    render: Value -> string)                 // `str(status_json)`

  /** The submit replies, by candidate position, and the monitoring replies. */
  datatype Server = Server(submit: nat -> SubmitReply, monitor: Monitor)

  // ---------------------------------------------------------------------
  // Submission

  /** What the driver does with a submit reply. */
  datatype Submission = Queue | Drop | Track(simId: string, url: string)

  /**
   * Retry queue on an exception, on a refusal that mentions the concurrency
   * limit, or on a success without a `Location`; any other refusal is
   * dropped; otherwise the job is tracked under the URL's last segment.
   */
  function DecideSubmit(reply: SubmitReply): (d: Submission)
    ensures d == Queue <==>
      reply.SubmitRaised? ||
      (reply.Submitted? && !IsSuccessCode(reply.code) && Contains(reply.text, LIMIT_MARKER)) ||
      (reply.Submitted? && IsSuccessCode(reply.code) && !Present(reply.location))
    ensures d == Drop <==>
      reply.Submitted? && !IsSuccessCode(reply.code) && !Contains(reply.text, LIMIT_MARKER)
    ensures d.Track? ==>
      reply.Submitted? && IsSuccessCode(reply.code) && reply.location == Some(d.url) && d.url != ""
  {
    match reply
    case SubmitRaised => Queue
    case Submitted(code, text, location) =>
      if !IsSuccessCode(code) then (if Contains(text, LIMIT_MARKER) then Queue else Drop)
      else if !Present(location) then Queue
      else Track(LastSegment(location.value), location.value)
  }

  /** The simulation id is the text after the URL's last slash. */
  lemma SimIdIsLastSegment(reply: SubmitReply)
    requires DecideSubmit(reply).Track?
    ensures var d := DecideSubmit(reply);
      !Contains(d.simId, "/") && |d.simId| <= |d.url| && d.url[|d.url| - |d.simId|..] == d.simId
  {
    LastSegmentProps(DecideSubmit(reply).url);
  }

  // ---------------------------------------------------------------------
  // Fetching metrics

  datatype Fetch = FetchCrashed | NoData | Data(body: Value)

  /** The `for _ in range(10)` metrics loop, from attempt `attempt` on. */
  function FetchFrom(m: Monitor, pass: nat, alphaId: Value, attempt: nat): Fetch
    decreases FETCH_TRIES - attempt
  {
    if attempt >= FETCH_TRIES then NoData
    else
      match m.fetch(pass, alphaId, attempt)
      case FetchRaised => FetchCrashed
      case Fetched(code, body) =>
        if code != 200 then FetchFrom(m, pass, alphaId, attempt + 1)
        else if body.None? then FetchCrashed
        else Data(body.value)
  }

  method FetchMetrics(m: Monitor, pass: nat, alphaId: Value) returns (r: Fetch)
    ensures r == FetchFrom(m, pass, alphaId, 0)
  {
    for attempt := 0 to FETCH_TRIES
      invariant FetchFrom(m, pass, alphaId, attempt) == FetchFrom(m, pass, alphaId, 0)
    {
      var reply := m.fetch(pass, alphaId, attempt);
      if reply.FetchRaised? {
        return FetchCrashed;
      }
      if reply.code == 200 {
        if reply.body.None? {
          return FetchCrashed;
        }
        return Data(reply.body.value);
      }
    }
    return NoData;
  }

  /** No data exactly when every remaining attempt answers with a non-200 status. */
  lemma {:induction false} FetchFromNoData(m: Monitor, pass: nat, alphaId: Value, attempt: nat)
    requires attempt <= FETCH_TRIES
    ensures FetchFrom(m, pass, alphaId, attempt) == NoData <==>
      forall j :: attempt <= j < FETCH_TRIES ==> NotReady(m.fetch(pass, alphaId, j))
    decreases FETCH_TRIES - attempt
  {
    if attempt < FETCH_TRIES {
      FetchFromNoData(m, pass, alphaId, attempt + 1);
    }
  }

  /** Data exactly when some attempt answers 200 with a JSON body and all earlier ones did not. */
  lemma {:induction false} FetchFromData(m: Monitor, pass: nat, alphaId: Value, attempt: nat, b: Value)
    requires attempt <= FETCH_TRIES
    ensures FetchFrom(m, pass, alphaId, attempt) == Data(b) <==>
      exists k :: attempt <= k < FETCH_TRIES && m.fetch(pass, alphaId, k) == Fetched(200, Some(b)) &&
                  forall j :: attempt <= j < k ==> NotReady(m.fetch(pass, alphaId, j))
    decreases FETCH_TRIES - attempt
  {
    if attempt < FETCH_TRIES {
      FetchFromData(m, pass, alphaId, attempt + 1, b);
      var reply := m.fetch(pass, alphaId, attempt);
      if reply == Fetched(200, Some(b)) {
        assert FetchFrom(m, pass, alphaId, attempt) == Data(b);
      } else if NotReady(reply) {
        if FetchFrom(m, pass, alphaId, attempt + 1) == Data(b) {
          var k :| attempt + 1 <= k < FETCH_TRIES && m.fetch(pass, alphaId, k) == Fetched(200, Some(b)) &&
                   forall j :: attempt + 1 <= j < k ==> NotReady(m.fetch(pass, alphaId, j));
          assert forall j :: attempt <= j < k ==> NotReady(m.fetch(pass, alphaId, j));
        }
      }
    }
  }

  // ---------------------------------------------------------------------
  // One job in one sweep

  /**
   * What handling one job does: whether its id is collected as finished,
   * the rows it appends, a job it inserts into `pending`, and the repaired
   * expression that replaces the job's expression in the alphas file.
   */
  datatype Effect = Effect(finished: bool, rows: seq<Row>, insert: Option<(string, Job)>, rewrite: Option<string>)

  const Stay := Effect(false, [], None, None)

  const Finish := Effect(true, [], None, None)

  /** The status document of a poll, when the reply is neither raised, 429, nor anything but a JSON object. */
  function StatusFields(reply: PollReply): (r: Option<seq<(string, Value)>>)
    ensures r.Some? <==> reply.Polled? && reply.code != 429 && reply.body.Some? && reply.body.value.Object?
    ensures r.Some? ==> reply.body.value == Object(r.value)
  {
    if reply.Polled? && reply.code != 429 && reply.body.Some? && reply.body.value.Object?
    then Some(reply.body.value.fields) else None
  }

  /** The body of the `for sim_id, info in …` loop, its `try` included. */
  function JobEffect(m: Monitor, pass: nat, job: Job): Effect
  {
    match StatusFields(m.poll(pass, job.progressUrl))
    case None => Stay
    case Some(fs) => StatusEffect(m, pass, job, fs)
  }

  /** What the `status` of an answered poll leads to. */
  function StatusEffect(m: Monitor, pass: nat, job: Job, fs: seq<(string, Value)>): Effect
  {
    var status := Get(fs, "status");
    if status == Str("COMPLETE") || status == Str("WARNING") then CompleteEffect(m, pass, job, fs)
    else if status == Str("ERROR") then
      if job.firstTime then Effect(true, [FailureRow(job.alpha, "FAILED:ERROR")], None, None)
      else RepairEffect(m, pass, job, Object(fs))
    else Stay
  }

  /** A finished simulation: fetch its metrics and write them. */
  function CompleteEffect(m: Monitor, pass: nat, job: Job, statusFields: seq<(string, Value)>): Effect
  {
    var alphaId := Get(statusFields, "alpha");
    if !Truthy(alphaId) then Finish
    else
      match FetchFrom(m, pass, alphaId, 0)
      case FetchCrashed => Stay
      case NoData => Finish
      case Data(d) =>
        if !Truthy(d) then Finish
        else if !d.Object? then Stay
        else
          var isData := GetOr(d.fields, "is", Object([]));
          if !isData.Object? then Stay
          else Effect(true, [MetricsRow(job.alpha, isData.fields)], None, None)
  }

  /** The alphas file after replacing the first occurrence of `alpha`, when there is one. */
  function Rewrite(text: string, alpha: string, fixed: string): (r: string)
    ensures !Contains(text, alpha) ==> r == text
    ensures Contains(text, alpha) ==>
      exists i :: FirstOccurrence(text, alpha, i) && r == text[..i] + fixed + text[i + |alpha|..]
  {
    if Contains(text, alpha) then ReplaceFirst(text, alpha, fixed) else text
  }

  /** A failed repaired job: ask the model for a fix, rewrite the file, resubmit. */
  function RepairEffect(m: Monitor, pass: nat, job: Job, statusDoc: Value): Effect
  {
    match FixPrompt.BuildFixPrompt(m.promptDoc, job.alpha, m.render(statusDoc))
    case Err(_) => Stay
    case Ok(prompt) =>
      match m.repair(pass, prompt)
      case RepairRaised => Effect(true, [FailureRow(job.alpha, "FIX_FAIL_LLM")], None, None)
      case Repaired(completion) => ResubmitEffect(m, pass, job, Strip(completion))
  }

  /** The repaired expression `fixed` replaces the job's in the file and is submitted again. */
  function ResubmitEffect(m: Monitor, pass: nat, job: Job, fixed: string): Effect
  {
    match m.resubmit(pass, fixed)
    case SubmitRaised => Effect(true, [FailureRow(job.alpha, "FIX_FAIL_LLM")], None, Some(fixed))
    case Submitted(code, _, location) =>
      if !IsSuccessCode(code) then Effect(true, [FailureRow(job.alpha, "FIX_FAIL_SUBMIT")], None, Some(fixed))
      else if !Present(location) then Effect(true, [], None, Some(fixed))
      else Effect(true, [], Some((LastSegment(location.value), Job(fixed, location.value, false))), Some(fixed))
  }

  // ---------------------------------------------------------------------
  // What one poll leads to

  /** A 429, an exception, a non-object body or an unknown status leaves the job pending and writes nothing. */
  lemma UnansweredStays(m: Monitor, pass: nat, job: Job)
    requires var r := StatusFields(m.poll(pass, job.progressUrl));
      r.None? || Get(r.value, "status") !in [Str("COMPLETE"), Str("WARNING"), Str("ERROR")]
    ensures JobEffect(m, pass, job) == Stay
  {
  }

  /**
   * A finished simulation whose metrics arrive with a 200 at some attempt
   * within the ten: one row with the job's expression and the `is` figures,
   * and the job is finished.
   */
  lemma CompleteWritesMetricsRow(m: Monitor, pass: nat, job: Job, fs: seq<(string, Value)>, k: nat, b: Value)
    requires StatusFields(m.poll(pass, job.progressUrl)) == Some(fs)
    requires Get(fs, "status") == Str("COMPLETE") || Get(fs, "status") == Str("WARNING")
    requires Truthy(Get(fs, "alpha"))
    requires k < FETCH_TRIES && m.fetch(pass, Get(fs, "alpha"), k) == Fetched(200, Some(b))
    requires forall j :: 0 <= j < k ==> NotReady(m.fetch(pass, Get(fs, "alpha"), j))
    requires Truthy(b) && b.Object? && GetOr(b.fields, "is", Object([])).Object?
    ensures JobEffect(m, pass, job)
         == Effect(true, [MetricsRow(job.alpha, GetOr(b.fields, "is", Object([])).fields)], None, None)
  {
    FetchFromData(m, pass, Get(fs, "alpha"), 0, b);
    assert FetchFrom(m, pass, Get(fs, "alpha"), 0) == Data(b);
    CompleteEffectOfData(m, pass, job, fs, b);
  }

  lemma CompleteEffectOfData(m: Monitor, pass: nat, job: Job, fs: seq<(string, Value)>, b: Value)
    requires Truthy(Get(fs, "alpha")) && FetchFrom(m, pass, Get(fs, "alpha"), 0) == Data(b)
    requires Truthy(b) && b.Object? && GetOr(b.fields, "is", Object([])).Object?
    ensures CompleteEffect(m, pass, job, fs)
         == Effect(true, [MetricsRow(job.alpha, GetOr(b.fields, "is", Object([])).fields)], None, None)
  {
  }

  /** Without an alpha id, or with ten non-200 answers, the job is finished and no row is written. */
  lemma CompleteWithoutMetricsFinishes(m: Monitor, pass: nat, job: Job, fs: seq<(string, Value)>)
    requires StatusFields(m.poll(pass, job.progressUrl)) == Some(fs)
    requires Get(fs, "status") == Str("COMPLETE") || Get(fs, "status") == Str("WARNING")
    requires !Truthy(Get(fs, "alpha")) || forall j :: 0 <= j < FETCH_TRIES ==> NotReady(m.fetch(pass, Get(fs, "alpha"), j))
    ensures JobEffect(m, pass, job) == Finish
  {
    FetchFromNoData(m, pass, Get(fs, "alpha"), 0);
  }

  /** An `ERROR` on a job as submitted writes one `FAILED:ERROR` row with no metrics and finishes it. */
  lemma FirstTimeErrorFails(m: Monitor, pass: nat, job: Job, fs: seq<(string, Value)>)
    requires job.firstTime
    requires StatusFields(m.poll(pass, job.progressUrl)) == Some(fs) && Get(fs, "status") == Str("ERROR")
    ensures JobEffect(m, pass, job) == Effect(true, [Row(job.alpha, Null, Null, Null, Null, Null, Str("FAILED:ERROR"))], None, None)
  {
  }

  /** Every row a job writes carries that job's expression. */
  lemma JobRowsCarryAlpha(m: Monitor, pass: nat, job: Job)
    ensures forall r :: r in JobEffect(m, pass, job).rows ==> r.alpha == job.alpha
  {
    var fs := StatusFields(m.poll(pass, job.progressUrl));
    if fs.Some? {
      CompleteRowsCarryAlpha(m, pass, job, fs.value);
      RepairRowsCarryAlpha(m, pass, job, Object(fs.value));
    }
  }

  lemma CompleteRowsCarryAlpha(m: Monitor, pass: nat, job: Job, fs: seq<(string, Value)>)
    ensures forall r :: r in CompleteEffect(m, pass, job, fs).rows ==> r.alpha == job.alpha
  {
  }

  lemma RepairRowsCarryAlpha(m: Monitor, pass: nat, job: Job, doc: Value)
    ensures forall r :: r in RepairEffect(m, pass, job, doc).rows ==> r.alpha == job.alpha
  {
    var p := FixPrompt.BuildFixPrompt(m.promptDoc, job.alpha, m.render(doc));
    if p.Ok? {
      var answer := m.repair(pass, p.value);
      if answer.Repaired? {
        ResubmitRowsCarryAlpha(m, pass, job, Strip(answer.completion));
      }
    }
  }

  lemma ResubmitRowsCarryAlpha(m: Monitor, pass: nat, job: Job, fixed: string)
    ensures forall r :: r in ResubmitEffect(m, pass, job, fixed).rows ==> r.alpha == job.alpha
  {
  }

  /** A job as submitted never reaches the repair branch: it inserts nothing and leaves the file alone. */
  lemma FirstTimeNoRepair(m: Monitor, pass: nat, job: Job)
    requires job.firstTime
    ensures JobEffect(m, pass, job).insert.None? && JobEffect(m, pass, job).rewrite.None?
  {
  }

  /**
   * The repair branch, were it reached: with a fix and an accepted resubmission
   * the job is finished and the fixed expression goes into `pending` under
   * the new id, flagged as repaired, and into the file in place of the old one.
   */
  lemma RepairSwapsJob(m: Monitor, pass: nat, job: Job, fs: seq<(string, Value)>, prompt: string,
                       completion: string, code: int, text: string, url: string)
    requires !job.firstTime
    requires StatusFields(m.poll(pass, job.progressUrl)) == Some(fs) && Get(fs, "status") == Str("ERROR")
    requires FixPrompt.BuildFixPrompt(m.promptDoc, job.alpha, m.render(Object(fs))) == Ok(prompt)
    requires m.repair(pass, prompt) == Repaired(completion)
    requires m.resubmit(pass, Strip(completion)) == Submitted(code, text, Some(url))
    requires IsSuccessCode(code) && url != ""
    ensures var fixed := Strip(completion);
      JobEffect(m, pass, job) == Effect(true, [], Some((LastSegment(url), Job(fixed, url, false))), Some(fixed))
  {
  }

  // ---------------------------------------------------------------------
  // A sweep and the drain

  /** The state inside one sweep: `pending`, the ledger, `finished_ids` and the file text. */
  datatype Sweep = Sweep(pending: ODict<string, Job>, ledger: seq<Row>, finished: seq<string>, text: string)

  /** The sweep state after the effect `e` of handling the entry `id` of `job`. */
  function Apply(s: Sweep, id: string, job: Job, e: Effect): Sweep
  {
    Sweep(if e.insert.Some? then Assign(s.pending, e.insert.value.0, e.insert.value.1) else s.pending,
          s.ledger + e.rows,
          if e.finished then s.finished + [id] else s.finished,
          if e.rewrite.Some? then Rewrite(s.text, job.alpha, e.rewrite.value) else s.text)
  }

  function StepJob(m: Monitor, pass: nat, s: Sweep, item: (string, Job)): Sweep
  {
    Apply(s, item.0, item.1, JobEffect(m, pass, item.1))
  }

  /** The sweep over the snapshot `items`, left to right. */
  function ScanJobs(m: Monitor, pass: nat, s0: Sweep, items: seq<(string, Job)>): Sweep
    decreases |items|, 1
  {
    if items == [] then s0 else ScanLast(m, pass, s0, items)
  }

  /** The sweep over `items`, ending with its last entry. */
  function ScanLast(m: Monitor, pass: nat, s0: Sweep, items: seq<(string, Job)>): Sweep
    requires items != []
    decreases |items|, 0
  {
    StepJob(m, pass, ScanJobs(m, pass, s0, items[..|items| - 1]), items[|items| - 1])
  }

  /** The driver's state: `pending`, the ledger, `retry_queue`, the alphas file and the sweep count. */
  datatype State = State(pending: ODict<string, Job>, ledger: seq<Row>, retryQueue: seq<string>,
                         text: string, passes: nat)

  function Initial(text: string): State
  {
    State(Empty(), [], [], text, 0)
  }

  /** One iteration of `while pending`: sweep the snapshot, then pop the finished ids. */
  function PassSpec(m: Monitor, st: State): State
  {
    var sw := ScanJobs(m, st.passes, Sweep(st.pending, st.ledger, [], st.text), st.pending.entries);
    State(PopAll(sw.pending, sw.finished), sw.ledger, st.retryQueue, sw.text, st.passes + 1)
  }

  /** `monitor_pending` with at most `fuel` sweeps; `None` when they run out first. */
  function DrainSpec(m: Monitor, st: State, fuel: nat): Option<State>
    decreases fuel
  {
    if st.pending.entries == [] then Some(st)
    else if fuel == 0 then None
    else DrainSpec(m, PassSpec(m, st), fuel - 1)
  }

  /** A drain that ends leaves `pending` empty and the retry queue as it was. */
  lemma {:induction false} DrainEmpties(m: Monitor, st: State, fuel: nat, fin: State)
    requires DrainSpec(m, st, fuel) == Some(fin)
    ensures fin.pending.entries == [] && fin.retryQueue == st.retryQueue
    decreases fuel
  {
    if st.pending.entries != [] {
      DrainEmpties(m, PassSpec(m, st), fuel - 1, fin);
    }
  }

  // ---------------------------------------------------------------------
  // The submit loop

  /** One iteration of `for i, alpha_expr in enumerate(alphas, 1)`, `i` counted from 0. */
  function SubmitStep(srv: Server, batchSize: int, fuel: nat, skip: set<string>, st: State,
                      i: nat, alpha: string): Option<State>
  {
    if alpha in skip then Some(st)
    else
      match DecideSubmit(srv.submit(i))
      case Queue => Some(st.(retryQueue := st.retryQueue + [alpha]))
      case Drop => Some(st)
      case Track(simId, url) =>
        var st' := st.(pending := Assign(st.pending, simId, Job(alpha, url, true)));
        if |st'.pending.entries| >= batchSize then DrainSpec(srv.monitor, st', fuel) else Some(st')
  }

  function RunFrom(srv: Server, batchSize: int, fuel: nat, skip: set<string>, alphas: seq<string>,
                   st0: State): Option<State>
  {
    if alphas == [] then Some(st0)
    else
      match RunFrom(srv, batchSize, fuel, skip, alphas[..|alphas| - 1], st0)
      case None => None
      case Some(st) => SubmitStep(srv, batchSize, fuel, skip, st, |alphas| - 1, alphas[|alphas| - 1])
  }

  /** What a run ends with: `return None`, an exception, sweeps exhausted, or the ledger and the rest. */
  datatype Outcome =
    | NotRecognised
    | Crashed(error: string)
    | OutOfFuel
    | Done(ledger: seq<Row>, retryQueue: seq<string>, fileText: string)

  /** `run_backtest_mul_by_wq_api`; each drain gets `fuel` sweeps. */
  function RunSpec(data: Value, existing: Option<seq<string>>, fileText: string, batchSize: int,
                   srv: Server, fuel: nat): Outcome
  {
    match ParseCandidates(data)
    case Unrecognised => NotRecognised
    case Malformed(e) => Crashed(e)
    case Candidates(alphas) =>
      match RunFrom(srv, batchSize, fuel, SkipSet(existing), alphas, Initial(fileText))
      case None => OutOfFuel
      case Some(st) =>
        match DrainSpec(srv.monitor, st, fuel)
        case None => OutOfFuel
        case Some(fin) => Done(fin.ledger, fin.retryQueue, fin.text)
  }

  lemma {:induction false} RunFromNoneStays(srv: Server, batchSize: int, fuel: nat, skip: set<string>,
                                            alphas: seq<string>, st0: State, k: nat)
    requires k <= |alphas|
    requires RunFrom(srv, batchSize, fuel, skip, alphas[..k], st0).None?
    ensures RunFrom(srv, batchSize, fuel, skip, alphas, st0).None?
    decreases |alphas|
  {
    if k < |alphas| {
      var front := alphas[..|alphas| - 1];
      assert front[..k] == alphas[..k];
      RunFromNoneStays(srv, batchSize, fuel, skip, front, st0, k);
    } else {
      assert alphas[..k] == alphas;
    }
  }

  // ---------------------------------------------------------------------
  // What a run can write

  /** Every row is about one of the expressions `A`. */
  predicate RowsIn(rows: seq<Row>, A: set<string>)
  {
    forall r :: r in rows ==> r.alpha in A
  }

  /** Every pending job is one as submitted, for one of the expressions `A`. */
  predicate JobsIn(d: ODict<string, Job>, A: set<string>)
  {
    forall e :: e in d.entries ==> e.1.firstTime && e.1.alpha in A
  }

  /** The driver state only mentions expressions of `A`, and the file still reads `text0`. */
  predicate Sound(st: State, A: set<string>, text0: string)
  {
    JobsIn(st.pending, A) && RowsIn(st.ledger, A) && (forall a :: a in st.retryQueue ==> a in A) &&
    st.text == text0
  }

  /** A sweep over jobs as submitted leaves `pending` and the file alone and writes rows about their expressions. */
  lemma {:induction false} ScanFirstTime(m: Monitor, pass: nat, s0: Sweep, items: seq<(string, Job)>, A: set<string>)
    requires forall k :: 0 <= k < |items| ==> items[k].1.firstTime && items[k].1.alpha in A
    requires RowsIn(s0.ledger, A)
    ensures var s := ScanJobs(m, pass, s0, items);
      s.pending == s0.pending && s.text == s0.text && RowsIn(s.ledger, A)
    decreases |items|
  {
    if items != [] {
      var front := items[..|items| - 1];
      var last := items[|items| - 1];
      ScanFirstTime(m, pass, s0, front, A);
      JobRowsCarryAlpha(m, pass, last.1);
      FirstTimeNoRepair(m, pass, last.1);
      assert ScanJobs(m, pass, s0, items) == StepJob(m, pass, ScanJobs(m, pass, s0, front), last);
    }
  }

  lemma PassSound(m: Monitor, st: State, A: set<string>, text0: string)
    requires Sound(st, A, text0)
    ensures Sound(PassSpec(m, st), A, text0)
  {
    var items := st.pending.entries;
    forall k | 0 <= k < |items| ensures items[k].1.firstTime && items[k].1.alpha in A {
      assert items[k] in st.pending.entries;
    }
    ScanFirstTime(m, st.passes, Sweep(st.pending, st.ledger, [], st.text), items, A);
    var sw := ScanJobs(m, st.passes, Sweep(st.pending, st.ledger, [], st.text), items);
    PopAllEntries(sw.pending, sw.finished);
  }

  lemma {:induction false} DrainSound(m: Monitor, st: State, fuel: nat, fin: State, A: set<string>, text0: string)
    requires Sound(st, A, text0) && DrainSpec(m, st, fuel) == Some(fin)
    ensures Sound(fin, A, text0)
    decreases fuel
  {
    if st.pending.entries != [] {
      PassSound(m, st, A, text0);
      DrainSound(m, PassSpec(m, st), fuel - 1, fin, A, text0);
    }
  }

  lemma SubmitStepSound(srv: Server, batchSize: int, fuel: nat, skip: set<string>, st: State,
                        i: nat, alpha: string, st': State, A: set<string>, text0: string)
    requires Sound(st, A, text0) && (alpha !in skip ==> alpha in A)
    requires SubmitStep(srv, batchSize, fuel, skip, st, i, alpha) == Some(st')
    ensures Sound(st', A, text0)
  {
    if alpha !in skip {
      var d := DecideSubmit(srv.submit(i));
      if d.Track? {
        var mid := st.(pending := Assign(st.pending, d.simId, Job(alpha, d.url, true)));
        AssignEntries(st.pending, d.simId, Job(alpha, d.url, true));
        assert Sound(mid, A, text0);
        if |mid.pending.entries| >= batchSize {
          DrainSound(srv.monitor, mid, fuel, st', A, text0);
        }
      }
    }
  }

  lemma {:induction false} RunFromSound(srv: Server, batchSize: int, fuel: nat, skip: set<string>,
                                        alphas: seq<string>, st0: State, st: State, A: set<string>, text0: string)
    requires Sound(st0, A, text0)
    requires forall k :: 0 <= k < |alphas| && alphas[k] !in skip ==> alphas[k] in A
    requires RunFrom(srv, batchSize, fuel, skip, alphas, st0) == Some(st)
    ensures Sound(st, A, text0)
    decreases |alphas|
  {
    if alphas != [] {
      var front := alphas[..|alphas| - 1];
      var mid := RunFrom(srv, batchSize, fuel, skip, front, st0);
      assert mid.Some?;
      RunFromSound(srv, batchSize, fuel, skip, front, st0, mid.value, A, text0);
      SubmitStepSound(srv, batchSize, fuel, skip, mid.value, |alphas| - 1, alphas[|alphas| - 1], st, A, text0);
    }
  }

  /**
   * A run that finishes never rewrites the alphas file, and every ledger row
   * and every retry-queue entry is one of the parsed candidates that the
   * existing ledger did not already hold. In particular no repair happens:
   * jobs enter `pending` as submitted, and only a repaired job reaches the
   * repair branch.
   */
  lemma RunSpecSound(data: Value, existing: Option<seq<string>>, fileText: string, batchSize: int,
                     srv: Server, fuel: nat, ledger: seq<Row>, retryQueue: seq<string>, text: string)
    requires RunSpec(data, existing, fileText, batchSize, srv, fuel) == Done(ledger, retryQueue, text)
    ensures text == fileText
    ensures ParseCandidates(data).Candidates?
    ensures forall r :: r in ledger ==>
      r.alpha in ParseCandidates(data).alphas && r.alpha !in SkipSet(existing)
    ensures forall a :: a in retryQueue ==> a in ParseCandidates(data).alphas && a !in SkipSet(existing)
  {
    var alphas := ParseCandidates(data).alphas;
    var skip := SkipSet(existing);
    var A := set a | a in alphas && a !in skip;
    var st := RunFrom(srv, batchSize, fuel, skip, alphas, Initial(fileText));
    RunFromSound(srv, batchSize, fuel, skip, alphas, Initial(fileText), st.value, A, fileText);
    var fin := DrainSpec(srv.monitor, st.value, fuel);
    DrainSound(srv.monitor, st.value, fuel, fin.value, A, fileText);
  }

  // ---------------------------------------------------------------------
  // How large `pending` gets

  /** Between submissions `pending` is empty or smaller than the batch size. */
  predicate Bounded(st: State, batchSize: int)
  {
    st.pending.entries == [] || |st.pending.entries| < batchSize
  }

  /** Tracking one more job makes `pending` at most the batch size (one entry when the size is below one). */
  lemma TrackedPeak(st: State, batchSize: int, simId: string, job: Job)
    requires Bounded(st, batchSize)
    ensures |Assign(st.pending, simId, job).entries| <= if batchSize < 1 then 1 else batchSize
  {
    assert |Keys(Assign(st.pending, simId, job))| <= |Keys(st.pending)| + 1;
  }

  lemma SubmitStepBounded(srv: Server, batchSize: int, fuel: nat, skip: set<string>, st: State,
                          i: nat, alpha: string, st': State)
    requires Bounded(st, batchSize)
    requires SubmitStep(srv, batchSize, fuel, skip, st, i, alpha) == Some(st')
    ensures Bounded(st', batchSize)
  {
    if alpha !in skip {
      var d := DecideSubmit(srv.submit(i));
      if d.Track? {
        var mid := st.(pending := Assign(st.pending, d.simId, Job(alpha, d.url, true)));
        if |mid.pending.entries| >= batchSize {
          DrainEmpties(srv.monitor, mid, fuel, st');
        } else {
          assert mid == st';
        }
      }
    }
  }

  /** After any number of submissions, `pending` is empty or below the batch size. */
  lemma {:induction false} RunFromBounded(srv: Server, batchSize: int, fuel: nat, skip: set<string>,
                                          alphas: seq<string>, st0: State, st: State)
    requires Bounded(st0, batchSize)
    requires RunFrom(srv, batchSize, fuel, skip, alphas, st0) == Some(st)
    ensures Bounded(st, batchSize)
    decreases |alphas|
  {
    if alphas != [] {
      var front := alphas[..|alphas| - 1];
      var mid := RunFrom(srv, batchSize, fuel, skip, front, st0);
      assert mid.Some?;
      RunFromBounded(srv, batchSize, fuel, skip, front, st0, mid.value);
      SubmitStepBounded(srv, batchSize, fuel, skip, mid.value, |alphas| - 1, alphas[|alphas| - 1], st);
    }
  }

  /** An accepted submission with a `Location` that keeps `pending` below the batch size just tracks the job. */
  lemma TrackedBelowBatch(srv: Server, batchSize: int, fuel: nat, skip: set<string>, st: State,
                          i: nat, alpha: string, code: int, text: string, url: string)
    requires alpha !in skip
    requires srv.submit(i) == Submitted(code, text, Some(url)) && IsSuccessCode(code) && url != ""
    requires |Assign(st.pending, LastSegment(url), Job(alpha, url, true)).entries| < batchSize
    ensures SubmitStep(srv, batchSize, fuel, skip, st, i, alpha)
         == Some(st.(pending := Assign(st.pending, LastSegment(url), Job(alpha, url, true))))
  {
  }

  /**
   * Candidates are only checked against the existing ledger, not against
   * each other: an expression listed twice is submitted and tracked twice.
   */
  lemma DuplicateSubmittedTwice(srv: Server, batchSize: int, fuel: nat, skip: set<string>, a: string,
                                text: string, url0: string, url1: string)
    requires a !in skip && batchSize > 2
    requires srv.submit(0) == Submitted(201, "", Some(url0)) && url0 != ""
    requires srv.submit(1) == Submitted(201, "", Some(url1)) && url1 != ""
    requires LastSegment(url0) != LastSegment(url1)
    ensures RunFrom(srv, batchSize, fuel, skip, [a, a], Initial(text))
         == Some(State(ODict([(LastSegment(url0), Job(a, url0, true)), (LastSegment(url1), Job(a, url1, true))]),
                       [], [], text, 0))
  {
    var j0, j1 := Job(a, url0, true), Job(a, url1, true);
    var id0, id1 := LastSegment(url0), LastSegment(url1);
    var d0 := ODict([(id0, j0)]);
    var st1 := Initial(text).(pending := d0);
    SecondKey(id0, j0, id1, j1);
    calc {
      RunFrom(srv, batchSize, fuel, skip, [a, a], Initial(text));
      { assert [a, a][..1] == [a];
        FirstSubmissionTracked(srv, batchSize, fuel, skip, a, text, url0); }
      SubmitStep(srv, batchSize, fuel, skip, st1, 1, a);
      { TrackedBelowBatch(srv, batchSize, fuel, skip, st1, 1, a, 201, "", url1); }
      Some(st1.(pending := Assign(d0, id1, j1)));
    }
  }

  lemma SecondKey(id0: string, j0: Job, id1: string, j1: Job)
    requires id0 != id1
    ensures Assign(ODict([(id0, j0)]), id1, j1) == ODict([(id0, j0), (id1, j1)])
  {
    assert Keys(ODict([(id0, j0)])) == [id0];
  }

  lemma FirstSubmissionTracked(srv: Server, batchSize: int, fuel: nat, skip: set<string>, a: string,
                               text: string, url0: string)
    requires a !in skip && batchSize > 2
    requires srv.submit(0) == Submitted(201, "", Some(url0)) && url0 != ""
    ensures RunFrom(srv, batchSize, fuel, skip, [a], Initial(text))
         == Some(Initial(text).(pending := ODict([(LastSegment(url0), Job(a, url0, true))])))
  {
    var j0 := Job(a, url0, true);
    var id0 := LastSegment(url0);
    var d0 := Assign(Empty(), id0, j0);
    assert d0 == ODict([(id0, j0)]);
    TrackedBelowBatch(srv, batchSize, fuel, skip, Initial(text), 0, a, 201, "", url0);
    assert [a][..0] == [];
  }

  // ---------------------------------------------------------------------
  // The imperative driver

  class BatchRunner {
    var pending: ODict<string, Job>
    var ledger: seq<Row>
    var retryQueue: seq<string>
    var jobFileText: string
    var passes: nat

    function Snapshot(): State
      reads this
    {
      State(pending, ledger, retryQueue, jobFileText, passes)
    }

    constructor (fileText: string)
      ensures Snapshot() == Initial(fileText)
    {
      pending := Empty();
      ledger := [];
      retryQueue := [];
      jobFileText := fileText;
      passes := 0;
    }

    /** Handles one snapshot entry; `done` is `finished_ids` afterwards. */
    method ProcessJob(m: Monitor, id: string, job: Job, finishedIds: seq<string>) returns (done: seq<string>)
      modifies this
      ensures Sweep(pending, ledger, done, jobFileText)
              == StepJob(m, old(passes), Sweep(old(pending), old(ledger), finishedIds, old(jobFileText)), (id, job))
      ensures retryQueue == old(retryQueue) && passes == old(passes)
    {
      done := finishedIds;
      var reply := m.poll(passes, job.progressUrl);
      if reply.PollRaised? || reply.code == 429 || reply.body.None? || !reply.body.value.Object? {
        return;
      }
      var statusJson := reply.body.value;
      var status := Get(statusJson.fields, "status");
      if status == Str("COMPLETE") || status == Str("WARNING") {
        done := HandleComplete(m, id, job, statusJson.fields, finishedIds);
      } else if status == Str("ERROR") {
        if job.firstTime {
          ledger := ledger + [FailureRow(job.alpha, "FAILED:ERROR")];
          done := done + [id];
          return;
        }
        done := HandleRepair(m, id, job, statusJson, finishedIds);
      }
    }

    /** The `COMPLETE`/`WARNING` branch: fetch the metrics and write the row. */
    method HandleComplete(m: Monitor, id: string, job: Job, statusFields: seq<(string, Value)>,
                          finishedIds: seq<string>) returns (done: seq<string>)
      modifies this
      ensures Sweep(pending, ledger, done, jobFileText)
              == Apply(Sweep(old(pending), old(ledger), finishedIds, old(jobFileText)), id, job,
                       CompleteEffect(m, old(passes), job, statusFields))
      ensures retryQueue == old(retryQueue) && passes == old(passes)
    {
      done := finishedIds;
      var alphaId := Get(statusFields, "alpha");
      if !Truthy(alphaId) {
        done := done + [id];
        return;
      }
      var alphaData := FetchMetrics(m, passes, alphaId);
      if alphaData.FetchCrashed? {
        return;
      }
      if alphaData.NoData? || !Truthy(alphaData.body) {
        done := done + [id];
        return;
      }
      if !alphaData.body.Object? {
        return;
      }
      var isData := GetOr(alphaData.body.fields, "is", Object([]));
      if !isData.Object? {
        return;
      }
      ledger := ledger + [MetricsRow(job.alpha, isData.fields)];
      done := done + [id];
    }

    /** The `ERROR` branch of a repaired job: ask for a fix, rewrite the file, resubmit. */
    method HandleRepair(m: Monitor, id: string, job: Job, statusJson: Value, finishedIds: seq<string>)
      returns (done: seq<string>)
      modifies this
      ensures Sweep(pending, ledger, done, jobFileText)
              == Apply(Sweep(old(pending), old(ledger), finishedIds, old(jobFileText)), id, job,
                       RepairEffect(m, old(passes), job, statusJson))
      ensures retryQueue == old(retryQueue) && passes == old(passes)
    {
      done := finishedIds;
      var prompt := FixPrompt.BuildFixPrompt(m.promptDoc, job.alpha, m.render(statusJson));
      if prompt.Err? {
        return;
      }
      var answer := m.repair(passes, prompt.value);
      if answer.RepairRaised? {
        ledger := ledger + [FailureRow(job.alpha, "FIX_FAIL_LLM")];
        done := done + [id];
        return;
      }
      done := Resubmit(m, id, job, Strip(answer.completion), finishedIds);
    }

    /** Rewrites the alphas file with the repaired expression and submits it. */
    method Resubmit(m: Monitor, id: string, job: Job, fixed: string, finishedIds: seq<string>)
      returns (done: seq<string>)
      modifies this
      ensures Sweep(pending, ledger, done, jobFileText)
              == Apply(Sweep(old(pending), old(ledger), finishedIds, old(jobFileText)), id, job,
                       ResubmitEffect(m, old(passes), job, fixed))
      ensures retryQueue == old(retryQueue) && passes == old(passes)
    {
      done := finishedIds;
      RewriteFile(job.alpha, fixed);
      var resp := m.resubmit(passes, fixed);
      if resp.SubmitRaised? {
        ledger := ledger + [FailureRow(job.alpha, "FIX_FAIL_LLM")];
        done := done + [id];
        return;
      }
      if !IsSuccessCode(resp.code) {
        ledger := ledger + [FailureRow(job.alpha, "FIX_FAIL_SUBMIT")];
        done := done + [id];
        return;
      }
      if !Present(resp.location) {
        done := done + [id];
        return;
      }
      var newUrl := resp.location.value;
      pending := Assign(pending, LastSegment(newUrl), Job(fixed, newUrl, false));
      done := done + [id];
    }

    /** Replaces the first occurrence of `alpha` in the alphas file, when there is one. */
    method RewriteFile(alpha: string, fixed: string)
      modifies this
      ensures jobFileText == Rewrite(old(jobFileText), alpha, fixed)
      ensures pending == old(pending) && ledger == old(ledger)
      ensures retryQueue == old(retryQueue) && passes == old(passes)
    {
      if Contains(jobFileText, alpha) {
        jobFileText := ReplaceFirst(jobFileText, alpha, fixed);
      }
    }

    /** One iteration of `while pending`. */
    method RunPass(m: Monitor)
      modifies this
      ensures Snapshot() == PassSpec(m, old(Snapshot()))
    {
      var items := pending.entries;
      ghost var start := Sweep(pending, ledger, [], jobFileText);
      var finishedIds: seq<string> := [];
      for k := 0 to |items|
        invariant Sweep(pending, ledger, finishedIds, jobFileText) == ScanJobs(m, passes, start, items[..k])
        invariant retryQueue == old(retryQueue) && passes == old(passes)
      {
        assert items[..k + 1][..k] == items[..k];
        finishedIds := ProcessJob(m, items[k].0, items[k].1, finishedIds);
      }
      assert items[..|items|] == items;
      ghost var swept := pending;
      ghost var sweptLedger, sweptText := ledger, jobFileText;
      for k := 0 to |finishedIds|
        invariant pending == PopAll(swept, finishedIds[..k])
        invariant ledger == sweptLedger && jobFileText == sweptText
        invariant retryQueue == old(retryQueue) && passes == old(passes)
      {
        assert finishedIds[..k + 1][..k] == finishedIds[..k];
        pending := Pop(pending, finishedIds[k]);
      }
      assert finishedIds[..|finishedIds|] == finishedIds;
      passes := passes + 1;
    }

    /** `monitor_pending`, with at most `fuel` sweeps. */
    method MonitorPending(m: Monitor, fuel: nat) returns (drained: bool)
      modifies this
      ensures drained <==> DrainSpec(m, old(Snapshot()), fuel).Some?
      ensures drained ==> Snapshot() == DrainSpec(m, old(Snapshot()), fuel).value
    {
      var left := fuel;
      while pending.entries != []
        invariant DrainSpec(m, Snapshot(), left) == DrainSpec(m, old(Snapshot()), fuel)
        decreases left
      {
        if left == 0 {
          return false;
        }
        RunPass(m);
        left := left - 1;
      }
      return true;
    }

    /** Submits candidate `i` unless it is in the skip set, draining when the batch is full. */
    method SubmitCandidate(srv: Server, batchSize: int, fuel: nat, skip: set<string>, i: nat, alpha: string)
      returns (ok: bool)
      modifies this
      ensures ok <==> SubmitStep(srv, batchSize, fuel, skip, old(Snapshot()), i, alpha).Some?
      ensures ok ==> Snapshot() == SubmitStep(srv, batchSize, fuel, skip, old(Snapshot()), i, alpha).value
    {
      if alpha in skip {
        return true;
      }
      var decision := DecideSubmit(srv.submit(i));
      if decision.Queue? {
        retryQueue := retryQueue + [alpha];
        return true;
      }
      if decision.Drop? {
        return true;
      }
      pending := Assign(pending, decision.simId, Job(alpha, decision.url, true));
      if |pending.entries| >= batchSize {
        ok := MonitorPending(srv.monitor, fuel);
      } else {
        ok := true;
      }
    }

    /** The `for i, alpha_expr in enumerate(alphas, 1)` loop. */
    method SubmitAll(srv: Server, batchSize: int, fuel: nat, skip: set<string>, alphas: seq<string>)
      returns (ok: bool)
      modifies this
      ensures ok <==> RunFrom(srv, batchSize, fuel, skip, alphas, old(Snapshot())).Some?
      ensures ok ==> Snapshot() == RunFrom(srv, batchSize, fuel, skip, alphas, old(Snapshot())).value
    {
      ghost var st0 := Snapshot();
      for i := 0 to |alphas|
        invariant RunFrom(srv, batchSize, fuel, skip, alphas[..i], st0) == Some(Snapshot())
      {
        assert alphas[..i + 1][..i] == alphas[..i];
        ok := SubmitCandidate(srv, batchSize, fuel, skip, i, alphas[i]);
        if !ok {
          RunFromNoneStays(srv, batchSize, fuel, skip, alphas, st0, i + 1);
          return false;
        }
      }
      assert alphas[..|alphas|] == alphas;
      return true;
    }
  }

  /** `run_backtest_mul_by_wq_api` over already loaded inputs. */
  method RunBacktestMul(data: Value, existing: Option<seq<string>>, fileText: string, batchSize: int,
                        srv: Server, fuel: nat) returns (out: Outcome)
    ensures out == RunSpec(data, existing, fileText, batchSize, srv, fuel)
  {
    var parsed := ParseCandidates(data);
    if parsed.Unrecognised? {
      return NotRecognised;
    }
    if parsed.Malformed? {
      return Crashed(parsed.error);
    }
    var alphas := parsed.alphas;
    var skip := ReadSkipSet(existing);
    var runner := new BatchRunner(fileText);
    var ok := runner.SubmitAll(srv, batchSize, fuel, skip, alphas);
    if !ok {
      return OutOfFuel;
    }
    if runner.pending.entries != [] {
      var ok := runner.MonitorPending(srv.monitor, fuel);
      if !ok {
        return OutOfFuel;
      }
    }
    return Done(runner.ledger, runner.retryQueue, runner.jobFileText);
  }
}

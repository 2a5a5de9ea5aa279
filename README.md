# AlphaSpire alpha pipeline, modelled in Dafny

AlphaSpire turns research ideas into WorldQuant BRAIN "alphas", which are
Fast Expression formulas, and backtests them. This project models the
deterministic bookkeeping of that pipeline:

- **The batched backtest driver** (`run_backtest_mul_by_wq_api` and `monitor_pending`).
  - It reads the candidate list and skips expressions already in the results CSV ledger.
  - It submits the rest into a `pending` dict keyed by simulation id and drains the dict in polling sweeps once it reaches the batch size.
  - Each sweep appends ledger rows and pops the finished ids.
  - It is the class `BatchedBacktest.BatchRunner`, whose methods are proved against functions of the old state.
- **The sequential backtest driver** (`run_backtest_by_wq_api`). It makes up to 15 submit tries, up to 240 status polls and up to 20 metrics fetches per candidate. It keeps the quirk that `sim_progress_url` is not reset between candidates.
- **Template expansion** (`generate_alpha.py`):
  - placeholder extraction with `</(.*?)/>`;
  - the operator and field-type maps;
  - the Cartesian product capped at `MAX_ALPHAS`;
  - substitution one placeholder at a time, left to right.
- **Prompt assembly** for the researcher and evaluator agents:
  - the dataset filters over field-type keys, with their two regular expressions;
  - the normalisation of the enabled-dataset setting;
  - the per-type lines with their `... (+k more)` suffix;
  - the grouping of operators by type;
  - the numbered blog comments;
  - the chains of `{{ … }}` replacements.
- **The field-type generator** (`template_field_gener.py`):
  - loading the field CSVs;
  - grouping the rows by `(dataset, type)`;
  - collecting the clusters by label, with noise filed under 9999;
  - the stable sort by decreasing size;
  - sanitising the names;
  - building the keys `</name:type:dataset/>`, which the prompt builders and the alpha generator parse back.
- **The configuration singleton** (`ConfigLoader`): environment variables take precedence over YAML, the dataset list is normalised, and the file is loaded only once.

The network, the language model and the clustering library are oracles. They are total functions inside datatypes, looked up by the request and, where time matters, by the sweep, the candidate position or the attempt.

Shared modules:

- `Wrappers`: `Option` and `Result`.
- `Json`: JSON and YAML values, truthiness and `dict.get`.
- `Text`: Python's `find`, `replace`, `split`, `join`, `strip` and `lower` on `seq<char>`.
- `Grouping`: insertion-ordered dicts as entry lists, and the `setdefault(k, []).append(v)` grouping.
- `PromptFile`: reading a template out of a prompt file.
- `Backtest`: what the two drivers share.

## Model

| member | source | states |
|---|---|---|
| Json.Lookup | utils/config_loader.py:60 | `d.get(k)` on a dict read from a document finds the last entry written under the key, and is `None` exactly when no entry has it |
| Json.GetOr | researcher/construct_prompts.py:27 | `d.get(k, default)` is the stored value when the key is present and the default otherwise |
| Text.FindFrom | researcher/generate_alpha.py:102 | the search result is an occurrence at or after the start, and no earlier position at or after the start holds one |
| Text.Find | evaluator/backtest_with_wq_mul.py:219 | `find` gives an index where the pattern occurs, and `None` exactly when it occurs nowhere |
| Text.ReplaceFirst | evaluator/backtest_with_wq_mul.py:222 | `replace(p, r, 1)` is the text unchanged when `p` is absent, and otherwise is the text before the first occurrence, then `r`, then the rest |
| Text.Split | evaluator/backtest_with_wq_mul.py:114 | `split(sep)` always has at least one piece |
| Text.FirstOccurrenceSplits | evaluator/backtest_with_wq_mul.py:222 | at the first occurrence, the text is the piece before it, then the pattern, then the rest |
| Text.FindFirst | evaluator/backtest_with_wq_mul.py:219 | `find` returns the leftmost occurrence and no other |
| Text.FindShift | researcher/generate_alpha.py:102 | a prefix without the pattern's first character shifts the search result by its length |
| Text.ReplaceAllIsSplitJoin | evaluator/construct_prompts.py:16-20 | `s.replace(p, r)` equals `r.join(s.split(p))` |
| Text.JoinSplit | evaluator/backtest_with_wq_mul.py:114 | joining the pieces of `split(sep)` with `sep` gives back the text |
| Text.SplitPiecesFree | evaluator/backtest_with_wq_mul.py:114 | no piece of `split(sep)` contains the separator |
| Text.LastSegmentProps | evaluator/backtest_with_wq_mul.py:114 | `url.split("/")[-1]` holds no slash and ends the URL |
| Text.Strip | utils/template_field_gener.py:133 | `strip()` is a slice of the text that neither starts nor ends with whitespace, and everything cut off is whitespace |
| Text.StripNoop | researcher/generate_alpha.py:24-25 | text that neither starts nor ends with whitespace is its own `strip()` |
| Text.MapChar | utils/template_field_gener.py:135 | the character-by-character replacement keeps the length |
| Text.MapCharAt | utils/template_field_gener.py:135 | at each position the mapped text has `b` where the text has `a`, and the original character elsewhere |
| Text.MapCharFixed | utils/template_field_gener.py:135 | a text without `a` is left as it is by `replace(a, b)` |
| Text.ReplaceAllChar | utils/template_field_gener.py:135 | `replace` with a one-character pattern and replacement is the character map |
| Text.OccursAtChar | utils/template_field_gener.py:135 | a one-character pattern occurs exactly where that character stands |
| Text.NatToStringRoundTrip | researcher/construct_prompts.py:264 | the decimal rendering of a count reads back as that count |
| Grouping.DistinctSnoc | researcher/construct_prompts.py:110 | appending a key not yet present keeps the dict's keys distinct |
| Grouping.DistinctInit | evaluator/backtest_with_wq_mul.py:300 | dropping the last key of a distinct key list leaves it distinct and without that key |
| Grouping.Keys | researcher/construct_prompts.py:83 | `d.keys()` lists each entry's key, in entry order |
| Grouping.Find | researcher/generate_alpha.py:80-83 | `d.get(k)` is present exactly when `k` is one of the keys |
| Grouping.FindEntry | researcher/generate_alpha.py:83 | in a dict with distinct keys, looking up an entry's key finds that entry's value |
| Grouping.Replace | evaluator/backtest_with_wq_mul.py:272 | overwriting keeps the key list; `k`, when present, then holds `v`, and every other key its old value |
| Grouping.Assign | evaluator/backtest_with_wq_mul.py:115 | `d[k] = v` puts a new key last and keeps an existing one in place; `k` then holds `v`, every other key its old value, and distinct keys stay distinct |
| Grouping.Pop | evaluator/backtest_with_wq_mul.py:300 | `d.pop(k, None)` removes `k`, every other key keeps its value, and distinct keys stay distinct |
| Grouping.PopAll | evaluator/backtest_with_wq_mul.py:299-300 | after popping each finished id, no finished id is present and every other key keeps its value |
| Grouping.FromPairs | utils/template_field_gener.py:170 | a dict built by assigning pairs in order has distinct keys |
| Grouping.FromPairsAppend | utils/template_field_gener.py:164-170 | building from `xs + ys` is building from `xs` and then assigning the pairs of `ys` |
| Grouping.FromPairsLookup | researcher/generate_alpha.py:35-38 | a key holds the value of its last pair, and is absent exactly when no pair has it |
| Grouping.LastValueBack | researcher/generate_alpha.py:38 | a final pair under another key changes nothing about `k` |
| Grouping.AssignEntries | researcher/construct_prompts.py:92 | assigning adds at most the assigned entry |
| Grouping.PopEntries | evaluator/backtest_with_wq_mul.py:300 | popping only removes entries |
| Grouping.ValuesOfSnoc | researcher/construct_prompts.py:110 | a row appended to the rows adds its value to its own key's values only |
| Grouping.GroupStepSeen | researcher/construct_prompts.py:110 | appending to the group of a key already seen keeps the grouping exact |
| Grouping.SeenOrder | researcher/construct_prompts.py:110 | a row whose key is already listed leaves the first-seen key order as it is |
| Grouping.GroupStepNew | researcher/construct_prompts.py:110 | a key seen for the first time opens a new group at the end, holding that one value |
| Grouping.NewOrder | researcher/construct_prompts.py:110 | a new key goes to the end of the first-seen order |
| Grouping.GroupedIsGrouping | researcher/generate_alpha.py:23-26 | the grouping holds the keys in first-seen order and each key's values in row order |
| Grouping.GroupInOrder | researcher/generate_alpha.py:23-26 | the `setdefault(k, []).append(v)` loop builds exactly that grouping |
| Grouping.GroupingFind | researcher/generate_alpha.py:80-81 | looking a key up in a grouping finds exactly the values of that key's rows, in row order |
| Grouping.GroupsPartition | utils/template_field_gener.py:92-97 | concatenating the groups over a distinct key list covering every row key gives back the values of all rows |
| Grouping.EntriesFlatten | utils/template_field_gener.py:92-97 | the entries of a grouping, concatenated, are its groups in key order |
| Grouping.GroupingEntries | researcher/construct_prompts.py:115-116 | each entry of a grouping holds its key's values |
| Grouping.GroupingEntry | researcher/construct_prompts.py:115-116 | an entry of a grouping holds its key's values, and its key is the key of some row |
| Grouping.GroupedEntry | researcher/construct_prompts.py:107-116 | the same, for the grouping the loop builds |
| Grouping.GroupingPartition | utils/template_field_gener.py:92-97 | the groups of a grouping, concatenated, hold every row's value exactly once |
| PromptFile.TemplateValue | researcher/construct_prompts.py:27-29 | `get(key, "")` then `if not template_str`: any truthy entry is found, string or not; a non-mapping document is `AttributeError`, and a missing or falsy entry is `ValueError` |
| PromptFile.TemplateText | researcher/construct_prompts.py:122-128 | the template's first `.replace` succeeds exactly on a string, and is `AttributeError` otherwise |
| PromptFile.TemplateEntry | evaluator/construct_prompts.py:12-18 | for a builder whose `.replace` follows the lookup at once, the template is found exactly when the document is a mapping whose entry under the key is a non-empty string, and it is that string; a missing or falsy entry is `ValueError` |
| FixPrompt.BuildFixPrompt | evaluator/construct_prompts.py:9-21 | the prompt is refused exactly when its template is, and with the same error |
| FixPrompt.MissingTemplateRefused | evaluator/construct_prompts.py:12-14 | a missing or empty `fix_fast_expression` template raises `ValueError` |
| FixPrompt.NoMarkersUnchanged | evaluator/construct_prompts.py:16-21 | a template holding neither marker comes back unchanged |
| FixPrompt.EveryExpressionMarkerFilled | evaluator/construct_prompts.py:18 | every expression marker is filled: the template's marker-free pieces are kept, joined by the expression, before the error markers are filled |
| FixPrompt.ErrorMarkerInsideExpressionFilled | evaluator/construct_prompts.py:16-20 | an error marker that the expression itself brings in is replaced by the error text too |
| FixPrompt.ReplaceAllWhole | evaluator/construct_prompts.py:18 | a text that is exactly one occurrence of the pattern becomes the replacement |
| Backtest.AlphaOf | evaluator/backtest_with_wq_mul.py:44 | `item["alpha"]` succeeds exactly when the item is a dict holding a string under `alpha`, and gives that string; any other `alpha` value is refused (see "## Left out") |
| Backtest.AlphasOf | evaluator/backtest_with_wq_mul.py:44-46 | the comprehension succeeds exactly when every item has a string `alpha`, and gives those strings one per item, in order; a non-string `alpha` is refused (see "## Left out") |
| Backtest.AlphasIn | evaluator/backtest_with_wq.py:43-47 | a list is read item by item; iterating any other value never yields an expression |
| Backtest.ParseCandidates | evaluator/backtest_with_wq_mul.py:43-49 | a dict with `GeneratedAlphas` reads that entry and one without it is unrecognised; a list is read itself; the shape is unrecognised exactly for such a dict or a string without the text `GeneratedAlphas` |
| Backtest.ParseRecords | evaluator/backtest_with_wq.py:41-50 | both accepted shapes, the wrapper and a bare list of records, read back exactly the expressions they were built from, in order |
| Backtest.SkipSet | evaluator/backtest_with_wq_mul.py:55-61 | the skip set is exactly the `alpha` column of the existing ledger, and empty without a ledger file |
| Backtest.ReadSkipSet | evaluator/backtest_with_wq.py:55-62 | the `finished_alphas.add(row["alpha"])` loop builds that set |
| BatchedBacktest.DecideSubmit | evaluator/backtest_with_wq_mul.py:100-124 | a reply is queued for retry exactly on an exception, a refusal mentioning `SIMULATION_LIMIT_EXCEEDED` or a success without `Location`; dropped exactly on any other refusal; tracked otherwise, at the `Location` URL |
| BatchedBacktest.SimIdIsLastSegment | evaluator/backtest_with_wq_mul.py:114 | a tracked job's simulation id is the text after the URL's last slash, holds no slash and ends the URL |
| BatchedBacktest.FetchMetrics | evaluator/backtest_with_wq_mul.py:160-166 | the ten-try fetch loop with its `break` gives the outcome of the fetch specification from attempt 0 |
| BatchedBacktest.FetchFromNoData | evaluator/backtest_with_wq_mul.py:161-170 | no data exactly when every remaining attempt is answered with a non-200 status |
| BatchedBacktest.FetchFromData | evaluator/backtest_with_wq_mul.py:161-165 | data `b` exactly when some attempt answers 200 with the JSON body `b` and every earlier one answered with a non-200 |
| BatchedBacktest.StatusFields | evaluator/backtest_with_wq_mul.py:146-151 | a poll yields a status document exactly when it neither raised nor answered 429, and its body is a JSON object |
| BatchedBacktest.Rewrite | evaluator/backtest_with_wq_mul.py:219-224 | the alphas file is unchanged when the old expression is absent, and otherwise has only its first occurrence replaced |
| BatchedBacktest.UnansweredStays | evaluator/backtest_with_wq_mul.py:147-148 | a 429, an exception, a non-object body or an unrecognised status leaves the job pending and writes nothing (lines 293-297) |
| BatchedBacktest.CompleteWritesMetricsRow | evaluator/backtest_with_wq_mul.py:153-182 | `COMPLETE` or `WARNING` with an alpha id, and a 200 within ten fetches, writes exactly one row: the job's expression with the six figures of `is`. The job is finished |
| BatchedBacktest.CompleteWithoutMetricsFinishes | evaluator/backtest_with_wq_mul.py:154-170 | without an alpha id, or after ten non-200 answers, the job is finished and no row is written |
| BatchedBacktest.FirstTimeErrorFails | evaluator/backtest_with_wq_mul.py:185-198 | `ERROR` on a job as submitted writes one `FAILED:ERROR` row with five `None` metrics and finishes the job |
| BatchedBacktest.JobRowsCarryAlpha | evaluator/backtest_with_wq_mul.py:173-290 | every row written for a job carries that job's expression |
| BatchedBacktest.FirstTimeNoRepair | evaluator/backtest_with_wq_mul.py:186-199 | a job as submitted never reaches the repair branch: it inserts no job and leaves the file alone |
| BatchedBacktest.RepairSwapsJob | evaluator/backtest_with_wq_mul.py:199-278 | in the repair branch, with a fix and an accepted resubmission, the file is rewritten with the stripped fix and the old job finished. A new job is inserted under the new id, holding the fixed expression with `first_time` false |
| BatchedBacktest.DrainEmpties | evaluator/backtest_with_wq_mul.py:142 | a drain that ends leaves `pending` empty and the retry queue as it was |
| BatchedBacktest.RunFromNoneStays | evaluator/backtest_with_wq_mul.py:95-124 | once a prefix of the candidates runs out of sweep budget, so does the whole run |
| BatchedBacktest.ScanFirstTime | evaluator/backtest_with_wq_mul.py:144-298 | a sweep over jobs as submitted leaves `pending` and the file alone, and every row it writes is about one of their expressions |
| BatchedBacktest.PassSound | evaluator/backtest_with_wq_mul.py:142-300 | a sweep keeps the invariant: every pending job is as submitted, every row and queued expression is a candidate, and the file is unchanged |
| BatchedBacktest.DrainSound | evaluator/backtest_with_wq_mul.py:142-302 | a drain keeps that invariant |
| BatchedBacktest.SubmitStepSound | evaluator/backtest_with_wq_mul.py:96-121 | submitting one candidate keeps that invariant |
| BatchedBacktest.RunFromSound | evaluator/backtest_with_wq_mul.py:95-128 | the submit loop keeps that invariant |
| BatchedBacktest.RunSpecSound | evaluator/backtest_with_wq_mul.py:34-132 | a finished run never rewrites the alphas file, and every ledger row and retry-queue entry is a listed candidate outside the skip set |
| BatchedBacktest.TrackedPeak | evaluator/backtest_with_wq_mul.py:115-121 | tracking one more job makes `pending` at most the batch size (at most one entry when the size is below one) |
| BatchedBacktest.SubmitStepBounded | evaluator/backtest_with_wq_mul.py:115-121 | after a submission, `pending` is empty or below the batch size |
| BatchedBacktest.RunFromBounded | evaluator/backtest_with_wq_mul.py:95-124 | after any number of submissions, `pending` is empty or below the batch size |
| BatchedBacktest.TrackedBelowBatch | evaluator/backtest_with_wq_mul.py:109-121 | an accepted submission with a `Location` that keeps `pending` below the batch size only tracks the job, with `first_time` true |
| BatchedBacktest.DuplicateSubmittedTwice | evaluator/backtest_with_wq_mul.py:95-97 | the skip set is fixed at start-up, so an expression listed twice is tracked twice, under two simulation ids |
| BatchedBacktest.FirstSubmissionTracked | evaluator/backtest_with_wq_mul.py:109-115 | a first accepted submission leaves exactly one pending job, as submitted, under its id |
| BatchedBacktest.BatchRunner.constructor | evaluator/backtest_with_wq_mul.py:92-93 | the driver starts with an empty `pending`, an empty ledger, an empty retry queue, no sweeps and the given file text |
| BatchedBacktest.BatchRunner.ProcessJob | evaluator/backtest_with_wq_mul.py:145-297 | one snapshot entry changes `pending`, the ledger, the finished ids and the file as the sweep-step specification says, and leaves the retry queue and the sweep count alone |
| BatchedBacktest.BatchRunner.HandleComplete | evaluator/backtest_with_wq_mul.py:153-183 | the `COMPLETE`/`WARNING` branch applies the fetch outcome's effect |
| BatchedBacktest.BatchRunner.HandleRepair | evaluator/backtest_with_wq_mul.py:199-291 | the repair branch applies the repair effect |
| BatchedBacktest.BatchRunner.Resubmit | evaluator/backtest_with_wq_mul.py:216-278 | the rewrite-and-resubmit steps apply the resubmission effect |
| BatchedBacktest.BatchRunner.RewriteFile | evaluator/backtest_with_wq_mul.py:216-227 | the file text becomes its first-occurrence rewrite, and nothing else changes |
| BatchedBacktest.BatchRunner.RunPass | evaluator/backtest_with_wq_mul.py:143-302 | one `while pending` iteration takes the state to the sweep specification of the old state |
| BatchedBacktest.BatchRunner.MonitorPending | evaluator/backtest_with_wq_mul.py:135-302 | the drain ends within the sweep budget exactly when the specification's does, and then in its final state |
| BatchedBacktest.BatchRunner.SubmitCandidate | evaluator/backtest_with_wq_mul.py:96-124 | one candidate takes the state to the submit-step specification |
| BatchedBacktest.BatchRunner.SubmitAll | evaluator/backtest_with_wq_mul.py:95-124 | the submit loop takes the state to the run specification over the candidates |
| BatchedBacktest.RunBacktestMul | evaluator/backtest_with_wq_mul.py:34-132 | the whole run, from the parsed document to the final ledger, retry queue and file text, is the run specification |
| SequentialBacktest.SubmitFromRelogin | evaluator/backtest_with_wq.py:103-127 | the loop gives up and signs in again exactly when none of the fifteen tries is accepted |
| SequentialBacktest.SubmitFromOrigin | evaluator/backtest_with_wq.py:109-114 | the URL the loop ends with is the one it started with, or the `Location` of some try answered 200 or 201; when it is accepted, that is the `Location` of the accepting try |
| SequentialBacktest.SubmitFromKeeps | evaluator/backtest_with_wq.py:109-112 | tries that raise or are refused leave `sim_progress_url` as it was |
| SequentialBacktest.SubmitFromBounded | evaluator/backtest_with_wq.py:72 | at most fifteen tries: replies past the fifteenth are never looked at |
| SequentialBacktest.SubmitWithRetry | evaluator/backtest_with_wq.py:99-127 | the `keep_trying`/`failure_count` loop ends where the submit specification says |
| SequentialBacktest.PollFromTimedOut | evaluator/backtest_with_wq.py:134-150 | the poll runs out exactly when every remaining round answers with a status that keeps it polling, `WARNING` included |
| SequentialBacktest.PollFromCompleted | evaluator/backtest_with_wq.py:138-141 | a `COMPLETE` reached within the 240 rounds, after only answers that keep polling, hands on its `alpha` |
| SequentialBacktest.PollFromBounded | evaluator/backtest_with_wq.py:134 | at most 240 rounds: answers past the 240th are never looked at |
| SequentialBacktest.PollStatus | evaluator/backtest_with_wq.py:133-150 | the poll loop with its `finished` flag ends where the poll specification says |
| SequentialBacktest.FetchLoopNoMetrics | evaluator/backtest_with_wq.py:154-164 | the `for`/`else` branch is taken exactly when every remaining attempt answers with a non-200 |
| SequentialBacktest.FetchLoopArrived | evaluator/backtest_with_wq.py:154-158 | metrics arrive exactly when some attempt answers 200 with a JSON body and every earlier one answered with a non-200 |
| SequentialBacktest.FetchAlpha | evaluator/backtest_with_wq.py:154-164 | the fetch loop with its `break` and `else` ends where the fetch specification says |
| SequentialBacktest.RowOf | evaluator/backtest_with_wq.py:166-175 | the row is built exactly when the metrics and their `is` section are objects, and then carries the input expression and the six `is` figures |
| SequentialBacktest.SkippedUntouched | evaluator/backtest_with_wq.py:73-76 | a candidate in the skip set is not submitted and changes nothing |
| SequentialBacktest.AfterFetchRow | evaluator/backtest_with_wq.py:166-176 | fetched metrics add at most their own row |
| SequentialBacktest.CandidateRow | evaluator/backtest_with_wq.py:99-177 | a candidate adds at most one row. It does so only when it is not skipped, its submission left a URL, the poll of that URL completed and the fetch answered 200 |
| SequentialBacktest.StaleUrlReused | evaluator/backtest_with_wq.py:130-131 | as written, when all fifteen tries raise or are refused, the guard sees the previous candidate's URL and polls it |
| SequentialBacktest.StaleUrlMislabelsRow | evaluator/backtest_with_wq.py:112 | as written, a concrete run writes a second row under candidate `b`'s expression with the metrics of candidate `a` |
| SequentialBacktest.CompletesAtOnce | evaluator/backtest_with_wq.py:134-176 | a URL whose first poll reports `COMPLETE` and whose first fetch answers 200 yields one row at once |
| SequentialBacktest.FirstCandidateUnbound | evaluator/backtest_with_wq.py:130 | as written, fifteen failed tries on the first candidate end the run with `UnboundLocalError` |
| SequentialBacktest.FreshRowFromOwnSubmission | evaluator/backtest_with_wq.py:109-131 | with the URL reset per candidate, a row is only written from the `Location` of one of the candidate's own accepted tries |
| SequentialBacktest.FreshAbandonWritesNothing | evaluator/backtest_with_wq.py:123-131 | with the reset, a candidate whose tries all fail writes nothing, signs in again and the run goes on |
| SequentialBacktest.FreshNeverUnbound | evaluator/backtest_with_wq.py:130 | with the reset, the guard always finds the name bound |
| SequentialBacktest.RunSeqFromSnoc | evaluator/backtest_with_wq.py:73 | one more candidate is one more step of the loop |
| SequentialBacktest.RunSeqRows | evaluator/backtest_with_wq.py:73-177 | every row is about a listed candidate outside the skip set, and there is at most one row per candidate |
| SequentialBacktest.RowsSnoc | evaluator/backtest_with_wq.py:176 | a ledger that is an old one plus one row carrying a listed expression keeps that property |
| SequentialBacktest.RunSeqSpecRows | evaluator/backtest_with_wq.py:34-183 | a run over a recognised document writes at most one row per candidate, each about a listed candidate that is not in the existing ledger |
| SequentialBacktest.ProcessCandidate | evaluator/backtest_with_wq.py:73-177 | the loop body for one candidate computes the candidate-step specification |
| SequentialBacktest.PollAndFetch | evaluator/backtest_with_wq.py:130-177 | from the guard to the row write, it computes the after-submit specification, `UnboundLocalError` included |
| SequentialBacktest.RunBacktest | evaluator/backtest_with_wq.py:34-183 | the whole driver computes the run specification: unrecognised shape, parse error, ledger of a finished run, or the rows written before an uncaught exception |
| GenerateAlpha.CloseAt | researcher/generate_alpha.py:45 | when the lazy `.*?` closes, it is at the first `/>`, with no line break before it |
| GenerateAlpha.ExtractYieldsNames | researcher/generate_alpha.py:43-45 | every extracted name is as short as the lazy match makes it: no `/>` and no line break inside |
| GenerateAlpha.ExtractSkipsPlain | researcher/generate_alpha.py:45 | plain text in front of a template contributes no placeholder |
| GenerateAlpha.CloseAtName | researcher/generate_alpha.py:45 | a name free of `/>` followed by `/>` is closed exactly there |
| GenerateAlpha.ExtractAtTag | researcher/generate_alpha.py:45 | a placeholder at the front is extracted before everything after it |
| GenerateAlpha.ExtractInterleave | researcher/generate_alpha.py:43-45 | a template written as plain text around placeholders gives back exactly its placeholder names, left to right |
| GenerateAlpha.LeadingGtRun | researcher/generate_alpha.py:102 | exactly the run of `>` after a placeholder is absorbed |
| GenerateAlpha.SubstituteAtTag | researcher/generate_alpha.py:102 | the first placeholder after plain text is replaced with the `>` run after it, and nothing else changes |
| GenerateAlpha.TagAfterPlain | researcher/generate_alpha.py:102 | the first placeholder after plain text is where the search stops |
| GenerateAlpha.SpliceBehind | researcher/generate_alpha.py:102 | splicing right behind a prefix keeps the prefix and what follows the match |
| GenerateAlpha.AfterTag | researcher/generate_alpha.py:102 | behind the placeholder, the `>` run is dropped and the rest is kept |
| GenerateAlpha.SubstituteSkipsPlain | researcher/generate_alpha.py:102 | plain text in front of an expression is left alone by a substitution step |
| GenerateAlpha.SpliceShift | researcher/generate_alpha.py:102 | splicing behind a plain prefix is splicing the rest |
| GenerateAlpha.SubstituteInterleave | researcher/generate_alpha.py:99-102 | substituting values for the placeholders of a template built from plain pieces puts each value where its placeholder stood |
| GenerateAlpha.ProductLength | researcher/generate_alpha.py:91-93 | the product has as many entries as the product of the list lengths |
| GenerateAlpha.TotalZero | researcher/generate_alpha.py:91-93 | the total is zero exactly when one of the lists is empty |
| GenerateAlpha.ExtendAt | researcher/generate_alpha.py:98 | entry `a * |vs| + b` of the extension is combination `a` followed by `vs[b]` |
| GenerateAlpha.ProductOrder | researcher/generate_alpha.py:98 | the last list varies fastest: entry `a * |last| + b` of the product is entry `a` of the other lists' product followed by `last[b]` |
| GenerateAlpha.ProductMembers | researcher/generate_alpha.py:98 | the product holds exactly the combinations that take one value from each list |
| GenerateAlpha.ExtendHas | researcher/generate_alpha.py:98 | extending a listed combination by a listed value gives a member of the extension |
| GenerateAlpha.Stripped | researcher/generate_alpha.py:24-25 | each operator row `(type, name)` with both cells stripped |
| GenerateAlpha.LoadOperatorTypeMap | researcher/generate_alpha.py:18-27 | stripped names grouped under stripped types, types in first-seen order and names in file order |
| GenerateAlpha.CleanKeyOfTag | researcher/generate_alpha.py:37 | a key written as a placeholder cleans to its stripped inner text |
| GenerateAlpha.CleanKeyUnmarked | researcher/generate_alpha.py:37 | a key with neither marker is only stripped |
| GenerateAlpha.Cleaned | researcher/generate_alpha.py:35-38 | the field-map entries with their keys cleaned, ids unchanged, in file order |
| GenerateAlpha.FieldTypeMapLookup | researcher/generate_alpha.py:35-38 | a cleaned key maps to the ids of the last entry that cleans to it, and is absent exactly when no entry does |
| GenerateAlpha.LoadFieldTypeMap | researcher/generate_alpha.py:30-39 | the `handled_field_map[clean_type] = ids` loop builds the cleaned field map |
| GenerateAlpha.Replacements | researcher/generate_alpha.py:80-85 | a placeholder's replacements exist exactly when it is an operator type or a field type; an operator type takes precedence |
| GenerateAlpha.ResolveAll | researcher/generate_alpha.py:77-86 | the lists are refused exactly when some placeholder is in neither map, and otherwise give one list per placeholder |
| GenerateAlpha.ReplacementLists | researcher/generate_alpha.py:77-86 | the loop with its early `return None` computes those lists |
| GenerateAlpha.TotalCombinations | researcher/generate_alpha.py:91-93 | the multiplying loop gives the number of combinations in the product |
| GenerateAlpha.Substitute | researcher/generate_alpha.py:99-102 | the inner loop rebinding `expr` performs the substitutions in placeholder order |
| GenerateAlpha.ExpandCombinations | researcher/generate_alpha.py:89-109 | there are `min(total, MAX_ALPHAS)` alphas, the `k`-th being the `k`-th combination in product order substituted into the template and recorded as `fields_or_ops_used` |
| GenerateAlpha.GenerateAlphasFromTemplate | researcher/generate_alpha.py:48-120 | the generator computes the expansion specification: `None` for an unknown placeholder, one alpha for a template without placeholders, the capped product otherwise |
| GenerateAlpha.PlainTemplateIsItsOwnAlpha | researcher/generate_alpha.py:62-74 | a template without `<` is its own single alpha, with nothing used |
| GenerateAlpha.ExpandTemplate | researcher/generate_alpha.py:48-109 | for plain pieces around placeholders, with resolvable placeholders and plain values, the `k`-th alpha puts the values of the `k`-th combination in place of the placeholders |
| DatasetKeys.CloseEnd | researcher/construct_prompts.py:85 | where the `/` of a closing `/>$` sits, and `None` exactly when there is none |
| DatasetKeys.TrailingRun | researcher/construct_prompts.py:85 | the length of the longest suffix made of characters of the class |
| DatasetKeys.FirstColon | researcher/construct_prompts.py:237 | the first colon in a range, and `None` exactly when the range holds none |
| DatasetKeys.CloseEndExact | researcher/construct_prompts.py:85 | `/>$` can match at one place only, and the scan finds it |
| DatasetKeys.RunBefore | researcher/construct_prompts.py:85 | the run in front of a position satisfies the class, and the character before it does not |
| DatasetKeys.ColonRunComplete | researcher/construct_prompts.py:85 | every match of a colon-free class is the run the scan reports |
| DatasetKeys.ColonRunSound | researcher/construct_prompts.py:85 | what the scan reports is a match |
| DatasetKeys.KnowledgeDatasetMeaning | researcher/construct_prompts.py:85-88 | the knowledge filter's dataset is exactly the group of the leftmost match of `:([\w\-]+)/>$`, and `None` exactly when there is no match |
| DatasetKeys.MatchInRun | researcher/construct_prompts.py:237 | a match of `[^/>]` starts inside the run in front of `/>` |
| DatasetKeys.TrailingRunCovers | researcher/construct_prompts.py:237 | a suffix made of class characters lies within the trailing run |
| DatasetKeys.ColonInRunMatches | researcher/construct_prompts.py:237 | every colon of the run, short of its last character, starts a match |
| DatasetKeys.TemplateDatasetAsWrittenComplete | researcher/construct_prompts.py:237-238 | the as-written scan reports the leftmost match of `:([^/>]+)/>$` when there is one |
| DatasetKeys.TemplateDatasetAsWrittenSound | researcher/construct_prompts.py:237-238 | what the as-written scan reports is the leftmost match |
| DatasetKeys.TemplateDatasetMeaning | researcher/construct_prompts.py:236-238 | the corrected scan is the pattern `:([^/>:]+)/>$`: the text after the last colon |
| DatasetKeys.TemplateDatasetColonFree | researcher/construct_prompts.py:236 | the corrected dataset holds no colon |
| FieldTemplates.Tagged | utils/template_field_gener.py:44 | each row of a file, in order, with the file stem as its dataset |
| FieldTemplates.LoadAllFields | utils/template_field_gener.py:32-59 | the directory loop gives the frame of the usable files, or `RuntimeError` when there is none |
| FieldTemplates.LoadedFieldsAppend | utils/template_field_gener.py:35-59 | the frame is the files' rows concatenated in directory order |
| FieldTemplates.LoadedFieldsOne | utils/template_field_gener.py:36-45 | one file contributes its rows tagged with its stem, or nothing when it is zero bytes, unreadable or empty |
| FieldTemplates.LoadAllFails | utils/template_field_gener.py:56-57 | loading fails exactly when no file is usable |
| FieldTemplates.Labelled | utils/template_field_gener.py:93-96 | each id with its label, `-1` remapped to 9999, in row order |
| FieldTemplates.ClusterFieldsBySemantics | utils/template_field_gener.py:65-101 | the clusters are the label grouping of the ids, sorted by decreasing size, and hold exactly the group's ids |
| FieldTemplates.SortSorted | utils/template_field_gener.py:100 | the clusters come out largest first |
| FieldTemplates.SortedPairwise | utils/template_field_gener.py:100 | sorted means every earlier cluster is at least as large as every later one |
| FieldTemplates.SortStable | utils/template_field_gener.py:100 | the clusters of each size keep their first-appearance order |
| FieldTemplates.SortPermutes | utils/template_field_gener.py:100 | sorting reorders the clusters and loses or adds none |
| FieldTemplates.ClustersPartition | utils/template_field_gener.py:92-97 | every id of the group lands in exactly one cluster |
| FieldTemplates.ClusterMembers | utils/template_field_gener.py:93-97 | each cluster holds exactly the ids whose remapped label is its label, in row order, and no cluster is labelled `-1` |
| FieldTemplates.FewRowsOneCluster | utils/template_field_gener.py:72-74 | three rows or fewer are not clustered: one cluster `0` with all ids in order |
| FieldTemplates.SanitiseReplaces | utils/template_field_gener.py:135 | the character mapping is exactly the two `str.replace` calls before `lower()` |
| FieldTemplates.SanitiseClean | utils/template_field_gener.py:133-135 | the sanitised name keeps the stripped length and has no space, hyphen or upper-case letter |
| FieldTemplates.SanitisedFixed | utils/template_field_gener.py:135 | sanitising text already in that form changes nothing |
| FieldTemplates.SanitiseIdempotent | utils/template_field_gener.py:133-135 | sanitising twice changes nothing more |
| FieldTemplates.ClusterPairs | utils/template_field_gener.py:164-170 | the assignments of one group's clusters, in cluster order, each under its key built from the sanitised name |
| FieldTemplates.ByGroup | utils/template_field_gener.py:155 | each row filed under its `(dataset, type)`, in row order |
| FieldTemplates.WriteClusters | utils/template_field_gener.py:164-170 | the cluster loop assigns those pairs in order |
| FieldTemplates.WriteGroups | utils/template_field_gener.py:152-170 | the group loop, from an empty `all_mappings`, builds the dict from every group's pairs in order |
| FieldTemplates.GenerateTemplateFields | utils/template_field_gener.py:142-175 | the generator computes its specification: loading, the check for the `id`, `description` and `type` columns, then every group's clusters under their keys |
| FieldTemplates.SmallGroups | utils/template_field_gener.py:157-159 | a group of fewer than three rows writes nothing; one of exactly three writes one key |
| FieldTemplates.GroupPairKeys | utils/template_field_gener.py:156-170 | a group writes only keys with its own type and dataset, and only when it has at least three rows |
| FieldTemplates.KeysOfGroups | utils/template_field_gener.py:155-170 | every key written belongs to a group of at least three rows |
| FieldTemplates.LaterClusterWins | utils/template_field_gener.py:170 | a key holds the ids of the last cluster written under it |
| FieldTemplates.CleanKeyOfMakeKey | utils/template_field_gener.py:169 | the alpha generator's key cleaning (researcher/generate_alpha.py:37) gives back the stripped text inside a generated key |
| FieldTemplates.KeyTail | utils/template_field_gener.py:169 | a generated key reads `</`, the name, `:`, the type, `:`, the dataset, and a closing `/>` at its very end |
| FieldTemplates.KnowledgeReadsDataset | utils/template_field_gener.py:169 | the knowledge prompt's pattern (researcher/construct_prompts.py:85) reads back a non-empty dataset of word characters and hyphens |
| FieldTemplates.TemplateReadsDataset | utils/template_field_gener.py:169 | the corrected hypothesis-prompt scan reads back any non-empty dataset without `/`, `>` or `:` |
| FieldTemplates.TemplateAsWrittenReadsTypeAndDataset | researcher/construct_prompts.py:237 | the scan as written reads `type:dataset` from every generated key whose name has no colon and whose type and dataset avoid `/` and `>` |
| ResearchPrompts.Lines | researcher/construct_prompts.py:60-68 | one line per element, in order |
| ResearchPrompts.RenderLines | researcher/construct_prompts.py:95-98 | the `lines.append(f"...")` loops build those lines |
| ResearchPrompts.KeepEntries | researcher/construct_prompts.py:81-92 | the filter loop builds the dict of the kept entries, assigned in order |
| ResearchPrompts.KeptLookup | researcher/construct_prompts.py:92 | a filtered dict holds a kept key's value from the unfiltered entries, and no other key |
| ResearchPrompts.LoadKnowledgeFields | researcher/construct_prompts.py:38-55 | the loop yields the rows of the enabled, non-empty, readable files, or `ValueError` when there are none |
| ResearchPrompts.KnowledgeFieldsEnabled | researcher/construct_prompts.py:41-42 | with a filter in force, every listed field comes from an enabled dataset |
| ResearchPrompts.TypedOperators | researcher/construct_prompts.py:107-110 | each operator's name under its type, for every row, empty names included |
| ResearchPrompts.BuildWqKnowledgePrompt | researcher/construct_prompts.py:18-131 | the method computes the knowledge-prompt specification, in which a non-string template fails only at the final `.replace` |
| ResearchPrompts.KnowledgeErrors | researcher/construct_prompts.py:27-77 | once a truthy template is found, string or not, loading no field file is `ValueError` and a missing field-type file is `FileNotFoundError`; with both and the operator columns the prompt is built exactly when the template is a string, and is `AttributeError` otherwise |
| ResearchPrompts.KnowledgeKeepMeaning | researcher/construct_prompts.py:81-92 | a key is kept exactly when the pattern matches it and either no filter is set or its dataset is enabled |
| ResearchPrompts.KnowledgeFieldTypesLookup | researcher/construct_prompts.py:81-98 | the kept field types hold the file's ids for exactly the kept keys |
| ResearchPrompts.KnowledgeKeepsGeneratedKey | researcher/construct_prompts.py:85 | a key written by the field-type generator for an enabled dataset of word characters is kept |
| ResearchPrompts.FillKnowledgeNoMarkers | researcher/construct_prompts.py:122-128 | with no template markers, the knowledge prompt is the template itself |
| ResearchPrompts.CommentItems | researcher/construct_prompts.py:154 | what `enumerate(post_comments)` visits: the list items, rendered, or the characters of a string; a number, boolean or null raises `TypeError` |
| ResearchPrompts.AppendComments | researcher/construct_prompts.py:153-155 | the `post_text +=` loop appends the numbered comment lines to the header |
| ResearchPrompts.BuildBlogPrompt | researcher/construct_prompts.py:139-158 | the body the two blog builders share computes the blog-prompt specification, in which a non-string template fails only at the final `.replace` |
| ResearchPrompts.BuildCheckIfBlogHelpful | researcher/construct_prompts.py:134-160 | the helpfulness prompt is the blog prompt under `check_if_blog_helpful` |
| ResearchPrompts.BuildBlogToHypothesis | researcher/construct_prompts.py:163-189 | the hypothesis prompt is the blog prompt under `blog_to_hypothesis` |
| ResearchPrompts.CommentsInOrder | researcher/construct_prompts.py:154-155 | comment `i` appears as the line `[i+1] c` right after the lines of the comments before it |
| ResearchPrompts.NoCommentsHeaderOnly | researcher/construct_prompts.py:152-153 | a post without truthy comments is the four headed sections alone |
| ResearchPrompts.ListedComments | researcher/construct_prompts.py:152-155 | a list of comments is numbered item by item after the header: Title, Description, Post Body, Comments |
| ResearchPrompts.ScalarCommentsRaise | researcher/construct_prompts.py:154 | a truthy number or boolean as the comments is not iterable |
| ResearchPrompts.BlogErrors | researcher/construct_prompts.py:139-158 | once a truthy template is found, the post's own errors come first; the prompt is then built exactly when the template is a string, and is `AttributeError` otherwise |
| ResearchPrompts.StrippedParts | researcher/construct_prompts.py:224 | `[s.strip() for s in parts]`, part by part |
| ResearchPrompts.NonBlankMeaning | researcher/construct_prompts.py:224 | a name is kept exactly when it is non-blank, and only names are kept |
| ResearchPrompts.StrippedPartsHas | researcher/construct_prompts.py:224 | the setting names exactly the parts that strip to a non-blank name |
| ResearchPrompts.StrippedPartsClean | researcher/construct_prompts.py:224 | every enabled name is a non-blank string that strips to itself |
| ResearchPrompts.EnabledFromString | researcher/construct_prompts.py:222-224 | a comma-separated setting enables exactly its non-blank stripped parts |
| ResearchPrompts.NoFilterSettings | researcher/construct_prompts.py:221-228 | a falsy setting, a number, a boolean or a dict means no filter; a non-empty list is used as it is |
| ResearchPrompts.Take | researcher/construct_prompts.py:263 | `ids[:n]` is a prefix of `ids` of length `min(n, len(ids))` |
| ResearchPrompts.GroupNamedOperators | researcher/construct_prompts.py:250-256 | the operator loop groups only the rows with a non-empty name |
| ResearchPrompts.BuildHypothesisToTemplate | researcher/construct_prompts.py:192-284 | the method computes the hypothesis-to-template specification, whose field-type filter reads the dataset with the expression as written at :237, and in which a non-string template fails only at the final `.replace` |
| ResearchPrompts.UnreadKeyKept | researcher/construct_prompts.py:237-245 | a key from which no dataset can be read is kept whatever is enabled, by the filter as written and by the corrected one |
| ResearchPrompts.TemplateKeepMeaning | researcher/construct_prompts.py:237-245 | with a filter in force, the prompt's filter keeps a key exactly when no dataset can be read or the group of the leftmost match of `:([^/>]+)/>$` is enabled |
| ResearchPrompts.CorrectedTemplateKeepMeaning | researcher/construct_prompts.py:236-245 | with a filter in force, the corrected filter keeps a key exactly when no dataset can be read or the text after its last colon is enabled |
| ResearchPrompts.AsWrittenKeepsTypedKey | researcher/construct_prompts.py:237-242 | with a filter in force, the prompt keeps a generated `</name:type:dataset/>` key exactly when `type:dataset` is enabled |
| ResearchPrompts.ToTemplateFieldTypesLookup | researcher/construct_prompts.py:235-245 | the field types of the prompt, as written, hold the file's ids for exactly the keys its filter keeps |
| ResearchPrompts.ToTemplateKeepsGeneratedKey | researcher/construct_prompts.py:236-245 | with the corrected scan, a key written by the field-type generator for an enabled dataset is kept |
| ResearchPrompts.AsWrittenDropsGeneratedKey | researcher/construct_prompts.py:237-242 | with the expression as written, enabling exactly the key's dataset drops a generated key |
| ResearchPrompts.SuffixMeaning | researcher/construct_prompts.py:264 | the suffix is empty exactly when nothing is cut, and otherwise says how many ids are hidden |
| ResearchPrompts.CountedLineShows | researcher/construct_prompts.py:259-273 | the line shows the total and the first `MAX_EXAMPLES_PER_TYPE` ids, all of them when there are no more |
| ResearchPrompts.NamedOperatorsGrouped | researcher/construct_prompts.py:250-256 | the operator types list exactly the named rows, grouped by type in first-seen order |
| ResearchPrompts.NamedOperatorsNonEmpty | researcher/construct_prompts.py:253-256 | every grouped operator has a non-empty name; without a `type` column all are filed under `Other` |
| ResearchPrompts.FillToTemplateNoMarkers | researcher/construct_prompts.py:277-282 | with no template markers, the prompt is the template itself |
| ResearchPrompts.ToTemplateNeedsTypeFile | researcher/construct_prompts.py:230-284 | once a truthy template is found, string or not, a missing field-type file is `FileNotFoundError`; with the file the prompt is built exactly when the template is a string, and is `AttributeError` otherwise |
| Config.EnvOr | utils/config_loader.py:33 | a set environment variable wins, even when it is empty; otherwise the fallback |
| Config.Named | utils/config_loader.py:32-43 | the nine named entries, in the order written, each read from its variable or the YAML value |
| Config.WrapList | utils/config_loader.py:49-50 | a list stays as it is and any other value becomes a one-element list |
| Config.YamlMapping | utils/config_loader.py:29 | `yaml.safe_load(f) or {}`: a falsy document is `{}`, a mapping is read, anything else has no `.get` |
| Config.ConfigLoader.constructor | utils/config_loader.py:12-13 | the class as defined: no instance yet and an empty config |
| Config.ConfigLoader.LoadConfig | utils/config_loader.py:23-50 | `_load_config` stores the settings of the file and the environment, or raises `FileNotFoundError` and leaves the config as it was |
| Config.ConfigLoader.New | utils/config_loader.py:16-21 | construction follows the singleton specification: set the instance, then load |
| Config.ConfigLoader.Get | utils/config_loader.py:52-60 | `get` follows its specification: load first if needed, then the stored value or the default |
| Config.ConfigLoader.All | utils/config_loader.py:62-69 | `all` follows its specification and returns the stored dict as a value |
| Config.ConsDistinct | utils/config_loader.py:32-46 | a key that differs from every other key in length or at one position keeps the keys distinct |
| Config.NamedKeysDistinct | utils/config_loader.py:32-43 | the nine named keys are distinct and none is `enabled_field_datasets` |
| Config.ConfigKeysListed | utils/config_loader.py:32-46 | the stored dict's keys are exactly the ten written in the source |
| Config.SettingsKeys | utils/config_loader.py:32-46 | the stored dict has one entry per key, named keys first and the dataset setting last |
| Config.EnvOverYaml | utils/config_loader.py:33-43 | a named key holds its environment variable when set, even to `""`, else the YAML value, else `None` |
| Config.EnabledIsList | utils/config_loader.py:45-50 | the dataset setting is always a list: the YAML list itself, `[]` when absent, `[v]` for any other `v`, `None` included |
| Config.EnabledIgnoresEnv | utils/config_loader.py:45 | the environment never reaches the dataset setting |
| Config.UnreadVariable | utils/config_loader.py:32-46 | a variable that names no key has no effect on the stored dict |
| Config.LoginUrlVariable | utils/config_loader.py:40 | the login URL is read from `WORLDQUAN_LOGIN_URL`, so setting `WORLDQUANT_LOGIN_URL` changes nothing |
| Config.ApiAuthVariable | utils/config_loader.py:41 | the API auth URL is read from `WORLDQUAN_API_AUTH`, so setting `WORLDQUANT_API_AUTH` changes nothing |
| Config.LoadOutcomes | utils/config_loader.py:25-29 | a missing file raises `FileNotFoundError`; an empty file loads as `{}`, so every key falls back to the environment or `None` |
| Config.LoadedOnce | utils/config_loader.py:18-21 | once an instance exists, constructing with any file, or looking up, leaves the state as it is |
| Config.FirstGet | utils/config_loader.py:58-60 | the first lookup loads the file, and an absent key then gives the default |
| Config.FailedLoadSticks | utils/config_loader.py:18-20 | as written, a first construction that fails on a missing file still leaves an instance, so later lookups see the empty config and never load |
| Config.AfterNewFixed | utils/config_loader.py:16-21 | corrected: a failed load leaves no instance, and a successful one stores the loaded dict |
| Config.FixedLoadRetries | utils/config_loader.py:18-20 | with the corrected construction, an instance always holds a loaded dict, and a failure can be retried |

## Left out

- HTTP and authentication: `sign_in`, the session and the request payloads are not modelled. Each request is an oracle reply; the sequential driver's re-login is a counter.
- The language model: the repair completion and the cluster names are oracle inputs. `str(status_json)` and `truncate_text` are function parameters. `truncate_text` lives in a module that is not part of this model.
- Clustering: TF-IDF and HDBSCAN are not modelled. The label sequence that `fit_predict` returns is an input.
- Files, CSV, JSON and YAML plumbing:
  - Parsed contents are inputs.
  - `json.dumps` of the hypotheses is a parameter.
  - The directory listing order of `glob` is the order of the input sequence.
  - Writing the output JSON and the ledger header, and flushing, are not modelled. The ledger is the sequence of rows appended.
- Read errors on the operators CSV (`pd.read_csv`) are not modelled. The file is a parsed table.
- `sleep`, logging and printing are not modelled.
- BatchedBacktest.BatchRunner.MonitorPending: `while pending` need not terminate, so the drain carries a budget of sweeps. It promises the source's behaviour only for drains that finish within the budget; the run reports running out of it.
- BatchedBacktest.RunSpecSound: this is partial correctness only. It says nothing about runs that exhaust the sweep budget.
- pandas `groupby` sorts its groups by `(dataset, type)`. FieldTemplates.ByGroup visits them in first-seen order instead, because ordering strings the way pandas does is not modelled. Only the iteration order of the written dict differs; which key holds which ids differs only when two groups write the same key.
- The knowledge prompt reads the operators CSV without `dtype=str`, so empty cells become `NaN` and render as `nan`. The model takes every cell as text.
- A field file without an `id` column raises `KeyError` at researcher/construct_prompts.py:65. The model's rows always have an `id`.
- The ids in the field-type file are taken to be lists of strings. `list(ids)` and `', '.join` on other JSON values are not modelled.
- ResearchPrompts.EnabledFromString: the comma-separated string branch is modelled. `ConfigLoader` always stores a list there (utils/config_loader.py:49-50), so through the configuration that branch cannot be reached.
- Backtest.AlphaOf: a number, boolean or `null` under `alpha` is refused, while `item["alpha"]` accepts it and the run goes on to submit it. Only a list or dict value raises in the source (`TypeError` at the `alpha in finished_alphas` test). Candidates are modelled as strings throughout, so runs over non-string alphas are not modelled.
- Backtest.AlphasOf: inherits `AlphaOf`'s refusal of non-string alphas. A document whose items carry a number, boolean or `null` alpha is read by the source and refused by the model.
- GenerateAlpha.Substitute: the value is inserted literally. `re.sub` also processes backslash escapes in the replacement: `\\` becomes one backslash, and an escape such as `\d` raises `re.error`. The model therefore agrees with researcher/generate_alpha.py:102 only for values without a backslash. The same holds for everything built on it (`ExpandCombinations`, `ExpandTemplate`, `GenerateAlphasFromTemplate`).
- FieldTemplates.SanitiseClean: `Text.Lower` maps only the ASCII letters `A`-`Z`. Python's `str.lower()` uses full Unicode case mapping, which lowers other letters and can change the length (`İ` lowers to two characters). The length and "no upper-case letter" claims hold for the ASCII mapping only.
- DatasetKeys.KnowledgeDatasetMeaning: the class `[\w\-]` is modelled as ASCII letters, digits, `_` and `-`. Python 3's `\w` also matches Unicode letters and digits, so the model reads no dataset from some keys the source matches (for example a dataset named `données`).
- ResearchPrompts.KnowledgeKeepMeaning: the same ASCII reading of `[\w\-]`. For a key whose dataset holds non-ASCII word characters, the source applies the filter while the model keeps the key unconditionally.
- Field CSVs with different columns: `pd.concat` at utils/template_field_gener.py:59 and researcher/construct_prompts.py:57 fills the missing cells with `NaN`. `groupby(["__dataset__", "type"])` then drops rows whose `type` is `NaN`, and the knowledge prompt prints such cells as `nan`. The model's rows hold text in every column, so neither effect is modelled.
- The `threading.Lock` around the singleton is not modelled, because the model is sequential.
- Not part of this model: utils/wq_info_loader.py (a network client), researcher/generate_template.py (language-model chain glue with a random post choice) and main.py (a driver with a random shuffle).
- The simulation payload is not modelled: it is a constant settings dict around the expression.

## Findings

| source | as written | input that shows it | evidently intended | confidence | as-written member | corrected member |
|---|---|---|---|---|---|---|
| evaluator/backtest_with_wq.py:112 | `sim_progress_url` is assigned only by a successful submit and never reset per candidate, so the guard at :130 sees the previous candidate's URL; on the first candidate the name is unbound | candidate `a` accepted at `u` with metrics `m`, then candidate `b` whose fifteen tries all return 500: a second row `b` with `a`'s metrics (and, with `b` first, `UnboundLocalError`) | reset the URL to `None` at the start of each candidate, so a candidate whose submission fails writes nothing | not executed | SequentialBacktest.StaleUrlMislabelsRow | SequentialBacktest.FreshRowFromOwnSubmission |
| researcher/construct_prompts.py:237 | `re.search(r":([^/>]+)\/>$", key)` starts its match at the leftmost colon, so the group of `</name:TYPE:ds/>` is `TYPE:ds` | key `</m:MATRIX:pv1/>` with `enabled_field_datasets = ["pv1"]`: the dataset read is `MATRIX:pv1`, and the key is dropped | the text after the last colon (`[^/>:]+`), as the comment at :236 says | not executed | ResearchPrompts.AsWrittenDropsGeneratedKey | ResearchPrompts.ToTemplateKeepsGeneratedKey |
| utils/config_loader.py:18-20 | `_instance` is set before `_load_config` runs, so a construction that raises `FileNotFoundError` leaves a half-built singleton | a first `ConfigLoader.get("k")` with no config file raises; the next `get("k")` returns `None` from the empty config without looking for the file again | assign `_instance` only after loading succeeds | not executed | Config.FailedLoadSticks | Config.FixedLoadRetries |

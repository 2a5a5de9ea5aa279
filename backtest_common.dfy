/**
 * What the two backtest drivers share: the ledger row they append to the
 * results CSV, the replies of the simulation server, the reading of the
 * candidate list out of the alphas JSON document, and the skip set built
 * from an existing ledger.
 */
module Backtest {
  import opened Wrappers
  import opened Json
  import opened Text

  /** One line of `<template>_backtest.csv`, in the column order of the header (`returnsValue` is the `returns` column). */
  datatype Row = Row(alpha: string, sharpe: Value, turnover: Value, fitness: Value,
                     returnsValue: Value, drawdown: Value, margin: Value)

  /** A row filled from the `is` section of a metrics response. */
  function MetricsRow(alpha: string, isFields: seq<(string, Value)>): Row
  {
    Row(alpha, Get(isFields, "sharpe"), Get(isFields, "turnover"), Get(isFields, "fitness"),
        Get(isFields, "returns"), Get(isFields, "drawdown"), Get(isFields, "margin"))
  }

  /** A row with no metrics and a failure tag in the margin column. */
  function FailureRow(alpha: string, tag: string): Row
  {
    Row(alpha, Null, Null, Null, Null, Null, Str(tag))
  }

  // ---------------------------------------------------------------------
  // Server replies (the HTTP session is not modelled; these are its answers)

  /** `POST /simulations`: raised, or a status code, the body text and the `Location` header. */
  datatype SubmitReply = SubmitRaised | Submitted(code: int, text: string, location: Option<string>)

  /** `GET <progress url>`: raised, or a status code and the body, `None` when it is not JSON. */
  datatype PollReply = PollRaised | Polled(code: int, body: Option<Value>)

  /** `GET /alphas/<id>`: raised, or a status code and the body, `None` when it is not JSON. */
  datatype FetchReply = FetchRaised | Fetched(code: int, body: Option<Value>)

  /** A metrics reply that sends a fetch loop round again: answered, but not with a 200. */
  predicate NotReady(reply: FetchReply)
  {
    reply.Fetched? && reply.code != 200
  }

  predicate IsSuccessCode(code: int)
  {
    code == 200 || code == 201
  }

  /** Python truthiness of an optional header value. */
  predicate Present(h: Option<string>)
  {
    h.Some? && h.value != ""
  }

  // ---------------------------------------------------------------------
  // The candidate list

  const WRAPPER_KEY := "GeneratedAlphas"

  /** `item["alpha"]`, with the exception it raises otherwise. */
  function AlphaOf(item: Value): (r: Result<string>)
    ensures r.Ok? <==> HasAlpha(item)
    ensures r.Ok? ==> Lookup(item.fields, "alpha") == Some(Str(r.value))
  {
    match item
    case Object(fs) =>
      (match Lookup(fs, "alpha")
       case None => Err("KeyError")
       case Some(Str(a)) => Ok(a)
       case Some(_) => Err("non-string alpha"))
    case _ => Err("TypeError")
  }

  /** The item is a dict whose `alpha` entry is a string. */
  predicate HasAlpha(item: Value)
  {
    item.Object? && Lookup(item.fields, "alpha").Some? && Lookup(item.fields, "alpha").value.Str?
  }

  /** `[item["alpha"] for item in items]`; the first item that fails raises. */
  function AlphasOf(items: seq<Value>): (r: Result<seq<string>>)
    ensures r.Ok? <==> forall k :: 0 <= k < |items| ==> HasAlpha(items[k])
    ensures r.Ok? ==> |r.value| == |items|
    ensures r.Ok? ==>
      forall k :: 0 <= k < |items| ==> Lookup(items[k].fields, "alpha") == Some(Str(r.value[k]))
  {
    if items == [] then Ok([])
    else
      match AlphasOf(items[..|items| - 1])
      case Err(e) => Err(e)
      case Ok(front) =>
        match AlphaOf(items[|items| - 1])
        case Err(e) => Err(e)
        case Ok(a) => Ok(front + [a])
  }

  /**
   * The same comprehension over any document: a dict iterates over its key
   * strings and a string over its characters, neither of which can be
   * indexed by "alpha", so only the empty ones get through; a number, a
   * boolean or null is not iterable.
   */
  function AlphasIn(v: Value): (r: Result<seq<string>>)
    ensures v.List? ==> r == AlphasOf(v.items)
    ensures !v.List? && r.Ok? ==> r.value == []
  {
    match v
    case List(items) => AlphasOf(items)
    case Object(fs) => if fs == [] then Ok([]) else Err("TypeError")
    case Str(s) => if s == [] then Ok([]) else Err("TypeError")
    case _ => Err("TypeError")
  }

  /** How the alphas document was read: a list, an unknown shape (`return None`), or an exception. */
  datatype Parsed = Candidates(alphas: seq<string>) | Unrecognised | Malformed(error: string)

  /**
   * The `"GeneratedAlphas" in data` test and its two branches: `in` is a key
   * test on a dict, an element test on a list and a substring test on a
   * string, and raises on anything else.
   */
  function ParseCandidates(data: Value): (p: Parsed)
    ensures data.Object? && !HasKey(data.fields, WRAPPER_KEY) ==> p == Unrecognised
    ensures data.Object? && HasKey(data.fields, WRAPPER_KEY) ==>
      p == FromResult(AlphasIn(Get(data.fields, WRAPPER_KEY)))
    ensures data.List? && Str(WRAPPER_KEY) !in data.items ==> p == FromResult(AlphasOf(data.items))
    ensures p == Unrecognised <==>
      (data.Object? && !HasKey(data.fields, WRAPPER_KEY)) || (data.Str? && !Contains(data.s, WRAPPER_KEY))
  {
    match data
    case Object(fs) =>
      if HasKey(fs, WRAPPER_KEY) then FromResult(AlphasIn(Get(fs, WRAPPER_KEY))) else Unrecognised
    case List(items) =>
      if Str(WRAPPER_KEY) in items then Malformed("TypeError") else FromResult(AlphasOf(items))
    case Str(s) =>
      if Contains(s, WRAPPER_KEY) then Malformed("TypeError") else Unrecognised
    case _ => Malformed("TypeError")
  }

  function FromResult(r: Result<seq<string>>): Parsed
  {
    match r
    case Ok(a) => Candidates(a)
    case Err(e) => Malformed(e)
  }

  /** The document the generator writes for a list of expressions, one `{"alpha": …}` record each. */
  function Records(alphas: seq<string>): (v: Value)
    ensures v.List? && |v.items| == |alphas|
  {
    List(seq(|alphas|, i requires 0 <= i < |alphas| => Object([("alpha", Str(alphas[i]))])))
  }

  /** Both accepted shapes read back exactly the expressions they were built from, in order. */
  lemma ParseRecords(alphas: seq<string>)
    ensures ParseCandidates(Records(alphas)) == Candidates(alphas)
    ensures ParseCandidates(Object([(WRAPPER_KEY, Records(alphas))])) == Candidates(alphas)
  {
    var items := Records(alphas).items;
    forall k | 0 <= k < |items| ensures HasAlpha(items[k]) && Lookup(items[k].fields, "alpha") == Some(Str(alphas[k])) {
      assert items[k] == Object([("alpha", Str(alphas[k]))]);
    }
    var r := AlphasOf(items);
    assert r.Ok?;
    assert r.value == alphas;
    forall k | 0 <= k < |items| ensures items[k] != Str(WRAPPER_KEY) {
      assert items[k].Object?;
    }
    var doc := [(WRAPPER_KEY, Records(alphas))];
    assert doc[0].0 == WRAPPER_KEY;
    assert Lookup(doc, WRAPPER_KEY) == Some(Records(alphas));
  }

  // ---------------------------------------------------------------------
  // The skip set

  /** The `alpha` column of the existing ledger, or nothing when there is no ledger file. */
  function SkipSet(existing: Option<seq<string>>): (skip: set<string>)
    ensures forall a :: a in skip <==> existing.Some? && a in existing.value
  {
    if existing.None? then {} else set a | a in existing.value
  }

  /** The `finished_alphas.add(row["alpha"])` loop over the ledger's rows. */
  method ReadSkipSet(existing: Option<seq<string>>) returns (skip: set<string>)
    ensures skip == SkipSet(existing)
  {
    skip := {};
    if existing.None? {
      return;
    }
    var rows := existing.value;
    for k := 0 to |rows|
      invariant skip == set a | a in rows[..k]
    {
      assert rows[..k + 1] == rows[..k] + [rows[k]];
      skip := skip + {rows[k]};
    }
    assert rows[..|rows|] == rows;
  }
}

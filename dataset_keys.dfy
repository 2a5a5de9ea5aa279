/**
 * Reading the dataset back out of a field-type key `</name:type:dataset/>`
 * (researcher/construct_prompts.py).  The two prompt builders use two
 * different regular expressions with `re.search`:
 *
 *   - the knowledge prompt `:([\w\-]+)/>$`, a colon, a run of word
 *     characters or hyphens, then `/>` at the end;
 *   - the hypothesis prompt `:([^/>]+)/>$`, a colon, a run of anything but
 *     `/` and `>`, then `/>` at the end.
 *
 * Each is modelled by a direct scan and proved equal to the regular
 * expression's meaning, stated as a predicate over match positions.
 */
module DatasetKeys {
  import opened Wrappers

  // ---------------------------------------------------------------------
  // What the patterns match

  /** `$` without MULTILINE: at the very end, or just before a final line break. */
  predicate DollarAt(key: string, j: int)
  {
    j == |key| || (j == |key| - 1 && 0 <= j && key[j] == '\n')
  }

  /** `/>$` matches with its `/` at `e`. */
  predicate CloseAt(key: string, e: int)
  {
    0 <= e && e + 2 <= |key| && key[e] == '/' && key[e + 1] == '>' && DollarAt(key, e + 2)
  }

  /**
   * `:(C+)/>$` matches with its colon at `i` and its `/>` at `e`, where `C`
   * is the character class `p`; the group is then `key[i + 1..e]`.
   */
  predicate ColonMatch(key: string, p: char -> bool, i: int, e: int)
  {
    0 <= i && i + 1 < e && CloseAt(key, e) && key[i] == ':'
    && forall k :: i < k < e ==> p(key[k])
  }

  /** `re.search` reports the match that starts leftmost. */
  predicate LeftmostMatch(key: string, p: char -> bool, i: int, e: int)
  {
    ColonMatch(key, p, i, e) && forall j :: 0 <= j < i ==> !ColonMatch(key, p, j, e)
  }

  /** `[\w\-]` on the keys the pipeline writes: ASCII letters and digits, `_` and `-`. */
  predicate IsWordOrHyphen(c: char)
  {
    ('a' <= c <= 'z') || ('A' <= c <= 'Z') || ('0' <= c <= '9') || c == '_' || c == '-'
  }

  /** `[^/>]`. */
  predicate NotSlashOrGt(c: char)
  {
    c != '/' && c != '>'
  }

  /** `[^/>:]`: the class the hypothesis prompt evidently means, the text after the last colon. */
  predicate NotSlashGtOrColon(c: char)
  {
    c != '/' && c != '>' && c != ':'
  }

  // ---------------------------------------------------------------------
  // The scans

  /** Where the `/` of a closing `/>$` sits, if the key has one. */
  function CloseEnd(key: string): (e: Option<nat>)
    ensures e.Some? ==> CloseAt(key, e.value)
  {
    if |key| >= 2 && key[|key| - 2] == '/' && key[|key| - 1] == '>' then Some(|key| - 2)
    else if |key| >= 3 && key[|key| - 3] == '/' && key[|key| - 2] == '>' && key[|key| - 1] == '\n'
    then Some(|key| - 3)
    else None
  }

  /** The length of the longest suffix of `s` made of `p` characters. */
  function TrailingRun(s: string, p: char -> bool): (n: nat)
    ensures n <= |s|
  {
    if s != [] && p(s[|s| - 1]) then TrailingRun(s[..|s| - 1], p) + 1 else 0
  }

  /** The first colon at an index in `[lo, hi)`. */
  function FirstColon(key: string, lo: nat, hi: nat): (r: Option<nat>)
    requires hi <= |key|
    ensures r.Some? ==> lo <= r.value < hi && key[r.value] == ':'
                        && forall j :: lo <= j < r.value ==> key[j] != ':'
    ensures r.None? ==> forall j :: lo <= j < hi ==> key[j] != ':'
    decreases hi - lo
  {
    if lo >= hi then None
    else if key[lo] == ':' then Some(lo)
    else FirstColon(key, lo + 1, hi)
  }

  /**
   * A pattern `:(C+)/>$` whose class leaves out the colon: the group is the
   * whole run of `C` characters in front of the closing `/>`, provided a
   * colon stands right before it.
   */
  function ColonRun(key: string, p: char -> bool): (r: Option<string>)
    requires !p(':')
  {
    match CloseEnd(key)
    case None => None
    case Some(e) =>
      var n := TrailingRun(key[..e], p);
      if n >= 1 && n < e && key[e - n - 1] == ':' then Some(key[e - n..e]) else None
  }

  /** The knowledge prompt's `re.search(r":([\w\-]+)\/>$", key).group(1)`. */
  function KnowledgeDataset(key: string): Option<string>
  {
    ColonRun(key, IsWordOrHyphen)
  }

  /**
   * The hypothesis prompt's `re.search(r":([^/>]+)\/>$", key).group(1)` as
   * written: the class admits colons, so the match starts at the leftmost
   * colon of the run in front of `/>`.
   */
  function TemplateDatasetAsWritten(key: string): (r: Option<string>)
  {
    match CloseEnd(key)
    case None => None
    case Some(e) =>
      var start := e - TrailingRun(key[..e], NotSlashOrGt);
      if start + 1 >= e then None
      else
        match FirstColon(key, start, e - 1)
        case None => None
        case Some(i) => Some(key[i + 1..e])
  }

  /** What the hypothesis prompt's comment promises: the text after the last colon. */
  function TemplateDataset(key: string): Option<string>
  {
    ColonRun(key, NotSlashGtOrColon)
  }

  // ---------------------------------------------------------------------
  // The scans agree with the patterns

  /** `/>$` can match at one place only, and `CloseEnd` finds it. */
  lemma CloseEndExact(key: string, e: int)
    ensures CloseEnd(key) == Some(e) <==> CloseAt(key, e)
  {
  }

  lemma {:induction false} TrailingRunSpec(s: string, p: char -> bool)
    ensures forall k :: |s| - TrailingRun(s, p) <= k < |s| ==> p(s[k])
    ensures TrailingRun(s, p) < |s| ==> !p(s[|s| - TrailingRun(s, p) - 1])
  {
    if s != [] && p(s[|s| - 1]) {
      var front := s[..|s| - 1];
      TrailingRunSpec(front, p);
      assert forall k :: 0 <= k < |front| ==> front[k] == s[k];
    }
  }

  /**
   * The run in front of `e`: its characters satisfy `p`, and the one before
   * it, if any, does not.  So a stretch `(i, e)` of `p` characters lies in
   * the run, and if `key[i]` fails `p` the run starts at `i + 1`.
   */
  lemma RunBefore(key: string, p: char -> bool, e: nat)
    requires e <= |key|
    ensures var n := TrailingRun(key[..e], p);
      && (forall k :: e - n <= k < e ==> p(key[k]))
      && (n < e ==> !p(key[e - n - 1]))
  {
    var s := key[..e];
    TrailingRunSpec(s, p);
    assert forall k :: 0 <= k < e ==> s[k] == key[k];
  }

  /** Every match of a colon-free class is the run `ColonRun` reports. */
  lemma ColonRunComplete(key: string, p: char -> bool, i: int, e: int)
    requires !p(':') && ColonMatch(key, p, i, e)
    ensures ColonRun(key, p) == Some(key[i + 1..e])
  {
    CloseEndExact(key, e);
    RunBefore(key, p, e);
    var n := TrailingRun(key[..e], p);
  }

  /** What `ColonRun` reports is a match. */
  lemma ColonRunSound(key: string, p: char -> bool)
    requires !p(':') && ColonRun(key, p).Some?
    ensures exists i, e :: ColonMatch(key, p, i, e) && ColonRun(key, p).value == key[i + 1..e]
  {
    var e := CloseEnd(key).value;
    RunBefore(key, p, e);
    var n := TrailingRun(key[..e], p);
    assert ColonMatch(key, p, e - n - 1, e);
  }

  /** The knowledge filter's dataset is exactly the group of the pattern's match. */
  lemma KnowledgeDatasetMeaning(key: string, d: string)
    ensures KnowledgeDataset(key) == Some(d)
        <==> exists i, e :: ColonMatch(key, IsWordOrHyphen, i, e) && d == key[i + 1..e]
  {
    if KnowledgeDataset(key) == Some(d) {
      ColonRunSound(key, IsWordOrHyphen);
    }
    if exists i, e :: ColonMatch(key, IsWordOrHyphen, i, e) && d == key[i + 1..e] {
      var i, e :| ColonMatch(key, IsWordOrHyphen, i, e) && d == key[i + 1..e];
      ColonRunComplete(key, IsWordOrHyphen, i, e);
    }
  }

  /** A match for the as-written class starts inside the run in front of `e`. */
  lemma MatchInRun(key: string, i: int, e: int)
    requires ColonMatch(key, NotSlashOrGt, i, e)
    ensures e - TrailingRun(key[..e], NotSlashOrGt) <= i
  {
    var s := key[..e];
    forall k | e - (e - i) <= k < e ensures NotSlashOrGt(s[k]) {
      assert s[k] == key[k];
    }
    TrailingRunCovers(s, NotSlashOrGt, e - i);
  }

  /** A suffix of `p` characters lies within the trailing run. */
  lemma {:induction false} TrailingRunCovers(s: string, p: char -> bool, m: nat)
    requires m <= |s| && forall k :: |s| - m <= k < |s| ==> p(s[k])
    ensures TrailingRun(s, p) >= m
  {
    if m > 0 {
      var front := s[..|s| - 1];
      assert p(s[|s| - 1]);
      forall k | |front| - (m - 1) <= k < |front| ensures p(front[k]) {
        assert front[k] == s[k];
      }
      TrailingRunCovers(front, p, m - 1);
    }
  }

  /** Every colon of the run, short of the last character, starts a match. */
  lemma ColonInRunMatches(key: string, j: int, e: int)
    requires CloseAt(key, e)
    requires e - TrailingRun(key[..e], NotSlashOrGt) <= j && j + 1 < e && key[j] == ':'
    ensures ColonMatch(key, NotSlashOrGt, j, e)
  {
    RunBefore(key, NotSlashOrGt, e);
  }

  /** The as-written scan reports the leftmost match of `:([^/>]+)/>$`. */
  lemma TemplateDatasetAsWrittenComplete(key: string, i: int, e: int)
    requires LeftmostMatch(key, NotSlashOrGt, i, e)
    ensures TemplateDatasetAsWritten(key) == Some(key[i + 1..e])
  {
    CloseEndExact(key, e);
    MatchInRun(key, i, e);
    var start := e - TrailingRun(key[..e], NotSlashOrGt);
    var r := FirstColon(key, start, e - 1);
    assert r.None? || r.value >= i ==> r == Some(i);
    if r.Some? && r.value < i {
      ColonInRunMatches(key, r.value, e);
    }
  }

  /** What the as-written scan reports is the leftmost match. */
  lemma TemplateDatasetAsWrittenSound(key: string)
    requires TemplateDatasetAsWritten(key).Some?
    ensures exists i, e :: LeftmostMatch(key, NotSlashOrGt, i, e)
                           && TemplateDatasetAsWritten(key).value == key[i + 1..e]
  {
    var e := CloseEnd(key).value;
    var start := e - TrailingRun(key[..e], NotSlashOrGt);
    var i := FirstColon(key, start, e - 1).value;
    ColonInRunMatches(key, i, e);
    forall j | 0 <= j < i ensures !ColonMatch(key, NotSlashOrGt, j, e) {
      if ColonMatch(key, NotSlashOrGt, j, e) {
        MatchInRun(key, j, e);
      }
    }
    assert LeftmostMatch(key, NotSlashOrGt, i, e);
  }

  /** The corrected scan is the pattern `:([^/>:]+)/>$`: the text after the last colon. */
  lemma TemplateDatasetMeaning(key: string, d: string)
    ensures TemplateDataset(key) == Some(d)
        <==> exists i, e :: ColonMatch(key, NotSlashGtOrColon, i, e) && d == key[i + 1..e]
  {
    if TemplateDataset(key) == Some(d) {
      ColonRunSound(key, NotSlashGtOrColon);
    }
    if exists i, e :: ColonMatch(key, NotSlashGtOrColon, i, e) && d == key[i + 1..e] {
      var i, e :| ColonMatch(key, NotSlashGtOrColon, i, e) && d == key[i + 1..e];
      ColonRunComplete(key, NotSlashGtOrColon, i, e);
    }
  }

  /** The corrected dataset holds no colon, so it is what follows the last one. */
  lemma TemplateDatasetColonFree(key: string)
    requires TemplateDataset(key).Some?
    ensures forall k :: 0 <= k < |TemplateDataset(key).value| ==> TemplateDataset(key).value[k] != ':'
  {
    var e := CloseEnd(key).value;
    RunBefore(key, NotSlashGtOrColon, e);
  }
}

/**
 * The Python `str` operations the source relies on, over `seq<char>`:
 * `in`, `find`, `replace` (all and first occurrence), `split`, `join`,
 * `strip`, `lower`, and decimal rendering of counts in f-strings.
 */
module Text {
  import opened Wrappers

  /** `pat` occurs in `s` starting at index `i`. */
  predicate OccursAt(s: string, pat: string, i: int)
  {
    0 <= i <= |s| && pat <= s[i..]
  }

  /** Python `pat in s`. */
  predicate Contains(s: string, pat: string)
  {
    exists i :: 0 <= i <= |s| && OccursAt(s, pat, i)
  }

  /** `i` is the leftmost occurrence of `pat` in `s`. */
  predicate FirstOccurrence(s: string, pat: string, i: int)
  {
    OccursAt(s, pat, i) && forall j :: 0 <= j < i ==> !OccursAt(s, pat, j)
  }

  /** Leftmost occurrence of `pat` at or after `from`. */
  function FindFrom(s: string, pat: string, from: nat): (r: Option<nat>)
    requires from <= |s|
    decreases |s| - from
    ensures r.Some? ==> from <= r.value && OccursAt(s, pat, r.value)
                        && forall j :: from <= j < r.value ==> !OccursAt(s, pat, j)
    ensures r.None? ==> forall j :: from <= j ==> !OccursAt(s, pat, j)
  {
    if OccursAt(s, pat, from) then Some(from)
    else if from == |s| then None
    else FindFrom(s, pat, from + 1)
  }

  /** Python `s.find(pat)`, with `None` for -1. */
  function Find(s: string, pat: string): (r: Option<nat>)
    ensures r.Some? ==> FirstOccurrence(s, pat, r.value)
    ensures r.None? <==> !Contains(s, pat)
  {
    FindFrom(s, pat, 0)
  }

  /** Python `s.replace(pat, rep, 1)`. */
  function ReplaceFirst(s: string, pat: string, rep: string): (r: string)
    ensures !Contains(s, pat) ==> r == s
    ensures Contains(s, pat) ==>
      exists i :: FirstOccurrence(s, pat, i) && r == s[..i] + rep + s[i + |pat|..]
  {
    match Find(s, pat)
    case None => s
    case Some(i) => s[..i] + rep + s[i + |pat|..]
  }

  /**
   * Python `s.replace(pat, rep)`: each leftmost non-overlapping occurrence
   * is replaced in turn; an empty pattern matches between every two
   * characters and at both ends.
   */
  function ReplaceAll(s: string, pat: string, rep: string): string
    decreases |s|
  {
    if pat == [] then
      (if s == [] then rep else rep + [s[0]] + ReplaceAll(s[1..], pat, rep))
    else
      match Find(s, pat)
      case None => s
      case Some(i) => s[..i] + rep + ReplaceAll(s[i + |pat|..], pat, rep)
  }

  /** Python `s.split(sep)` for a non-empty separator. */
  function Split(s: string, sep: string): (parts: seq<string>)
    requires sep != []
    ensures |parts| >= 1
    decreases |s|
  {
    match Find(s, sep)
    case None => [s]
    case Some(i) => [s[..i]] + Split(s[i + |sep|..], sep)
  }

  /** Python `sep.join(parts)`. */
  function Join(parts: seq<string>, sep: string): string
  {
    if parts == [] then []
    else if |parts| == 1 then parts[0]
    else parts[0] + sep + Join(parts[1..], sep)
  }

  /** Python `url.split("/")[-1]`: the text after the last slash. */
  function LastSegment(url: string): string
  {
    var parts := Split(url, "/");
    parts[|parts| - 1]
  }

  lemma OccursAtPrefix(s: string, pat: string, k: nat, j: int)
    requires k <= |s| && j + |pat| <= k
    ensures OccursAt(s[..k], pat, j) <==> OccursAt(s, pat, j)
  {
    if 0 <= j {
      assert s[..k][j..][..|pat|] == s[j..][..|pat|];
    }
  }

  /** At the first occurrence the text falls into the piece before it, the pattern and the rest. */
  lemma FirstOccurrenceSplits(s: string, pat: string, i: nat)
    requires pat != [] && FirstOccurrence(s, pat, i)
    ensures i + |pat| <= |s| && s == s[..i] + pat + s[i + |pat|..]
    ensures !Contains(s[..i], pat)
  {
    assert s[i..][..|pat|] == s[i..i + |pat|];
    forall j | 0 <= j <= i && OccursAt(s[..i], pat, j) ensures false {
      OccursAtPrefix(s, pat, i, j);
    }
  }

  /** `find` returns the leftmost occurrence and no other. */
  lemma FindFirst(s: string, pat: string, i: nat)
    requires FirstOccurrence(s, pat, i)
    ensures Find(s, pat) == Some(i)
  {
    assert Contains(s, pat);
  }

  /**
   * A prefix without the pattern's first character cannot hold the start of
   * an occurrence, so the search result just moves along by its length.
   */
  lemma FindShift(x: string, b: string, pat: string)
    requires pat != [] && pat[0] !in x
    ensures Find(x + b, pat) == if Find(b, pat).None? then None else Some(|x| + Find(b, pat).value)
  {
    var s := x + b;
    forall j | |x| <= j <= |s| ensures OccursAt(s, pat, j) <==> OccursAt(b, pat, j - |x|) {
      assert s[j..] == b[j - |x|..];
    }
    forall j | 0 <= j < |x| ensures !OccursAt(s, pat, j) {
      assert s[j] == x[j];
    }
    if Find(b, pat).Some? {
      FindFirst(s, pat, |x| + Find(b, pat).value);
    }
  }

  /** `replace` agrees with splitting on the pattern and joining with the replacement. */
  lemma {:induction false} ReplaceAllIsSplitJoin(s: string, pat: string, rep: string)
    requires pat != []
    ensures ReplaceAll(s, pat, rep) == Join(Split(s, pat), rep)
    decreases |s|
  {
    match Find(s, pat)
    case None =>
    case Some(i) =>
      var rest := s[i + |pat|..];
      FirstOccurrenceSplits(s, pat, i);
      ReplaceAllIsSplitJoin(rest, pat, rep);
      JoinCons(s[..i], Split(rest, pat), rep);
  }

  /** `sep.join(s.split(sep)) == s`. */
  lemma {:induction false} JoinSplit(s: string, sep: string)
    requires sep != []
    ensures Join(Split(s, sep), sep) == s
    decreases |s|
  {
    match Find(s, sep)
    case None =>
    case Some(i) =>
      FirstOccurrenceSplits(s, sep, i);
      var rest := s[i + |sep|..];
      JoinSplit(rest, sep);
      JoinCons(s[..i], Split(rest, sep), sep);
  }

  lemma JoinCons(head: string, tail: seq<string>, sep: string)
    requires |tail| >= 1
    ensures Join([head] + tail, sep) == head + sep + Join(tail, sep)
  {
    assert ([head] + tail)[1..] == tail;
  }

  /** No piece of `s.split(sep)` contains the separator. */
  lemma {:induction false} SplitPiecesFree(s: string, sep: string)
    requires sep != []
    ensures forall k :: 0 <= k < |Split(s, sep)| ==> !Contains(Split(s, sep)[k], sep)
    decreases |s|
  {
    match Find(s, sep)
    case None =>
    case Some(i) =>
      FirstOccurrenceSplits(s, sep, i);
      var rest := s[i + |sep|..];
      SplitPiecesFree(rest, sep);
      PiecesFreeCons(s[..i], Split(rest, sep), sep);
  }

  lemma PiecesFreeCons(head: string, tail: seq<string>, sep: string)
    requires !Contains(head, sep) && forall k :: 0 <= k < |tail| ==> !Contains(tail[k], sep)
    ensures forall k :: 0 <= k < |[head] + tail| ==> !Contains(([head] + tail)[k], sep)
  {
    forall k | 0 < k < |[head] + tail| ensures ([head] + tail)[k] == tail[k - 1] {
    }
  }

  /** The last `/` segment holds no slash and ends the URL. */
  lemma LastSegmentProps(url: string)
    ensures !Contains(LastSegment(url), "/")
    ensures |LastSegment(url)| <= |url| && url[|url| - |LastSegment(url)|..] == LastSegment(url)
  {
    SplitPiecesFree(url, "/");
    JoinSplit(url, "/");
    JoinEndsWithLast(Split(url, "/"), "/");
  }

  lemma {:induction false} JoinEndsWithLast(parts: seq<string>, sep: string)
    requires |parts| >= 1
    ensures |parts[|parts| - 1]| <= |Join(parts, sep)|
    ensures Join(parts, sep)[|Join(parts, sep)| - |parts[|parts| - 1]|..] == parts[|parts| - 1]
  {
    if |parts| > 1 {
      JoinEndsWithLast(parts[1..], sep);
      var rest := Join(parts[1..], sep);
      var j := parts[0] + sep + rest;
      assert j[|j| - |rest|..] == rest;
    }
  }

  // ---------------------------------------------------------------------
  // strip() and lower()

  /** The characters `str.isspace` accepts, all of which `str.strip()` removes. */
  predicate IsSpace(c: char)
  {
    c == ' ' || c == '\t' || c == '\n' || c == '\r' || c == '\U{0B}' || c == '\U{0C}'
    || ('\U{1C}' <= c <= '\U{1F}') || c == '\U{85}' || c == '\U{A0}' || c == '\U{1680}'
    || ('\U{2000}' <= c <= '\U{200A}') || c == '\U{2028}' || c == '\U{2029}'
    || c == '\U{202F}' || c == '\U{205F}' || c == '\U{3000}'
  }

  function TrimLeft(s: string): (r: string)
    ensures |r| <= |s| && r == s[|s| - |r|..]
    ensures r == [] || !IsSpace(r[0])
    ensures forall k :: 0 <= k < |s| - |r| ==> IsSpace(s[k])
  {
    if s != [] && IsSpace(s[0]) then TrimLeft(s[1..]) else s
  }

  function TrimRight(s: string): (r: string)
    ensures |r| <= |s| && r == s[..|r|]
    ensures r == [] || !IsSpace(r[|r| - 1])
    ensures forall k :: |r| <= k < |s| ==> IsSpace(s[k])
  {
    if s != [] && IsSpace(s[|s| - 1]) then TrimRight(s[..|s| - 1]) else s
  }

  /** Where `s.strip()` starts: the number of leading whitespace characters. */
  function StripStart(s: string): nat
  {
    |s| - |TrimLeft(s)|
  }

  /** Python `s.strip()`: the longest slice that neither starts nor ends with whitespace. */
  function Strip(s: string): (r: string)
    ensures r == [] || (!IsSpace(r[0]) && !IsSpace(r[|r| - 1]))
    ensures StripStart(s) + |r| <= |s| && r == s[StripStart(s)..StripStart(s) + |r|]
    ensures forall k :: 0 <= k < StripStart(s) ==> IsSpace(s[k])
    ensures forall k :: StripStart(s) + |r| <= k < |s| ==> IsSpace(s[k])
  {
    var t := TrimLeft(s);
    var r := TrimRight(t);
    var i := |s| - |t|;
    assert r == s[i..i + |r|];
    r
  }

  /** Text that neither starts nor ends with whitespace is its own `strip()`. */
  lemma StripNoop(s: string)
    requires s == [] || (!IsSpace(s[0]) && !IsSpace(s[|s| - 1]))
    ensures Strip(s) == s
  {
  }

  /** Python `c.lower()` on the ASCII letters. */
  function LowerChar(c: char): char
  {
    if 'A' <= c <= 'Z' then (c as int + 32) as char else c
  }

  function Lower(s: string): (r: string)
    ensures |r| == |s| && forall k :: 0 <= k < |s| ==> r[k] == LowerChar(s[k])
  {
    seq(|s|, k requires 0 <= k < |s| => LowerChar(s[k]))
  }

  /** Python `s.replace(a, b)` for one-character `a` and `b`, char by char. */
  function MapChar(s: string, a: char, b: char): (r: string)
    ensures |r| == |s|
  {
    if s == [] then [] else [if s[0] == a then b else s[0]] + MapChar(s[1..], a, b)
  }

  lemma {:induction false} MapCharAt(s: string, a: char, b: char, k: nat)
    requires k < |s|
    ensures MapChar(s, a, b)[k] == if s[k] == a then b else s[k]
  {
    if k > 0 {
      MapCharAt(s[1..], a, b, k - 1);
    }
  }

  lemma {:induction false} MapCharAppend(x: string, y: string, a: char, b: char)
    ensures MapChar(x + y, a, b) == MapChar(x, a, b) + MapChar(y, a, b)
  {
    if x != [] {
      assert (x + y)[1..] == x[1..] + y;
      MapCharAppend(x[1..], y, a, b);
    } else {
      assert x + y == y;
    }
  }

  /** A text without `a` is left as it is. */
  lemma {:induction false} MapCharFixed(x: string, a: char, b: char)
    requires forall k :: 0 <= k < |x| ==> x[k] != a
    ensures MapChar(x, a, b) == x
  {
    if x != [] {
      assert x[0] != a;
      MapCharFixed(x[1..], a, b);
    }
  }

  /** Replacing a single character scans exactly like `MapChar`. */
  lemma {:induction false} ReplaceAllChar(s: string, a: char, b: char)
    ensures ReplaceAll(s, [a], [b]) == MapChar(s, a, b)
    decreases |s|
  {
    match Find(s, [a])
    case None =>
      CharAbsent(s, a, |s|);
      MapCharFixed(s, a, b);
    case Some(i) =>
      OccursAtChar(s, a, i);
      ReplaceAllChar(s[i + 1..], a, b);
      ReplaceAllCharAt(s, a, b, i);
  }

  /** The step at the first `a`, given the rest of the scan. */
  lemma ReplaceAllCharAt(s: string, a: char, b: char, i: nat)
    requires Find(s, [a]) == Some(i) && i < |s|
    requires ReplaceAll(s[i + 1..], [a], [b]) == MapChar(s[i + 1..], a, b)
    ensures ReplaceAll(s, [a], [b]) == MapChar(s, a, b)
  {
    CharAbsent(s, a, i);
    OccursAtChar(s, a, i);
    MapCharSplice(s, a, b, i);
  }

  /** Before the first occurrence of `[a]` no character is `a`. */
  lemma CharAbsent(s: string, a: char, i: nat)
    requires i <= |s| && forall j :: 0 <= j < i ==> !OccursAt(s, [a], j)
    ensures forall k :: 0 <= k < i ==> s[k] != a
  {
    forall k | 0 <= k < i ensures s[k] != a {
      OccursAtChar(s, a, k);
    }
  }

  /** `MapChar` over a text whose first `a` is at `i`. */
  lemma MapCharSplice(s: string, a: char, b: char, i: nat)
    requires i < |s| && s[i] == a && forall k :: 0 <= k < i ==> s[k] != a
    ensures MapChar(s, a, b) == s[..i] + [b] + MapChar(s[i + 1..], a, b)
  {
    var head, rest := s[..i], s[i + 1..];
    assert s == head + ([a] + rest);
    MapCharAppend(head, [a] + rest, a, b);
    MapCharFixed(head, a, b);
    assert ([a] + rest)[1..] == rest;
  }

  /** A one-character pattern occurs exactly where that character is. */
  lemma OccursAtChar(s: string, a: char, k: nat)
    requires k < |s|
    ensures OccursAt(s, [a], k) <==> s[k] == a
  {
    assert s[k..][0] == s[k];
  }

  // ---------------------------------------------------------------------
  // Decimal rendering of non-negative counts (f-string `{n}`)

  predicate IsDigit(c: char) { '0' <= c <= '9' }

  function DigitChar(d: nat): char
    requires d < 10
  {
    ('0' as int + d) as char
  }

  function NatToString(n: nat): (r: string)
    ensures |r| >= 1 && forall k :: 0 <= k < |r| ==> IsDigit(r[k])
  {
    if n < 10 then [DigitChar(n)] else NatToString(n / 10) + [DigitChar(n % 10)]
  }

  function ParseDigits(s: string): nat
    requires forall k :: 0 <= k < |s| ==> IsDigit(s[k])
  {
    if s == [] then 0
    else
      assert IsDigit(s[|s| - 1]);
      10 * ParseDigits(s[..|s| - 1]) + (s[|s| - 1] as int - '0' as int)
  }

  /** Reading the rendered digits back gives the count. */
  lemma {:induction false} NatToStringRoundTrip(n: nat)
    ensures ParseDigits(NatToString(n)) == n
  {
    if n >= 10 {
      NatToStringRoundTrip(n / 10);
      var r := NatToString(n);
      assert r[..|r| - 1] == NatToString(n / 10);
    }
  }
}

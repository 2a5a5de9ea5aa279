/**
 * Template expansion (researcher/generate_alpha.py): the placeholders
 * `</name/>` of a template expression are looked up in the operator map
 * (operators grouped by type) or, failing that, in the field map (field ids
 * keyed by cleaned type keys), and the template is instantiated once per
 * combination of the Cartesian product, capped at `MAX_ALPHAS`.
 */
module GenerateAlpha {
  import opened Wrappers
  import opened Text
  import opened Grouping

  /** At most this many alphas are generated from one template. */
  const MAX_ALPHAS: nat := 100000

  function Min(a: nat, b: nat): nat
  {
    if a <= b then a else b
  }

  // ---------------------------------------------------------------------
  // Placeholders: `re.findall(r"</(.*?)/>", expression)`

  /** The placeholder text for `name`. */
  function Tag(name: string): string
  {
    "</" + name + "/>"
  }

  /** What the lazy `.*?` can capture: no `/>` inside and no line break. */
  predicate Name(n: string)
  {
    !Contains(n, "/>") && '\n' !in n
  }

  /** Text without `<` cannot hold any part of a placeholder's opening. */
  predicate Plain(s: string)
  {
    '<' !in s
  }

  predicate AllPlain(xs: seq<string>)
  {
    forall k :: 0 <= k < |xs| ==> Plain(xs[k])
  }

  /**
   * The end of the shortest `.*?` after an opening `</`: the first `/>`,
   * provided no line break comes before it (`.` does not match `\n`).
   */
  function CloseAt(t: string): (r: Option<nat>)
    ensures r.Some? ==> r.value + 2 <= |t| && FirstOccurrence(t, "/>", r.value) && '\n' !in t[..r.value]
  {
    match Text.Find(t, "/>")
    case None => None
    case Some(j) => if '\n' in t[..j] then None else Some(j)
  }

  /**
   * `extract_placeholders`: scanning left to right, an opening `</` with a
   * closing `/>` later on the same line yields the text between them and the
   * scan resumes after the `/>`; any other position is skipped.
   */
  function Extract(s: string): (names: seq<string>)
    decreases |s|
  {
    if |s| < 2 then []
    else if s[..2] == "</" then
      match CloseAt(s[2..])
      case Some(j) => [s[2..2 + j]] + Extract(s[2 + j + 2..])
      case None => Extract(s[1..])
    else Extract(s[1..])
  }

  /** Every extracted name is as short as the lazy match makes it. */
  lemma {:induction false} ExtractYieldsNames(s: string)
    ensures forall k :: 0 <= k < |Extract(s)| ==> Name(Extract(s)[k])
    decreases |s|
  {
    if |s| >= 2 {
      if s[..2] == "</" && CloseAt(s[2..]).Some? {
        var t := s[2..];
        var j := CloseAt(t).value;
        FirstOccurrenceSplits(t, "/>", j);
        assert s[2..2 + j] == t[..j];
        ExtractYieldsNames(s[2 + j + 2..]);
        NamesCons(t[..j], Extract(s[2 + j + 2..]));
      } else {
        ExtractYieldsNames(s[1..]);
      }
    }
  }

  lemma NamesCons(n: string, rest: seq<string>)
    requires Name(n) && forall k :: 0 <= k < |rest| ==> Name(rest[k])
    ensures forall k :: 0 <= k < |[n] + rest| ==> Name(([n] + rest)[k])
  {
    forall k | 0 < k < |[n] + rest| ensures ([n] + rest)[k] == rest[k - 1] {
    }
  }

  /** Plain text in front of a template contributes no placeholder. */
  lemma {:induction false} ExtractSkipsPlain(x: string, b: string)
    requires Plain(x)
    ensures Extract(x + b) == Extract(b)
    decreases |x|
  {
    if x == [] {
      assert x + b == b;
    } else {
      var s := x + b;
      assert s[0] == x[0];
      assert s[1..] == x[1..] + b;
      assert Plain(x[1..]) by {
        forall k | 0 <= k < |x[1..]| ensures x[1..][k] != '<' {
          assert x[1..][k] == x[k + 1];
        }
      }
      ExtractSkipsPlain(x[1..], b);
      if |s| >= 2 {
        assert s[..2][0] == x[0];
      }
    }
  }

  /** A `/>`-free name followed by `/>` is closed exactly there. */
  lemma CloseAtName(n: string, rest: string)
    requires Name(n)
    ensures CloseAt(n + "/>" + rest) == Some(|n|)
  {
    var t := n + "/>" + rest;
    assert t[..|n|] == n;
    assert t[|n|..] == "/>" + rest;
    assert OccursAt(t, "/>", |n|);
    forall j | 0 <= j < |n| ensures !OccursAt(t, "/>", j) {
      if j + 2 <= |n| {
        OccursAtPrefix(t, "/>", |n|, j);
      } else {
        assert t[j + 1] == '/';
      }
    }
    FindFirst(t, "/>", |n|);
  }

  /** A placeholder at the front is extracted before everything after it. */
  lemma ExtractAtTag(n: string, rest: string)
    requires Name(n)
    ensures Extract(Tag(n) + rest) == [n] + Extract(rest)
  {
    var s := Tag(n) + rest;
    assert s[..2] == "</";
    assert s[2..] == n + "/>" + rest;
    CloseAtName(n, rest);
    assert s[2..2 + |n|] == n;
    assert s[2 + |n| + 2..] == rest;
  }

  /** The placeholder texts of `names`, in order. */
  function Tags(names: seq<string>): (r: seq<string>)
    ensures |r| == |names|
  {
    if names == [] then [] else [Tag(names[0])] + Tags(names[1..])
  }

  /** `pieces[0] + vals[0] + pieces[1] + ... + vals[n-1] + pieces[n]`. */
  function Interleave(pieces: seq<string>, vals: seq<string>): string
    requires |pieces| == |vals| + 1
  {
    if vals == [] then pieces[0] else pieces[0] + vals[0] + Interleave(pieces[1..], vals[1..])
  }

  /**
   * A template written as plain text around placeholders gives back exactly
   * its placeholder names, left to right.
   */
  lemma {:induction false} ExtractInterleave(pieces: seq<string>, names: seq<string>)
    requires |pieces| == |names| + 1 && AllPlain(pieces)
    requires forall k :: 0 <= k < |names| ==> Name(names[k])
    ensures Extract(Interleave(pieces, Tags(names))) == names
    decreases |names|
  {
    if names == [] {
      ExtractSkipsPlain(pieces[0], []);
      assert pieces[0] + [] == pieces[0];
    } else {
      var tags := Tags(names);
      assert tags[0] == Tag(names[0]) && tags[1..] == Tags(names[1..]);
      var rest := Interleave(pieces[1..], tags[1..]);
      assert Interleave(pieces, tags) == pieces[0] + (Tag(names[0]) + rest);
      ExtractSkipsPlain(pieces[0], Tag(names[0]) + rest);
      ExtractAtTag(names[0], rest);
      ExtractInterleave(pieces[1..], names[1..]);
      assert names == [names[0]] + names[1..];
    }
  }

  // ---------------------------------------------------------------------
  // Substitution: `re.sub(rf"</{re.escape(ph)}/>+", val, expr, count=1)`

  /** The length of the run of `>` that `/>+` absorbs greedily. */
  function LeadingGt(s: string): (n: nat)
    ensures n <= |s|
  {
    if s != [] && s[0] == '>' then 1 + LeadingGt(s[1..]) else 0
  }

  /** `m` closing angle brackets. */
  function Gts(m: nat): (r: string)
    ensures |r| == m
  {
    if m == 0 then [] else ">" + Gts(m - 1)
  }

  /**
   * The leftmost `</ph/>` together with any further `>` right after it is
   * replaced by `val`, taken literally.
   */
  function SubstituteOne(expr: string, ph: string, val: string): string
  {
    SubstitutePattern(expr, Tag(ph), val)
  }

  /** The leftmost `pat` with the `>` run after it replaced by `val`. */
  function SubstitutePattern(expr: string, pat: string, val: string): string
  {
    SpliceAt(expr, Text.Find(expr, pat), |pat|, val)
  }

  /** The splice at a search result, or `expr` itself when nothing was found. */
  function SpliceAt(expr: string, found: Option<nat>, t: nat, val: string): string
    requires found.Some? ==> found.value + t <= |expr|
  {
    match found
    case None => expr
    case Some(i) => Splice(expr, i, t, val)
  }

  /** `expr` with the `t` characters at `i` and the `>` run after them replaced by `val`. */
  function Splice(expr: string, i: nat, t: nat, val: string): string
    requires i + t <= |expr|
    decreases i
  {
    if i == 0 then val + AfterMatch(expr, t)
    else [expr[0]] + Splice(expr[1..], i - 1, t, val)
  }

  /** What is left of `s` once its first `t` characters and the `>` run after them are gone. */
  function AfterMatch(s: string, t: nat): string
    requires t <= |s|
  {
    s[t + LeadingGt(s[t..])..]
  }

  /** `for ph, val in zip(placeholders, combo): expr = re.sub(...)`. */
  function SubstituteAll(expr: string, phs: seq<string>, vals: seq<string>): string
    decreases |phs|
  {
    if phs == [] || vals == [] then expr
    else SubstituteAll(SubstituteOne(expr, phs[0], vals[0]), phs[1..], vals[1..])
  }

  /** Exactly the run of `>` after the placeholder is absorbed. */
  lemma {:induction false} LeadingGtRun(m: nat, b: string)
    requires b == [] || b[0] != '>'
    ensures LeadingGt(Gts(m) + b) == m
  {
    if m > 0 {
      assert Gts(m) + b == ">" + (Gts(m - 1) + b);
      LeadingGtRun(m - 1, b);
    }
  }

  /**
   * The first placeholder after plain text is replaced, with the `>` run
   * after it, and nothing else changes.
   */
  lemma SubstituteAtTag(x: string, n: string, m: nat, b: string, v: string)
    requires Plain(x) && (b == [] || b[0] != '>')
    ensures SubstituteOne(x + Tag(n) + Gts(m) + b, n, v) == x + v + b
  {
    var s := x + Tag(n) + Gts(m) + b;
    TagAfterPlain(x, n, Gts(m) + b);
    assert s == x + (Tag(n) + (Gts(m) + b));
    SpliceAtTag(x, Tag(n), m, b, v);
  }

  /** The first placeholder after plain text is where `find` stops. */
  lemma TagAfterPlain(x: string, n: string, rest: string)
    requires Plain(x)
    ensures Text.Find(x + (Tag(n) + rest), Tag(n)) == Some(|x|)
  {
    var s := x + (Tag(n) + rest);
    assert s[|x|..] == Tag(n) + rest;
    forall j | 0 <= j < |x| ensures !OccursAt(s, Tag(n), j) {
      assert s[j] == x[j];
    }
    FindFirst(s, Tag(n), |x|);
  }

  lemma SpliceAtTag(x: string, tag: string, m: nat, b: string, v: string)
    requires b == [] || b[0] != '>'
    ensures Splice(x + (tag + (Gts(m) + b)), |x|, |tag|, v) == x + v + b
  {
    SpliceBehind(x, tag + (Gts(m) + b), |tag|, v);
    AfterTag(tag, m, b);
  }

  /** Splicing right behind a prefix keeps the prefix and what follows the match. */
  lemma SpliceBehind(x: string, s: string, t: nat, v: string)
    requires t <= |s|
    ensures Splice(x + s, |x|, t, v) == x + v + AfterMatch(s, t)
  {
    SpliceShift(x, s, 0, t, v);
    assert Splice(s, 0, t, v) == v + AfterMatch(s, t);
  }

  /** Behind the placeholder, the `>` run is dropped and the rest is kept. */
  lemma AfterTag(tag: string, m: nat, b: string)
    requires b == [] || b[0] != '>'
    ensures AfterMatch(tag + (Gts(m) + b), |tag|) == b
  {
    var s := tag + (Gts(m) + b);
    assert s[|tag|..] == Gts(m) + b;
    LeadingGtRun(m, b);
    assert s[|tag| + m..] == b;
  }

  /** Plain text in front of an expression is left alone by a substitution step. */
  lemma SubstituteSkipsPlain(x: string, b: string, n: string, v: string)
    requires Plain(x)
    ensures SubstituteOne(x + b, n, v) == x + SubstituteOne(b, n, v)
  {
    assert Tag(n)[0] == '<';
    PatternSkipsPlain(x, b, Tag(n), v);
  }

  lemma PatternSkipsPlain(x: string, b: string, pat: string, v: string)
    requires pat != [] && pat[0] !in x
    ensures SubstitutePattern(x + b, pat, v) == x + SubstitutePattern(b, pat, v)
  {
    FindShift(x, b, pat);
    FoundFits(b, pat);
    SpliceAtShift(x, b, Text.Find(b, pat), |pat|, v);
  }

  lemma FoundFits(s: string, pat: string)
    ensures Text.Find(s, pat).Some? ==> Text.Find(s, pat).value + |pat| <= |s|
  {
  }

  /** A search result moved along by `|x|`. */
  function Shifted(r: Option<nat>, d: nat): Option<nat>
  {
    match r
    case None => None
    case Some(i) => Some(d + i)
  }

  lemma SpliceAtShift(x: string, b: string, r: Option<nat>, t: nat, v: string)
    requires r.Some? ==> r.value + t <= |b|
    ensures SpliceAt(x + b, Shifted(r, |x|), t, v) == x + SpliceAt(b, r, t, v)
  {
    if r.Some? {
      SpliceShift(x, b, r.value, t, v);
    }
  }

  /** Splicing behind a prefix is splicing the rest. */
  lemma {:induction false} SpliceShift(x: string, b: string, i: nat, t: nat, v: string)
    requires i + t <= |b|
    ensures Splice(x + b, |x| + i, t, v) == x + Splice(b, i, t, v)
    decreases |x|
  {
    if x == [] {
      assert x + b == b;
    } else {
      assert (x + b)[1..] == x[1..] + b;
      SpliceShift(x[1..], b, i, t, v);
      assert x == [x[0]] + x[1..];
    }
  }

  lemma {:induction false} SubstituteAllSkipsPlain(x: string, b: string, phs: seq<string>, vals: seq<string>)
    requires Plain(x)
    ensures SubstituteAll(x + b, phs, vals) == x + SubstituteAll(b, phs, vals)
    decreases |phs|
  {
    if phs != [] && vals != [] {
      SubstituteSkipsPlain(x, b, phs[0], vals[0]);
      SubstituteAllSkipsPlain(x, SubstituteOne(b, phs[0], vals[0]), phs[1..], vals[1..]);
    }
  }

  /** No piece after the first starts with `>`, which the `/>+` would swallow. */
  predicate NoLeadingGt(pieces: seq<string>)
  {
    forall k :: 1 <= k < |pieces| ==> pieces[k] == [] || pieces[k][0] != '>'
  }

  lemma InterleaveHead(pieces: seq<string>, names: seq<string>)
    requires |pieces| == |names| + 1 && (pieces[0] == [] || pieces[0][0] != '>')
    ensures Interleave(pieces, Tags(names)) == [] || Interleave(pieces, Tags(names))[0] != '>'
  {
    if names != [] {
      var tags := Tags(names);
      var rest := Interleave(pieces[1..], tags[1..]);
      assert tags[0] == Tag(names[0]);
      HeadOfConcat(pieces[0], Tag(names[0]) + rest);
      HeadOfConcat(Tag(names[0]), rest);
    }
  }

  lemma HeadOfConcat(a: string, b: string)
    ensures a != [] ==> (a + b)[0] == a[0]
    ensures a == [] ==> a + b == b
  {
  }

  /**
   * Substituting the values for the placeholders of a template written as
   * plain text around placeholders puts each value in its placeholder's place.
   */
  lemma {:induction false} SubstituteInterleave(pieces: seq<string>, names: seq<string>, vals: seq<string>)
    requires |pieces| == |names| + 1 && |vals| == |names|
    requires AllPlain(pieces) && AllPlain(vals) && NoLeadingGt(pieces)
    ensures SubstituteAll(Interleave(pieces, Tags(names)), names, vals) == Interleave(pieces, vals)
    decreases |names|
  {
    if names != [] {
      var tags := Tags(names);
      assert tags[0] == Tag(names[0]) && tags[1..] == Tags(names[1..]);
      var rest := Interleave(pieces[1..], tags[1..]);
      InterleaveHead(pieces[1..], names[1..]);
      assert Interleave(pieces, tags) == pieces[0] + Tag(names[0]) + Gts(0) + rest;
      SubstituteAtTag(pieces[0], names[0], 0, rest, vals[0]);
      assert Plain(pieces[0] + vals[0]) by {
        assert Plain(pieces[0]) && Plain(vals[0]);
      }
      SubstituteAllSkipsPlain(pieces[0] + vals[0], rest, names[1..], vals[1..]);
      SubstituteInterleave(pieces[1..], names[1..], vals[1..]);
    }
  }

  // ---------------------------------------------------------------------
  // The Cartesian product, in `itertools.product` order

  /** `c + [v]` for every combination `c` and then every `v`, in that order. */
  function Extend(combos: seq<seq<string>>, vs: seq<string>): (r: seq<seq<string>>)
    ensures |r| == |combos| * |vs|
  {
    if combos == [] then []
    else
      var rest := Extend(combos[1..], vs);
      assert |combos| * |vs| == |vs| + (|combos| - 1) * |vs|;
      seq(|vs|, k requires 0 <= k < |vs| => combos[0] + [vs[k]]) + rest
  }

  /** `list(product(*lists))`. */
  function Product(lists: seq<seq<string>>): seq<seq<string>>
  {
    if lists == [] then [[]]
    else Extend(Product(lists[..|lists| - 1]), lists[|lists| - 1])
  }

  /** The product of the list lengths. */
  function Total(lists: seq<seq<string>>): nat
  {
    if lists == [] then 1 else Total(lists[..|lists| - 1]) * |lists[|lists| - 1]|
  }

  /** A combination picks one entry from each list. */
  predicate IsCombination(c: seq<string>, lists: seq<seq<string>>)
  {
    |c| == |lists| && forall k :: 0 <= k < |c| ==> c[k] in lists[k]
  }

  lemma {:induction false} ProductLength(lists: seq<seq<string>>)
    ensures |Product(lists)| == Total(lists)
  {
    if lists != [] {
      ProductLength(lists[..|lists| - 1]);
    }
  }

  /** The product is empty exactly when one of the lists is. */
  lemma {:induction false} TotalZero(lists: seq<seq<string>>)
    ensures Total(lists) == 0 <==> exists k :: 0 <= k < |lists| && lists[k] == []
  {
    if lists != [] {
      var front := lists[..|lists| - 1];
      TotalZero(front);
      if exists k :: 0 <= k < |front| && front[k] == [] {
        var k :| 0 <= k < |front| && front[k] == [];
        assert lists[k] == [];
      }
      if exists k :: 0 <= k < |lists| && lists[k] == [] {
        var k :| 0 <= k < |lists| && lists[k] == [];
        if k < |front| {
          assert front[k] == [];
        }
      }
    }
  }

  /** Position `a * |vs| + b` of the extension is combination `a` followed by `vs[b]`. */
  lemma {:induction false} ExtendAt(combos: seq<seq<string>>, vs: seq<string>, a: nat, b: nat)
    requires a < |combos| && b < |vs|
    ensures a * |vs| + b < |Extend(combos, vs)|
    ensures Extend(combos, vs)[a * |vs| + b] == combos[a] + [vs[b]]
    decreases a
  {
    var head := seq(|vs|, k requires 0 <= k < |vs| => combos[0] + [vs[k]]);
    assert Extend(combos, vs) == head + Extend(combos[1..], vs);
    if a > 0 {
      ExtendAt(combos[1..], vs, a - 1, b);
      assert a * |vs| + b == |vs| + ((a - 1) * |vs| + b);
    }
  }

  lemma {:induction false} ExtendOf(combos: seq<seq<string>>, vs: seq<string>, i: nat)
    requires i < |Extend(combos, vs)|
    ensures exists a, b :: 0 <= a < |combos| && 0 <= b < |vs| && Extend(combos, vs)[i] == combos[a] + [vs[b]]
    decreases |combos|
  {
    var head := seq(|vs|, k requires 0 <= k < |vs| => combos[0] + [vs[k]]);
    assert Extend(combos, vs) == head + Extend(combos[1..], vs);
    if i < |vs| {
      assert Extend(combos, vs)[i] == combos[0] + [vs[i]];
    } else {
      ExtendOf(combos[1..], vs, i - |vs|);
      var a, b :| 0 <= a < |combos[1..]| && 0 <= b < |vs| && Extend(combos[1..], vs)[i - |vs|] == combos[1..][a] + [vs[b]];
      assert Extend(combos, vs)[i] == combos[a + 1] + [vs[b]];
    }
  }

  /**
   * The last list varies fastest: entry `a * |last| + b` of the product is
   * entry `a` of the product of the other lists followed by `last[b]`.
   */
  lemma ProductOrder(lists: seq<seq<string>>, a: nat, b: nat)
    requires lists != []
    requires a < |Product(lists[..|lists| - 1])| && b < |lists[|lists| - 1]|
    ensures a * |lists[|lists| - 1]| + b < |Product(lists)|
    ensures Product(lists)[a * |lists[|lists| - 1]| + b]
         == Product(lists[..|lists| - 1])[a] + [lists[|lists| - 1][b]]
  {
    ExtendAt(Product(lists[..|lists| - 1]), lists[|lists| - 1], a, b);
  }

  /** The product holds exactly the combinations of the lists. */
  lemma ProductMembers(lists: seq<seq<string>>, c: seq<string>)
    ensures c in Product(lists) <==> IsCombination(c, lists)
  {
    if c in Product(lists) {
      ProductSound(lists, c);
    }
    if IsCombination(c, lists) {
      ProductComplete(lists, c);
    }
  }

  lemma {:induction false} ProductSound(lists: seq<seq<string>>, c: seq<string>)
    requires c in Product(lists)
    ensures IsCombination(c, lists)
  {
    if lists != [] {
      var front := lists[..|lists| - 1];
      var last := lists[|lists| - 1];
      var p := Product(front);
      var i :| 0 <= i < |Product(lists)| && Product(lists)[i] == c;
      ExtendOf(p, last, i);
      var a, b :| 0 <= a < |p| && 0 <= b < |last| && c == p[a] + [last[b]];
      ProductSound(front, p[a]);
      CombinationSnoc(p[a], last[b], lists);
    }
  }

  lemma {:induction false} ProductComplete(lists: seq<seq<string>>, c: seq<string>)
    requires IsCombination(c, lists)
    ensures c in Product(lists)
  {
    if lists == [] {
      assert c == [];
    } else {
      var front := lists[..|lists| - 1];
      var last := lists[|lists| - 1];
      var p := Product(front);
      var cf := c[..|c| - 1];
      CombinationSnoc(cf, c[|c| - 1], lists);
      assert c == cf + [c[|c| - 1]];
      ProductComplete(front, cf);
      ExtendHas(p, last, cf, c[|c| - 1]);
    }
  }

  /** Extending a combination in `combos` by a value in `vs` gives a member of `Extend(combos, vs)`. */
  lemma ExtendHas(combos: seq<seq<string>>, vs: seq<string>, cf: seq<string>, v: string)
    requires cf in combos && v in vs
    ensures cf + [v] in Extend(combos, vs)
  {
    var a :| 0 <= a < |combos| && combos[a] == cf;
    var b :| 0 <= b < |vs| && vs[b] == v;
    ExtendAt(combos, vs, a, b);
  }

  lemma CombinationSnoc(cf: seq<string>, v: string, lists: seq<seq<string>>)
    requires lists != []
    ensures IsCombination(cf + [v], lists)
        <==> IsCombination(cf, lists[..|lists| - 1]) && v in lists[|lists| - 1]
  {
    var c := cf + [v];
    if |c| == |lists| {
      forall k | 0 <= k < |cf| ensures c[k] == cf[k] && lists[k] == lists[..|lists| - 1][k] {
      }
    }
  }

  // ---------------------------------------------------------------------
  // The two type maps

  /** `.strip()` on both columns of each operator row `(type, name)`. */
  function Stripped(rows: seq<(string, string)>): (r: seq<(string, string)>)
    ensures |r| == |rows|
    ensures forall i :: 0 <= i < |rows| ==> r[i] == (Strip(rows[i].0), Strip(rows[i].1))
  {
    seq(|rows|, i requires 0 <= i < |rows| => (Strip(rows[i].0), Strip(rows[i].1)))
  }

  /** `load_operator_type_map`: stripped names grouped under stripped types, in file order. */
  method LoadOperatorTypeMap(rows: seq<(string, string)>) returns (ops: ODict<string, seq<string>>)
    ensures IsGrouping(Stripped(rows), ops)
  {
    ops := GroupInOrder(Stripped(rows));
  }

  /**
   * `re.sub(r"^</|/>$", "", raw).strip()`: a leading `</` goes, and so does a
   * `/>` at the very end or just before a final line break (`$` matches
   * there too), as long as it does not overlap the leading `</`.
   */
  function CleanKey(raw: string): string
  {
    var lead := if |raw| >= 2 && raw[..2] == "</" then 2 else 0;
    var body :=
      if |raw| >= lead + 2 && raw[|raw| - 2..] == "/>" then raw[lead..|raw| - 2]
      else if |raw| >= lead + 3 && raw[|raw| - 1] == '\n' && raw[|raw| - 3..|raw| - 1] == "/>"
      then raw[lead..|raw| - 3] + "\n"
      else raw[lead..];
    Strip(body)
  }

  /** A key written as a placeholder cleans to its stripped inner text. */
  lemma CleanKeyOfTag(x: string)
    ensures CleanKey(Tag(x)) == Strip(x)
  {
    var raw := Tag(x);
    assert raw[..2] == "</";
    assert raw[|raw| - 2..] == "/>";
    assert raw[2..|raw| - 2] == x;
  }

  /** A key with neither marker is only stripped. */
  lemma CleanKeyUnmarked(raw: string)
    requires |raw| < 2 || raw[..2] != "</"
    requires |raw| < 2 || raw[|raw| - 2..] != "/>"
    requires |raw| < 3 || raw[|raw| - 1] != '\n' || raw[|raw| - 3..|raw| - 1] != "/>"
    ensures CleanKey(raw) == Strip(raw)
  {
    assert raw[0..] == raw;
  }

  /** The field-map entries with their keys cleaned, in file order. */
  function Cleaned(entries: seq<(string, seq<string>)>): (r: seq<(string, seq<string>)>)
    ensures |r| == |entries|
    ensures forall i :: 0 <= i < |entries| ==> r[i] == (CleanKey(entries[i].0), entries[i].1)
  {
    seq(|entries|, i requires 0 <= i < |entries| => (CleanKey(entries[i].0), entries[i].1))
  }

  /** `handled_field_map[clean_type] = ids` over the entries in file order. */
  function FieldTypeMap(entries: seq<(string, seq<string>)>): ODict<string, seq<string>>
  {
    FromPairs(Cleaned(entries))
  }

  /** Entry `i` is the last one whose key cleans to `k`. */
  predicate LastCleaned(entries: seq<(string, seq<string>)>, k: string, i: int)
  {
    0 <= i < |entries| && CleanKey(entries[i].0) == k
    && forall j :: i < j < |entries| ==> CleanKey(entries[j].0) != k
  }

  /**
   * A cleaned key maps to the ids of the last entry that cleans to it, and
   * is absent exactly when no entry does.
   */
  lemma FieldTypeMapLookup(entries: seq<(string, seq<string>)>, k: string)
    ensures Grouping.Find(FieldTypeMap(entries), k).None? <==> forall i :: 0 <= i < |entries| ==> CleanKey(entries[i].0) != k
    ensures Grouping.Find(FieldTypeMap(entries), k).Some? ==>
      exists i :: LastCleaned(entries, k, i) && entries[i].1 == Grouping.Find(FieldTypeMap(entries), k).value
  {
    var c := Cleaned(entries);
    FromPairsLookup(c, k);
    var r := Grouping.Find(FromPairs(c), k);
    assert LastValue(c, k, r);
    if r.Some? {
      var i :| LastWith(c, k, i) && c[i].1 == r.value;
      assert LastCleaned(entries, k, i);
    }
  }

  /** `load_field_type_map`. */
  method LoadFieldTypeMap(entries: seq<(string, seq<string>)>) returns (fields: ODict<string, seq<string>>)
    ensures fields == FieldTypeMap(entries)
  {
    var c := Cleaned(entries);
    fields := Empty();
    for n := 0 to |entries|
      invariant fields == FromPairs(c[..n])
    {
      var (raw, ids) := entries[n];
      assert c[..n + 1][..n] == c[..n] && c[n] == (CleanKey(raw), ids);
      fields := Assign(fields, CleanKey(raw), ids);
    }
    assert c[..|entries|] == c;
  }

  // ---------------------------------------------------------------------
  // Resolving placeholders

  /** One placeholder's replacement list: an operator type first, then a field type. */
  function Replacements(ph: string, ops: seq<(string, string)>, fields: ODict<string, seq<string>>): (r: Option<seq<string>>)
    ensures r.Some? <==> ph in KeysOf(ops) || ph in Keys(fields)
    ensures ph in KeysOf(ops) ==> r == Some(ValuesOf(ops, ph))
    ensures ph !in KeysOf(ops) ==> r == Grouping.Find(fields, ph)
  {
    if ph in KeysOf(ops) then Some(ValuesOf(ops, ph)) else Grouping.Find(fields, ph)
  }

  /** The replacement lists of all placeholders, or `None` if one is in neither map. */
  function ResolveAll(phs: seq<string>, ops: seq<(string, string)>, fields: ODict<string, seq<string>>): (r: Option<seq<seq<string>>>)
    ensures r.None? <==> exists k :: 0 <= k < |phs| && Replacements(phs[k], ops, fields).None?
    ensures r.Some? ==>
      |r.value| == |phs| && forall k :: 0 <= k < |phs| ==> Replacements(phs[k], ops, fields) == Some(r.value[k])
  {
    if phs == [] then Some([])
    else
      var front := phs[..|phs| - 1];
      assert forall k :: 0 <= k < |front| ==> front[k] == phs[k];
      match ResolveAll(front, ops, fields)
      case None => None
      case Some(lists) =>
        match Replacements(phs[|phs| - 1], ops, fields)
        case None => None
        case Some(l) => Some(lists + [l])
  }

  /** The loop over the placeholders, returning early on an unknown one. */
  method ReplacementLists(phs: seq<string>, ghost opRows: seq<(string, string)>, ops: ODict<string, seq<string>>,
                          fields: ODict<string, seq<string>>)
    returns (r: Option<seq<seq<string>>>)
    requires IsGrouping(opRows, ops)
    ensures r == ResolveAll(phs, opRows, fields)
  {
    var lists := [];
    for n := 0 to |phs|
      invariant ResolveAll(phs[..n], opRows, fields) == Some(lists)
    {
      var ph := phs[n];
      assert phs[..n + 1][..n] == phs[..n] && phs[..n + 1][n] == ph;
      GroupingFind(opRows, ops, ph);
      var op := Grouping.Find(ops, ph);
      if op.Some? {
        lists := lists + [op.value];
      } else {
        var field := Grouping.Find(fields, ph);
        if field.None? {
          assert phs[n] == ph;
          return None;
        }
        lists := lists + [field.value];
      }
    }
    assert phs[..|phs|] == phs;
    return Some(lists);
  }

  // ---------------------------------------------------------------------
  // Generation

  /** One entry of `GeneratedAlphas`: the expression and `fields_or_ops_used`. */
  datatype Generated = Generated(alpha: string, used: seq<string>)

  /** `total_combinations`, computed by the multiplying loop. */
  method TotalCombinations(lists: seq<seq<string>>) returns (total: nat)
    ensures total == Total(lists) && total == |Product(lists)|
  {
    total := 1;
    for n := 0 to |lists|
      invariant total == Total(lists[..n])
    {
      assert lists[..n + 1][..n] == lists[..n];
      total := total * |lists[n]|;
    }
    assert lists[..|lists|] == lists;
    ProductLength(lists);
  }

  lemma SubstituteAllStep(expr: string, phs: seq<string>, vals: seq<string>, i: nat)
    requires i < |phs| && i < |vals|
    ensures SubstituteAll(expr, phs[i..], vals[i..])
         == SubstituteAll(SubstituteOne(expr, phs[i], vals[i]), phs[i + 1..], vals[i + 1..])
  {
    assert phs[i..][1..] == phs[i + 1..] && vals[i..][1..] == vals[i + 1..];
  }

  /** The inner loop rebinding `expr` once per placeholder. */
  method Substitute(template: string, phs: seq<string>, combo: seq<string>) returns (expr: string)
    ensures expr == SubstituteAll(template, phs, combo)
  {
    expr := template;
    var i := 0;
    while i < |phs| && i < |combo|
      invariant i <= |phs| && i <= |combo|
      invariant SubstituteAll(expr, phs[i..], combo[i..]) == SubstituteAll(template, phs, combo)
    {
      SubstituteAllStep(expr, phs, combo, i);
      expr := SubstituteOne(expr, phs[i], combo[i]);
      i := i + 1;
    }
  }

  /** The expansion of a template whose placeholders resolved to `lists`. */
  function Generation(template: string, phs: seq<string>, lists: seq<seq<string>>): (r: seq<Generated>)
  {
    var combos := Product(lists);
    var n := Min(|combos|, MAX_ALPHAS);
    seq(n, k requires 0 <= k < n => Generated(SubstituteAll(template, phs, combos[k]), combos[k]))
  }

  /**
   * The product loop with its `count` cap: the first `MAX_ALPHAS`
   * combinations in product order, each with its instantiated expression.
   */
  method ExpandCombinations(template: string, phs: seq<string>, lists: seq<seq<string>>) returns (alphas: seq<Generated>)
    ensures |Product(lists)| == Total(lists)
    ensures |alphas| == Min(Total(lists), MAX_ALPHAS)
    ensures forall k :: 0 <= k < |alphas| ==>
      alphas[k] == Generated(SubstituteAll(template, phs, Product(lists)[k]), Product(lists)[k])
  {
    var combos := Product(lists);
    ProductLength(lists);
    alphas := [];
    var count := 0;
    var i := 0;
    while i < |combos|
      invariant i <= |combos| && count == i == |alphas| && i < MAX_ALPHAS
      invariant forall k :: 0 <= k < i ==> alphas[k] == Generated(SubstituteAll(template, phs, combos[k]), combos[k])
    {
      var expr := Substitute(template, phs, combos[i]);
      alphas := alphas + [Generated(expr, combos[i])];
      count := count + 1;
      i := i + 1;
      if count >= MAX_ALPHAS {
        break;
      }
    }
  }

  /**
   * `generate_alphas_from_template` on the parsed files: `None` when a
   * placeholder is in neither map, the template itself when it has none.
   */
  function Expand(template: string, opRows: seq<(string, string)>, fieldEntries: seq<(string, seq<string>)>): Option<seq<Generated>>
  {
    var phs := Extract(template);
    if phs == [] then Some([Generated(template, [])])
    else
      match ResolveAll(phs, Stripped(opRows), FieldTypeMap(fieldEntries))
      case None => None
      case Some(lists) => Some(Generation(template, phs, lists))
  }

  method GenerateAlphasFromTemplate(template: string, opRows: seq<(string, string)>, fieldEntries: seq<(string, seq<string>)>)
    returns (out: Option<seq<Generated>>)
    ensures out == Expand(template, opRows, fieldEntries)
  {
    var ops := LoadOperatorTypeMap(opRows);
    var fields := LoadFieldTypeMap(fieldEntries);
    var phs := Extract(template);
    if phs == [] {
      return Some([Generated(template, [])]);
    }
    var lists := ReplacementLists(phs, Stripped(opRows), ops, fields);
    if lists.None? {
      return None;
    }
    var total := TotalCombinations(lists.value);
    var alphas := ExpandCombinations(template, phs, lists.value);
    assert alphas == Generation(template, phs, lists.value);
    return Some(alphas);
  }

  // ---------------------------------------------------------------------
  // What an expansion holds

  /** A template without `<` is its own single alpha. */
  lemma PlainTemplateIsItsOwnAlpha(template: string, opRows: seq<(string, string)>, fieldEntries: seq<(string, seq<string>)>)
    requires Plain(template)
    ensures Expand(template, opRows, fieldEntries) == Some([Generated(template, [])])
  {
    ExtractSkipsPlain(template, []);
    assert template + [] == template;
  }

  /**
   * For a template made of plain text around placeholders, whose replacement
   * values contain no `<`: the expansion fails exactly when a placeholder is
   * in neither map; otherwise it holds min(product of the list lengths,
   * `MAX_ALPHAS`) alphas, each recording a combination of the lists and
   * equal to the template with that combination put in place of the
   * placeholders.
   */
  lemma ExpandTemplate(pieces: seq<string>, names: seq<string>, opRows: seq<(string, string)>,
                       fieldEntries: seq<(string, seq<string>)>)
    requires |pieces| == |names| + 1 && names != []
    requires AllPlain(pieces) && NoLeadingGt(pieces)
    requires forall k :: 0 <= k < |names| ==> Name(names[k])
    requires ValuesPlain(names, Stripped(opRows), FieldTypeMap(fieldEntries))
    ensures var template := Interleave(pieces, Tags(names));
      var lists := ResolveAll(names, Stripped(opRows), FieldTypeMap(fieldEntries));
      var out := Expand(template, opRows, fieldEntries);
      && (out.None? <==> exists k :: 0 <= k < |names| && Replacements(names[k], Stripped(opRows), FieldTypeMap(fieldEntries)).None?)
      && (out.Some? ==>
            && |out.value| == Min(Total(lists.value), MAX_ALPHAS)
            && forall k :: 0 <= k < |out.value| ==>
                 IsCombination(out.value[k].used, lists.value)
                 && out.value[k].alpha == Interleave(pieces, out.value[k].used))
  {
    var template := Interleave(pieces, Tags(names));
    ExtractInterleave(pieces, names);
    var lists := ResolveAll(names, Stripped(opRows), FieldTypeMap(fieldEntries));
    if lists.Some? {
      var out := Generation(template, names, lists.value);
      ProductLength(lists.value);
      forall k | 0 <= k < |out|
        ensures IsCombination(out[k].used, lists.value) && out[k].alpha == Interleave(pieces, out[k].used)
      {
        var c := Product(lists.value)[k];
        assert out[k] == Generated(SubstituteAll(template, names, c), c);
        ProductMembers(lists.value, c);
        CombinationPlain(c, names, lists.value, opRows, fieldEntries);
        SubstituteInterleave(pieces, names, c);
      }
    }
  }

  /** Every replacement value offered for `names` is free of `<`. */
  predicate ValuesPlain(names: seq<string>, ops: seq<(string, string)>, fields: ODict<string, seq<string>>)
  {
    forall k :: 0 <= k < |names| && Replacements(names[k], ops, fields).Some? ==>
      AllPlain(Replacements(names[k], ops, fields).value)
  }

  lemma CombinationPlain(c: seq<string>, names: seq<string>, lists: seq<seq<string>>,
                         opRows: seq<(string, string)>, fieldEntries: seq<(string, seq<string>)>)
    requires ResolveAll(names, Stripped(opRows), FieldTypeMap(fieldEntries)) == Some(lists)
    requires IsCombination(c, lists)
    requires ValuesPlain(names, Stripped(opRows), FieldTypeMap(fieldEntries))
    ensures |c| == |names| && AllPlain(c)
  {
    forall k | 0 <= k < |c| ensures Plain(c[k]) {
      assert c[k] in lists[k];
      assert Replacements(names[k], Stripped(opRows), FieldTypeMap(fieldEntries)) == Some(lists[k]);
    }
  }
}

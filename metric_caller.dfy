/**
 * The task orchestrator of `metric_caller.py`, sequentialised.
 *
 * A task file holds one line per scoring task, `name(key, key, ...) weight`.
 * Each line is checked in a fixed order (syntax, registered name, arity,
 * argument keys present); accepted lines become tasks, every other non-blank
 * line becomes one warning. Each task runs a scorer in a worker that turns a
 * failure into score 0.0; the results, arriving in any order, are folded
 * into a score map, a latency map and a weighted average, the net score.
 */
module MetricCaller {
  import opened Wrappers
  import opened Text
  import opened Sums

  // ------------------------------------------------------------ data model

  /** A value in the argument store: text, a number or the log queue handle. */
  datatype Arg = StrArg(s: string) | NumArg(n: real) | LogQueueArg

  /** What a scorer returns as its score: a number, a dictionary of named
      numbers, or any other Python object (only its truth value matters). */
  datatype Score = Scalar(value: real) | Composite(entries: seq<(string, real)>) | Other(truthy: bool)

  /** An accepted line: the scorer's name, its argument keys, the values
      resolved for them and the weight, with the 1-based line number. */
  datatype Task = Task(lineNo: nat, name: string, keys: seq<string>, args: seq<Arg>, weight: real)

  /** The warnings logged for a rejected line. */
  datatype Warning =
    | Unparsable(lineNo: nat, line: string)
    | UnknownFunction(lineNo: nat, name: string)
    | ArityMismatch(lineNo: nat, name: string, expected: nat, provided: nat)
    | MissingKeys(lineNo: nat, missing: seq<string>)

  /** The verdict on one line of the task file. `BadWeight` is the
      `ValueError` of `float()` on the weight, which nothing catches. */
  datatype LineVerdict =
    | Blank
    | Rejected(warning: Warning)
    | Accepted(task: Task)
    | BadWeight(lineNo: nat, text: string)

  /** The three groups of the line pattern `(\w+)\((.*)\)\s*([\d.]+)`. */
  datatype LineMatch = LineMatch(name: string, keys: string, weight: string)

  /** The errors that end a run: an unparsable weight while reading the
      file, or the exception the aggregation raises for a score it cannot
      weight (an `AttributeError` at `score.values()` for the size scorer,
      a `TypeError` at `score * weight` or in `sum` otherwise). */
  datatype RunError = InvalidWeight(lineNo: nat, text: string) | ScoreError(name: string)

  // ------------------------------------------------------- the line pattern

  datatype CharClass = Word | Space | WeightChar

  /** `\w`, `\s` and `[\d.]` (letters and digits taken as ASCII). */
  predicate InClass(c: char, cls: CharClass)
  {
    match cls
    case Word => 'a' <= c <= 'z' || 'A' <= c <= 'Z' || IsDigit(c) || c == '_'
    case Space => c in Whitespace
    case WeightChar => IsDigit(c) || c == '.'
  }

  /** The end of the longest run of `cls` characters starting at `i`. */
  function RunEnd(s: string, i: nat, cls: CharClass): (j: nat)
    requires i <= |s|
    ensures i <= j <= |s|
    decreases |s| - i
  {
    if i < |s| && InClass(s[i], cls) then RunEnd(s, i + 1, cls) else i
  }

  /** The run is made of `cls` characters and cannot be extended. */
  lemma {:induction false} RunEndFacts(s: string, i: nat, cls: CharClass)
    requires i <= |s|
    ensures var j := RunEnd(s, i, cls);
      (forall k :: i <= k < j ==> InClass(s[k], cls)) && (j == |s| || !InClass(s[j], cls))
    decreases |s| - i
  {
    if i < |s| && InClass(s[i], cls) {
      RunEndFacts(s, i + 1, cls);
    }
  }

  /** A run that stops at `j` ends at `j`. */
  lemma {:induction false} RunEndAt(s: string, i: nat, j: nat, cls: CharClass)
    requires i <= j <= |s|
    requires forall k :: i <= k < j ==> InClass(s[k], cls)
    requires j == |s| || !InClass(s[j], cls)
    ensures RunEnd(s, i, cls) == j
    decreases j - i
  {
    if i < j {
      RunEndAt(s, i + 1, j, cls);
    }
  }

  /** Whether the literal `)` of the pattern can sit at `p`: it is followed
      by optional whitespace and then a digit or a point. */
  predicate ClosesAt(s: string, p: nat)
  {
    p < |s| && s[p] == ')' && RunEnd(s, p + 1, Space) < |s|
    && InClass(s[RunEnd(s, p + 1, Space)], WeightChar)
  }

  /** The last position in `[lo, hi)` where the pattern can close. */
  function LastClose(s: string, lo: nat, hi: nat): (p: Option<nat>)
    requires hi <= |s|
    ensures p.Some? ==> lo <= p.value < hi && ClosesAt(s, p.value)
    decreases hi
  {
    if hi <= lo then None
    else if ClosesAt(s, hi - 1) then Some(hi - 1)
    else LastClose(s, lo, hi - 1)
  }

  /** No position after the one found, and none at all when nothing is
      found, closes the pattern. */
  lemma {:induction false} LastCloseFacts(s: string, lo: nat, hi: nat, q: nat)
    requires hi <= |s| && lo <= q < hi && ClosesAt(s, q)
    ensures LastClose(s, lo, hi).Some? && LastClose(s, lo, hi).value >= q
    decreases hi
  {
    if !ClosesAt(s, hi - 1) {
      LastCloseFacts(s, lo, hi - 1, q);
    }
  }

  /** The first newline at or after `i`, or `|s|`: where `.*` must stop. */
  function LineEnd(s: string, i: nat): (e: nat)
    requires i <= |s|
    ensures i <= e <= |s|
    decreases |s| - i
  {
    if i == |s| || s[i] == '\n' then i else LineEnd(s, i + 1)
  }

  lemma {:induction false} LineEndFacts(s: string, i: nat)
    requires i <= |s|
    ensures forall k :: i <= k < LineEnd(s, i) ==> s[k] != '\n'
    ensures LineEnd(s, i) < |s| ==> s[LineEnd(s, i)] == '\n'
    decreases |s| - i
  {
    if i < |s| && s[i] != '\n' {
      LineEndFacts(s, i + 1);
    }
  }

  /** Where the pattern's parts end in a match: the name ends at `n` (the
      `(`), the key text at `p` (the `)`), the whitespace at `w` and the
      weight at `v`. */
  datatype Cuts = Cuts(n: nat, p: nat, w: nat, v: nat)

  function MatchCuts(s: string): (c: Option<Cuts>)
    ensures c.Some? ==> 0 < c.value.n < c.value.p < c.value.w < c.value.v <= |s|
  {
    var n := RunEnd(s, 0, Word);
    if n == 0 || n == |s| || s[n] != '(' then None
    else
      match LastClose(s, n + 1, LineEnd(s, n + 1))
      case None => None
      case Some(p) =>
        var w := RunEnd(s, p + 1, Space);
        assert w < |s| && InClass(s[w], WeightChar);
        Some(Cuts(n, p, w, RunEnd(s, w, WeightChar)))
  }

  /** `re.match` of `(\w+)\((.*)\)\s*([\d.]+)` at the start of `s`: the name
      is the whole leading word, the greedy `.*` (which stops at a newline)
      takes the last `)` that is followed by a weight, and the weight is the
      whole run of digits and points there. */
  function MatchTaskLine(s: string): Option<LineMatch>
  {
    match MatchCuts(s)
    case None => None
    case Some(c) => Some(Groups(s, c))
  }

  /** The three groups of a match cut at `c`. */
  function Groups(s: string, c: Cuts): LineMatch
    requires c.n < c.p <= c.w <= c.v <= |s|
  {
    LineMatch(s[..c.n], s[c.n + 1..c.p], s[c.w..c.v])
  }

  predicate AllIn(s: string, cls: CharClass)
  {
    forall k :: 0 <= k < |s| ==> InClass(s[k], cls)
  }

  /** `s` reads as `name(keys)` + whitespace + weight + rest, with each
      part drawn from the characters the pattern allows there. */
  predicate Decomposes(s: string, m: LineMatch, ws: string, rest: string)
  {
    && s == m.name + "(" + m.keys + ")" + ws + m.weight + rest
    && |m.name| > 0 && AllIn(m.name, Word)
    && '\n' !in m.keys
    && AllIn(ws, Space)
    && |m.weight| > 0 && AllIn(m.weight, WeightChar)
  }

  /** Every match is a decomposition of the line. */
  lemma {:induction false} MatchSound(s: string) returns (ws: string, rest: string)
    requires MatchTaskLine(s).Some?
    ensures Decomposes(s, MatchTaskLine(s).value, ws, rest)
    ensures rest == s[MatchCuts(s).value.v..]
  {
    var c := MatchCuts(s).value;
    MatchValue(s);
    CutsDecompose(s, c);
    ws := s[c.p + 1..c.w];
    rest := s[c.v..];
  }

  lemma {:induction false} CutsDecompose(s: string, c: Cuts)
    requires MatchCuts(s) == Some(c)
    ensures Decomposes(s, Groups(s, c), s[c.p + 1..c.w], s[c.v..])
  {
    CutsAre(s, c);
    CutsHoldAt(s, c);
    CutDecomposes(s, c);
  }

  lemma {:induction false} MatchValue(s: string)
    requires MatchCuts(s).Some?
    ensures var c := MatchCuts(s).value;
      MatchTaskLine(s) == Some(Groups(s, c))
  {
  }

  /** How the cuts of a match are found. */
  predicate CutsFound(s: string, c: Cuts)
  {
    && 0 < c.n < c.p < c.w < c.v <= |s|
    && c.n == RunEnd(s, 0, Word) && s[c.n] == '('
    && LastClose(s, c.n + 1, LineEnd(s, c.n + 1)) == Some(c.p)
    && c.w == RunEnd(s, c.p + 1, Space)
    && c.v == RunEnd(s, c.w, WeightChar)
  }

  /** What the cuts of a match delimit. */
  predicate CutsHold(s: string, c: Cuts)
  {
    && 0 < c.n < c.p < c.w < c.v <= |s|
    && s[c.n] == '(' && s[c.p] == ')'
    && (forall k :: 0 <= k < c.n ==> InClass(s[k], Word))
    && (forall k :: c.p + 1 <= k < c.w ==> InClass(s[k], Space))
    && (forall k :: c.w <= k < c.v ==> InClass(s[k], WeightChar))
    && '\n' !in s[c.n + 1..c.p]
  }

  lemma {:induction false} CutsAre(s: string, c: Cuts)
    requires MatchCuts(s) == Some(c)
    ensures CutsFound(s, c)
  {
  }

  lemma {:induction false} CutsHoldAt(s: string, c: Cuts)
    requires CutsFound(s, c)
    ensures CutsHold(s, c)
  {
    RunIs(s, 0, c.n, Word);
    RunIs(s, c.p + 1, c.w, Space);
    RunIs(s, c.w, c.v, WeightChar);
    KeysOnOneLine(s, c.n + 1, c.p);
  }

  lemma RunIs(s: string, i: nat, j: nat, cls: CharClass)
    requires i <= |s| && j == RunEnd(s, i, cls)
    ensures forall k :: i <= k < j ==> InClass(s[k], cls)
  {
    RunEndFacts(s, i, cls);
  }

  /** The `)` the matcher picks comes before the end of the line. */
  lemma {:induction false} KeysOnOneLine(s: string, i: nat, p: nat)
    requires i <= |s| && LastClose(s, i, LineEnd(s, i)) == Some(p)
    ensures '\n' !in s[i..p]
  {
    LineEndFacts(s, i);
    NoNewline(s, i, p);
  }

  /** The weight group is the whole run of digits and points: what follows
      the match does not start with one. */
  lemma {:induction false} MatchMaximal(s: string)
    requires MatchTaskLine(s).Some?
    ensures var v := MatchCuts(s).value.v; v == |s| || !InClass(s[v], WeightChar)
  {
    RunEndFacts(s, MatchCuts(s).value.w, WeightChar);
  }

  lemma {:induction false} NoNewline(s: string, i: nat, j: nat)
    requires i <= j <= |s|
    requires forall k :: i <= k < j ==> s[k] != '\n'
    ensures '\n' !in s[i..j]
  {
  }

  /** Cutting a line at the ends of the pattern's parts decomposes it. */
  lemma {:induction false} CutDecomposes(s: string, c: Cuts)
    requires CutsHold(s, c)
    ensures Decomposes(s, Groups(s, c), s[c.p + 1..c.w], s[c.v..])
  {
    Pieces(s, c.n, c.p, c.w, c.v);
    RunIsAllIn(s, 0, c.n, Word);
    RunIsAllIn(s, c.p + 1, c.w, Space);
    RunIsAllIn(s, c.w, c.v, WeightChar);
  }

  lemma {:induction false} RunIsAllIn(s: string, i: nat, j: nat, cls: CharClass)
    requires i <= j <= |s|
    requires forall k :: i <= k < j ==> InClass(s[k], cls)
    ensures AllIn(s[i..j], cls)
  {
    assert forall k :: 0 <= k < j - i ==> s[i..j][k] == s[i + k];
  }

  /** A string cut at four points is the concatenation of the pieces. */
  lemma {:induction false} Pieces(s: string, n: nat, p: nat, w: nat, v: nat)
    requires n < p < w <= v <= |s|
    requires s[n] == '(' && s[p] == ')'
    ensures s == s[..n] + "(" + s[n + 1..p] + ")" + s[p + 1..w] + s[w..v] + s[v..]
  {
    assert s[n..p + 1] == "(" + s[n + 1..p] + ")";
    assert s == s[..n] + s[n..p + 1] + s[p + 1..w] + s[w..v] + s[v..];
  }

  /** Every decomposition is found: the match names the same scorer and its
      key text is at least as long (the `.*` is greedy). */
  lemma {:induction false} MatchComplete(s: string, m: LineMatch, ws: string, rest: string)
    requires Decomposes(s, m, ws, rest)
    ensures MatchTaskLine(s).Some?
    ensures MatchTaskLine(s).value.name == m.name
    ensures |MatchTaskLine(s).value.keys| >= |m.keys|
  {
    CutsFromDecomposition(s, m, ws, rest);
    MatchValue(s);
  }

  /** The cuts a decomposition leads the matcher to: the name ends where the
      decomposition's does, and the `)` is at or after the decomposition's. */
  lemma {:induction false} CutsFromDecomposition(s: string, m: LineMatch, ws: string, rest: string)
    requires Decomposes(s, m, ws, rest)
    ensures MatchCuts(s).Some? && MatchCuts(s).value.n == |m.name| && s[..|m.name|] == m.name
    ensures MatchCuts(s).value.p >= |m.name| + 1 + |m.keys|
  {
    var n := |m.name|;
    var p := n + 1 + |m.keys|;
    var w := p + 1 + |ws|;
    DecomposedAt(s, m, ws, rest);
    assert InClass(m.weight[0], WeightChar);
    forall k | n + 1 <= k < p
      ensures s[k] != '\n'
    {
      assert s[n + 1..][k - n - 1] == m.keys[k - n - 1];
    }
    CutsFromPositions(s, n, p, w);
  }

  /** The matcher's cuts for a line laid out as the pattern asks, with the
      name ending at `n`, a `)` at `p` and the weight starting at `w`. */
  lemma {:induction false} CutsFromPositions(s: string, n: nat, p: nat, w: nat)
    requires 0 < n < p < w < |s| && s[n] == '(' && s[p] == ')' && InClass(s[w], WeightChar)
    requires forall k :: 0 <= k < n ==> InClass(s[k], Word)
    requires forall k :: n + 1 <= k < p ==> s[k] != '\n'
    requires forall k :: p + 1 <= k < w ==> InClass(s[k], Space)
    ensures MatchCuts(s).Some? && MatchCuts(s).value.n == n && MatchCuts(s).value.p >= p
  {
    RunEndAt(s, 0, n, Word);
    ClosesBefore(s, p, w);
    var e := LineEnd(s, n + 1);
    LineEndFacts(s, n + 1);
    assert p < e;
    LastCloseFacts(s, n + 1, e, p);
    MatchCutsAt(s, n, LastClose(s, n + 1, e).value);
  }

  /** A digit or a point is not whitespace. */
  lemma WeightNotSpace(c: char)
    requires InClass(c, WeightChar)
    ensures !InClass(c, Space)
  {
  }

  /** A `)` followed by whitespace up to a digit or a point can close. */
  lemma ClosesBefore(s: string, p: nat, w: nat)
    requires p < w < |s| && s[p] == ')' && InClass(s[w], WeightChar)
    requires forall k :: p + 1 <= k < w ==> InClass(s[k], Space)
    ensures ClosesAt(s, p)
  {
    WeightNotSpace(s[w]);
    RunEndAt(s, p + 1, w, Space);
  }

  /** The cuts once the name's end and the `)` are known. */
  lemma MatchCutsAt(s: string, n: nat, q: nat)
    requires 0 < n < |s| && RunEnd(s, 0, Word) == n && s[n] == '('
    requires LastClose(s, n + 1, LineEnd(s, n + 1)) == Some(q)
    ensures MatchCuts(s).Some? && MatchCuts(s).value.n == n && MatchCuts(s).value.p == q
  {
  }

  /** Where the parts of a decomposition sit in the line. */
  lemma {:induction false} DecomposedAt(s: string, m: LineMatch, ws: string, rest: string)
    requires Decomposes(s, m, ws, rest)
    ensures var n := |m.name|; var p := n + 1 + |m.keys|; var w := p + 1 + |ws|;
      && w < |s| && s[..n] == m.name && s[n] == '(' && s[p] == ')' && s[w] == m.weight[0]
      && (forall k :: 0 <= k < n ==> InClass(s[k], Word))
      && (forall k :: 0 <= k < |m.keys| ==> s[n + 1..][k] == m.keys[k])
      && (forall k :: p + 1 <= k < w ==> InClass(s[k], Space))
  {
    var n := |m.name|;
    var p := n + 1 + |m.keys|;
    var w := p + 1 + |ws|;
    assert s[..n] == m.name;
    assert forall k :: 0 <= k < |m.keys| ==> s[n + 1..][k] == m.keys[k];
    assert forall k :: p + 1 <= k < w ==> s[k] == ws[k - (p + 1)];
  }

  // ----------------------------------------------------------------- keys

  /** `parse_keys_from_string`: nothing for blank text, otherwise every
      comma-separated piece stripped, empty pieces included. */
  function ParseKeys(keyText: string): (keys: seq<string>)
    ensures Strip(keyText) == [] ==> keys == []
    ensures Strip(keyText) != [] ==> |keys| == multiset(keyText)[','] + 1
    ensures Strip(keyText) != [] ==>
      forall k :: 0 <= k < |keys| ==> keys[k] == Strip(Split(keyText, ',')[k])
  {
    if Strip(keyText) == [] then []
    else
      var parts := Split(keyText, ',');
      seq(|parts|, k requires 0 <= k < |parts| => Strip(parts[k]))
  }

  /** Keys written without surrounding whitespace or commas are read back
      exactly from their comma-joined text. */
  lemma {:induction false} ParseKeysJoin(keys: seq<string>)
    requires |keys| >= 2 || (|keys| == 1 && keys[0] != [])
    requires forall k :: 0 <= k < |keys| ==> ',' !in keys[k]
    requires forall k :: 0 <= k < |keys| ==>
      keys[k] == [] || (keys[k][0] !in Whitespace && keys[k][|keys[k]| - 1] !in Whitespace)
    ensures ParseKeys(Join(keys, ',')) == keys
  {
    var text := Join(keys, ',');
    SplitJoin(keys, ',');
    JoinNotBlank(keys);
    var r := ParseKeys(text);
    assert |r| == |keys|;
    forall k | 0 <= k < |keys|
      ensures r[k] == keys[k]
    {
      StripNoop(keys[k]);
    }
  }

  lemma {:induction false} JoinNotBlank(keys: seq<string>)
    requires |keys| >= 2 || (|keys| == 1 && keys[0] != [])
    requires |keys| == 1 ==> keys[0][0] !in Whitespace
    ensures Strip(Join(keys, ',')) != []
  {
    var text := Join(keys, ',');
    StripBothFacts(text, Whitespace);
    if |keys| >= 2 {
      assert text == keys[0] + [','] + Join(keys[1..], ',');
      assert text[|keys[0]|] == ',';
      assert ',' !in Whitespace;
    } else {
      assert text == keys[0];
    }
  }

  // ------------------------------------------------------------- one line

  /** The keys of `keys` absent from the store, in the order they appear. */
  function MissingFrom(keys: seq<string>, store: map<string, Arg>): (missing: seq<string>)
    ensures forall k :: k in missing <==> k in keys && k !in store
  {
    if keys == [] then []
    else (if keys[0] in store then [] else [keys[0]]) + MissingFrom(keys[1..], store)
  }

  /** The missing keys keep the order of the line: those of a longer list
      are those of its first part followed by those of the rest. */
  lemma {:induction false} MissingFromAppend(a: seq<string>, b: seq<string>, store: map<string, Arg>)
    ensures MissingFrom(a + b, store) == MissingFrom(a, store) + MissingFrom(b, store)
    decreases |a|
  {
    if a == [] {
      assert a + b == b;
    } else {
      var head := if a[0] in store then [] else [a[0]];
      MissingFromCons(a, b, store);
      MissingFromAppend(a[1..], b, store);
      Regrouped(head, MissingFrom(a[1..], store), MissingFrom(b, store));
    }
  }

  lemma MissingFromCons(a: seq<string>, b: seq<string>, store: map<string, Arg>)
    requires a != []
    ensures MissingFrom(a + b, store) == (if a[0] in store then [] else [a[0]]) + MissingFrom(a[1..] + b, store)
    ensures MissingFrom(a, store) == (if a[0] in store then [] else [a[0]]) + MissingFrom(a[1..], store)
  {
    assert (a + b)[0] == a[0] && (a + b)[1..] == a[1..] + b;
  }

  lemma Regrouped(h: seq<string>, x: seq<string>, y: seq<string>)
    ensures h + (x + y) == (h + x) + y
  {
  }

  /** A single key is missing exactly when the store lacks it. */
  lemma MissingFromSingle(k: string, store: map<string, Arg>)
    ensures MissingFrom([k], store) == if k in store then [] else [k]
  {
    assert [k][1..] == [];
  }

  /** The store's values for `keys`, in key order. */
  function Resolve(keys: seq<string>, store: map<string, Arg>): (args: seq<Arg>)
    requires forall k :: k in keys ==> k in store
    ensures |args| == |keys|
    ensures forall i :: 0 <= i < |keys| ==> args[i] == store[keys[i]]
  {
    seq(|keys|, i requires 0 <= i < |keys| => store[keys[i]])
  }

  /** One stripped line of the task file, checked in the order of the
      source: syntax, registered name, arity, keys present, then the weight
      is converted. `registry` maps each discovered scorer to its number of
      parameters. */
  function ClassifyLine(lineNo: nat, raw: string, registry: map<string, nat>, store: map<string, Arg>): (v: LineVerdict)
    ensures v.Blank? <==> Strip(raw) == []
    ensures v.Accepted? ==> WellFormed(v.task, registry, store) && v.task.lineNo == lineNo
    ensures v.Rejected? ==> v.warning.lineNo == lineNo
    ensures v.BadWeight? ==> v.lineNo == lineNo && (multiset(v.text)['.'] > 1 || !HasDigit(v.text))
  {
    var line := Strip(raw);
    if line == [] then Blank
    else
      match MatchTaskLine(line)
      case None => Rejected(Unparsable(lineNo, line))
      case Some(m) =>
        if m.name !in registry then Rejected(UnknownFunction(lineNo, m.name))
        else
          var keys := ParseKeys(m.keys);
          if |keys| != registry[m.name] then
            Rejected(ArityMismatch(lineNo, m.name, registry[m.name], |keys|))
          else if MissingFrom(keys, store) != [] then
            Rejected(MissingKeys(lineNo, MissingFrom(keys, store)))
          else
            WeightIsDecimal(line);
            match ParseFloat(m.weight)
            case None => BadWeight(lineNo, m.weight)
            case Some(w) => Accepted(Task(lineNo, m.name, keys, Resolve(keys, store), w))
  }

  /** The weight group holds only digits and points, so `float()` fails on
      it exactly when it has two points or no digit, and is never negative. */
  lemma {:induction false} WeightIsDecimal(s: string)
    requires MatchTaskLine(s).Some?
    ensures var t := MatchTaskLine(s).value.weight;
      (ParseFloat(t).Some? <==> multiset(t)['.'] <= 1 && HasDigit(t))
      && (ParseFloat(t).Some? ==> ParseFloat(t).value >= 0.0)
  {
    var ws, rest := MatchSound(s);
    ParseDigitsAndDots(MatchTaskLine(s).value.weight);
  }

  /** The checks come in a fixed order and the first failing one is the
      single warning for the line: no match, then an unknown name, then a
      wrong number of keys, then keys missing from the store (all of them,
      in line order). */
  lemma ChecksInOrder(lineNo: nat, raw: string, registry: map<string, nat>, store: map<string, Arg>)
    ensures var line := Strip(raw);
      var v := ClassifyLine(lineNo, raw, registry, store);
      var m := MatchTaskLine(line);
      && (v.Rejected? && v.warning.Unparsable? <==> line != [] && m.None?)
      && (v.Rejected? && v.warning.UnknownFunction? <==> line != [] && m.Some? && m.value.name !in registry)
      && (v.Rejected? && v.warning.ArityMismatch? <==>
            line != [] && m.Some? && m.value.name in registry && |ParseKeys(m.value.keys)| != registry[m.value.name])
      && (v.Rejected? && v.warning.MissingKeys? <==>
            && line != [] && m.Some? && m.value.name in registry && |ParseKeys(m.value.keys)| == registry[m.value.name]
            && exists k :: k in ParseKeys(m.value.keys) && k !in store)
      && (v.Rejected? && v.warning.MissingKeys? ==> v.warning.missing == MissingFrom(ParseKeys(m.value.keys), store))
  {
    var line := Strip(raw);
    var v := ClassifyLine(lineNo, raw, registry, store);
    if line != [] && MatchTaskLine(line).Some? {
      var m := MatchTaskLine(line).value;
      if m.name in registry {
        var keys := ParseKeys(m.keys);
        if |keys| == registry[m.name] {
          var missing := MissingFrom(keys, store);
          assert missing != [] <==> exists k :: k in keys && k !in store by {
            if missing != [] {
              assert missing[0] in missing;
            }
          }
          assert missing != [] ==> v == Rejected(MissingKeys(lineNo, missing));
          assert missing == [] ==> !v.Rejected?;
        } else {
          assert v == Rejected(ArityMismatch(lineNo, m.name, registry[m.name], |keys|));
        }
      } else {
        assert v == Rejected(UnknownFunction(lineNo, m.name));
      }
    } else if line != [] {
      assert v == Rejected(Unparsable(lineNo, line));
    }
  }

  /** What an accepted task satisfies: its scorer is registered with as many
      parameters as it has keys, every key is in the store, the arguments
      are the store's values in key order, and the weight is not negative. */
  predicate WellFormed(t: Task, registry: map<string, nat>, store: map<string, Arg>)
  {
    && t.name in registry && registry[t.name] == |t.keys|
    && (forall k :: k in t.keys ==> k in store)
    && |t.args| == |t.keys|
    && (forall i :: 0 <= i < |t.keys| ==> t.args[i] == store[t.keys[i]])
    && t.weight >= 0.0
  }

  // ------------------------------------------------------------- the file

  /** The state after reading some lines: the tasks queued, the warnings
      logged and the accumulated weight; or the line whose weight failed to
      convert, with the warnings logged before it. */
  datatype Parse =
    | Parsed(tasks: seq<Task>, warnings: seq<Warning>, totalWeight: real)
    | ParseAborted(lineNo: nat, weightText: string, warnings: seq<Warning>)

  /** The verdict on every line, lines numbered from 1. */
  function Verdicts(lines: seq<string>, registry: map<string, nat>, store: map<string, Arg>): (vs: seq<LineVerdict>)
    ensures |vs| == |lines|
  {
    Numbered(lines, (n, raw) => ClassifyLine(n, raw, registry, store))
  }

  function Numbered<T>(lines: seq<string>, f: (nat, string) -> T): (vs: seq<T>)
    ensures |vs| == |lines|
    decreases |lines|
  {
    if lines == [] then [] else Numbered(lines[..|lines| - 1], f) + [f(|lines|, lines[|lines| - 1])]
  }

  lemma {:induction false} NumberedAt<T>(lines: seq<string>, f: (nat, string) -> T, j: nat)
    requires j < |lines|
    ensures Numbered(lines, f)[j] == f(j + 1, lines[j])
    decreases |lines|
  {
    var init := lines[..|lines| - 1];
    if j < |init| {
      NumberedAt(init, f, j);
      assert init[j] == lines[j];
    }
  }

  /** One step of the reading: blank lines are skipped, rejections add a
      warning, acceptances queue a task and add its weight, and a bad
      weight ends the reading. */
  function Step(before: Parse, v: LineVerdict): Parse
  {
    if before.ParseAborted? then before
    else
      match v
      case Blank => before
      case Rejected(w) => Parsed(before.tasks, before.warnings + [w], before.totalWeight)
      case Accepted(t) => Parsed(before.tasks + [t], before.warnings, before.totalWeight + t.weight)
      case BadWeight(i, text) => ParseAborted(i, text, before.warnings)
  }

  /** Reading the verdicts in order. */
  function Fold(vs: seq<LineVerdict>): Parse
    decreases |vs|
  {
    if vs == [] then Parsed([], [], 0.0) else Step(Fold(vs[..|vs| - 1]), vs[|vs| - 1])
  }

  /** Reading the task file. */
  function ParseLines(lines: seq<string>, registry: map<string, nat>, store: map<string, Arg>): Parse
  {
    Fold(Verdicts(lines, registry, store))
  }

  /** The parsing loop of `run_concurrently_from_file`. */
  method ParseTasks(lines: seq<string>, registry: map<string, nat>, store: map<string, Arg>) returns (r: Parse)
    ensures r == ParseLines(lines, registry, store)
  {
    ghost var vs := Verdicts(lines, registry, store);
    var tasks: seq<Task> := [];
    var warnings: seq<Warning> := [];
    var totalWeight := 0.0;
    var i := 0;
    while i < |lines|
      invariant 0 <= i <= |lines|
      invariant Fold(vs[..i]) == Parsed(tasks, warnings, totalWeight)
    {
      var stop: bool;
      var verdict: LineVerdict;
      tasks, warnings, totalWeight, stop, verdict := ReadLine(lines, registry, store, i, tasks, warnings, totalWeight);
      if stop {
        StopsAtAbort(vs, i + 1);
        return ParseAborted(verdict.lineNo, verdict.text, warnings);
      }
      i := i + 1;
    }
    assert vs[..i] == vs;
    r := Parsed(tasks, warnings, totalWeight);
  }

  /** The body of the parsing loop: line `i + 1` is classified and its
      verdict taken in, or the reading stops at a bad weight. */
  method ReadLine(lines: seq<string>, registry: map<string, nat>, store: map<string, Arg>, i: nat,
                  tasks: seq<Task>, warnings: seq<Warning>, totalWeight: real)
    returns (tasks': seq<Task>, warnings': seq<Warning>, totalWeight': real, stop: bool, verdict: LineVerdict)
    requires i < |lines|
    requires Fold(Verdicts(lines, registry, store)[..i]) == Parsed(tasks, warnings, totalWeight)
    ensures verdict == Verdicts(lines, registry, store)[i]
    ensures stop <==> verdict.BadWeight?
    ensures !stop ==> Fold(Verdicts(lines, registry, store)[..i + 1]) == Parsed(tasks', warnings', totalWeight')
    ensures stop ==> warnings' == warnings && Fold(Verdicts(lines, registry, store)[..i + 1]) == ParseAborted(verdict.lineNo, verdict.text, warnings)
  {
    verdict := ClassifyLine(i + 1, lines[i], registry, store);
    VerdictAt(lines, registry, store, i);
    FoldNext(Verdicts(lines, registry, store), i);
    tasks', warnings', totalWeight', stop := tasks, warnings, totalWeight, false;
    match verdict {
      case Blank =>
      case Rejected(w) =>
        warnings' := warnings + [w];
      case Accepted(t) =>
        tasks' := tasks + [t];
        totalWeight' := totalWeight + t.weight;
      case BadWeight(_, _) =>
        stop := true;
    }
  }

  /** Once a verdict aborts the reading, later ones change nothing. */
  lemma {:induction false} StopsAtAbort(vs: seq<LineVerdict>, k: nat)
    requires k <= |vs|
    requires Fold(vs[..k]).ParseAborted?
    ensures Fold(vs) == Fold(vs[..k])
    decreases |vs| - k
  {
    if k < |vs| {
      assert vs[..k + 1][..k] == vs[..k];
      StopsAtAbort(vs, k + 1);
    } else {
      assert vs[..k] == vs;
    }
  }

  function TaskWeight(t: Task): real { t.weight }

  /** The number of verdicts other than `Blank`. */
  function NonBlank(vs: seq<LineVerdict>): nat
  {
    if vs == [] then 0 else NonBlank(vs[..|vs| - 1]) + (if vs[|vs| - 1].Blank? then 0 else 1)
  }

  /** The number of lines that are not blank once stripped. */
  function NonBlankLines(lines: seq<string>): nat
  {
    if lines == [] then 0
    else NonBlankLines(lines[..|lines| - 1]) + (if Strip(lines[|lines| - 1]) == [] then 0 else 1)
  }

  /** After a complete reading: the total weight is the sum of the accepted
      weights, and every non-blank verdict gave exactly one task or one
      warning. */
  lemma {:induction false} FoldFacts(vs: seq<LineVerdict>)
    requires Fold(vs).Parsed?
    ensures var p := Fold(vs);
      && p.totalWeight == SumBy(p.tasks, TaskWeight)
      && |p.tasks| + |p.warnings| == NonBlank(vs)
    decreases |vs|
  {
    if vs != [] {
      var init := vs[..|vs| - 1];
      assert Fold(init).Parsed?;
      FoldFacts(init);
      var before := Fold(init);
      var p := Fold(vs);
      if vs[|vs| - 1].Accepted? {
        var t := vs[|vs| - 1].task;
        assert p.tasks == before.tasks + [t];
        SumByAppend(before.tasks, [t], TaskWeight);
        SumBySingle(t, TaskWeight);
      }
    }
  }

  /** What the verdict on line `j + 1` says about that line. */
  lemma {:induction false} VerdictFacts(lines: seq<string>, registry: map<string, nat>, store: map<string, Arg>, j: nat)
    requires j < |lines|
    ensures var v := Verdicts(lines, registry, store)[j];
      && v == ClassifyLine(j + 1, lines[j], registry, store)
      && (v.Blank? <==> Strip(lines[j]) == [])
      && (v.Accepted? ==> WellFormed(v.task, registry, store) && v.task.lineNo == j + 1)
  {
    VerdictAt(lines, registry, store, j);
  }

  lemma VerdictAt(lines: seq<string>, registry: map<string, nat>, store: map<string, Arg>, j: nat)
    requires j < |lines|
    ensures Verdicts(lines, registry, store)[j] == ClassifyLine(j + 1, lines[j], registry, store)
  {
    NumberedAt(lines, (n, raw) => ClassifyLine(n, raw, registry, store), j);
  }

  lemma FoldNext(vs: seq<LineVerdict>, i: nat)
    requires i < |vs|
    ensures Fold(vs[..i + 1]) == Step(Fold(vs[..i]), vs[i])
  {
    assert vs[..i + 1][..i] == vs[..i];
  }

  /** Counting the non-blank verdicts counts the non-blank lines. */
  lemma {:induction false} NonBlankCount(lines: seq<string>, registry: map<string, nat>, store: map<string, Arg>)
    ensures NonBlank(Verdicts(lines, registry, store)) == NonBlankLines(lines)
    decreases |lines|
  {
    if lines != [] {
      var n := |lines|;
      var init := lines[..n - 1];
      NonBlankCount(init, registry, store);
      var vs := Verdicts(lines, registry, store);
      assert vs[..n - 1] == Verdicts(init, registry, store);
      VerdictFacts(lines, registry, store, n - 1);
    }
  }

  /** After a complete reading of the file: the total weight is the sum of
      the accepted weights and is not negative, every non-blank line produced
      exactly one task or one warning, and every task is well formed and is
      the verdict on the line its number names. */
  lemma {:induction false} ParseFacts(lines: seq<string>, registry: map<string, nat>, store: map<string, Arg>)
    requires ParseLines(lines, registry, store).Parsed?
    ensures var p := ParseLines(lines, registry, store);
      && p.totalWeight == SumBy(p.tasks, TaskWeight)
      && p.totalWeight >= 0.0
      && |p.tasks| + |p.warnings| == NonBlankLines(lines)
      && (forall i :: 0 <= i < |p.tasks| ==> WellFormed(p.tasks[i], registry, store))
      && (forall i :: 0 <= i < |p.tasks| ==>
            1 <= p.tasks[i].lineNo <= |lines|
            && Verdicts(lines, registry, store)[p.tasks[i].lineNo - 1] == Accepted(p.tasks[i]))
  {
    var vs := Verdicts(lines, registry, store);
    var p := Fold(vs);
    FoldFacts(vs);
    TasksAccepted(lines, registry, store);
    assert forall i :: 0 <= i < |p.tasks| ==> TaskWeight(p.tasks[i]) >= 0.0;
    SumByNonNegative(p.tasks, TaskWeight);
    NonBlankCount(lines, registry, store);
  }

  /** Every task of a complete reading is well formed and is the verdict on
      the line its number names. */
  lemma TasksAccepted(lines: seq<string>, registry: map<string, nat>, store: map<string, Arg>)
    requires ParseLines(lines, registry, store).Parsed?
    ensures var p := ParseLines(lines, registry, store);
      forall i :: 0 <= i < |p.tasks| ==>
        && WellFormed(p.tasks[i], registry, store)
        && 1 <= p.tasks[i].lineNo <= |lines|
        && Verdicts(lines, registry, store)[p.tasks[i].lineNo - 1] == Accepted(p.tasks[i])
  {
    var vs := Verdicts(lines, registry, store);
    AcceptedVerdicts(lines, registry, store);
    TasksFromVerdicts(vs, registry, store);
    assert OnTheirLines(Fold(vs).tasks, vs, registry, store);
  }

  /** Each accepted verdict holds a well-formed task numbered by its line. */
  predicate NumberedByLine(vs: seq<LineVerdict>, registry: map<string, nat>, store: map<string, Arg>)
  {
    forall j :: 0 <= j < |vs| && vs[j].Accepted? ==> WellFormed(vs[j].task, registry, store) && vs[j].task.lineNo == j + 1
  }

  /** Each task is well formed and is the verdict on the line it names. */
  predicate OnTheirLines(tasks: seq<Task>, vs: seq<LineVerdict>, registry: map<string, nat>, store: map<string, Arg>)
  {
    forall i :: 0 <= i < |tasks| ==>
      && WellFormed(tasks[i], registry, store)
      && 1 <= tasks[i].lineNo <= |vs|
      && vs[tasks[i].lineNo - 1] == Accepted(tasks[i])
  }

  /** The tasks a reading queues are accepted verdicts, each on the line its
      number names. */
  lemma {:induction false} TasksFromVerdicts(vs: seq<LineVerdict>, registry: map<string, nat>, store: map<string, Arg>)
    requires Fold(vs).Parsed? && NumberedByLine(vs, registry, store)
    ensures OnTheirLines(Fold(vs).tasks, vs, registry, store)
    decreases |vs|
  {
    if vs != [] {
      var init := vs[..|vs| - 1];
      assert Fold(init).Parsed?;
      assert forall j :: 0 <= j < |init| ==> init[j] == vs[j];
      assert NumberedByLine(init, registry, store);
      TasksFromVerdicts(init, registry, store);
      var v := vs[|vs| - 1];
      if v.Accepted? {
        assert Fold(vs).tasks == Fold(init).tasks + [v.task];
      } else {
        assert Fold(vs).tasks == Fold(init).tasks;
      }
    }
  }

  /** Every accepted verdict holds a well-formed task numbered by its line. */
  lemma AcceptedVerdicts(lines: seq<string>, registry: map<string, nat>, store: map<string, Arg>)
    ensures NumberedByLine(Verdicts(lines, registry, store), registry, store)
  {
    var vs := Verdicts(lines, registry, store);
    forall j | 0 <= j < |vs| && vs[j].Accepted?
      ensures WellFormed(vs[j].task, registry, store) && vs[j].task.lineNo == j + 1
    {
      VerdictFacts(lines, registry, store, j);
    }
  }

  /** A reading that aborts does so on a verdict for a weight that does not
      convert, after every earlier line was read normally. */
  lemma {:induction false} AbortFacts(vs: seq<LineVerdict>)
    requires Fold(vs).ParseAborted?
    ensures exists j :: 0 <= j < |vs| && vs[j] == BadWeight(Fold(vs).lineNo, Fold(vs).weightText) && Fold(vs[..j]).Parsed?
    decreases |vs|
  {
    var init := vs[..|vs| - 1];
    if Fold(init).ParseAborted? {
      AbortFacts(init);
      var j :| 0 <= j < |init| && init[j] == BadWeight(Fold(init).lineNo, Fold(init).weightText) && Fold(init[..j]).Parsed?;
      assert init[..j] == vs[..j];
    } else {
      assert vs[..|vs| - 1] == init;
    }
  }

  // ------------------------------------------------------------ the worker

  /** How a scorer call ended: it returned a pair (whose time `float()` may
      fail to convert), returned something that does not unpack into two
      values, or raised. */
  datatype Outcome = Pair(score: Score, time: Option<real>) | NotAPair | Raised

  /** One scorer call: how it ended, and the worker's own clock reading
      (seconds since it started the call) taken when it fails. */
  datatype ScorerRun = ScorerRun(outcome: Outcome, elapsed: real)

  /** What a worker puts on the result queue. */
  datatype WorkResult = WorkResult(score: Score, time: real, weight: real, name: string)

  predicate Succeeded(run: ScorerRun) { run.outcome.Pair? && run.outcome.time.Some? }

  /** `process_worker`: the scorer's pair when it returned one, otherwise
      score 0.0 with the worker's own time; weight and name are the task's. */
  function Worker(t: Task, run: ScorerRun): WorkResult
  {
    if Succeeded(run) then WorkResult(run.outcome.score, run.outcome.time.value, t.weight, t.name)
    else WorkResult(Scalar(0.0), run.elapsed, t.weight, t.name)
  }

  /** One worker per task, in the order the tasks were queued. */
  function Dispatch(tasks: seq<Task>, runs: seq<ScorerRun>): (rs: seq<WorkResult>)
    requires |runs| == |tasks|
    ensures |rs| == |tasks|
  {
    seq(|tasks|, i requires 0 <= i < |tasks| => Worker(tasks[i], runs[i]))
  }

  // ------------------------------------------------------- the aggregation

  const SizeScorer: string := "calculate_size_score"

  function EntryValue(e: (string, real)): real { e.1 }

  /** `sum(score.values()) / len(score)`, or 0.0 for an empty dictionary. */
  function Mean(entries: seq<(string, real)>): real
  {
    if |entries| == 0 then 0.0 else SumBy(entries, EntryValue) / |entries| as real
  }

  /** A mean of values between `lo` and `hi` lies between them. */
  lemma {:induction false} MeanBounds(entries: seq<(string, real)>, lo: real, hi: real)
    requires |entries| > 0
    requires forall i :: 0 <= i < |entries| ==> lo <= entries[i].1 <= hi
    ensures lo <= Mean(entries) <= hi
  {
    var low := (e: (string, real)) => lo;
    var high := (e: (string, real)) => hi;
    SumByMonotone(entries, low, EntryValue);
    SumByMonotone(entries, EntryValue, high);
    SumByConstant(entries, low, lo);
    SumByConstant(entries, high, hi);
    QuotientBounds(SumBy(entries, EntryValue), |entries| as real, lo, hi);
  }

  /** `lo * n <= s <= hi * n` gives `lo <= s / n <= hi`. */
  lemma QuotientBounds(s: real, n: real, lo: real, hi: real)
    requires n > 0.0
    requires lo * n <= s <= hi * n
    ensures lo <= s / n <= hi
  {
    assert s / n * n == s;
  }

  /** The number a result contributes to the weighted sum, or `None` when
      multiplying it by the weight raises. A size score is averaged when it
      is a dictionary; any falsy size score counts as 0.0, and a truthy one
      that is no dictionary raises for lack of `.values()`. Every other score
      must be a number. */
  function Effective(r: WorkResult): Option<real>
  {
    if r.name != SizeScorer then
      match r.score
      case Scalar(v) => Some(v)
      case _ => None
    else
      match r.score
      case Scalar(v) => if v == 0.0 then Some(0.0) else None
      case Composite(entries) => Some(Mean(entries))
      case Other(truthy) => if truthy then None else Some(0.0)
  }

  /** A result's term in the weighted sum (0.0 when it cannot be formed). */
  function Term(r: WorkResult): real
  {
    match Effective(r)
    case Some(e) => e * r.weight
    case None => 0.0
  }

  function ResultWeight(r: WorkResult): real { r.weight }

  /** The name of the first result, in arrival order, whose score cannot be
      weighted. */
  function FirstFailure(a: seq<WorkResult>): Option<string>
  {
    if a == [] then None
    else
      match FirstFailure(a[..|a| - 1])
      case Some(name) => Some(name)
      case None => if Effective(a[|a| - 1]).None? then Some(a[|a| - 1].name) else None
  }

  /** No result fails exactly when every result can be weighted. */
  lemma {:induction false} FirstFailureNone(a: seq<WorkResult>)
    ensures FirstFailure(a).None? <==> forall i :: 0 <= i < |a| ==> Effective(a[i]).Some?
    decreases |a|
  {
    if a != [] {
      var init := a[..|a| - 1];
      FirstFailureNone(init);
      assert forall i :: 0 <= i < |init| ==> init[i] == a[i];
    }
  }

  lemma {:induction false} FailureStays(a: seq<WorkResult>, k: nat)
    requires k <= |a|
    requires FirstFailure(a[..k]).Some?
    ensures FirstFailure(a) == FirstFailure(a[..k])
    decreases |a| - k
  {
    if k < |a| {
      assert a[..k + 1][..k] == a[..k];
      FailureStays(a, k + 1);
    } else {
      assert a[..k] == a;
    }
  }

  /** Python's `round` to an integer: the nearest integer, ties to the even one. */
  function RoundHalfEven(x: real): (r: int)
    ensures -0.5 <= r as real - x <= 0.5
    ensures (r as real - x == 0.5 || x - r as real == 0.5) ==> r % 2 == 0
  {
    var f := x.Floor;
    var d := x - f as real;
    if d < 0.5 then f
    else if d > 0.5 then f + 1
    else if f % 2 == 0 then f
    else f + 1
  }

  /** The score map after some results: keyed by scorer name, each result
      overwriting the one before it under the same name. */
  function ScoresAfter(a: seq<WorkResult>): map<string, Score>
  {
    if a == [] then map[] else ScoresAfter(a[..|a| - 1])[a[|a| - 1].name := a[|a| - 1].score]
  }

  /** The latency map after some results: it starts with `net_score_latency`
      at 0.0, and each result sets its name to its time in whole milliseconds. */
  function TimesAfter(a: seq<WorkResult>): map<string, real>
  {
    if a == [] then map["net_score_latency" := 0.0]
    else TimesAfter(a[..|a| - 1])[a[|a| - 1].name := RoundHalfEven(a[|a| - 1].time * 1000.0) as real]
  }

  /** The two maps handed back by a run. */
  datatype Report = Report(scores: map<string, Score>, latencies: map<string, real>)

  /** `weighted_score_sum / total_weight`, guarded against a zero total. */
  function NetScore(weightedSum: real, totalWeight: real): real
  {
    if totalWeight > 0.0 then weightedSum / totalWeight else 0.0
  }

  /** What collecting `arrivals` gives: the exception of the first result
      that cannot be weighted, or the score map with `net_score` added and
      the latency map with `net_score_latency` set to the measured span. */
  function Collected(arrivals: seq<WorkResult>, totalWeight: real, span: real): Result<Report, RunError>
  {
    match FirstFailure(arrivals)
    case Some(name) => Err(ScoreError(name))
    case None =>
      Ok(Report(ScoresAfter(arrivals)["net_score" := Scalar(NetScore(SumBy(arrivals, Term), totalWeight))],
                TimesAfter(arrivals)["net_score_latency" := span]))
  }

  /** The collecting loop of `run_concurrently_from_file`, over the results
      in the order they arrive. */
  method Collect(arrivals: seq<WorkResult>, totalWeight: real, span: real) returns (r: Result<Report, RunError>)
    ensures r == Collected(arrivals, totalWeight, span)
  {
    var times: map<string, real> := map["net_score_latency" := 0.0];
    var scores: map<string, Score> := map[];
    var weightedSum := 0.0;
    for i := 0 to |arrivals|
      invariant FirstFailure(arrivals[..i]).None?
      invariant scores == ScoresAfter(arrivals[..i])
      invariant times == TimesAfter(arrivals[..i])
      invariant weightedSum == SumBy(arrivals[..i], Term)
    {
      var res := arrivals[i];
      assert arrivals[..i + 1][..i] == arrivals[..i];
      assert arrivals[..i + 1][i] == res;
      scores := scores[res.name := res.score];
      times := times[res.name := RoundHalfEven(res.time * 1000.0) as real];
      match Effective(res) {
        case None =>
          FailureStays(arrivals, i + 1);
          return Err(ScoreError(res.name));
        case Some(e) =>
          weightedSum := weightedSum + e * res.weight;
      }
    }
    assert arrivals[..|arrivals|] == arrivals;
    var net := if totalWeight > 0.0 then weightedSum / totalWeight else 0.0;
    scores := scores["net_score" := Scalar(net)];
    times := times["net_score_latency" := span];
    r := Ok(Report(scores, times));
  }

  // ---------------------------------------------------------------- a run

  /** `all_args_dict` once the log queue has been added to it. */
  function WithLogQueue(store: map<string, Arg>): map<string, Arg>
  {
    store["log_queue" := LogQueueArg]
  }

  /** The results arrive in some order, one per queued task: each is what
      the worker for that task produced with that task's scorer call. */
  predicate Schedules(p: Parse, runs: seq<ScorerRun>, arrivals: seq<WorkResult>)
  {
    p.Parsed? ==> |runs| == |p.tasks| && multiset(arrivals) == multiset(Dispatch(p.tasks, runs))
  }

  /** What `run_concurrently_from_file` returns, with the warnings it logs. */
  function RunOutcome(lines: seq<string>, store: map<string, Arg>, registry: map<string, nat>,
                      arrivals: seq<WorkResult>, span: real): (Result<Report, RunError>, seq<Warning>)
  {
    match ParseLines(lines, registry, WithLogQueue(store))
    case ParseAborted(i, text, ws) => (Err(InvalidWeight(i, text)), ws)
    case Parsed(tasks, ws, total) =>
      if tasks == [] then (Ok(Report(map["net_score" := Scalar(0.0)], map[])), ws)
      else (Collected(arrivals, total, span), ws)
  }

  /** `run_concurrently_from_file` with the concurrency taken out: `lines`
      are the lines of the task file, `arrivals` the results in the order
      the result queue delivers them, and `span` the measured wall-clock time
      of the collection. `argsAfter` is the caller's dictionary afterwards. */
  method RunConcurrentlyFromFile(lines: seq<string>, store: map<string, Arg>, registry: map<string, nat>,
                                 ghost runs: seq<ScorerRun>, arrivals: seq<WorkResult>, span: real)
    returns (r: Result<Report, RunError>, warnings: seq<Warning>, argsAfter: map<string, Arg>)
    requires Schedules(ParseLines(lines, registry, WithLogQueue(store)), runs, arrivals)
    ensures argsAfter == WithLogQueue(store)
    ensures (r, warnings) == RunOutcome(lines, store, registry, arrivals, span)
  {
    argsAfter := store["log_queue" := LogQueueArg];
    var parsed := ParseTasks(lines, registry, argsAfter);
    match parsed {
      case ParseAborted(i, text, ws) =>
        return Err(InvalidWeight(i, text)), ws, argsAfter;
      case Parsed(tasks, ws, total) =>
        warnings := ws;
        if |tasks| == 0 {
          r := Ok(Report(map["net_score" := Scalar(0.0)], map[]));
          return;
        }
        r := Collect(arrivals, total, span);
    }
  }

  // ------------------------------------------------- properties of a run

  /** The argument store always holds the log queue, so a key `log_queue`
      is never reported missing and always resolves to the queue. */
  lemma {:induction false} LogQueueResolves(t: Task, registry: map<string, nat>, store: map<string, Arg>, keys: seq<string>)
    requires WellFormed(t, registry, WithLogQueue(store))
    ensures "log_queue" !in MissingFrom(keys, WithLogQueue(store))
    ensures forall i :: 0 <= i < |t.keys| && t.keys[i] == "log_queue" ==> t.args[i] == LogQueueArg
  {
  }

  /** A failed scorer call adds nothing to the weighted sum, yet its task's
      weight is still part of the total. */
  lemma {:induction false} FailureCountsAsZero(t: Task, run: ScorerRun)
    requires !Succeeded(run)
    ensures Term(Worker(t, run)) == 0.0
    ensures Effective(Worker(t, run)) == Some(0.0)
    ensures ResultWeight(Worker(t, run)) == t.weight
  {
  }

  /** The weights of the results are the weights of the tasks. */
  lemma {:induction false} DispatchWeights(tasks: seq<Task>, runs: seq<ScorerRun>)
    requires |runs| == |tasks|
    ensures SumBy(Dispatch(tasks, runs), ResultWeight) == SumBy(tasks, TaskWeight)
    decreases |tasks|
  {
    if tasks != [] {
      var n := |tasks| - 1;
      DispatchWeights(tasks[..n], runs[..n]);
      assert Dispatch(tasks, runs)[..n] == Dispatch(tasks[..n], runs[..n]);
    }
  }

  /** The net score is the weighted sum of the effective scores divided by
      the total weight of the accepted lines, and 0.0 when that total is 0. */
  lemma {:induction false} NetIsWeightedAverage(lines: seq<string>, store: map<string, Arg>, registry: map<string, nat>,
                                                arrivals: seq<WorkResult>, span: real)
    requires RunOutcome(lines, store, registry, arrivals, span).0.Ok?
    ensures var p := ParseLines(lines, registry, WithLogQueue(store));
      var rep := RunOutcome(lines, store, registry, arrivals, span).0.value;
      && p.Parsed?
      && "net_score" in rep.scores
      && p.totalWeight == SumBy(p.tasks, TaskWeight)
      && (p.totalWeight > 0.0 && p.tasks != [] ==>
            rep.scores["net_score"] == Scalar(SumBy(arrivals, Term) / p.totalWeight))
      && (p.totalWeight == 0.0 ==> rep.scores["net_score"] == Scalar(0.0))
  {
    var p := ParseLines(lines, registry, WithLogQueue(store));
    ParseFacts(lines, registry, WithLogQueue(store));
  }

  /** The outcome of collecting does not depend on the order in which the
      results arrive: the same results either all weigh in or some fail,
      and the net score is the same. */
  lemma {:induction false} CollectedOrderIndependent(a: seq<WorkResult>, b: seq<WorkResult>, totalWeight: real, span: real)
    requires multiset(a) == multiset(b)
    ensures Collected(a, totalWeight, span).Ok? <==> Collected(b, totalWeight, span).Ok?
    ensures Collected(a, totalWeight, span).Ok? ==>
      Collected(a, totalWeight, span).value.scores["net_score"] == Collected(b, totalWeight, span).value.scores["net_score"]
  {
    FirstFailureNone(a);
    FirstFailureNone(b);
    forall i | 0 <= i < |a| && Effective(a[i]).None?
      ensures exists j :: 0 <= j < |b| && Effective(b[j]).None?
    {
      assert a[i] in multiset(b);
    }
    forall j | 0 <= j < |b| && Effective(b[j]).None?
      ensures exists i :: 0 <= i < |a| && Effective(a[i]).None?
    {
      assert b[j] in multiset(a);
    }
    SumByPermutation(a, b, Term);
  }

  /** A run's outcome, warnings included, does not depend on the order in
      which the results arrive, as far as success and the net score go. */
  lemma {:induction false} RunOrderIndependent(lines: seq<string>, store: map<string, Arg>, registry: map<string, nat>,
                                               a: seq<WorkResult>, b: seq<WorkResult>, span: real)
    requires multiset(a) == multiset(b)
    ensures var ra := RunOutcome(lines, store, registry, a, span);
      var rb := RunOutcome(lines, store, registry, b, span);
      && ra.1 == rb.1
      && (ra.0.Ok? <==> rb.0.Ok?)
      && (ra.0.Ok? ==> ra.0.value.scores["net_score"] == rb.0.value.scores["net_score"])
  {
    var p := ParseLines(lines, registry, WithLogQueue(store));
    if p.Parsed? {
      CollectedOrderIndependent(a, b, p.totalWeight, span);
    }
  }

  /** When every result's effective score is between 0 and 1, so is the net
      score: it is a weighted average with non-negative weights. */
  lemma {:induction false} CollectedNetInUnitRange(a: seq<WorkResult>, totalWeight: real, span: real)
    requires totalWeight == SumBy(a, ResultWeight)
    requires forall i :: 0 <= i < |a| ==> a[i].weight >= 0.0
    requires forall i :: 0 <= i < |a| ==> Effective(a[i]).Some? ==> 0.0 <= Effective(a[i]).value <= 1.0
    ensures Collected(a, totalWeight, span).Ok? ==>
      var net := Collected(a, totalWeight, span).value.scores["net_score"];
      net.Scalar? && 0.0 <= net.value <= 1.0
  {
    WeightedSumBounds(a);
    if totalWeight > 0.0 {
      QuotientBounds(SumBy(a, Term), totalWeight, 0.0, 1.0);
    }
  }

  /** The weighted sum lies between 0 and the sum of the weights. */
  lemma {:induction false} WeightedSumBounds(a: seq<WorkResult>)
    requires forall i :: 0 <= i < |a| ==> a[i].weight >= 0.0
    requires forall i :: 0 <= i < |a| ==> Effective(a[i]).Some? ==> 0.0 <= Effective(a[i]).value <= 1.0
    ensures 0.0 <= SumBy(a, Term) <= SumBy(a, ResultWeight)
  {
    forall i | 0 <= i < |a|
      ensures 0.0 <= Term(a[i]) <= ResultWeight(a[i])
    {
      TermBounds(a[i]);
    }
    SumByMonotone(a, Term, ResultWeight);
    SumByNonNegative(a, Term);
  }

  lemma TermBounds(r: WorkResult)
    requires r.weight >= 0.0
    requires Effective(r).Some? ==> 0.0 <= Effective(r).value <= 1.0
    ensures 0.0 <= Term(r) <= ResultWeight(r)
  {
    if Effective(r).Some? {
      ProductBounds(Effective(r).value, r.weight);
    }
  }

  lemma ProductBounds(e: real, w: real)
    requires 0.0 <= e <= 1.0 && w >= 0.0
    ensures 0.0 <= e * w <= w
  {
    assert (1.0 - e) * w >= 0.0;
  }

  /** Under a valid schedule, the arrivals' weights are the accepted lines'
      weights: their sum is the total weight and none is negative. */
  lemma {:induction false} ScheduledWeights(lines: seq<string>, store: map<string, Arg>, registry: map<string, nat>,
                                            runs: seq<ScorerRun>, arrivals: seq<WorkResult>)
    requires ParseLines(lines, registry, WithLogQueue(store)).Parsed?
    requires Schedules(ParseLines(lines, registry, WithLogQueue(store)), runs, arrivals)
    ensures var p := ParseLines(lines, registry, WithLogQueue(store));
      && p.totalWeight == SumBy(arrivals, ResultWeight)
      && (forall i :: 0 <= i < |arrivals| ==> arrivals[i].weight >= 0.0)
  {
    var p := ParseLines(lines, registry, WithLogQueue(store));
    ParseFacts(lines, registry, WithLogQueue(store));
    var d := Dispatch(p.tasks, runs);
    SumByPermutation(arrivals, d, ResultWeight);
    DispatchWeights(p.tasks, runs);
    forall i | 0 <= i < |arrivals|
      ensures arrivals[i].weight >= 0.0
    {
      assert arrivals[i] in multiset(d);
      var j :| 0 <= j < |d| && d[j] == arrivals[i];
      assert WellFormed(p.tasks[j], registry, WithLogQueue(store));
    }
  }

  /** For every task file and every order of arrival: when every scorer's
      effective score is between 0 and 1, the net score is too. */
  lemma {:induction false} NetInUnitRange(lines: seq<string>, store: map<string, Arg>, registry: map<string, nat>,
                                          runs: seq<ScorerRun>, arrivals: seq<WorkResult>, span: real)
    requires Schedules(ParseLines(lines, registry, WithLogQueue(store)), runs, arrivals)
    requires forall i :: 0 <= i < |arrivals| ==> Effective(arrivals[i]).Some? ==> 0.0 <= Effective(arrivals[i]).value <= 1.0
    ensures RunOutcome(lines, store, registry, arrivals, span).0.Ok? ==>
      var net := RunOutcome(lines, store, registry, arrivals, span).0.value.scores["net_score"];
      net.Scalar? && 0.0 <= net.value <= 1.0
  {
    var p := ParseLines(lines, registry, WithLogQueue(store));
    if p.Parsed? && p.tasks != [] {
      ScheduledWeights(lines, store, registry, runs, arrivals);
      CollectedNetInUnitRange(arrivals, p.totalWeight, span);
    }
  }

  /** The score map holds exactly the names that arrived, each with the
      score of the last result under that name. */
  lemma {:induction false} LastResultWins(a: seq<WorkResult>, name: string)
    ensures name in ScoresAfter(a) <==> exists i :: 0 <= i < |a| && a[i].name == name
    ensures forall i :: 0 <= i < |a| && a[i].name == name && (forall j :: i < j < |a| ==> a[j].name != name) ==>
      ScoresAfter(a)[name] == a[i].score
    decreases |a|
  {
    if a != [] {
      var init := a[..|a| - 1];
      LastResultWins(init, name);
      assert forall i :: 0 <= i < |init| ==> init[i] == a[i];
    }
  }

  // -------------------------------------------------------------- the logger

  /** A line of the log file: the start banner, one message, the end banner. */
  datatype LogLine<M> = Header | Message(m: M) | Footer

  /** What the logger writes after its banner for the queue contents, where
      `None` is the stop signal. */
  function LogBody<M>(queue: seq<Option<M>>): seq<LogLine<M>>
  {
    if queue == [] then []
    else
      match queue[0]
      case None => [Footer]
      case Some(m) => [Message(m)] + LogBody(queue[1..])
  }

  /** `logger_process`: writes the banner, then each message taken from the
      queue, until the stop signal, which is followed by the end banner.
      `stopped` is false when the queue ran dry with no stop signal, where
      the process would go on waiting. */
  method LoggerProcess<M>(queue: seq<Option<M>>) returns (file: seq<LogLine<M>>, stopped: bool)
    ensures file == [Header] + LogBody(queue)
    ensures stopped <==> None in queue
  {
    file := [Header];
    var i := 0;
    while i < |queue|
      invariant 0 <= i <= |queue|
      invariant file + LogBody(queue[i..]) == [Header] + LogBody(queue)
      invariant None !in queue[..i]
    {
      assert queue[i..][1..] == queue[i + 1..];
      assert queue[..i + 1] == queue[..i] + [queue[i]];
      match queue[i] {
        case None =>
          file := file + [Footer];
          return file, true;
        case Some(m) =>
          file := file + [Message(m)];
      }
      i := i + 1;
    }
    assert queue[..i] == queue;
    stopped := false;
  }

  /** The messages before the stop signal, in queue order, each on a line of
      its own, then the end banner; nothing after the signal is written. */
  lemma {:induction false} LogStopsAtSentinel<M>(before: seq<M>, after: seq<Option<M>>)
    ensures LogBody(seq(|before|, i requires 0 <= i < |before| => Some(before[i])) + [None] + after)
      == seq(|before|, i requires 0 <= i < |before| => Message(before[i])) + [Footer]
    decreases |before|
  {
    var q := seq(|before|, i requires 0 <= i < |before| => Some(before[i])) + [None] + after;
    if before != [] {
      var q' := seq(|before| - 1, i requires 0 <= i < |before| - 1 => Some(before[1..][i])) + [None] + after;
      assert q[1..] == q';
      LogStopsAtSentinel(before[1..], after);
      assert seq(|before|, i requires 0 <= i < |before| => Message(before[i]))
        == [Message(before[0])] + seq(|before| - 1, i requires 0 <= i < |before| - 1 => Message(before[1..][i]));
    } else {
      assert q == [None] + after;
    }
  }
}

/**
 * utils/parse_hyperparam_search.py: rank the values tried for each
 * hyperparameter of a search by the lowest pretraining cost each reached in
 * each layer. The script's directory listing and file contents are the input
 * `files`: one (file name, lines of the file) pair per directory entry, in
 * listing order.
 */
module HyperparamSearch {
  import opened Wrappers
  import opened PyStr
  import opened CostLine
  import opened Ranking

  // ---------------------------------------------------------------------------
  // extract_model_name with the pattern ".*?-([\w]+)-([\w\.]+)-?([\w]+)?-out"

  /** `[\w\.]` */
  predicate IsValueChar(c: char) {
    IsWordChar(c) || c == '.'
  }

  /** A dash at index `i`. */
  predicate DashAt(s: string, i: nat) {
    i < |s| && s[i] == '-'
  }

  /** "-out" at index `i`. */
  predicate OutAt(s: string, i: nat) {
    i + 4 <= |s| && s[i] == '-' && s[i + 1] == 'o' && s[i + 2] == 'u' && s[i + 3] == 't'
  }

  /** The groups of a match: `([\w]+)`, `([\w\.]+)` and the optional `([\w]+)?`. */
  datatype Groups = Groups(hparam: string, value: string, exponent: Option<string>)

  /**
   * `([\w]+)?-out` from index `r`, the group having `n` characters at most:
   * the greedy group is tried with n, n - 1, ..., 1 characters and then
   * skipped. The result is the group (None when skipped), or None when
   * nothing matches.
   */
  function ExponentFrom(s: string, r: nat, n: nat): Option<Option<string>>
    requires r + n <= |s|
    decreases n
  {
    if n == 0 then (if OutAt(s, r) then Some(None) else None)
    else if OutAt(s, r + n) then Some(Some(s[r..r + n]))
    else ExponentFrom(s, r, n - 1)
  }

  function Exponent(s: string, r: nat): Option<Option<string>>
    requires r <= |s|
  {
    ExponentFrom(s, r, Run(s, r, IsWordChar))
  }

  /** `-?([\w]+)?-out` from index `e`: the greedy `-?` is tried with its dash first. */
  function Tail(s: string, e: nat): Option<Option<string>>
    requires e <= |s|
  {
    if DashAt(s, e) && Exponent(s, e + 1).Some? then Exponent(s, e + 1) else Exponent(s, e)
  }

  /** `([\w\.]+)` from index `b` and then the tail, the group tried with n, ..., 1 characters. */
  function ValueFrom(s: string, b: nat, n: nat): Option<(string, Option<string>)>
    requires b + n <= |s|
    decreases n
  {
    if n == 0 then None
    else
      match Tail(s, b + n)
      case Some(x) => Some((s[b..b + n], x))
      case None => ValueFrom(s, b, n - 1)
  }

  /** `([\w]+)-` from index `a` and then the value, the group tried with n, ..., 1 characters. */
  function HparamFrom(s: string, a: nat, n: nat): Option<Groups>
    requires a + n <= |s|
    decreases n
  {
    if n == 0 then None
    else if DashAt(s, a + n) && ValueFrom(s, a + n + 1, Run(s, a + n + 1, IsValueChar)).Some? then
      var (v, x) := ValueFrom(s, a + n + 1, Run(s, a + n + 1, IsValueChar)).value;
      Some(Groups(s[a..a + n], v, x))
    else HparamFrom(s, a, n - 1)
  }

  /** The pattern after `.*?`, tried at index `p`, with the backtracking of a regular expression engine. */
  function MatchAt(s: string, p: nat): Option<Groups>
    requires p <= |s|
  {
    if DashAt(s, p) then HparamFrom(s, p + 1, Run(s, p + 1, IsWordChar)) else None
  }

  /** `.*?` from index `p`: the lazy prefix grows by one non-newline character at a time. */
  function SearchFrom(s: string, p: nat): Option<Groups>
    requires p <= |s|
    decreases |s| - p
  {
    match MatchAt(s, p)
    case Some(g) => Some(g)
    case None =>
      if p < |s| && s[p] != '\n' then SearchFrom(s, p + 1) else None
  }

  /** A maximal run of word characters from `r` right before "-out". */
  function MaximalExponent(s: string, r: nat): Option<string>
    requires r <= |s|
  {
    var w := Run(s, r, IsWordChar);
    if w > 0 && OutAt(s, r + w) then Some(s[r..r + w]) else None
  }

  /**
   * `-?([\w]+)?-out` read without backtracking where the value run ends: an
   * exponent is a dash and a maximal run of word characters right before
   * "-out"; otherwise "--out" or "-out" must follow, with no exponent.
   */
  function MaximalTail(s: string, e: nat): Option<Option<string>>
    requires e <= |s|
  {
    var x := if DashAt(s, e) then MaximalExponent(s, e + 1) else None;
    if x.Some? then Some(x)
    else if (DashAt(s, e) && OutAt(s, e + 1)) || OutAt(s, e) then Some(None)
    else None
  }

  /** `([\w\.]+)` and the tail from index `b`, the group being the maximal run. */
  function MaximalValue(s: string, b: nat): Option<(string, Option<string>)>
    requires b <= |s|
  {
    var e := b + Run(s, b, IsValueChar);
    if e == b then None
    else
      match MaximalTail(s, e)
      case None => None
      case Some(x) => Some((s[b..e], x))
  }

  /** `([\w]+)-` and the value from index `a`, the group being the maximal run. */
  function MaximalHparam(s: string, a: nat): Option<Groups>
    requires a <= |s|
  {
    var n1 := Run(s, a, IsWordChar);
    if n1 == 0 || !DashAt(s, a + n1) then None
    else
      match MaximalValue(s, a + n1 + 1)
      case None => None
      case Some((v, x)) => Some(Groups(s[a..a + n1], v, x))
  }

  /**
   * The same pattern read without backtracking: the hyperparameter and the
   * value are the maximal runs of their classes, followed by the tail.
   */
  function MaximalAt(s: string, p: nat): Option<Groups>
    requires p <= |s|
  {
    if DashAt(s, p) then MaximalHparam(s, p + 1) else None
  }

  /** Only the full run of word characters can be followed by "-out". */
  lemma {:induction false} ExponentShorter(s: string, r: nat, n: nat)
    requires r <= |s| && n < Run(s, r, IsWordChar)
    ensures ExponentFrom(s, r, n) == None
    decreases n
  {
    if n == 0 {
      assert IsWordChar(s[r]);
    } else {
      assert IsWordChar(s[r + n]);
      ExponentShorter(s, r, n - 1);
    }
  }

  lemma ExponentMaximal(s: string, r: nat)
    requires r <= |s|
    ensures var w := Run(s, r, IsWordChar);
      Exponent(s, r) ==
        if w > 0 then (if OutAt(s, r + w) then Some(Some(s[r..r + w])) else None)
        else (if OutAt(s, r) then Some(None) else None)
  {
    var w := Run(s, r, IsWordChar);
    if w > 0 {
      ExponentShorter(s, r, w - 1);
    }
  }

  /** Where the value run ends, the tail reads as the maximal reading says. */
  lemma TailAtEnd(s: string, e: nat)
    requires e <= |s| && (e == |s| || !IsValueChar(s[e]))
    ensures Tail(s, e) == MaximalTail(s, e)
  {
    ExponentMaximal(s, e);
    if DashAt(s, e) {
      ExponentMaximal(s, e + 1);
    }
  }

  /** Inside the value run the tail cannot match unless it already matches at the run's end. */
  lemma TailInsideValue(s: string, b: nat, n: nat)
    requires b <= |s| && n < Run(s, b, IsValueChar)
    requires Tail(s, b + Run(s, b, IsValueChar)) == None
    ensures Tail(s, b + n) == None
  {
    var e := b + Run(s, b, IsValueChar);
    var c := b + n;
    assert IsValueChar(s[c]);
    ExponentMaximal(s, c);
    var w := Run(s, c, IsWordChar);
    if w > 0 {
      assert forall j :: c <= j < c + w ==> IsValueChar(s[j]);
      assert c + w <= e;
      if c + w == e {
        TailAtEnd(s, e);
      }
    }
  }

  lemma {:induction false} ValueShorter(s: string, b: nat, n: nat)
    requires b <= |s| && n < Run(s, b, IsValueChar)
    requires Tail(s, b + Run(s, b, IsValueChar)) == None
    ensures ValueFrom(s, b, n) == None
    decreases n
  {
    if n > 0 {
      TailInsideValue(s, b, n);
      ValueShorter(s, b, n - 1);
    }
  }

  lemma {:induction false} HparamShorter(s: string, a: nat, n: nat)
    requires a <= |s| && n < Run(s, a, IsWordChar)
    ensures HparamFrom(s, a, n) == None
    decreases n
  {
    if n > 0 {
      assert IsWordChar(s[a + n]);
      HparamShorter(s, a, n - 1);
    }
  }

  lemma ValueMaximal(s: string, b: nat)
    requires b <= |s|
    ensures ValueFrom(s, b, Run(s, b, IsValueChar)) == MaximalValue(s, b)
  {
    var n2 := Run(s, b, IsValueChar);
    TailAtEnd(s, b + n2);
    if n2 > 0 && Tail(s, b + n2) == None {
      ValueShorter(s, b, n2 - 1);
    }
  }

  lemma HparamMaximal(s: string, a: nat)
    requires a <= |s|
    ensures HparamFrom(s, a, Run(s, a, IsWordChar)) == MaximalHparam(s, a)
  {
    var n1 := Run(s, a, IsWordChar);
    if n1 > 0 {
      HparamShorter(s, a, n1 - 1);
      if DashAt(s, a + n1) {
        ValueMaximal(s, a + n1 + 1);
      }
    }
  }

  /**
   * Backtracking gains nothing for this pattern: the engine's match at `p` is
   * the maximal reading.
   */
  lemma MatchIsMaximal(s: string, p: nat)
    requires p <= |s|
    ensures MatchAt(s, p) == MaximalAt(s, p)
  {
    if DashAt(s, p) {
      HparamMaximal(s, p + 1);
    }
  }

  /**
   * The lazy search from `p` finds nothing exactly when the pattern matches at
   * no index reached without crossing a newline.
   */
  lemma {:induction false} SearchFromNone(s: string, p: nat)
    requires p <= |s|
    ensures SearchFrom(s, p).None? <==>
      forall q :: p <= q < |s| && NoNewline(s, p, q) ==> MatchAt(s, q).None?
    decreases |s| - p
  {
    if MatchAt(s, p).Some? {
      assert NoNewline(s, p, p);
    } else if p < |s| && s[p] != '\n' {
      SearchFromNone(s, p + 1);
      assert forall q :: p + 1 <= q < |s| ==> (NoNewline(s, p, q) <==> NoNewline(s, p + 1, q));
    } else {
      assert forall q :: p < q < |s| ==> !NoNewline(s, p, q);
    }
  }

  /** A match the lazy search finds is the match at the first index where the pattern matches. */
  lemma {:induction false} SearchFromFirst(s: string, p: nat)
    requires p <= |s|
    requires SearchFrom(s, p).Some?
    ensures exists q :: p <= q < |s| && NoNewline(s, p, q)
                     && (forall q' :: p <= q' < q ==> MatchAt(s, q').None?)
                     && SearchFrom(s, p) == MatchAt(s, q)
    decreases |s| - p
  {
    if MatchAt(s, p).Some? {
      assert NoNewline(s, p, p);
    } else {
      SearchFromFirst(s, p + 1);
      var q :| p + 1 <= q < |s| && NoNewline(s, p + 1, q)
               && (forall q' :: p + 1 <= q' < q ==> MatchAt(s, q').None?)
               && SearchFrom(s, p + 1) == MatchAt(s, q);
      assert NoNewline(s, p, q);
      assert SearchFrom(s, p) == SearchFrom(s, p + 1);
      assert forall q' :: p <= q' < q ==> MatchAt(s, q').None?;
    }
  }

  /** The value text of a match: the exponent, when there is one, is joined back with a dash. */
  function Rejoined(g: Groups): string {
    if g.exponent.Some? then g.value + "-" + g.exponent.value else g.value
  }

  /**
   * The (hyperparameter, value) key of a file as the script means it: the
   * exponent rejoined to the value, and no key for a file the pattern does
   * not match, which is skipped.
   */
  function FileKey(name: string): Option<(string, string)> {
    match SearchFrom(name, 0)
    case None => None
    case Some(g) => Some((g.hparam, Rejoined(g)))
  }

  /** The name of the log of one run of the search: `<prefix>-<param_name>-<value>-out`. */
  function LogName(prefix: string, hparam: string, value: string): string {
    prefix + "-" + hparam + "-" + value + "-out"
  }

  predicate AllWordChars(w: string) {
    forall i :: 0 <= i < |w| ==> IsWordChar(w[i])
  }

  predicate AllValueChars(w: string) {
    forall i :: 0 <= i < |w| ==> IsValueChar(w[i])
  }

  /** The groups a log name can carry: a value such as "0.9", or "1e" and "05" for "1e-05". */
  predicate WellFormedGroups(g: Groups) {
    && |g.hparam| > 0 && AllWordChars(g.hparam)
    && |g.value| > 0 && AllValueChars(g.value)
    && (g.exponent.Some? ==> |g.exponent.value| > 0 && AllWordChars(g.exponent.value))
  }

  /** The unfolding of the maximal reading of a tail with an exponent. */
  lemma MaximalTailWithExponent(s: string, e: nat, x: string)
    requires e + 1 + |x| <= |s| && |x| > 0 && DashAt(s, e)
    requires Run(s, e + 1, IsWordChar) == |x| && s[e + 1..e + 1 + |x|] == x && OutAt(s, e + 1 + |x|)
    ensures MaximalTail(s, e) == Some(Some(x))
  {
  }

  /** The unfolding of the maximal reading of a tail that is "-out" and nothing more. */
  lemma MaximalTailPlain(s: string, e: nat)
    requires e + 4 == |s| && OutAt(s, e)
    ensures MaximalTail(s, e) == Some(None)
  {
    RunIs(s, e + 1, 3, IsWordChar);
  }

  /** The unfolding of the maximal reading of the value, once its run and the tail are known. */
  lemma MaximalValueIs(s: string, b: nat, m: string, exponent: Option<string>)
    requires b <= |s| && |m| > 0 && Run(s, b, IsValueChar) == |m| && s[b..b + |m|] == m
    requires MaximalTail(s, b + |m|) == Some(exponent)
    ensures MaximalValue(s, b) == Some((m, exponent))
  {
  }

  /** The unfolding of the maximal reading of the parameter name, once its run and the value are known. */
  lemma MaximalHparamIs(s: string, a: nat, g: Groups)
    requires a <= |s| && |g.hparam| > 0 && Run(s, a, IsWordChar) == |g.hparam|
    requires s[a..a + |g.hparam|] == g.hparam && DashAt(s, a + |g.hparam|)
    requires MaximalValue(s, a + |g.hparam| + 1) == Some((g.value, g.exponent))
    ensures MaximalHparam(s, a) == Some(g)
  {
  }

  /** `w` stands in `s` from index `i`. */
  predicate Occurs(s: string, i: nat, w: string) {
    i + |w| <= |s| && forall k :: 0 <= k < |w| ==> s[i + k] == w[k]
  }

  /** A run of class `cls` that a non-member ends is the run `Run` finds, and is that slice. */
  lemma RunOf(s: string, i: nat, w: string, cls: char -> bool)
    requires Occurs(s, i, w) && (forall k :: 0 <= k < |w| ==> cls(w[k]))
    requires i + |w| == |s| || !cls(s[i + |w|])
    ensures Run(s, i, cls) == |w| && s[i..i + |w|] == w
  {
    forall j | i <= j < i + |w| ensures cls(s[j]) {
      assert s[i + (j - i)] == w[j - i];
    }
    RunIs(s, i, |w|, cls);
  }

  /** What stands where in a log name. */
  lemma LogNameLayout(prefix: string, g: Groups)
    ensures var s := LogName(prefix, g.hparam, Rejoined(g));
      var a := |prefix| + 1;
      var b := a + |g.hparam| + 1;
      var e := b + |g.value|;
      && Occurs(s, 0, prefix) && DashAt(s, a - 1)
      && Occurs(s, a, g.hparam) && DashAt(s, b - 1)
      && Occurs(s, b, g.value) && DashAt(s, e)
      && (g.exponent.Some? ==>
            && Occurs(s, e + 1, g.exponent.value)
            && |s| == e + 1 + |g.exponent.value| + 4 && OutAt(s, e + 1 + |g.exponent.value|))
      && (g.exponent.None? ==> |s| == e + 4 && OutAt(s, e))
  {
    var s := LogName(prefix, g.hparam, Rejoined(g));
    var tail := if g.exponent.Some? then "-" + g.exponent.value + "-out" else "-out";
    assert s == prefix + "-" + g.hparam + "-" + g.value + tail;
  }

  /** A tail laid out as a dash, the exponent and "-out", or as "-out" alone, reads as that exponent. */
  lemma TailOfLayout(s: string, e: nat, exponent: Option<string>)
    requires e <= |s| && DashAt(s, e)
    requires exponent.Some? ==>
      var x := exponent.value;
      |x| > 0 && AllWordChars(x) && Occurs(s, e + 1, x) && |s| == e + 1 + |x| + 4 && OutAt(s, e + 1 + |x|)
    requires exponent.None? ==> |s| == e + 4 && OutAt(s, e)
    ensures MaximalTail(s, e) == Some(exponent)
  {
    if exponent.Some? {
      var x := exponent.value;
      RunOf(s, e + 1, x, IsWordChar);
      MaximalTailWithExponent(s, e, x);
    } else {
      MaximalTailPlain(s, e);
    }
  }

  /** A value laid out before a dash and the tail reads as the value and the exponent. */
  lemma ValueOfLayout(s: string, b: nat, g: Groups)
    requires WellFormedGroups(g)
    requires var e := b + |g.value|;
      && e <= |s| && Occurs(s, b, g.value) && DashAt(s, e)
      && (g.exponent.Some? ==>
            && Occurs(s, e + 1, g.exponent.value)
            && |s| == e + 1 + |g.exponent.value| + 4 && OutAt(s, e + 1 + |g.exponent.value|))
      && (g.exponent.None? ==> |s| == e + 4 && OutAt(s, e))
    ensures MaximalValue(s, b) == Some((g.value, g.exponent))
  {
    var e := b + |g.value|;
    assert MaximalTail(s, e) == Some(g.exponent) by {
      TailOfLayout(s, e, g.exponent);
    }
    assert Run(s, b, IsValueChar) == |g.value| && s[b..e] == g.value by {
      RunOf(s, b, g.value, IsValueChar);
    }
    MaximalValueIs(s, b, g.value, g.exponent);
  }

  /** A parameter name laid out before a dash and a value that reads as `g` reads as the groups `g`. */
  lemma HparamOfLayout(s: string, a: nat, g: Groups)
    requires WellFormedGroups(g)
    requires a + |g.hparam| < |s| && Occurs(s, a, g.hparam) && DashAt(s, a + |g.hparam|)
    requires MaximalValue(s, a + |g.hparam| + 1) == Some((g.value, g.exponent))
    ensures MaximalHparam(s, a) == Some(g)
  {
    assert Run(s, a, IsWordChar) == |g.hparam| && s[a..a + |g.hparam|] == g.hparam by {
      RunOf(s, a, g.hparam, IsWordChar);
    }
    MaximalHparamIs(s, a, g);
  }

  /** The unfolding of the maximal reading at a dash. */
  lemma MaximalAtIs(s: string, p: nat, g: Groups)
    requires p < |s| && DashAt(s, p) && MaximalHparam(s, p + 1) == Some(g)
    ensures MaximalAt(s, p) == Some(g)
  {
  }

  /** Groups laid out after a dash at `p` read back as those groups. */
  lemma MaximalAtOfLayout(s: string, p: nat, g: Groups)
    requires WellFormedGroups(g)
    requires var a := p + 1;
      var b := a + |g.hparam| + 1;
      var e := b + |g.value|;
      && DashAt(s, a - 1)
      && Occurs(s, a, g.hparam) && DashAt(s, b - 1)
      && Occurs(s, b, g.value) && DashAt(s, e)
      && (g.exponent.Some? ==>
            && Occurs(s, e + 1, g.exponent.value)
            && |s| == e + 1 + |g.exponent.value| + 4 && OutAt(s, e + 1 + |g.exponent.value|))
      && (g.exponent.None? ==> |s| == e + 4 && OutAt(s, e))
    ensures MaximalAt(s, p) == Some(g)
  {
    var b := p + 1 + |g.hparam| + 1;
    assert MaximalValue(s, b) == Some((g.value, g.exponent)) by {
      ValueOfLayout(s, b, g);
    }
    assert MaximalHparam(s, p + 1) == Some(g) by {
      HparamOfLayout(s, p + 1, g);
    }
    MaximalAtIs(s, p, g);
  }

  /** The pattern reads the groups back out of the name built from them, at the dash after the prefix. */
  lemma MaximalAtLogName(prefix: string, g: Groups)
    requires WellFormedGroups(g)
    ensures MaximalAt(LogName(prefix, g.hparam, Rejoined(g)), |prefix|) == Some(g)
  {
    LogNameLayout(prefix, g);
    MaximalAtOfLayout(LogName(prefix, g.hparam, Rejoined(g)), |prefix|, g);
  }

  /**
   * Log names round-trip: from `<prefix>-<param_name>-<value>-out`, with a
   * prefix holding no dash, the script reads back the parameter name and the
   * value, a value in scientific notation included.
   */
  lemma LogNameRoundTrip(prefix: string, g: Groups)
    requires forall i :: 0 <= i < |prefix| ==> prefix[i] != '-' && prefix[i] != '\n'
    requires WellFormedGroups(g)
    ensures FileKey(LogName(prefix, g.hparam, Rejoined(g))) == Some((g.hparam, Rejoined(g)))
  {
    var s := LogName(prefix, g.hparam, Rejoined(g));
    var p := |prefix|;
    assert p < |s| && NoNewline(s, 0, p) && forall q :: 0 <= q < p ==> !DashAt(s, q) by {
      assert s == prefix + ("-" + g.hparam + "-" + Rejoined(g) + "-out");
      assert forall i :: 0 <= i < p ==> s[i] == prefix[i];
    }
    assert MatchAt(s, p) == Some(g) by {
      MaximalAtLogName(prefix, g);
      MatchIsMaximal(s, p);
    }
    SearchReaches(s, 0, p, g);
  }

  /** The lazy search from `i` returns the match at `p` when it matches nowhere before and no newline stands between. */
  lemma {:induction false} SearchReaches(s: string, i: nat, p: nat, g: Groups)
    requires i <= p < |s| && NoNewline(s, i, p)
    requires forall q :: i <= q < p ==> !DashAt(s, q)
    requires MatchAt(s, p) == Some(g)
    ensures SearchFrom(s, i) == Some(g)
    decreases p - i
  {
    if i < p {
      assert MatchAt(s, i) == None;
      SearchReaches(s, i + 1, p, g);
    }
  }

  /** The docstring's form with a plain value. */
  lemma PlainValueExample()
    ensures FileKey("hyperparam_search-momentum-0.9-out") == Some(("momentum", "0.9"))
  {
    var g := Groups("momentum", "0.9", None);
    assert "hyperparam_search-momentum-0.9-out" == LogName("hyperparam_search", g.hparam, Rejoined(g));
    assert Rejoined(g) == "0.9";
    ExampleGroups();
    LogNameRoundTrip("hyperparam_search", g);
  }

  /** The docstring's form with a value in scientific notation: "1e-05" is split by the pattern and rejoined. */
  lemma ScientificValueExample()
    ensures FileKey("hyperparam_search-learning_rate-1e-05-out") == Some(("learning_rate", "1e-05"))
  {
    var g := Groups("learning_rate", "1e", Some("05"));
    assert "hyperparam_search-learning_rate-1e-05-out" == LogName("hyperparam_search", g.hparam, Rejoined(g));
    assert Rejoined(g) == "1e-05";
    ExampleGroups();
    LogNameRoundTrip("hyperparam_search", g);
  }

  lemma ExampleGroups()
    ensures forall i :: 0 <= i < |"hyperparam_search"| ==> "hyperparam_search"[i] != '-' && "hyperparam_search"[i] != '\n'
    ensures WellFormedGroups(Groups("momentum", "0.9", None))
    ensures WellFormedGroups(Groups("learning_rate", "1e", Some("05")))
  {
  }
}

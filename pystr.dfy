/**
 * The parts of Python 2's `str` that the log analysers rely on: `startswith`,
 * `split(sep)` with a one-character separator, `split()` with no argument,
 * and `%d` formatting of a non-negative integer.
 */
module PyStr {

  /** `str.isspace` on one character of a byte string: space, \t, \n, \v, \f, \r. */
  predicate IsSpace(c: char) {
    c == ' ' || 9 <= c as int <= 13
  }

  predicate IsNonSpace(c: char) {
    !IsSpace(c)
  }

  predicate IsDigit(c: char) {
    '0' <= c <= '9'
  }

  /** The regular-expression class `\w` without the UNICODE or LOCALE flag. */
  predicate IsWordChar(c: char) {
    'a' <= c <= 'z' || 'A' <= c <= 'Z' || IsDigit(c) || c == '_'
  }

  /** `s.startswith(prefix)` */
  predicate StartsWith(s: string, prefix: string) {
    |prefix| <= |s| && s[..|prefix|] == prefix
  }

  /** `lit` occurs in `s` at index `i` */
  predicate HasAt(s: string, i: nat, lit: string) {
    i + |lit| <= |s| && s[i..i + |lit|] == lit
  }

  /** The length of the longest run of characters of class `cls` in `s` from index `i`. */
  function Run(s: string, i: nat, cls: char -> bool): (n: nat)
    requires i <= |s|
    ensures i + n <= |s|
    ensures forall j :: i <= j < i + n ==> cls(s[j])
    ensures i + n == |s| || !cls(s[i + n])
    decreases |s| - i
  {
    if i == |s| || !cls(s[i]) then 0 else 1 + Run(s, i + 1, cls)
  }

  // ---------------------------------------------------------------------------
  // s.split(sep)

  /** The index of the first `sep` in `s`, or `|s|` when there is none. */
  function FieldLen(s: string, sep: char): (n: nat)
    ensures n <= |s|
    ensures sep !in s[..n]
    ensures n < |s| ==> s[n] == sep
  {
    if s == [] || s[0] == sep then 0
    else
      var n := 1 + FieldLen(s[1..], sep);
      assert s[..n] == [s[0]] + s[1..][..n - 1];
      n
  }

  /** `s.split(sep)`: the pieces between separators, empty pieces included. */
  function Split(s: string, sep: char): (fields: seq<string>)
    ensures |fields| >= 1
    ensures forall k :: 0 <= k < |fields| ==> sep !in fields[k]
    decreases |s|
  {
    var n := FieldLen(s, sep);
    if n == |s| then [s] else [s[..n]] + Split(s[n + 1..], sep)
  }

  /** `sep.join(fields)` */
  function Join(fields: seq<string>, sep: char): string
    requires |fields| >= 1
  {
    if |fields| == 1 then fields[0] else fields[0] + [sep] + Join(fields[1..], sep)
  }

  /** Joining the pieces of a split gives back the string. */
  lemma {:induction false} JoinSplit(s: string, sep: char)
    ensures Join(Split(s, sep), sep) == s
    decreases |s|
  {
    var n := FieldLen(s, sep);
    if n < |s| {
      var rest := Split(s[n + 1..], sep);
      assert Split(s, sep) == [s[..n]] + rest;
      JoinCons(s[..n], rest, sep);
      JoinSplit(s[n + 1..], sep);
      assert s == s[..n] + [sep] + s[n + 1..];
    }
  }

  lemma JoinCons(field: string, rest: seq<string>, sep: char)
    requires |rest| >= 1
    ensures Join([field] + rest, sep) == field + [sep] + Join(rest, sep)
  {
    assert ([field] + rest)[1..] == rest;
  }

  /** Splitting a join of separator-free pieces gives back the pieces. */
  lemma {:induction false} SplitJoin(fields: seq<string>, sep: char)
    requires |fields| >= 1
    requires forall k :: 0 <= k < |fields| ==> sep !in fields[k]
    ensures Split(Join(fields, sep), sep) == fields
  {
    var s := Join(fields, sep);
    if |fields| == 1 {
      FieldLenOfFree(s, sep);
    } else {
      var rest := Join(fields[1..], sep);
      assert s == fields[0] + ([sep] + rest);
      FieldLenUpTo(fields[0], [sep] + rest, sep);
      assert s[|fields[0]| + 1..] == rest;
      SplitJoin(fields[1..], sep);
    }
  }

  /** The number of pieces is one more than the number of separators. */
  lemma {:induction false} SplitCount(s: string, sep: char)
    ensures |Split(s, sep)| == multiset(s)[sep] + 1
    decreases |s|
  {
    var n := FieldLen(s, sep);
    assert multiset(s)[sep] == multiset(s[..n])[sep] + multiset(s[n..])[sep] by {
      assert s == s[..n] + s[n..];
    }
    assert multiset(s[..n])[sep] == 0;
    if n < |s| {
      assert multiset(s[n..])[sep] == 1 + multiset(s[n + 1..])[sep] by {
        assert s[n..] == [sep] + s[n + 1..];
      }
      assert |Split(s, sep)| == 1 + |Split(s[n + 1..], sep)|;
      SplitCount(s[n + 1..], sep);
    }
  }

  /** Three separator-free pieces joined by the separator split back into those pieces. */
  lemma SplitThree(a: string, b: string, c: string, sep: char)
    requires sep !in a && sep !in b && sep !in c
    ensures Split(a + [sep] + b + [sep] + c, sep) == [a, b, c]
  {
    var fields := [a, b, c];
    assert Join(fields, sep) == a + [sep] + b + [sep] + c by {
      assert Join([c], sep) == c;
      JoinCons(b, [c], sep);
      JoinCons(a, [b, c], sep);
      assert [a] + [b, c] == fields && [b] + [c] == [b, c];
    }
    SplitJoin(fields, sep);
  }

  lemma FieldLenOfFree(s: string, sep: char)
    requires sep !in s
    ensures FieldLen(s, sep) == |s|
  {
  }

  lemma FieldLenUpTo(a: string, b: string, sep: char)
    requires sep !in a
    requires |b| > 0 && b[0] == sep
    ensures FieldLen(a + b, sep) == |a|
  {
    var n := FieldLen(a + b, sep);
    assert (a + b)[|a|] == sep;
    assert forall i :: 0 <= i < |a| ==> (a + b)[i] == a[i];
  }

  // ---------------------------------------------------------------------------
  // s.split()

  /** A piece that `split()` can return: non-empty, without whitespace. */
  predicate IsWord(w: string) {
    |w| > 0 && forall i :: 0 <= i < |w| ==> !IsSpace(w[i])
  }

  /** `s.split()`: the maximal runs of non-whitespace characters, in order. */
  function Words(s: string): (ws: seq<string>)
    ensures forall k :: 0 <= k < |ws| ==> IsWord(ws[k])
    decreases |s|
  {
    if s == [] then []
    else if IsSpace(s[0]) then Words(s[1..])
    else
      var n := Run(s, 0, IsNonSpace);
      [s[..n]] + Words(s[n..])
  }

  /** `" ".join(ws)` */
  function Unwords(ws: seq<string>): string {
    if ws == [] then "" else if |ws| == 1 then ws[0] else ws[0] + " " + Unwords(ws[1..])
  }

  lemma WordsSkipSpace(c: char, s: string)
    requires IsSpace(c)
    ensures Words([c] + s) == Words(s)
  {
    assert ([c] + s)[1..] == s;
  }

  lemma {:induction false} WordsSkipSpaces(sp: string, s: string)
    requires forall i :: 0 <= i < |sp| ==> IsSpace(sp[i])
    ensures Words(sp + s) == Words(s)
  {
    if sp == [] {
      assert sp + s == s;
    } else {
      assert sp + s == [sp[0]] + (sp[1..] + s);
      WordsSkipSpace(sp[0], sp[1..] + s);
      WordsSkipSpaces(sp[1..], s);
    }
  }

  /** A word followed by whitespace or by nothing is the first piece of `split()`. */
  lemma WordsCons(w: string, rest: string)
    requires IsWord(w)
    requires rest == [] || IsSpace(rest[0])
    ensures Words(w + rest) == [w] + Words(rest)
  {
    var s := w + rest;
    var n := Run(s, 0, IsNonSpace);
    assert forall i :: 0 <= i < |w| ==> s[i] == w[i] && IsNonSpace(s[i]);
    assert rest != [] ==> s[|w|] == rest[0] && !IsNonSpace(s[|w|]);
    assert n == |w|;
    assert s[..n] == w && s[n..] == rest;
  }

  /** `split()` undoes `" ".join` of words. */
  lemma {:induction false} WordsUnwords(ws: seq<string>)
    requires forall k :: 0 <= k < |ws| ==> IsWord(ws[k])
    ensures Words(Unwords(ws)) == ws
  {
    if |ws| == 1 {
      WordsCons(ws[0], "");
      assert ws[0] + "" == ws[0];
    } else if |ws| > 1 {
      var rest := Unwords(ws[1..]);
      assert Unwords(ws) == ws[0] + (" " + rest);
      WordsCons(ws[0], " " + rest);
      WordsSkipSpace(' ', rest);
      WordsUnwords(ws[1..]);
    }
  }

  // ---------------------------------------------------------------------------
  // '%d' % n for n >= 0

  function Digit(d: nat): (c: char)
    requires d < 10
    ensures IsDigit(c)
  {
    "0123456789"[d]
  }

  predicate AllDigits(s: string) {
    forall i :: 0 <= i < |s| ==> IsDigit(s[i])
  }

  /** `'%d' % n` for a non-negative `n`: decimal digits without leading zeros. */
  function Decimal(n: nat): (s: string)
    ensures |s| > 0 && AllDigits(s)
    ensures |s| > 1 ==> s[0] != '0'
    decreases n
  {
    if n < 10 then [Digit(n)] else Decimal(n / 10) + [Digit(n % 10)]
  }

  /** The number a string of decimal digits denotes. */
  function DecimalValue(s: string): nat
    requires AllDigits(s)
  {
    if s == [] then 0 else 10 * DecimalValue(s[..|s| - 1]) + (s[|s| - 1] as int - '0' as int)
  }

  /** Reading back what `%d` wrote gives the number. */
  lemma {:induction false} DecimalRoundTrip(n: nat)
    ensures DecimalValue(Decimal(n)) == n
    decreases n
  {
    if n >= 10 {
      var s := Decimal(n);
      assert s[..|s| - 1] == Decimal(n / 10);
      DecimalRoundTrip(n / 10);
    }
  }

  /** A decimal token is a word without commas. */
  lemma DecimalIsWord(n: nat)
    ensures IsWord(Decimal(n)) && ',' !in Decimal(n)
  {
    var s := Decimal(n);
    assert forall i :: 0 <= i < |s| ==> s[i] != ',';
  }

  /** A run of `k` characters of class `cls` that ends where the class does is the run `Run` finds. */
  lemma RunIs(s: string, i: nat, k: nat, cls: char -> bool)
    requires i + k <= |s|
    requires forall j :: i <= j < i + k ==> cls(s[j])
    requires i + k == |s| || !cls(s[i + k])
    ensures Run(s, i, cls) == k
  {
  }

  /** `s[from..to]` has no newline: `.` without DOTALL matches anything but a newline. */
  predicate NoNewline(s: string, from: nat, to: nat) {
    forall i :: from <= i < to && i < |s| ==> s[i] != '\n'
  }
}

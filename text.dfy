/**
 * The string operations the bot's command handling relies on: Python's
 * `str.split()` with no argument, `str.lower()` as far as comparing with the
 * fixed ASCII command verbs is concerned, `int()` on a single token, `" ".join`,
 * and the `/logs` excerpt.
 */
module Text {
  import opened Wrappers

  /** The characters Python's `str.split()` treats as separators. */
  predicate IsSpace(c: char) {
    var n := c as int;
    (9 <= n <= 13) || (28 <= n <= 32) || n == 0x85 || n == 0xA0 || n == 0x1680
    || (0x2000 <= n <= 0x200A) || n == 0x2028 || n == 0x2029 || n == 0x202F
    || n == 0x205F || n == 0x3000
  }

  predicate NoSpace(w: string) {
    forall i :: 0 <= i < |w| ==> !IsSpace(w[i])
  }

  /** A token that `str.split()` can produce. */
  predicate IsWord(w: string) {
    |w| > 0 && NoSpace(w)
  }

  /** The longest prefix of `s` without a separator. */
  function LeadingWord(s: string): (w: string)
    ensures |w| <= |s| && w == s[..|w|]
    ensures NoSpace(w)
    ensures |w| == |s| || IsSpace(s[|w|])
    ensures |s| > 0 && !IsSpace(s[0]) ==> |w| > 0
  {
    if s == [] || IsSpace(s[0]) then [] else [s[0]] + LeadingWord(s[1..])
  }

  /** `s.split()`: the maximal runs of non-separators, in order. */
  function Split(s: string): (words: seq<string>)
    ensures forall i :: 0 <= i < |words| ==> IsWord(words[i])
    ensures |s| > 0 && !IsSpace(s[0]) ==> |words| > 0 && words[0] == LeadingWord(s)
    decreases |s|
  {
    if s == [] then []
    else if IsSpace(s[0]) then Split(s[1..])
    else
      var w := LeadingWord(s);
      [w] + Split(s[|w|..])
  }

  /** `" ".join(words)`. */
  function JoinWords(words: seq<string>): string {
    if |words| == 0 then ""
    else if |words| == 1 then words[0]
    else words[0] + " " + JoinWords(words[1..])
  }

  lemma {:induction false} LeadingWordOf(w: string, rest: string)
    requires NoSpace(w)
    requires rest == [] || IsSpace(rest[0])
    ensures LeadingWord(w + rest) == w
  {
    if w != [] {
      assert (w + rest)[0] == w[0];
      assert (w + rest)[1..] == w[1..] + rest;
      LeadingWordOf(w[1..], rest);
    } else {
      assert w + rest == rest;
    }
  }

  /** Splitting a space-joined list of tokens gives the tokens back. */
  lemma {:induction false} SplitJoin(words: seq<string>)
    requires forall i :: 0 <= i < |words| ==> IsWord(words[i])
    ensures Split(JoinWords(words)) == words
  {
    if |words| == 1 {
      var w := words[0];
      LeadingWordOf(w, []);
      assert w + [] == w;
      assert w[|w|..] == [];
    } else if |words| > 1 {
      var w := words[0];
      var tail := JoinWords(words[1..]);
      var s := w + " " + tail;
      assert s == w + (" " + tail);
      LeadingWordOf(w, " " + tail);
      assert s[0] == w[0];
      assert s[|w|..] == " " + tail;
      assert (" " + tail)[1..] == tail;
      SplitJoin(words[1..]);
    }
  }

  /** A run of separators (possibly empty). */
  predicate Spaces(sp: string) {
    forall i :: 0 <= i < |sp| ==> IsSpace(sp[i])
  }

  /**
   * The text `seps[0] + words[0] + seps[1] + ... + words[n - 1] + seps[n]`:
   * tokens laid out with arbitrary separator runs between, before and after them.
   */
  function Layout(words: seq<string>, seps: seq<string>): string
    requires |seps| == |words| + 1
    decreases |words|
  {
    if words == [] then seps[0] else seps[0] + words[0] + Layout(words[1..], seps[1..])
  }

  /** Leading separators are skipped. */
  lemma {:induction false} SplitAfterSpaces(sp: string, rest: string)
    requires Spaces(sp)
    ensures Split(sp + rest) == Split(rest)
    decreases |sp|
  {
    if sp != [] {
      assert (sp + rest)[0] == sp[0];
      assert (sp + rest)[1..] == sp[1..] + rest;
      SplitAfterSpaces(sp[1..], rest);
    } else {
      assert sp + rest == rest;
    }
  }

  /** A token followed by a separator (or by nothing) is the first token. */
  lemma SplitAfterWord(w: string, rest: string)
    requires IsWord(w)
    requires rest == [] || IsSpace(rest[0])
    ensures Split(w + rest) == [w] + Split(rest)
  {
    LeadingWordOf(w, rest);
    assert (w + rest)[0] == w[0];
    assert (w + rest)[|w|..] == rest;
  }

  /**
   * `str.split()` undoes any layout: every run of separators between two tokens
   * counts as one separator, and runs before the first and after the last
   * token are dropped.
   */
  lemma {:induction false} SplitLayout(words: seq<string>, seps: seq<string>)
    requires |seps| == |words| + 1
    requires forall i :: 0 <= i < |words| ==> IsWord(words[i])
    requires forall i :: 0 <= i < |seps| ==> Spaces(seps[i])
    requires forall i :: 0 < i < |words| ==> seps[i] != []
    ensures Split(Layout(words, seps)) == words
    decreases |words|
  {
    if words == [] {
      SplitAfterSpaces(seps[0], []);
      assert seps[0] + [] == seps[0];
    } else {
      var tailWords, tailSeps := words[1..], seps[1..];
      var rest := Layout(tailWords, tailSeps);
      LayoutStart(tailWords, tailSeps);
      SplitLayout(tailWords, tailSeps);
      SplitAfterWord(words[0], rest);
      SplitAfterSpaces(seps[0], words[0] + rest);
      ConcatAssociates(seps[0], words[0], rest);
    }
  }

  /** A layout whose first run is non-empty (or that has no token) starts with a separator, if anywhere. */
  lemma LayoutStart(words: seq<string>, seps: seq<string>)
    requires |seps| == |words| + 1
    requires Spaces(seps[0])
    requires words != [] ==> seps[0] != []
    ensures var t := Layout(words, seps); t == [] || IsSpace(t[0])
  {
    if words != [] {
      assert Layout(words, seps)[0] == seps[0][0];
    }
  }

  lemma ConcatAssociates(x: string, y: string, z: string)
    ensures x + y + z == x + (y + z)
  {
  }

  /** A single token splits into itself. */
  lemma SplitWord(w: string)
    requires IsWord(w)
    ensures Split(w) == [w]
  {
    SplitJoin([w]);
  }

  /**
   * One character of `str.lower()`, exact whenever the result is compared with
   * an ASCII word: the only characters that Python lowers to an ASCII letter are
   * 'A'..'Z' and U+212A KELVIN SIGN (to 'k'); every other character either stays
   * as it is or lowers to something that is not ASCII either.
   */
  function LowerChar(c: char): char {
    if 'A' <= c <= 'Z' then (c as int + 32) as char
    else if c == '\U{212A}' then 'k'
    else c
  }

  function Lower(s: string): (r: string)
    ensures |r| == |s|
    ensures forall i :: 0 <= i < |s| ==> r[i] == LowerChar(s[i])
  {
    if s == [] then [] else [LowerChar(s[0])] + Lower(s[1..])
  }

  /** A string that `str.lower()` leaves as it is. */
  lemma LowerUnchanged(w: string)
    requires forall i :: 0 <= i < |w| ==> LowerChar(w[i]) == w[i]
    ensures Lower(w) == w
  {
  }

  predicate IsDigit(c: char) {
    '0' <= c <= '9'
  }

  predicate AllDigits(s: string) {
    forall i :: 0 <= i < |s| ==> IsDigit(s[i])
  }

  function DigitValue(c: char): nat
    requires IsDigit(c)
  {
    c as int - '0' as int
  }

  function DigitChar(d: nat): (c: char)
    requires d < 10
    ensures IsDigit(c) && DigitValue(c) == d
  {
    ('0' as int + d) as char
  }

  /** Digits with single underscores between them, as `int()` accepts in base 10. */
  predicate IsDigitGroups(s: string) {
    && |s| > 0 && IsDigit(s[0]) && IsDigit(s[|s| - 1])
    && (forall i :: 0 <= i < |s| ==> IsDigit(s[i]) || s[i] == '_')
    && (forall i :: 0 <= i < |s| - 1 ==> s[i] == '_' ==> s[i + 1] != '_')
  }

  /** The digits of `s` with the underscores dropped. */
  function DropUnderscores(s: string): (r: string)
    requires forall i :: 0 <= i < |s| ==> IsDigit(s[i]) || s[i] == '_'
    ensures AllDigits(r)
    ensures AllDigits(s) ==> r == s
  {
    if s == [] then []
    else (if s[0] == '_' then [] else [s[0]]) + DropUnderscores(s[1..])
  }

  /** The number a non-empty run of decimal digits denotes. */
  function DecimalValue(ds: string): nat
    requires AllDigits(ds)
    decreases |ds|
  {
    if ds == [] then 0 else 10 * DecimalValue(ds[..|ds| - 1]) + DigitValue(ds[|ds| - 1])
  }

  /** Python's `int(token)` for a token without surrounding whitespace; `None` is the `ValueError`. */
  function ParseInt(s: string): Option<int> {
    if |s| > 0 && (s[0] == '+' || s[0] == '-') then
      var body := s[1..];
      if IsDigitGroups(body) then
        var n: int := DecimalValue(DropUnderscores(body));
        Some(if s[0] == '-' then -n else n)
      else None
    else if IsDigitGroups(s) then Some(DecimalValue(DropUnderscores(s)))
    else None
  }

  /** `str(n)` for a natural number. */
  function NatToString(n: nat): (s: string)
    ensures |s| > 0 && AllDigits(s)
  {
    if n < 10 then [DigitChar(n)] else NatToString(n / 10) + [DigitChar(n % 10)]
  }

  /** `str(n)`, the form in which the bot prints ids. */
  function IntToString(n: int): string {
    if n < 0 then "-" + NatToString(-n) else NatToString(n)
  }

  lemma {:induction false} DecimalOfNatToString(n: nat)
    ensures DecimalValue(NatToString(n)) == n
  {
    var s := NatToString(n);
    if n >= 10 {
      assert s[..|s| - 1] == NatToString(n / 10);
      DecimalOfNatToString(n / 10);
    } else {
      assert s[..|s| - 1] == [];
    }
  }

  /** `int(str(n)) == n`. */
  lemma ParseIntRoundTrip(n: int)
    ensures ParseInt(IntToString(n)) == Some(n)
  {
    var m: nat := if n < 0 then -n else n;
    var digits := NatToString(m);
    DecimalOfNatToString(m);
    assert IsDigitGroups(digits);
    if n < 0 {
      assert IntToString(n)[1..] == digits;
    }
  }

  /** A printed id is a single token. */
  lemma IntToStringIsWord(n: int)
    ensures IsWord(IntToString(n))
  {
    var m: nat := if n < 0 then -n else n;
    var digits := NatToString(m);
    assert NoSpace(digits) by {
      forall i | 0 <= i < |digits| ensures !IsSpace(digits[i]) {
        assert IsDigit(digits[i]);
      }
    }
  }

  const LOG_BUDGET: nat := 4000
  const LOG_TAIL: nat := 10

  /** The fixed heading of the `/logs` reply (19 characters). */
  const LOGS_HEADER: string :=
    "\U{1F4CB} \U{041F}\U{043E}\U{0441}\U{043B}\U{0435}\U{0434}\U{043D}\U{0438}\U{0435} \U{043B}\U{043E}\U{0433}\U{0438}:\n\n"

  function Concat(parts: seq<string>): string {
    if parts == [] then "" else parts[0] + Concat(parts[1..])
  }

  /** `lines[-n:]`. */
  function LastLines(lines: seq<string>, n: nat): (r: seq<string>)
    ensures |r| == if |lines| < n then |lines| else n
    ensures lines == lines[..|lines| - |r|] + r
  {
    if |lines| >= n then lines[|lines| - n..] else lines
  }

  /** The `/logs` reply text for a log file whose lines (with their newlines) are `lines`. */
  function LogExcerpt(lines: seq<string>): (r: string)
    ensures |r| <= LOG_BUDGET + 3
    ensures |LOGS_HEADER| <= |r| && r[..|LOGS_HEADER|] == LOGS_HEADER
    ensures var full := LOGS_HEADER + Concat(LastLines(lines, LOG_TAIL));
      (|full| <= LOG_BUDGET ==> r == full)
      && (|full| > LOG_BUDGET ==> r == full[..LOG_BUDGET] + "..." && full[..LOG_BUDGET] <= full)
  {
    var full := LOGS_HEADER + Concat(LastLines(lines, LOG_TAIL));
    if |full| > LOG_BUDGET then full[..LOG_BUDGET] + "..." else full
  }
}

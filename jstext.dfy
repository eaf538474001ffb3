/** The few JavaScript built-ins on strings and numbers that the plugins rely on,
    stated over `seq<char>`. */
module Common {
  /** A JavaScript value that may be `undefined`/`null`. */
  datatype Option<+T> = None | Some(value: T)
}

module JsText {
  import opened Common

  /** The characters `String.prototype.trim` removes: WhiteSpace (TAB, VT, FF, ZWNBSP and
      every space separator) and LineTerminator (LF, CR, LS, PS). */
  predicate IsTrimSpace(c: char)
  {
    || c == '\t' || c == '\n' || c == '\U{000B}' || c == '\U{000C}' || c == '\r'
    || c == ' ' || c == '\U{00A0}' || c == '\U{1680}' || ('\U{2000}' <= c <= '\U{200A}')
    || c == '\U{2028}' || c == '\U{2029}' || c == '\U{202F}' || c == '\U{205F}'
    || c == '\U{3000}' || c == '\U{FEFF}'
  }

  /** The characters a regular-expression `.` does not match (the line terminators). */
  predicate IsLineTerminator(c: char)
  {
    c == '\n' || c == '\r' || c == '\U{2028}' || c == '\U{2029}'
  }

  /** `s.trimStart()`. */
  function TrimStart(s: string): string
  {
    if s != [] && IsTrimSpace(s[0]) then TrimStart(s[1..]) else s
  }

  /** `s.trimEnd()`. */
  function TrimEnd(s: string): string
  {
    if s != [] && IsTrimSpace(s[|s| - 1]) then TrimEnd(s[..|s| - 1]) else s
  }

  /** `s.trim()`. */
  function Trim(s: string): string
  {
    TrimEnd(TrimStart(s))
  }

  /** `trimStart` drops the leading run of trim spaces, and only that. */
  lemma {:induction false} TrimStartShape(s: string)
    ensures var r := TrimStart(s);
      && |r| <= |s| && r == s[|s| - |r|..]
      && (forall i :: 0 <= i < |s| - |r| ==> IsTrimSpace(s[i]))
      && (r == [] || !IsTrimSpace(r[0]))
  {
    if s != [] && IsTrimSpace(s[0]) {
      var t := s[1..];
      TrimStartShape(t);
      var r := TrimStart(t);
      assert TrimStart(s) == r;
      assert r == s[|s| - |r|..] by {
        assert t[|t| - |r|..] == s[|s| - |r|..];
      }
      forall i | 0 <= i < |s| - |r| ensures IsTrimSpace(s[i]) {
        if i > 0 {
          assert s[i] == t[i - 1];
        }
      }
    }
  }

  /** `trimEnd` drops the trailing run of trim spaces, and only that. */
  lemma {:induction false} TrimEndShape(s: string)
    ensures var r := TrimEnd(s);
      && |r| <= |s| && r == s[..|r|]
      && (forall i :: |r| <= i < |s| ==> IsTrimSpace(s[i]))
      && (r == [] || !IsTrimSpace(r[|r| - 1]))
  {
    if s != [] && IsTrimSpace(s[|s| - 1]) {
      TrimEndShape(s[..|s| - 1]);
    }
  }

  /** A trimmed string has no trim space at either end, and is the middle of its input
      with only trim spaces cut away on both sides (`k` of them in front). */
  lemma TrimShape(s: string)
    ensures var r, k := Trim(s), |s| - |TrimStart(s)|;
      && (r == [] || (!IsTrimSpace(r[0]) && !IsTrimSpace(r[|r| - 1])))
      && 0 <= k <= |s| - |r| && r == s[k..k + |r|]
      && (forall i :: 0 <= i < k ==> IsTrimSpace(s[i]))
      && (forall i :: k + |r| <= i < |s| ==> IsTrimSpace(s[i]))
  {
    var t := TrimStart(s);
    TrimStartShape(s);
    var r := TrimEnd(t);
    TrimEndShape(t);
    var k := |s| - |t|;
    assert t == s[k..];
    assert r == t[..|r|];
    assert r == s[k..k + |r|] by {
      assert s[k..k + |r|] == s[k..][..|r|];
    }
    forall i | k + |r| <= i < |s| ensures IsTrimSpace(s[i]) {
      assert s[i] == t[i - k];
      assert |r| <= i - k < |t|;
    }
    if r != [] {
      assert r[0] == t[0];
    }
  }

  /** Trimming twice is trimming once. */
  lemma TrimIdempotent(s: string)
    ensures Trim(Trim(s)) == Trim(s)
  {
    var r := Trim(s);
    TrimShape(s);
    if r != [] {
      assert TrimEnd(r) == r;
    }
    assert TrimStart(r) == r;
    assert TrimEnd(r) == r;
  }

  /** `t` occurs in `s` at position `i`. */
  predicate OccursAt(s: string, t: string, i: nat)
  {
    i + |t| <= |s| && s[i..i + |t|] == t
  }

  /** `s.indexOf(t, from)`, with `None` for -1: the first occurrence at or after `from`. */
  function IndexOf(s: string, t: string, from: nat): (r: Option<nat>)
    decreases |s| - from
    ensures r.Some? ==> from <= r.value && OccursAt(s, t, r.value)
    ensures r.Some? ==> forall j :: from <= j < r.value ==> !OccursAt(s, t, j)
    ensures r.None? ==> forall j :: from <= j ==> !OccursAt(s, t, j)
  {
    if from + |t| > |s| then None
    else if s[from..from + |t|] == t then Some(from)
    else IndexOf(s, t, from + 1)
  }

  /** `s.includes(t)`. */
  predicate Includes(s: string, t: string)
  {
    IndexOf(s, t, 0).Some?
  }

  /** `includes` holds exactly when there is an occurrence somewhere. */
  lemma IncludesIff(s: string, t: string)
    ensures Includes(s, t) <==> exists i: nat :: OccursAt(s, t, i)
  {
    if !Includes(s, t) {
      forall i: nat ensures !OccursAt(s, t, i) {
      }
    }
  }

  /** A one-character pattern occurs exactly when the character does. */
  lemma IncludesChar(s: string, c: char)
    ensures Includes(s, [c]) <==> c in s
  {
    IncludesIff(s, [c]);
    if c in s {
      var i :| 0 <= i < |s| && s[i] == c;
      assert OccursAt(s, [c], i);
    }
    if Includes(s, [c]) {
      var i: nat :| OccursAt(s, [c], i);
      assert s[i..i + 1][0] == s[i];
    }
  }

  /** `s.endsWith(t)`. */
  predicate EndsWith(s: string, t: string)
  {
    |t| <= |s| && s[|s| - |t|..] == t
  }

  /** Whether `a + e` ends with a pattern no longer than `e` depends on `e` alone. */
  lemma EndsWithAppend(a: string, e: string, t: string)
    requires |t| <= |e|
    ensures EndsWith(a + e, t) <==> EndsWith(e, t)
  {
    assert (a + e)[|a + e| - |t|..] == e[|e| - |t|..];
  }

  /** `s.split(sep)[0]` for a non-empty separator: the text before the first `sep`,
      or all of `s` when there is none. */
  function SplitHead(s: string, sep: string): (r: string)
    requires sep != []
    ensures IndexOf(s, sep, 0).None? ==> r == s
    ensures IndexOf(s, sep, 0).Some? ==> r + sep <= s && !Includes(r, sep)
    ensures forall j :: 0 <= j < |r| ==> !OccursAt(s, sep, j)
  {
    match IndexOf(s, sep, 0)
    case None => s
    case Some(i) =>
      assert s[..i] + sep == s[..i + |sep|];
      NoEarlierOccurrence(s, sep, i);
      s[..i]
  }

  /** A prefix of `s` that stops before its first occurrence of `t` does not contain `t`. */
  lemma NoEarlierOccurrence(s: string, t: string, i: nat)
    requires t != [] && IndexOf(s, t, 0) == Some(i)
    ensures !Includes(s[..i], t)
  {
    var p := s[..i];
    assert OccursAt(s, t, i);
    if Includes(p, t) {
      var j := IndexOf(p, t, 0).value;
      assert OccursAt(p, t, j);
      assert j + |t| <= i;
      assert p[j..j + |t|] == s[j..j + |t|];
      assert OccursAt(s, t, j) && j < i;
      assert false;
    }
  }

  /** `s.split(sep)[1]` when `s` contains `sep`: the text between the first `sep` and the
      next occurrence found after it (searching resumes after the first match), or the end. */
  function SplitSecond(s: string, sep: string): (r: string)
    requires sep != [] && Includes(s, sep)
    ensures var i := IndexOf(s, sep, 0).value;
      && r <= s[i + |sep|..]
      && (IndexOf(s, sep, i + |sep|).None? ==> r == s[i + |sep|..])
      && (IndexOf(s, sep, i + |sep|).Some? ==> OccursAt(s, sep, i + |sep| + |r|))
      && (forall j :: i + |sep| <= j < i + |sep| + |r| ==> !OccursAt(s, sep, j))
  {
    var i := IndexOf(s, sep, 0).value;
    match IndexOf(s, sep, i + |sep|)
    case None => s[i + |sep|..]
    case Some(j) => s[i + |sep|..j]
  }

  /** A slice with no occurrence starting inside it does not include the pattern. */
  lemma SliceExcludes(s: string, t: string, lo: nat, hi: nat)
    requires t != [] && lo <= hi <= |s|
    requires forall j :: lo <= j < hi ==> !OccursAt(s, t, j)
    ensures !Includes(s[lo..hi], t)
  {
    if Includes(s[lo..hi], t) {
      var m := IndexOf(s[lo..hi], t, 0).value;
      assert s[lo + m..lo + m + |t|] == s[lo..hi][m..m + |t|];
      assert OccursAt(s, t, lo + m);
    }
  }

  /** The second piece of a split never holds the separator. */
  lemma SplitSecondNoSeparator(s: string, sep: string)
    requires sep != [] && Includes(s, sep)
    ensures !Includes(SplitSecond(s, sep), sep)
  {
    var i := IndexOf(s, sep, 0).value;
    var start := i + |sep|;
    var r := SplitSecond(s, sep);
    match IndexOf(s, sep, start)
    case None =>
      assert r == s[start..];
      assert s[start..] == s[start..|s|];
      SliceExcludes(s, sep, start, |s|);
    case Some(j) =>
      assert r == s[start..j];
      SliceExcludes(s, sep, start, j);
  }

  /** `s.replace(pat, rep)` with a string pattern: only the first occurrence is replaced. */
  function ReplaceFirst(s: string, pat: string, rep: string): (r: string)
    ensures IndexOf(s, pat, 0).None? ==> r == s
    ensures IndexOf(s, pat, 0).Some? ==>
      var i := IndexOf(s, pat, 0).value; r == s[..i] + rep + s[i + |pat|..]
  {
    match IndexOf(s, pat, 0)
    case None => s
    case Some(i) => s[..i] + rep + s[i + |pat|..]
  }

  /** `s.replace(/\n/g, rep)`: every line feed replaced. */
  function ReplaceNewlines(s: string, rep: string): (r: string)
    ensures '\n' !in rep ==> '\n' !in r
    ensures '\n' !in s ==> r == s
  {
    if s == [] then []
    else (if s[0] == '\n' then rep else [s[0]]) + ReplaceNewlines(s[1..], rep)
  }

  /** The replacement works character by character: the pieces of a text are replaced
      independently, and a line feed on its own becomes `rep`. */
  lemma {:induction false} ReplaceNewlinesAppend(a: string, b: string, rep: string)
    ensures ReplaceNewlines(a + b, rep) == ReplaceNewlines(a, rep) + ReplaceNewlines(b, rep)
  {
    if a == [] {
      assert a + b == b;
    } else {
      assert (a + b)[0] == a[0];
      assert (a + b)[1..] == a[1..] + b;
      ReplaceNewlinesAppend(a[1..], b, rep);
    }
  }

  lemma ReplaceNewlinesChar(c: char, rep: string)
    ensures ReplaceNewlines([c], rep) == (if c == '\n' then rep else [c])
  {
    assert [c][1..] == [];
  }

  /** An ASCII decimal digit (what `\d` matches without the `u` flag). */
  predicate IsDigit(c: char)
  {
    '0' <= c <= '9'
  }

  predicate AllDigits(s: string)
  {
    forall i :: 0 <= i < |s| ==> IsDigit(s[i])
  }

  /** `s.replace(/\D/g, '')`: keeps the digits, in order. */
  function KeepDigits(s: string): (r: string)
    ensures AllDigits(r) && |r| <= |s|
    ensures AllDigits(s) ==> r == s
  {
    if s == [] then []
    else (if IsDigit(s[0]) then [s[0]] else []) + KeepDigits(s[1..])
  }

  /** Digits are kept piece by piece, in order: a digit stays, any other character goes. */
  lemma {:induction false} KeepDigitsAppend(a: string, b: string)
    ensures KeepDigits(a + b) == KeepDigits(a) + KeepDigits(b)
  {
    if a == [] {
      assert a + b == b;
    } else {
      assert (a + b)[0] == a[0];
      assert (a + b)[1..] == a[1..] + b;
      KeepDigitsAppend(a[1..], b);
    }
  }

  lemma KeepDigitsChar(c: char)
    ensures KeepDigits([c]) == (if IsDigit(c) then [c] else [])
  {
    assert [c][1..] == [];
  }

  function DigitValue(c: char): nat
    requires IsDigit(c)
  {
    c as int - '0' as int
  }

  function DigitChar(d: nat): (c: char)
    requires d < 10
    ensures IsDigit(c) && DigitValue(c) == d
  {
    ('0' as int + d) as char
  }

  /** `n.toString()` for a non-negative integer. */
  function DecimalString(n: nat): string
  {
    if n < 10 then [DigitChar(n)] else DecimalString(n / 10) + [DigitChar(n % 10)]
  }

  /** The value of a string of decimal digits (`parseInt` on such a string). */
  function ParseDigits(t: string): nat
    requires AllDigits(t)
  {
    if t == [] then 0 else ParseDigits(t[..|t| - 1]) * 10 + DigitValue(t[|t| - 1])
  }

  /** What `/^[1-9][0-9]*$/` accepts: a positive decimal without a leading zero. */
  predicate IsPositiveDecimal(t: string)
  {
    |t| >= 1 && '1' <= t[0] <= '9' && AllDigits(t)
  }

  /** `toString` produces digits only, with no leading zero, and `parseInt` reads back
      the number it printed. */
  lemma {:induction false} DecimalStringRoundTrip(n: nat)
    ensures AllDigits(DecimalString(n)) && DecimalString(n) != []
    ensures n >= 1 ==> IsPositiveDecimal(DecimalString(n))
    ensures ParseDigits(DecimalString(n)) == n
  {
    if n >= 10 {
      DecimalStringRoundTrip(n / 10);
      var t := DecimalString(n);
      assert t[..|t| - 1] == DecimalString(n / 10);
      assert t[0] == DecimalString(n / 10)[0];
    }
  }

  /** Conversely, a reply the selection filter accepts is the canonical decimal form of
      the positive number `parseInt` reads from it. */
  lemma {:induction false} ParseDigitsRoundTrip(t: string)
    requires IsPositiveDecimal(t)
    ensures ParseDigits(t) >= 1 && DecimalString(ParseDigits(t)) == t
  {
    if |t| > 1 {
      var p := t[..|t| - 1];
      assert IsPositiveDecimal(p);
      ParseDigitsRoundTrip(p);
      var n := ParseDigits(t);
      assert n / 10 == ParseDigits(p) && n % 10 == DigitValue(t[|t| - 1]);
      assert t == p + [t[|t| - 1]];
    }
  }

  /** ASCII case folding; see the notes on `toLowerCase` in the model description. */
  function LowerChar(c: char): char
  {
    if 'A' <= c <= 'Z' then (c as int + 32) as char else c
  }

  function UpperChar(c: char): char
  {
    if 'a' <= c <= 'z' then (c as int - 32) as char else c
  }

  function Lower(s: string): string
  {
    if s == [] then [] else [LowerChar(s[0])] + Lower(s[1..])
  }

  function Upper(s: string): string
  {
    if s == [] then [] else [UpperChar(s[0])] + Upper(s[1..])
  }

  /** JavaScript truthiness of a possibly missing string: present and non-empty. */
  predicate Truthy(o: Option<string>)
  {
    o.Some? && o.value != ""
  }
}

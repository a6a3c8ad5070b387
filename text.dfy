/**
 The few Python `str` operations the analyzer relies on, written out over
 `seq<char>`: `"".join`, `in` on strings,
 `split`, one-shot `split(sep, 1)`, `strip()`, `upper()`, `lower()` and the
 decimal rendering of an `int` inside an f-string.
 */
module Text {

  // ---------------------------------------------------------------------
  // Files as concatenated writes
  // ---------------------------------------------------------------------

  /** The text left in a file by the writes `chunks`, in order: `"".join(chunks)`. */
  function Concat(chunks: seq<string>): string
  {
    if chunks == [] then "" else chunks[0] + Concat(chunks[1..])
  }

  lemma Assoc(a: string, b: string, c: string)
    ensures (a + b) + c == a + (b + c)
  {
  }

  lemma {:induction false} ConcatAppend(a: seq<string>, b: seq<string>)
    ensures Concat(a + b) == Concat(a) + Concat(b)
  {
    if a == [] {
      assert a + b == b;
    } else {
      assert (a + b)[1..] == a[1..] + b;
      ConcatAppend(a[1..], b);
    }
  }

  // ---------------------------------------------------------------------
  // Reading a file back in text mode
  // ---------------------------------------------------------------------

  /** `open(path, 'r').read()` of a file holding `s`: in universal-newline mode each
      `"\r\n"`, and each `'\r'` not followed by `'\n'`, is read as one `'\n'`. */
  function ReadBack(s: string): string
  {
    if s == [] then ""
    else if s[0] == '\r' then "\n" + ReadBack(if 2 <= |s| && s[1] == '\n' then s[2..] else s[1..])
    else [s[0]] + ReadBack(s[1..])
  }

  /** No carriage return survives the read, and the text never grows. */
  lemma {:induction false} ReadBackNoReturn(s: string)
    ensures '\r' !in ReadBack(s)
    ensures |ReadBack(s)| <= |s|
  {
    if s != [] {
      if s[0] == '\r' {
        ReadBackNoReturn(if 2 <= |s| && s[1] == '\n' then s[2..] else s[1..]);
      } else {
        ReadBackNoReturn(s[1..]);
      }
    }
  }

  /** Text without a carriage return reads back exactly as it was written. */
  lemma {:induction false} ReadBackPlain(s: string)
    requires '\r' !in s
    ensures ReadBack(s) == s
  {
    if s != [] {
      assert s[0] != '\r';
      assert s == [s[0]] + s[1..];
      ReadBackPlain(s[1..]);
    }
  }

  /** Reading back what was read back changes nothing more. */
  lemma ReadBackIdempotent(s: string)
    ensures ReadBack(ReadBack(s)) == ReadBack(s)
  {
    ReadBackNoReturn(s);
    ReadBackPlain(ReadBack(s));
  }

  /** Both a bare carriage return and a carriage return before a line feed come back
      as one line feed. */
  lemma ReadBackReturns(a: string, b: string)
    requires '\r' !in a && '\r' !in b
    requires b == [] || b[0] != '\n'
    ensures ReadBack(a + "\r" + b) == a + "\n" + b
    ensures ReadBack(a + "\r\n" + b) == a + "\n" + b
  {
    ReadBackPlain(b);
    var bare, pair := ['\r'] + b, ['\r', '\n'] + b;
    assert ReadBack(bare) == ['\n'] + b by {
      assert bare[0] == '\r' && bare[1..] == b;
    }
    assert ReadBack(pair) == ['\n'] + b by {
      assert pair[0] == '\r' && pair[1] == '\n' && pair[2..] == b;
    }
    ReadBackAfter(a, bare);
    ReadBackAfter(a, pair);
    assert a + "\r" + b == a + bare && a + "\r\n" + b == a + pair;
    assert a + "\n" + b == a + (['\n'] + b);
  }

  /** Text before the first carriage return is read unchanged. */
  lemma {:induction false} ReadBackAfter(a: string, b: string)
    requires '\r' !in a
    ensures ReadBack(a + b) == a + ReadBack(b)
  {
    if a != [] {
      assert (a + b)[0] == a[0] && (a + b)[1..] == a[1..] + b;
      assert a[0] != '\r';
      ReadBackAfter(a[1..], b);
      assert a == [a[0]] + a[1..];
    } else {
      assert a + b == b;
    }
  }

  // ---------------------------------------------------------------------
  // Substring test: Python `sub in s`
  // ---------------------------------------------------------------------

  /** `sub` occurs in `s` starting at index `i`. */
  predicate OccursAt(s: string, sub: string, i: nat)
  {
    i + |sub| <= |s| && s[i..i + |sub|] == sub
  }

  /** Python's `sub in s`: a left-to-right scan for an occurrence. */
  function Contains(s: string, sub: string): (r: bool)
    ensures r <==> exists i: nat :: OccursAt(s, sub, i)
    decreases |s|
  {
    if sub <= s then
      assert OccursAt(s, sub, 0);
      true
    else if |s| == 0 then
      assert forall i: nat :: !OccursAt(s, sub, i);
      false
    else
      var rest := Contains(s[1..], sub);
      assert forall i: nat :: OccursAt(s[1..], sub, i) <==> OccursAt(s, sub, i + 1) by {
        forall i: nat ensures OccursAt(s[1..], sub, i) <==> OccursAt(s, sub, i + 1) {
          if i + 1 + |sub| <= |s| {
            assert s[1..][i..i + |sub|] == s[i + 1..i + 1 + |sub|];
          }
        }
      }
      assert !OccursAt(s, sub, 0);
      assert forall i: nat :: OccursAt(s, sub, i) ==> i > 0 && OccursAt(s[1..], sub, i - 1);
      rest
  }

  // ---------------------------------------------------------------------
  // Splitting on a one-character separator
  // ---------------------------------------------------------------------

  /** Index of the first `c` in `s`, as `s.index(c)`. */
  function IndexOf(s: string, c: char): (i: nat)
    requires c in s
    ensures i < |s| && s[i] == c
    ensures forall j :: 0 <= j < i ==> s[j] != c
  {
    if s[0] == c then 0 else 1 + IndexOf(s[1..], c)
  }

  /** Number of occurrences of `c` in `s`, as `s.count(c)`. */
  function Count(s: string, c: char): nat
  {
    if s == [] then 0 else (if s[0] == c then 1 else 0) + Count(s[1..], c)
  }

  /** Python's `s.split(sep)` for a one-character separator: the pieces between separators. */
  function Split(s: string, sep: char): (parts: seq<string>)
    ensures |parts| >= 1
    decreases |s|
  {
    if sep in s then
      var i := IndexOf(s, sep);
      [s[..i]] + Split(s[i + 1..], sep)
    else
      [s]
  }

  /** Python's `[sep].join(parts)`. */
  function Join(parts: seq<string>, sep: char): string
  {
    if parts == [] then ""
    else if |parts| == 1 then parts[0]
    else parts[0] + [sep] + Join(parts[1..], sep)
  }

  lemma {:induction false} CountSplitPrefix(s: string, c: char, i: nat)
    requires i <= |s|
    ensures Count(s, c) == Count(s[..i], c) + Count(s[i..], c)
  {
    if i > 0 {
      assert s[..i][1..] == s[1..][..i - 1];
      assert s[i..] == s[1..][i - 1..];
      CountSplitPrefix(s[1..], c, i - 1);
    } else {
      assert s[..i] == [];
      assert s[i..] == s;
    }
  }

  lemma {:induction false} CountAbsent(s: string, c: char)
    requires c !in s
    ensures Count(s, c) == 0
  {
    if s != [] {
      assert c !in s[1..];
      CountAbsent(s[1..], c);
    }
  }

  /** Splitting yields one more piece than there are separators, and no piece holds one. */
  lemma {:induction false} SplitPieces(s: string, sep: char)
    ensures |Split(s, sep)| == Count(s, sep) + 1
    ensures forall k :: 0 <= k < |Split(s, sep)| ==> sep !in Split(s, sep)[k]
    decreases |s|
  {
    if sep in s {
      var i := IndexOf(s, sep);
      SplitPieces(s[i + 1..], sep);
      CountSplitPrefix(s, sep, i);
      CountAbsent(s[..i], sep);
      assert s[i..] == [sep] + s[i + 1..];
      assert Count(s[i..], sep) == 1 + Count(s[i + 1..], sep);
      var parts := Split(s, sep);
      assert parts == [s[..i]] + Split(s[i + 1..], sep);
      forall k | 0 <= k < |parts| ensures sep !in parts[k] {
        if k == 0 {
          assert parts[0] == s[..i];
        } else {
          assert parts[k] == Split(s[i + 1..], sep)[k - 1];
        }
      }
    } else {
      CountAbsent(s, sep);
    }
  }

  /** Joining the pieces back with the separator restores the string. */
  lemma {:induction false} JoinSplit(s: string, sep: char)
    ensures Join(Split(s, sep), sep) == s
    decreases |s|
  {
    if sep in s {
      var i := IndexOf(s, sep);
      var a, b := s[..i], s[i + 1..];
      assert s == a + [sep] + b;
      SplitCons(a, sep, b);
      JoinSplit(b, sep);
      JoinCons(a, Split(b, sep), sep);
    }
  }

  lemma {:induction false} IndexOfFirst(a: string, sep: char, b: string)
    requires sep !in a
    ensures IndexOf(a + [sep] + b, sep) == |a|
  {
    if a != [] {
      assert (a + [sep] + b)[1..] == a[1..] + [sep] + b;
      IndexOfFirst(a[1..], sep, b);
    }
  }

  /** The first piece ends at the first separator. */
  lemma SplitCons(a: string, sep: char, b: string)
    requires sep !in a
    ensures Split(a + [sep] + b, sep) == [a] + Split(b, sep)
  {
    var s := a + [sep] + b;
    IndexOfFirst(a, sep, b);
    assert s[..|a|] == a;
    assert s[|a| + 1..] == b;
  }

  lemma JoinCons(x: string, rest: seq<string>, sep: char)
    requires |rest| >= 1
    ensures Join([x] + rest, sep) == x + [sep] + Join(rest, sep)
  {
    assert ([x] + rest)[1..] == rest;
  }

  /** Splitting a join of separator-free pieces gives the pieces back. */
  lemma {:induction false} SplitJoin(parts: seq<string>, sep: char)
    requires |parts| >= 1
    requires forall k :: 0 <= k < |parts| ==> sep !in parts[k]
    ensures Split(Join(parts, sep), sep) == parts
  {
    if |parts| > 1 {
      var tail := Join(parts[1..], sep);
      assert Join(parts, sep) == parts[0] + [sep] + tail;
      SplitCons(parts[0], sep, tail);
      SplitJoin(parts[1..], sep);
      assert parts == [parts[0]] + parts[1..];
    }
  }

  /** Python's `s.split(sep, 1)` on a string that contains `sep`: the text before the
      first separator and everything after it. */
  function SplitOnce(s: string, sep: char): (kv: (string, string))
    requires sep in s
    ensures sep !in kv.0
    ensures s == kv.0 + [sep] + kv.1
  {
    var i := IndexOf(s, sep);
    assert s == s[..i] + [sep] + s[i + 1..];
    (s[..i], s[i + 1..])
  }

  // ---------------------------------------------------------------------
  // strip()
  // ---------------------------------------------------------------------

  /** The characters Python's `str.isspace()` accepts, which are the ones `strip()` removes. */
  predicate IsSpace(c: char)
  {
    || '\U{9}' <= c <= '\U{D}'
    || '\U{1C}' <= c <= ' '
    || c == '\U{85}' || c == '\U{A0}' || c == '\U{1680}'
    || '\U{2000}' <= c <= '\U{200A}'
    || c == '\U{2028}' || c == '\U{2029}' || c == '\U{202F}' || c == '\U{205F}' || c == '\U{3000}'
  }

  predicate AllSpace(s: string)
  {
    forall k :: 0 <= k < |s| ==> IsSpace(s[k])
  }

  /** Number of leading whitespace characters of `s`. */
  function LeadingSpace(s: string): (n: nat)
    ensures n <= |s|
  {
    if |s| > 0 && IsSpace(s[0]) then
      1 + LeadingSpace(s[1..])
    else 0
  }

  lemma {:induction false} LeadingSpaceSpec(s: string)
    ensures AllSpace(s[..LeadingSpace(s)])
    ensures LeadingSpace(s) < |s| ==> !IsSpace(s[LeadingSpace(s)])
  {
    if |s| > 0 && IsSpace(s[0]) {
      LeadingSpaceSpec(s[1..]);
      var n := LeadingSpace(s);
      assert s[..n] == [s[0]] + s[1..][..n - 1];
    }
  }

  /** Number of trailing whitespace characters of `s`. */
  function TrailingSpace(s: string): (n: nat)
    ensures n <= |s|
  {
    if |s| > 0 && IsSpace(s[|s| - 1]) then
      1 + TrailingSpace(s[..|s| - 1])
    else 0
  }

  lemma {:induction false} TrailingSpaceSpec(s: string)
    ensures AllSpace(s[|s| - TrailingSpace(s)..])
    ensures TrailingSpace(s) < |s| ==> !IsSpace(s[|s| - TrailingSpace(s) - 1])
  {
    if |s| > 0 && IsSpace(s[|s| - 1]) {
      var u := s[..|s| - 1];
      TrailingSpaceSpec(u);
      assert s[|s| - TrailingSpace(s)..] == u[|u| - TrailingSpace(u)..] + [s[|s| - 1]];
    }
  }

  /** Python's `s.strip()`: `s` without its leading and trailing whitespace. */
  function Strip(s: string): (r: string)
    ensures |r| <= |s|
  {
    var i := LeadingSpace(s);
    var t := s[i..];
    var j := TrailingSpace(t);
    t[..|t| - j]
  }

  /** What `Strip` returns has no whitespace at either end. */
  lemma StripEnds(s: string)
    ensures var r := Strip(s); r == [] || (!IsSpace(r[0]) && !IsSpace(r[|r| - 1]))
  {
    var i := LeadingSpace(s);
    var t := s[i..];
    var j := TrailingSpace(t);
    LeadingSpaceSpec(s);
    TrailingSpaceSpec(t);
    assert j < |t| ==> t[..|t| - j][0] == t[0] == s[i];
  }

  /** The removed ends are whitespace: `Strip(s)` is a slice of `s` framed by
      whitespace. */
  lemma StripFramed(s: string)
    ensures exists i, j :: 0 <= i <= j <= |s| && AllSpace(s[..i]) && AllSpace(s[j..]) && Strip(s) == s[i..j]
  {
    var i := LeadingSpace(s);
    var t := s[i..];
    var j := TrailingSpace(t);
    var e := i + (|t| - j);
    LeadingSpaceSpec(s);
    TrailingSpaceSpec(t);
    assert Strip(s) == s[i..e] by {
      assert t[..|t| - j] == s[i..e];
    }
    assert s[e..] == t[|t| - j..];
  }

  /** Any split of `s` into whitespace, a part without whitespace at its ends, and
      whitespace is the one `Strip` finds. */
  lemma StripUnique(pre: string, m: string, post: string)
    requires AllSpace(pre) && AllSpace(post)
    requires m == [] || (!IsSpace(m[0]) && !IsSpace(m[|m| - 1]))
    requires m != [] || post == []
    ensures Strip(pre + m + post) == m
  {
    var s := pre + m + post;
    var i := LeadingSpace(s);
    LeadingSpaceSpec(s);
    if m == [] {
      assert s == pre;
      assert i == |s|;
    } else {
      assert s[|pre|] == m[0];
      assert i == |pre|;
      var t := s[i..];
      assert t == m + post;
      var j := TrailingSpace(t);
      TrailingSpaceSpec(t);
      assert t[|t| - |post| - 1] == m[|m| - 1];
      assert j == |post|;
      assert t[..|t| - j] == m;
    }
  }

  // ---------------------------------------------------------------------
  // upper() and lower()
  // ---------------------------------------------------------------------

  /** Python's full upper-case mapping of one character, exact wherever the result is
      ASCII; any other non-ASCII character is kept, since its mapping holds a non-ASCII
      character and so can never take part in a match with an ASCII keyword. */
  function UpperChar(c: char): string
  {
    if 'a' <= c <= 'z' then [(c as int - 32) as char]
    else if c == '\U{DF}' then "SS"
    else if c == '\U{131}' then "I"
    else if c == '\U{17F}' then "S"
    else if c == '\U{FB00}' then "FF"
    else if c == '\U{FB01}' then "FI"
    else if c == '\U{FB02}' then "FL"
    else if c == '\U{FB03}' then "FFI"
    else if c == '\U{FB04}' then "FFL"
    else if c == '\U{FB05}' || c == '\U{FB06}' then "ST"
    else [c]
  }

  /** Python's full lower-case mapping of one character, exact wherever the result holds
      an ASCII letter. */
  function LowerChar(c: char): string
  {
    if 'A' <= c <= 'Z' then [(c as int + 32) as char]
    else if c == '\U{212A}' then "k"
    else if c == '\U{130}' then "i\U{307}"
    else [c]
  }

  /** Python's `s.upper()`. */
  function Upper(s: string): string
  {
    if s == [] then "" else UpperChar(s[0]) + Upper(s[1..])
  }

  /** Python's `s.lower()`. */
  function Lower(s: string): string
  {
    if s == [] then "" else LowerChar(s[0]) + Lower(s[1..])
  }

  lemma {:induction false} UpperAppend(a: string, b: string)
    ensures Upper(a + b) == Upper(a) + Upper(b)
  {
    if a == [] {
      assert a + b == b;
    } else {
      assert (a + b)[1..] == a[1..] + b;
      UpperAppend(a[1..], b);
      Assoc(UpperChar(a[0]), Upper(a[1..]), Upper(b));
    }
  }

  /** Upper-casing twice changes nothing more. */
  lemma {:induction false} UpperIdempotent(s: string)
    ensures Upper(Upper(s)) == Upper(s)
  {
    if s != [] {
      UpperAppend(UpperChar(s[0]), Upper(s[1..]));
      UpperCharFixed(s[0]);
      UpperIdempotent(s[1..]);
    }
  }

  /** Only the empty string upper-cases to the empty string. */
  lemma UpperEmpty(s: string)
    ensures Upper(s) == [] <==> s == []
  {
    if s != [] {
      assert |UpperChar(s[0])| >= 1;
    }
  }

  /** `m` spells the upper-case ASCII word `u`, each letter in either case. */
  predicate CaseVariant(m: string, u: string)
  {
    && |m| == |u|
    && forall i :: 0 <= i < |u| ==>
         'A' <= u[i] <= 'Z' && (m[i] == u[i] || m[i] as int == u[i] as int + 32)
  }

  lemma {:induction false} UpperOfCaseVariant(m: string, u: string)
    requires CaseVariant(m, u)
    ensures Upper(m) == u
  {
    if m != [] {
      assert CaseVariant(m[1..], u[1..]) by {
        forall i | 0 <= i < |u| - 1
          ensures 'A' <= u[1..][i] <= 'Z' && (m[1..][i] == u[1..][i] || m[1..][i] as int == u[1..][i] as int + 32)
        {
          assert u[1..][i] == u[i + 1] && m[1..][i] == m[i + 1];
        }
      }
      UpperOfCaseVariant(m[1..], u[1..]);
      assert UpperChar(m[0]) == [u[0]];
      assert u == [u[0]] + u[1..];
    }
  }

  lemma UpperCharFixed(c: char)
    ensures Upper(UpperChar(c)) == UpperChar(c)
  {
    var u := UpperChar(c);
    if |u| == 1 {
      assert u[1..] == [];
      assert Upper(u) == UpperChar(u[0]);
      assert 'A' <= u[0] <= 'Z' || u[0] == c;
    } else {
      UpperOfCaseVariant(u, u);
    }
  }

  lemma {:induction false} LowerAppend(a: string, b: string)
    ensures Lower(a + b) == Lower(a) + Lower(b)
  {
    if a == [] {
      assert a + b == b;
    } else {
      assert (a + b)[1..] == a[1..] + b;
      LowerAppend(a[1..], b);
      Assoc(LowerChar(a[0]), Lower(a[1..]), Lower(b));
    }
  }

  lemma LowerCharFixed(c: char)
    ensures Lower(LowerChar(c)) == LowerChar(c)
  {
    var l := LowerChar(c);
    if c == '\U{130}' {
      assert l == "i" + "\U{307}";
      LowerAppend("i", "\U{307}");
    } else {
      assert |l| == 1 && l[1..] == [];
      assert Lower(l) == LowerChar(l[0]);
    }
  }

  /** Lower-casing twice changes nothing more. */
  lemma {:induction false} LowerIdempotent(s: string)
    ensures Lower(Lower(s)) == Lower(s)
  {
    if s != [] {
      LowerAppend(LowerChar(s[0]), Lower(s[1..]));
      LowerCharFixed(s[0]);
      LowerIdempotent(s[1..]);
    }
  }

  /** `m` spells the lower-case ASCII text `w`, each of its letters in either case. */
  predicate LowerVariant(m: string, w: string)
  {
    && |m| == |w|
    && forall i :: 0 <= i < |w| ==>
         w[i] as int < 128 && !('A' <= w[i] <= 'Z') &&
         (m[i] == w[i] || ('a' <= w[i] <= 'z' && m[i] as int == w[i] as int - 32))
  }

  /** Any mix of cases of lower-case ASCII text lower-cases to that text, so a
      field named `P-Access-Network-Info` lower-cases to `p-access-network-info`. */
  lemma {:induction false} LowerOfVariant(m: string, w: string)
    requires LowerVariant(m, w)
    ensures Lower(m) == w
  {
    if m != [] {
      assert LowerVariant(m[1..], w[1..]) by {
        forall i | 0 <= i < |w| - 1
          ensures w[1..][i] as int < 128 && !('A' <= w[1..][i] <= 'Z') &&
            (m[1..][i] == w[1..][i] || ('a' <= w[1..][i] <= 'z' && m[1..][i] as int == w[1..][i] as int - 32))
        {
          assert w[1..][i] == w[i + 1] && m[1..][i] == m[i + 1];
        }
      }
      LowerOfVariant(m[1..], w[1..]);
      assert LowerChar(m[0]) == [w[0]];
      assert w == [w[0]] + w[1..];
    }
  }

  // ---------------------------------------------------------------------
  // Decimal rendering of counters
  // ---------------------------------------------------------------------

  function DigitChar(d: nat): (c: char)
    requires d < 10
    ensures '0' <= c <= '9'
  {
    ('0' as int + d) as char
  }

  /** `f"{n}"` for a non-negative integer. */
  function NatToString(n: nat): (r: string)
    ensures |r| >= 1
  {
    if n < 10 then [DigitChar(n)] else NatToString(n / 10) + [DigitChar(n % 10)]
  }

  /** The rendering is decimal digits without leading zeros. */
  lemma {:induction false} NatToStringDigits(n: nat)
    ensures var r := NatToString(n);
      && (forall k :: 0 <= k < |r| ==> '0' <= r[k] <= '9')
      && (|r| > 1 ==> r[0] != '0')
  {
    if n >= 10 {
      NatToStringDigits(n / 10);
      var r := NatToString(n);
      assert r == NatToString(n / 10) + [DigitChar(n % 10)];
    }
  }

  /** Reads a string of decimal digits back as a number, as Python's `int(s)`. */
  function ParseDecimal(s: string): int
  {
    if s == [] then 0
    else 10 * ParseDecimal(s[..|s| - 1]) + (s[|s| - 1] as int - '0' as int)
  }

  /** The rendered number reads back as itself, so distinct counts print differently. */
  lemma {:induction false} ParseNatToString(n: nat)
    ensures ParseDecimal(NatToString(n)) == n
  {
    if n >= 10 {
      var s := NatToString(n);
      assert s[..|s| - 1] == NatToString(n / 10);
      ParseNatToString(n / 10);
    }
  }

  lemma NatToStringInjective(m: nat, n: nat)
    ensures NatToString(m) == NatToString(n) <==> m == n
  {
    ParseNatToString(m);
    ParseNatToString(n);
  }
}

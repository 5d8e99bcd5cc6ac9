/**
 * The string operations of JavaScript that the core relies on, over `seq<char>`:
 * decimal rendering of a non-negative number (`${n}`), `padStart`, `join`,
 * `split` on a one-character separator, `trim`, and substring search.
 */
module Text {

  predicate IsDigit(c: char)
  {
    '0' <= c <= '9'
  }

  function DigitChar(d: nat): (c: char)
    requires d < 10
    ensures IsDigit(c)
  {
    "0123456789"[d]
  }

  function DigitValue(c: char): nat
  {
    if IsDigit(c) then (c as int) - ('0' as int) else 0
  }

  lemma DigitRoundTrip(d: nat)
    requires d < 10
    ensures DigitValue(DigitChar(d)) == d
  {
  }

  /** The decimal digits of `n`, without leading zeros: what a template literal makes of a non-negative integer. */
  function NatToString(n: nat): (s: string)
    ensures |s| >= 1
    ensures forall i :: 0 <= i < |s| ==> IsDigit(s[i])
    ensures |s| > 1 ==> s[0] != '0'
  {
    if n < 10 then [DigitChar(n)] else NatToString(n / 10) + [DigitChar(n % 10)]
  }

  /** The number a string of decimal digits denotes (non-digits count as 0). */
  function ParseDigits(s: string): nat
  {
    if s == [] then 0 else ParseDigits(s[..|s| - 1]) * 10 + DigitValue(s[|s| - 1])
  }

  lemma {:induction false} ParseNatToString(n: nat)
    ensures ParseDigits(NatToString(n)) == n
  {
    var s := NatToString(n);
    if n < 10 {
      DigitRoundTrip(n);
    } else {
      ParseNatToString(n / 10);
      DigitRoundTrip(n % 10);
      assert s[..|s| - 1] == NatToString(n / 10);
    }
  }

  /** Different numbers are rendered differently. */
  lemma NatToStringInjective(a: nat, b: nat)
    ensures NatToString(a) == NatToString(b) ==> a == b
  {
    ParseNatToString(a);
    ParseNatToString(b);
  }

  /** `s.padStart(width, [c])`. */
  function PadStart(s: string, width: nat, c: char): (r: string)
    ensures |r| == if |s| >= width then |s| else width
    ensures r[|r| - |s|..] == s
    ensures forall i :: 0 <= i < |r| - |s| ==> r[i] == c
  {
    if |s| >= width then s else seq(width - |s|, _ => c) + s
  }

  /** The decimal digits of `n` left-padded with zeros to `width` characters. */
  function ZeroPad(n: nat, width: nat): string
  {
    PadStart(NatToString(n), width, '0')
  }

  /** `[n].join('')` for each element: at most `w` digits when `n < 10^w`. */
  function Pow10(w: nat): nat
  {
    if w == 0 then 1 else 10 * Pow10(w - 1)
  }

  lemma {:induction false} NatToStringLength(n: nat, w: nat)
    requires w >= 1 && n < Pow10(w)
    ensures |NatToString(n)| <= w
  {
    if n >= 10 {
      NatToStringLength(n / 10, w - 1);
    }
  }

  lemma ZeroPadShape(n: nat, w: nat)
    requires w >= 1 && n < Pow10(w)
    ensures |ZeroPad(n, w)| == w
    ensures forall i :: 0 <= i < w ==> IsDigit(ZeroPad(n, w)[i])
  {
    NatToStringLength(n, w);
    var d := NatToString(n);
    var r := ZeroPad(n, w);
    forall i | 0 <= i < w ensures IsDigit(r[i]) {
      if i >= w - |d| {
        assert r[i] == r[w - |d|..][i - (w - |d|)];
      }
    }
  }

  /** `xs.join(sep)`: the empty list joins to the empty string. */
  function Join(xs: seq<string>, sep: string): string
  {
    if xs == [] then "" else if |xs| == 1 then xs[0] else xs[0] + sep + Join(xs[1..], sep)
  }

  /** `xs.join('')`. */
  function Concat(xs: seq<string>): string
  {
    if xs == [] then "" else xs[0] + Concat(xs[1..])
  }

  lemma {:induction false} ConcatAppend(a: seq<string>, b: seq<string>)
    ensures Concat(a + b) == Concat(a) + Concat(b)
  {
    if a == [] {
      assert a + b == b;
    } else {
      assert (a + b)[1..] == a[1..] + b;
      ConcatAppend(a[1..], b);
    }
  }

  lemma {:induction false} JoinAppend(a: seq<string>, b: seq<string>, sep: string)
    requires a != [] && b != []
    ensures Join(a + b, sep) == Join(a, sep) + sep + Join(b, sep)
  {
    if |a| > 1 {
      assert (a + b)[1..] == a[1..] + b;
      JoinAppend(a[1..], b, sep);
    } else {
      assert (a + b)[1..] == b;
    }
  }

  /** `s.split(c)` for a one-character separator: always at least one piece. */
  function Split(s: string, c: char): (r: seq<string>)
    ensures |r| >= 1
  {
    if s == [] then [""]
    else if s[0] == c then [""] + Split(s[1..], c)
    else var rest := Split(s[1..], c); [[s[0]] + rest[0]] + rest[1..]
  }

  lemma {:induction false} SplitNoSeparator(s: string, c: char)
    requires c !in s
    ensures Split(s, c) == [s]
  {
    if s != [] {
      SplitNoSeparator(s[1..], c);
      assert [s[0]] + s[1..] == s;
    }
  }

  /** Splitting at the first separator: the first piece is everything before it. */
  lemma {:induction false} SplitAtFirst(a: string, c: char, b: string)
    requires c !in a
    ensures Split(a + [c] + b, c) == [a] + Split(b, c)
  {
    if a == [] {
      assert a + [c] + b == [c] + b;
      assert ([c] + b)[1..] == b;
    } else {
      assert (a + [c] + b)[1..] == a[1..] + [c] + b;
      SplitAtFirst(a[1..], c, b);
      assert [a[0]] + a[1..] == a;
    }
  }

  /** `split` undoes `join` when no piece contains the separator. */
  lemma {:induction false} SplitJoin(xs: seq<string>, c: char)
    requires xs != []
    requires forall i :: 0 <= i < |xs| ==> c !in xs[i]
    ensures Split(Join(xs, [c]), c) == xs
  {
    if |xs| == 1 {
      SplitNoSeparator(xs[0], c);
    } else {
      SplitJoin(xs[1..], c);
      SplitAtFirst(xs[0], c, Join(xs[1..], [c]));
      assert [xs[0]] + xs[1..] == xs;
    }
  }

  /**
   * The characters `String.prototype.trim` removes: the ECMAScript WhiteSpace
   * and LineTerminator code points.
   */
  predicate IsJsWhitespace(c: char)
  {
    c == '\t' || c == '\n' || c == '\U{000B}' || c == '\U{000C}' || c == '\r' || c == ' '
    || c == '\U{00A0}' || c == '\U{1680}' || ('\U{2000}' <= c <= '\U{200A}')
    || c == '\U{2028}' || c == '\U{2029}' || c == '\U{202F}' || c == '\U{205F}'
    || c == '\U{3000}' || c == '\U{FEFF}'
  }

  predicate HasNonWhitespace(s: string)
  {
    exists i :: 0 <= i < |s| && !IsJsWhitespace(s[i])
  }

  function TrimStart(s: string): string
  {
    if s != [] && IsJsWhitespace(s[0]) then TrimStart(s[1..]) else s
  }

  function TrimEnd(s: string): string
  {
    if s != [] && IsJsWhitespace(s[|s| - 1]) then TrimEnd(s[..|s| - 1]) else s
  }

  /** `s.trim()`. */
  function Trim(s: string): string
  {
    TrimEnd(TrimStart(s))
  }

  lemma {:induction false} TrimStartAppend(a: string, b: string)
    requires HasNonWhitespace(a)
    ensures TrimStart(a + b) == TrimStart(a) + b
  {
    if IsJsWhitespace(a[0]) {
      var i :| 0 <= i < |a| && !IsJsWhitespace(a[i]);
      assert a[1..][i - 1] == a[i];
      assert (a + b)[1..] == a[1..] + b;
      TrimStartAppend(a[1..], b);
    }
  }

  lemma {:induction false} TrimEndPrepend(a: string, b: string)
    requires HasNonWhitespace(b)
    ensures TrimEnd(a + b) == a + TrimEnd(b)
  {
    var i :| 0 <= i < |b| && !IsJsWhitespace(b[i]);
    if IsJsWhitespace(b[|b| - 1]) {
      assert i < |b| - 1;
      assert b[..|b| - 1][i] == b[i];
      assert (a + b)[..|a + b| - 1] == a + b[..|b| - 1];
      TrimEndPrepend(a, b[..|b| - 1]);
    }
  }

  lemma {:induction false} TrimStartNonWhitespaceHead(s: string)
    requires s != [] && !IsJsWhitespace(s[0])
    ensures TrimStart(s) == s
  {
  }

  /** `s.includes(sub)`. */
  predicate Contains(s: string, sub: string)
  {
    exists i | 0 <= i <= |s| :: OccursAt(s, sub, i)
  }

  predicate OccursAt(s: string, sub: string, i: int)
  {
    0 <= i <= |s| - |sub| && s[i..i + |sub|] == sub
  }

  lemma ContainsMiddle(a: string, b: string, c: string)
    ensures Contains(a + b + c, b)
  {
    assert (a + b + c)[|a|..|a| + |b|] == b;
    assert OccursAt(a + b + c, b, |a|);
  }

  lemma ContainsExtend(s: string, sub: string, a: string, c: string)
    requires Contains(s, sub)
    ensures Contains(a + s + c, sub)
  {
    var i :| 0 <= i <= |s| && OccursAt(s, sub, i);
    assert (a + s + c)[|a| + i..|a| + i + |sub|] == s[i..i + |sub|];
    assert OccursAt(a + s + c, sub, |a| + i);
  }

  lemma ContainsSuffix(a: string, b: string)
    ensures Contains(a + b, b)
  {
    assert (a + b)[|a|..|a| + |b|] == b;
    assert OccursAt(a + b, b, |a|);
  }

  /** `s.startsWith(pre)`. */
  predicate StartsWith(s: string, pre: string)
  {
    |pre| <= |s| && s[..|pre|] == pre
  }

  /** `s.endsWith(suf)`. */
  predicate EndsWith(s: string, suf: string)
  {
    |suf| <= |s| && s[|s| - |suf|..] == suf
  }

  lemma StartsWithAppend(s: string, pre: string, c: string)
    requires StartsWith(s, pre)
    ensures StartsWith(s + c, pre)
  {
    assert (s + c)[..|pre|] == s[..|pre|];
  }

  lemma EndsWithSuffix(s: string, c: string)
    ensures EndsWith(s + c, c)
  {
    assert (s + c)[|s + c| - |c|..] == c;
  }

  lemma ContainsAppend(s: string, sub: string, c: string)
    requires Contains(s, sub)
    ensures Contains(s + c, sub)
  {
    var i :| 0 <= i <= |s| && OccursAt(s, sub, i);
    assert (s + c)[i..i + |sub|] == s[i..i + |sub|];
    assert OccursAt(s + c, sub, i);
  }

  lemma ContainsPrepend(s: string, sub: string, a: string)
    requires Contains(s, sub)
    ensures Contains(a + s, sub)
  {
    var i :| 0 <= i <= |s| && OccursAt(s, sub, i);
    assert (a + s)[|a| + i..|a| + i + |sub|] == s[i..i + |sub|];
    assert OccursAt(a + s, sub, |a| + i);
  }

  /** The first character of a concatenation of nine pieces, the first of them not empty. */
  lemma FirstOfNine(a: string, b: string, c: string, d: string, e: string, f: string, g: string, h: string, i: string)
    requires a != []
    ensures (a + b + c + d + e + f + g + h + i)[0] == a[0]
  {
  }

  lemma NoBreakInPieces(a: string, b: string, c: string, d: string, e: string, f: string, g: string)
    requires '\n' !in a && '\n' !in b && '\n' !in c && '\n' !in d && '\n' !in e && '\n' !in f && '\n' !in g
    ensures '\n' !in a + b + c + d + e + f + g
  {
  }

  /** Code-unit order of strings, as a store orders string fields. */
  predicate LexLess(a: string, b: string)
  {
    if a == [] then b != []
    else b != [] && (a[0] < b[0] || (a[0] == b[0] && LexLess(a[1..], b[1..])))
  }

  /** A template written between two line breaks trims back to its inside. */
  lemma TrimFramed(x: string)
    requires x != [] && !IsJsWhitespace(x[0]) && !IsJsWhitespace(x[|x| - 1])
    ensures Trim("\n" + x + "\n") == x
  {
    var s := "\n" + x + "\n";
    var u := x + "\n";
    assert s[0] == '\n' && s[1..] == u;
    assert TrimStart(s) == TrimStart(u);
    assert u[0] == x[0];
    assert TrimStart(u) == u;
    assert u[|u| - 1] == '\n' && u[..|u| - 1] == x;
    assert TrimEnd(u) == TrimEnd(x);
  }

  /**
   * A template `\n a b \n` whose `b` ends in a visible character trims to
   * `a` without its leading blanks, followed by `b`, when `a` has a visible character.
   */
  lemma TrimLeadingField(a: string, b: string)
    requires HasNonWhitespace(a) && b != [] && !IsJsWhitespace(b[|b| - 1])
    ensures Trim("\n" + a + b + "\n") == TrimStart(a) + b
  {
    var s := "\n" + a + b + "\n";
    assert s[0] == '\n' && s[1..] == a + (b + "\n");
    TrimStartAppend(a, b + "\n");
    var m := TrimStart(a) + b;
    assert TrimStart(s) == m + "\n";
    var u := m + "\n";
    assert u[|u| - 1] == '\n' && u[..|u| - 1] == m;
    assert m[|m| - 1] == b[|b| - 1];
    assert TrimEnd(m) == m;
    assert TrimEnd(u) == m;
  }

  /**
   * A JavaScript template literal: the literal parts `strs` with the
   * substitutions `subs` between them, `strs[0] + subs[0] + strs[1] + ...`.
   */
  function TemplateLiteral(strs: seq<string>, subs: seq<string>): string
    requires |strs| == |subs| + 1
  {
    if subs == [] then strs[0] else strs[0] + subs[0] + TemplateLiteral(strs[1..], subs[1..])
  }

  /** Every substituted value appears in the result. */
  lemma {:induction false} TemplateContainsSubstitution(strs: seq<string>, subs: seq<string>, k: nat)
    requires |strs| == |subs| + 1 && k < |subs|
    ensures Contains(TemplateLiteral(strs, subs), subs[k])
  {
    var rest := TemplateLiteral(strs[1..], subs[1..]);
    if k == 0 {
      ContainsMiddle(strs[0], subs[0], rest);
    } else {
      TemplateContainsSubstitution(strs[1..], subs[1..], k - 1);
      ContainsPrepend(rest, subs[k], strs[0] + subs[0]);
    }
  }

  /** Results that differ in one substitution differ in length by exactly what it does. */
  lemma {:induction false} TemplateReplaceLength(strs: seq<string>, xs: seq<string>, ys: seq<string>, k: nat)
    requires |strs| == |xs| + 1 && |xs| == |ys| && k < |xs|
    requires forall i :: 0 <= i < |xs| && i != k ==> xs[i] == ys[i]
    ensures |TemplateLiteral(strs, xs)| + |ys[k]| == |TemplateLiteral(strs, ys)| + |xs[k]|
  {
    if k == 0 {
      assert xs[1..] == ys[1..];
    } else {
      TemplateReplaceLength(strs[1..], xs[1..], ys[1..], k - 1);
    }
  }

  lemma {:induction false} JoinContainsItem(xs: seq<string>, sep: string, i: nat)
    requires i < |xs|
    ensures Contains(Join(xs, sep), xs[i])
  {
    if |xs| == 1 {
      assert Join(xs, sep) == "" + xs[0] + "";
      ContainsMiddle("", xs[0], "");
    } else if i == 0 {
      assert Join(xs, sep) == "" + xs[0] + (sep + Join(xs[1..], sep));
      ContainsMiddle("", xs[0], sep + Join(xs[1..], sep));
    } else {
      JoinContainsItem(xs[1..], sep, i - 1);
      ContainsExtend(Join(xs[1..], sep), xs[i], xs[0] + sep, "");
      assert Join(xs, sep) == xs[0] + sep + Join(xs[1..], sep) + "";
    }
  }

  /** Each piece of a concatenation occurs in it. */
  lemma {:induction false} ConcatContainsItem(xs: seq<string>, i: nat)
    requires i < |xs|
    ensures Contains(Concat(xs), xs[i])
  {
    if i == 0 {
      assert Concat(xs) == "" + xs[0] + Concat(xs[1..]);
      ContainsMiddle("", xs[0], Concat(xs[1..]));
    } else {
      ConcatContainsItem(xs[1..], i - 1);
      ContainsExtend(Concat(xs[1..]), xs[i], xs[0], "");
      assert Concat(xs) == xs[0] + Concat(xs[1..]) + "";
    }
  }

  /** A block of text: every line followed by a line break. */
  function Lines(xs: seq<string>): string
  {
    if xs == [] then "" else xs[0] + "\n" + Lines(xs[1..])
  }
}

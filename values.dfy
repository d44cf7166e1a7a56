/**
  The loosely typed values that travel through the lock monitor, as the
  Python and JavaScript code sees them: JSON scalars, truthiness, `str()`,
  decimal rendering and parsing, and the few string operations the source
  relies on (`strip`, `lower`, `in` on strings, `split`, `join`).
*/
module PyValues {

  datatype Option<T> = None | Some(value: T)

  /** A JSON scalar as the cloud API and the JSON stores deliver it. */
  datatype Value = Null | Bool(b: bool) | Int(i: int) | Str(s: string)

  /** Python truthiness: None, False, 0 and "" are false. */
  predicate Truthy(v: Value) {
    match v
    case Null => false
    case Bool(b) => b
    case Int(i) => i != 0
    case Str(s) => s != ""
  }

  predicate IsDigit(c: char) {
    '0' <= c <= '9'
  }

  /** `str.isdigit()` restricted to the ASCII digits: non-empty and made of `0`-`9` only. */
  predicate IsDigits(s: string) {
    |s| > 0 && forall i :: 0 <= i < |s| ==> IsDigit(s[i])
  }

  function DigitChar(d: nat): (c: char)
    requires d < 10
    ensures IsDigit(c) && c as int - '0' as int == d
  {
    (d + '0' as int) as char
  }

  /** The decimal rendering of a natural number, without leading zeros. */
  function NatToDecimal(n: nat): (r: string)
    ensures IsDigits(r)
    ensures |r| > 1 ==> r[0] != '0'
    decreases n
  {
    if n < 10 then [DigitChar(n)] else NatToDecimal(n / 10) + [DigitChar(n % 10)]
  }

  /** Python `str(i)` / `f"{i}"` for an integer. */
  function IntToDecimal(i: int): string {
    if i < 0 then "-" + NatToDecimal(-i) else NatToDecimal(i)
  }

  /** Python `int(s)` for a string of decimal digits (leading zeros allowed). */
  function DigitsValue(s: string): nat
    requires forall i :: 0 <= i < |s| ==> IsDigit(s[i])
  {
    if s == [] then 0
    else
      assert IsDigit(s[|s| - 1]);
      DigitsValue(s[..|s| - 1]) * 10 + (s[|s| - 1] as int - '0' as int)
  }

  /** Reading back a rendered number gives the number. */
  lemma {:induction false} DecimalRoundTrip(n: nat)
    ensures DigitsValue(NatToDecimal(n)) == n
  {
    if n >= 10 {
      var s := NatToDecimal(n);
      assert s[..|s| - 1] == NatToDecimal(n / 10);
      DecimalRoundTrip(n / 10);
    }
  }

  /** Python `str(v)`. */
  function Show(v: Value): string {
    match v
    case Null => "None"
    case Bool(b) => if b then "True" else "False"
    case Int(i) => IntToDecimal(i)
    case Str(s) => s
  }

  /** The characters `str.strip()` removes: Python's `str.isspace` white space, Unicode included. */
  predicate IsSpace(c: char) {
    c == ' ' || '\t' <= c <= '\r' || '\U{1C}' <= c <= '\U{1F}' || c == '\U{85}' || c == '\U{A0}'
    || c == '\U{1680}' || '\U{2000}' <= c <= '\U{200A}' || c == '\U{2028}' || c == '\U{2029}'
    || c == '\U{202F}' || c == '\U{205F}' || c == '\U{3000}'
  }

  /** `s` without its leading white space. */
  function TrimStart(s: string): (r: string)
    ensures |r| <= |s|
  {
    if s != [] && IsSpace(s[0]) then TrimStart(s[1..]) else s
  }

  /** `s` without its trailing white space. */
  function TrimEnd(s: string): (r: string)
    ensures |r| <= |s|
  {
    if s != [] && IsSpace(s[|s| - 1]) then TrimEnd(s[..|s| - 1]) else s
  }

  /** `TrimStart` drops a run of white space and stops at the first other character. */
  lemma {:induction false} TrimStartFacts(s: string)
    ensures TrimStart(s) == s[|s| - |TrimStart(s)|..]
    ensures TrimStart(s) == [] || !IsSpace(TrimStart(s)[0])
    ensures forall i :: 0 <= i < |s| - |TrimStart(s)| ==> IsSpace(s[i])
    decreases |s|
  {
    if s != [] && IsSpace(s[0]) {
      var r := TrimStart(s);
      TrimStartFacts(s[1..]);
      assert s[1..][|s| - 1 - |r|..] == s[|s| - |r|..];
      forall i | 0 <= i < |s| - |r| ensures IsSpace(s[i]) {
        if i > 0 {
          assert s[i] == s[1..][i - 1];
        }
      }
    }
  }

  /** `TrimEnd` drops a run of white space and stops at the last other character. */
  lemma {:induction false} TrimEndFacts(s: string)
    ensures TrimEnd(s) == s[..|TrimEnd(s)|]
    ensures TrimEnd(s) == [] || !IsSpace(TrimEnd(s)[|TrimEnd(s)| - 1])
    ensures forall i :: |TrimEnd(s)| <= i < |s| ==> IsSpace(s[i])
    decreases |s|
  {
    if s != [] && IsSpace(s[|s| - 1]) {
      var r := TrimEnd(s);
      var init := s[..|s| - 1];
      TrimEndFacts(init);
      assert init[..|r|] == s[..|r|];
      forall i | |r| <= i < |s| ensures IsSpace(s[i]) {
        if i < |s| - 1 {
          assert s[i] == init[i];
        }
      }
    }
  }

  /** How many white-space characters `str.strip()` removes at the front of `s`. */
  function LeadingSpaces(s: string): nat {
    |s| - |TrimStart(s)|
  }

  /** Python `str.strip()`. */
  function Strip(s: string): string {
    TrimEnd(TrimStart(s))
  }

  /** `strip()` keeps the middle of `s`, from its first to its last non-space character. */
  lemma StripFacts(s: string)
    ensures LeadingSpaces(s) + |Strip(s)| <= |s|
    ensures Strip(s) == s[LeadingSpaces(s)..LeadingSpaces(s) + |Strip(s)|]
    ensures forall k :: 0 <= k < LeadingSpaces(s) ==> IsSpace(s[k])
    ensures forall k :: LeadingSpaces(s) + |Strip(s)| <= k < |s| ==> IsSpace(s[k])
    ensures Strip(s) == [] || (!IsSpace(Strip(s)[0]) && !IsSpace(Strip(s)[|Strip(s)| - 1]))
  {
    StripSlice(s);
    StripTail(s);
    StripEnds(s);
  }

  lemma StripSlice(s: string)
    ensures Strip(s) == s[LeadingSpaces(s)..LeadingSpaces(s) + |Strip(s)|]
    ensures forall k :: 0 <= k < LeadingSpaces(s) ==> IsSpace(s[k])
  {
    var t := TrimStart(s);
    TrimStartFacts(s);
    TrimEndFacts(t);
  }

  lemma StripTail(s: string)
    ensures forall k :: LeadingSpaces(s) + |Strip(s)| <= k < |s| ==> IsSpace(s[k])
  {
    var t := TrimStart(s);
    var r := TrimEnd(t);
    var n := |s| - |t|;
    TrimStartFacts(s);
    TrimEndFacts(t);
    forall k | n + |r| <= k < |s| ensures IsSpace(s[k]) {
      assert s[k] == t[k - n];
    }
  }

  lemma StripEnds(s: string)
    ensures Strip(s) == [] || (!IsSpace(Strip(s)[0]) && !IsSpace(Strip(s)[|Strip(s)| - 1]))
  {
    var t := TrimStart(s);
    var r := TrimEnd(t);
    TrimStartFacts(s);
    TrimEndFacts(t);
    assert r != [] ==> r[0] == t[0];
  }

  /** Lower case of one character: ASCII capitals, and the Kelvin sign, whose lower case is `k`. */
  function LowerChar(c: char): char {
    if 'A' <= c <= 'Z' then (c as int - 'A' as int + 'a' as int) as char
    else if c == '\U{212A}' then 'k'
    else c
  }

  /** Python `str.lower()` on the characters whose lower case is ASCII; other characters are kept. */
  function Lower(s: string): (r: string)
    ensures |r| == |s| && forall i :: 0 <= i < |s| ==> r[i] == LowerChar(s[i])
  {
    seq(|s|, i requires 0 <= i < |s| => LowerChar(s[i]))
  }

  /** Python `sub in s` for strings. */
  predicate Contains(s: string, sub: string)
    decreases |s|
  {
    |sub| <= |s| && (s[..|sub|] == sub || Contains(s[1..], sub))
  }

  /** Number of occurrences of the character `c` in `s`. */
  function Count(s: string, c: char): nat {
    if s == [] then 0 else Count(s[..|s| - 1], c) + (if s[|s| - 1] == c then 1 else 0)
  }

  /** Python `s.split(sep)` for a one-character separator. */
  function Split(s: string, sep: char): (parts: seq<string>)
    ensures |parts| >= 1
    ensures forall k :: 0 <= k < |parts| ==> sep !in parts[k]
    decreases |s|
  {
    if s == [] then [""]
    else
      var rest := Split(s[1..], sep);
      if s[0] == sep then [""] + rest else [[s[0]] + rest[0]] + rest[1..]
  }

  /** Python `sep.join(parts)` / JavaScript `parts.join(sep)`. */
  function Join(parts: seq<string>, sep: string): string {
    if parts == [] then ""
    else if |parts| == 1 then parts[0]
    else parts[0] + sep + Join(parts[1..], sep)
  }

  /** Joining and splitting again gives back the pieces when none holds the separator. */
  lemma {:induction false} SplitJoin(parts: seq<string>, sep: char)
    requires |parts| >= 1
    requires forall k :: 0 <= k < |parts| ==> sep !in parts[k]
    ensures Split(Join(parts, [sep]), sep) == parts
    decreases |parts|, |parts[0]|
  {
    if |parts| == 1 {
      SplitNoSeparator(parts[0], sep);
    } else if parts[0] == [] {
      var s := Join(parts, [sep]);
      assert s == [sep] + Join(parts[1..], [sep]);
      assert s[1..] == Join(parts[1..], [sep]);
      SplitJoin(parts[1..], sep);
      assert parts == [""] + parts[1..];
    } else {
      var s := Join(parts, [sep]);
      var shorter := [parts[0][1..]] + parts[1..];
      assert s[0] == parts[0][0];
      assert s[1..] == Join(shorter, [sep]) by {
        assert Join(shorter, [sep]) == parts[0][1..] + [sep] + Join(parts[1..], [sep]);
        assert s == [parts[0][0]] + (parts[0][1..] + [sep] + Join(parts[1..], [sep]));
      }
      assert sep !in parts[0][1..];
      SplitJoin(shorter, sep);
      assert [parts[0][0]] + shorter[0] == parts[0];
      assert parts == [[parts[0][0]] + shorter[0]] + shorter[1..];
    }
  }

  lemma {:induction false} SplitNoSeparator(s: string, sep: char)
    requires sep !in s
    ensures Split(s, sep) == [s]
    decreases |s|
  {
    if s != [] {
      assert sep !in s[1..];
      SplitNoSeparator(s[1..], sep);
      assert [s[0]] + s[1..] == s;
    }
  }

  /** A split string has one piece more than it has separators. */
  lemma {:induction false} SplitCount(s: string, sep: char)
    ensures |Split(s, sep)| == Count(s, sep) + 1
    decreases |s|
  {
    if s != [] {
      SplitCount(s[1..], sep);
      CountFront(s, sep);
    }
  }

  lemma {:induction false} CountFront(s: string, c: char)
    requires s != []
    ensures Count(s, c) == Count(s[1..], c) + (if s[0] == c then 1 else 0)
    decreases |s|
  {
    if |s| > 1 {
      assert s[1..][..|s[1..]| - 1] == s[..|s| - 1][1..];
      CountFront(s[..|s| - 1], c);
    }
  }

  /** Text made of the given lines, each terminated by a newline (what repeated `text += line + "\n"` builds). */
  function Lines(ls: seq<string>): string {
    if ls == [] then "" else Lines(ls[..|ls| - 1]) + (ls[|ls| - 1] + "\n")
  }

  /** One more line at the end adds that line and its newline. */
  lemma LinesSnoc(ls: seq<string>, l: string)
    ensures Lines(ls + [l]) == Lines(ls) + (l + "\n")
  {
    assert (ls + [l])[..|ls|] == ls;
  }

  /** A line followed by an empty line adds the line and two newlines. */
  lemma LinesSnocBlank(ls: seq<string>, l: string)
    ensures Lines(ls + [l, ""]) == Lines(ls) + (l + "\n\n")
  {
    LinesSnoc(ls, l);
    LinesSnoc(ls + [l], "");
    assert ls + [l] + [""] == ls + [l, ""];
    assert "" + "\n" == "\n";
    assert l + "\n\n" == (l + "\n") + "\n";
  }

  lemma {:induction false} LinesAppend(a: seq<string>, b: seq<string>)
    ensures Lines(a + b) == Lines(a) + Lines(b)
    decreases |b|
  {
    if b == [] {
      assert a + b == a;
    } else {
      var init := b[..|b| - 1];
      var last := b[|b| - 1];
      assert a + b == (a + init) + [last];
      assert b == init + [last];
      LinesAppend(a, init);
      LinesSnoc(a + init, last);
      LinesSnoc(init, last);
    }
  }

  /** Reading the first line off the front. */
  lemma LinesCons(ls: seq<string>)
    requires ls != []
    ensures Lines(ls) == ls[0] + "\n" + Lines(ls[1..])
  {
    assert ls == [ls[0]] + ls[1..];
    LinesAppend([ls[0]], ls[1..]);
    LinesSnoc([], ls[0]);
    assert [] + [ls[0]] == [ls[0]];
  }

  /** Newline-terminated lines followed by a last piece are `Join` of all of them. */
  lemma {:induction false} LinesThenJoin(ls: seq<string>, last: string)
    ensures Lines(ls) + last == Join(ls + [last], "\n")
    decreases |ls|
  {
    if ls == [] {
      assert [] + [last] == [last];
      assert "" + last == last;
    } else {
      assert (ls + [last])[1..] == ls[1..] + [last];
      LinesThenJoin(ls[1..], last);
      LinesCons(ls);
      assert ls[0] + "\n" + Lines(ls[1..]) + last == ls[0] + "\n" + (Lines(ls[1..]) + last);
    }
  }

  /** Splitting at newlines recovers the lines and the unterminated last piece. */
  lemma LinesSplitLast(ls: seq<string>, last: string)
    requires forall k :: 0 <= k < |ls| ==> '\n' !in ls[k]
    requires '\n' !in last
    ensures Split(Lines(ls) + last, '\n') == ls + [last]
  {
    LinesThenJoin(ls, last);
    SplitJoin(ls + [last], '\n');
  }

  /** Splitting newline-terminated lines at newlines recovers the lines and an empty tail. */
  lemma LinesSplit(ls: seq<string>)
    requires forall k :: 0 <= k < |ls| ==> '\n' !in ls[k]
    ensures Split(Lines(ls), '\n') == ls + [""]
  {
    LinesSplitLast(ls, "");
    assert Lines(ls) + "" == Lines(ls);
  }

  /** The lines of one block per element, blocks in element order. */
  function Blocks<T>(f: T -> seq<string>, es: seq<T>): seq<string> {
    if es == [] then [] else Blocks(f, es[..|es| - 1]) + f(es[|es| - 1])
  }

  /** With blocks of a fixed height `w`, the `i`-th block sits at lines `w*i` to `w*i + w`. */
  lemma {:induction false} BlockAt<T>(f: T -> seq<string>, es: seq<T>, w: nat, i: nat)
    requires forall e :: |f(e)| == w
    requires i < |es|
    ensures |Blocks(f, es)| == w * |es|
    ensures w * i + w <= |Blocks(f, es)| && Blocks(f, es)[w * i..w * i + w] == f(es[i])
    decreases |es|
  {
    var init := es[..|es| - 1];
    var b := Blocks(f, es);
    BlocksLength(f, init, w);
    BlocksLength(f, es, w);
    assert b == Blocks(f, init) + f(es[|es| - 1]);
    if i < |es| - 1 {
      BlockAt(f, init, w, i);
      assert init[i] == es[i];
      assert b[w * i..w * i + w] == Blocks(f, init)[w * i..w * i + w];
    } else {
      assert w * i == |Blocks(f, init)|;
    }
  }

  lemma {:induction false} BlocksLength<T>(f: T -> seq<string>, es: seq<T>, w: nat)
    requires forall e :: |f(e)| == w
    ensures |Blocks(f, es)| == w * |es|
    decreases |es|
  {
    if es != [] {
      BlocksLength(f, es[..|es| - 1], w);
      assert w * |es| == w * (|es| - 1) + w;
    }
  }

  /** A prefix one element longer has that element's block appended. */
  lemma BlocksStep<T>(f: T -> seq<string>, es: seq<T>, i: nat)
    requires i < |es|
    ensures Blocks(f, es[..i + 1]) == Blocks(f, es[..i]) + f(es[i])
  {
    assert es[..i + 1][..i] == es[..i];
  }

  /** After a fixed header, one more element adds the text of its block. */
  lemma LinesBlocksStep<T>(h: seq<string>, f: T -> seq<string>, es: seq<T>, i: nat)
    requires i < |es|
    ensures Lines(h + Blocks(f, es[..i + 1])) == Lines(h + Blocks(f, es[..i])) + Lines(f(es[i]))
  {
    BlocksStep(f, es, i);
    assert h + Blocks(f, es[..i + 1]) == (h + Blocks(f, es[..i])) + f(es[i]);
    LinesAppend(h + Blocks(f, es[..i]), f(es[i]));
  }

  predicate NoNewline(ls: seq<string>) {
    forall k :: 0 <= k < |ls| ==> '\n' !in ls[k]
  }

  lemma {:induction false} BlocksNoNewline<T>(f: T -> seq<string>, es: seq<T>)
    requires forall i :: 0 <= i < |es| ==> NoNewline(f(es[i]))
    ensures NoNewline(Blocks(f, es))
    decreases |es|
  {
    if es != [] {
      BlocksNoNewline(f, es[..|es| - 1]);
    }
  }

  /** Blocks of elements that all satisfy `p` have no newline when `p` guarantees it for one block. */
  lemma BlocksNoNewlineWhen<T>(f: T -> seq<string>, p: T -> bool, es: seq<T>)
    requires forall e :: p(e) ==> NoNewline(f(e))
    requires forall k :: 0 <= k < |es| ==> p(es[k])
    ensures NoNewline(Blocks(f, es))
  {
    BlocksNoNewline(f, es);
  }

  lemma NoNewlineAppend(a: seq<string>, b: seq<string>)
    requires NoNewline(a) && NoNewline(b)
    ensures NoNewline(a + b)
  {
    var all := a + b;
    forall k | 0 <= k < |all| ensures '\n' !in all[k] {
      if k >= |a| { assert all[k] == b[k - |a|]; }
    }
  }

  /** Blocks built by two functions that agree on every element are the same. */
  lemma {:induction false} BlocksAgree<T>(f: T -> seq<string>, g: T -> seq<string>, es: seq<T>)
    requires forall k :: 0 <= k < |es| ==> f(es[k]) == g(es[k])
    ensures Blocks(f, es) == Blocks(g, es)
    decreases |es|
  {
    if es != [] {
      BlocksAgree(f, g, es[..|es| - 1]);
    }
  }
}

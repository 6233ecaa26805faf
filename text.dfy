/** Text helpers shared by the renderer model: an Option type, repetition and
    concatenation of strings, the open/inner/close wrapping every emitter uses,
    and the decimal printing that `strconv.Itoa` and `%d` perform. */
module Text {

  datatype Option<+T> = None | Some(value: T)

  /** `s` starts with `p`. */
  predicate HasPrefix(s: string, p: string) {
    |p| <= |s| && s[..|p|] == p
  }

  /** `s` ends with `p`. */
  predicate HasSuffix(s: string, p: string) {
    |p| <= |s| && s[|s| - |p|..] == p
  }

  /** `n` copies of `s`, one after the other. */
  function Repeat(s: string, n: nat): string {
    if n == 0 then "" else Repeat(s, n - 1) + s
  }

  /** The strings of `ss`, in order, written one after the other. */
  function Concat(ss: seq<string>): string {
    if ss == [] then "" else Concat(ss[..|ss| - 1]) + ss[|ss| - 1]
  }

  lemma AppendAssoc(a: string, b: string, c: string)
    ensures a + b + c == a + (b + c)
  {
  }

  lemma ConcatAppendOne(ss: seq<string>, s: string)
    ensures Concat(ss + [s]) == Concat(ss) + s
  {
    assert (ss + [s])[..|ss|] == ss;
  }

  /** Recognises text written as `open`, then some inner part, then `close`,
      and gives back the inner part. */
  function Unwrap(s: string, open: string, close: string): Option<string> {
    if |open| + |close| <= |s| && s[..|open|] == open && s[|s| - |close|..] == close
    then Some(s[|open|..|s| - |close|])
    else None
  }

  /** What a sequence of three buffer writes produces: an opening tag, the
      inner content unchanged, a closing tag. */
  function Wrap(open: string, inner: string, close: string): string {
    open + inner + close
  }

  /** Writing the three parts one after the other appends the wrapped text. */
  lemma AppendWrap(s: string, open: string, inner: string, close: string)
    ensures s + open + inner + close == s + Wrap(open, inner, close)
  {
    AppendAssoc(s, open, inner);
    AppendAssoc(s, open + inner, close);
  }

  /** The inner content of a wrapped text is recovered unchanged. */
  lemma UnwrapWrap(open: string, inner: string, close: string)
    ensures Unwrap(Wrap(open, inner, close), open, close) == Some(inner)
    ensures HasPrefix(Wrap(open, inner, close), open) && HasSuffix(Wrap(open, inner, close), close)
  {
    var r := open + inner + close;
    assert r[..|open|] == open;
    assert r[|r| - |close|..] == close;
    assert r[|open|..|r| - |close|] == inner;
  }

  predicate IsDigit(c: char) {
    '0' <= c <= '9'
  }

  function DigitChar(d: nat): (c: char)
    requires d < 10
    ensures IsDigit(c) && c as int - '0' as int == d
  {
    ('0' as int + d) as char
  }

  /** Decimal representation of `n`, as Go's `strconv.Itoa` and the `%d` verb
      write a non-negative integer: digits only, no leading zero. */
  function NatToString(n: nat): (r: string)
    ensures |r| > 0
    ensures forall i :: 0 <= i < |r| ==> IsDigit(r[i])
    ensures r[0] == '0' ==> n == 0
    decreases n
  {
    if n < 10 then [DigitChar(n)] else NatToString(n / 10) + [DigitChar(n % 10)]
  }

  /** The value of a string of decimal digits. */
  function ParseDecimal(s: string): nat
    requires forall i :: 0 <= i < |s| ==> IsDigit(s[i])
  {
    if s == [] then 0
    else
      assert IsDigit(s[|s| - 1]);
      ParseDecimal(s[..|s| - 1]) * 10 + (s[|s| - 1] as int - '0' as int)
  }

  /** Reading back the decimal text of `n` gives `n`. */
  lemma {:induction false} ParseNatToString(n: nat)
    ensures ParseDecimal(NatToString(n)) == n
    decreases n
  {
    var r := NatToString(n);
    if n >= 10 {
      ParseNatToString(n / 10);
      assert r[..|r| - 1] == NatToString(n / 10);
    }
  }
}

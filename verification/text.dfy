/** Text helpers shared by the grid strategies and the trader: Python's notion of
    whitespace, `str.strip`/`str.split`/`"".join`, substring search (`x in s`),
    and the decimal form `str(n)` of an integer. */
module Text {

  /** Python's `str.isspace`: the characters `strip()` and `split()` treat as whitespace. */
  predicate IsSpace(c: char)
  {
    c == ' ' || ('\t' <= c <= '\r') || ('\U{1c}' <= c <= '\U{1f}') || c == '\U{85}' || c == '\U{a0}'
    || c == '\U{1680}' || ('\U{2000}' <= c <= '\U{200a}') || c == '\U{2028}' || c == '\U{2029}'
    || c == '\U{202f}' || c == '\U{205f}' || c == '\U{3000}'
  }

  predicate NoSpace(s: string)
  {
    forall i :: 0 <= i < |s| ==> !IsSpace(s[i])
  }

  /** Reference definition: `s` with every whitespace character deleted, the rest in order. */
  function Squeeze(s: string): (r: string)
    ensures |r| <= |s|
  {
    if s == [] then []
    else (if IsSpace(s[0]) then [] else [s[0]]) + Squeeze(s[1..])
  }

  /** Squeezing leaves no whitespace, and changes nothing in a text without any. */
  lemma {:induction false} SqueezeNoSpace(s: string)
    ensures NoSpace(Squeeze(s))
    ensures NoSpace(s) ==> Squeeze(s) == s
  {
    if s != [] {
      SqueezeNoSpace(s[1..]);
    }
  }

  /** `s.lstrip()` */
  function StripLeft(s: string): (r: string)
    ensures |r| <= |s| && r == s[|s| - |r|..]
    ensures r == [] || !IsSpace(r[0])
    ensures forall k :: 0 <= k < |s| - |r| ==> IsSpace(s[k])
  {
    if s != [] && IsSpace(s[0]) then StripLeft(s[1..]) else s
  }

  /** `s.rstrip()` */
  function StripRight(s: string): (r: string)
    ensures |r| <= |s| && r == s[..|r|]
    ensures r == [] || !IsSpace(r[|r| - 1])
    ensures forall k :: |r| <= k < |s| ==> IsSpace(s[k])
  {
    if s != [] && IsSpace(s[|s| - 1]) then StripRight(s[..|s| - 1]) else s
  }

  /** `s.strip()` */
  function Strip(s: string): (r: string)
    ensures |r| <= |s|
    ensures r == [] || (!IsSpace(r[0]) && !IsSpace(r[|r| - 1]))
    ensures NoSpace(s) ==> r == s
  {
    StripRight(StripLeft(s))
  }

  /** `s.split()` with no separator: the maximal runs of non-whitespace characters.
      `word` holds the run read so far. */
  function WordsFrom(s: string, word: string): (r: seq<string>)
    requires NoSpace(word)
    ensures forall k :: 0 <= k < |r| ==> r[k] != [] && NoSpace(r[k])
  {
    if s == [] then (if word == [] then [] else [word])
    else if IsSpace(s[0]) then
      (if word == [] then [] else [word]) + WordsFrom(s[1..], [])
    else
      WordsFrom(s[1..], word + [s[0]])
  }

  /** `s.split()` */
  function Split(s: string): (words: seq<string>)
    ensures forall k :: 0 <= k < |words| ==> words[k] != [] && NoSpace(words[k])
  {
    WordsFrom(s, [])
  }

  /** `"".join(ws)` */
  function Join(ws: seq<string>): (r: string)
    ensures (forall k :: 0 <= k < |ws| ==> NoSpace(ws[k])) ==> NoSpace(r)
  {
    if ws == [] then [] else ws[0] + Join(ws[1..])
  }

  lemma {:induction false} SqueezeAppend(a: string, b: string)
    ensures Squeeze(a + b) == Squeeze(a) + Squeeze(b)
  {
    if a != [] {
      assert (a + b)[1..] == a[1..] + b;
      SqueezeAppend(a[1..], b);
    } else {
      assert a + b == b;
    }
  }

  lemma {:induction false} JoinWordsFrom(s: string, word: string)
    requires NoSpace(word)
    ensures Join(WordsFrom(s, word)) == word + Squeeze(s)
  {
    if s == [] {
    } else if IsSpace(s[0]) {
      JoinWordsFrom(s[1..], []);
      var rest := WordsFrom(s[1..], []);
      if word != [] {
        assert ([word] + rest)[1..] == rest;
      } else {
        assert [] + rest == rest;
      }
    } else {
      JoinWordsFrom(s[1..], word + [s[0]]);
      assert word + [s[0]] + Squeeze(s[1..]) == word + ([s[0]] + Squeeze(s[1..]));
    }
  }

  lemma {:induction false} SqueezeStripLeft(s: string)
    ensures Squeeze(StripLeft(s)) == Squeeze(s)
  {
    if s != [] && IsSpace(s[0]) {
      SqueezeStripLeft(s[1..]);
    }
  }

  lemma {:induction false} SqueezeStripRight(s: string)
    ensures Squeeze(StripRight(s)) == Squeeze(s)
  {
    if s != [] && IsSpace(s[|s| - 1]) {
      var init := s[..|s| - 1];
      SqueezeStripRight(init);
      assert s == init + [s[|s| - 1]];
      SqueezeAppend(init, [s[|s| - 1]]);
    }
  }

  /** Stripping, splitting on whitespace and joining with "" removes every whitespace
      character, including those inside the text, and keeps every other one in order. */
  lemma {:induction false} SplitJoinStripIsSqueeze(s: string)
    ensures Join(Split(Strip(s))) == Squeeze(s)
  {
    calc {
      Join(Split(Strip(s)));
    == { JoinWordsFrom(Strip(s), []); assert [] + Squeeze(Strip(s)) == Squeeze(Strip(s)); }
      Squeeze(Strip(s));
    == { SqueezeStripRight(StripLeft(s)); }
      Squeeze(StripLeft(s));
    == { SqueezeStripLeft(s); }
      Squeeze(s);
    }
  }

  // ---------------------------------------------------------------- substrings

  predicate OccursAt(s: string, sub: string, i: nat)
  {
    i + |sub| <= |s| && s[i..i + |sub|] == sub
  }

  /** Python's `sub in s`. */
  function Contains(s: string, sub: string): (found: bool)
    ensures found ==> |sub| <= |s|
    ensures sub == [] ==> found
    decreases |s|
  {
    if |s| < |sub| then false
    else if s[..|sub|] == sub then true
    else Contains(s[1..], sub)
  }

  /** An occurrence at index `i` is found by the scan. */
  lemma {:induction false} OccursContains(s: string, sub: string, i: nat)
    requires OccursAt(s, sub, i)
    ensures Contains(s, sub)
    decreases i
  {
    if i > 0 && s[..|sub|] != sub {
      assert s[1..][i - 1..i - 1 + |sub|] == s[i..i + |sub|];
      OccursContains(s[1..], sub, i - 1);
    }
  }

  /** When the scan succeeds, it has found an occurrence. */
  lemma {:induction false} ContainsWitness(s: string, sub: string) returns (i: nat)
    requires Contains(s, sub)
    ensures OccursAt(s, sub, i)
    decreases |s|
  {
    if s[..|sub|] == sub {
      i := 0;
    } else {
      var j := ContainsWitness(s[1..], sub);
      i := j + 1;
      assert s[i..i + |sub|] == s[1..][j..j + |sub|];
    }
  }

  lemma {:induction false} ContainsIffOccurs(s: string, sub: string)
    ensures Contains(s, sub) <==> exists i: nat :: OccursAt(s, sub, i)
  {
    forall i: nat | OccursAt(s, sub, i)
      ensures Contains(s, sub)
    {
      OccursContains(s, sub, i);
    }
    if Contains(s, sub) {
      var i := ContainsWitness(s, sub);
    }
  }

  // ---------------------------------------------------------------- decimal numbers

  predicate IsDigit(c: char)
  {
    '0' <= c <= '9'
  }

  function DigitChar(d: nat): (c: char)
    requires d < 10
    ensures IsDigit(c) && (c as int) - ('0' as int) == d
  {
    (('0' as int) + d) as char
  }

  /** `str(n)` for a non-negative integer: decimal digits, no leading zero. */
  function NatToString(n: nat): (s: string)
    ensures |s| >= 1 && (forall i :: 0 <= i < |s| ==> IsDigit(s[i]))
    ensures s[0] == '0' ==> n == 0
  {
    if n < 10 then [DigitChar(n)] else NatToString(n / 10) + [DigitChar(n % 10)]
  }

  /** `str(i)` for any integer: a minus sign before the digits of a negative number. */
  function IntToString(i: int): (s: string)
    ensures |s| >= 1
    ensures forall k :: 0 <= k < |s| ==> IsDigit(s[k]) || (k == 0 && s[k] == '-' && i < 0)
  {
    if i < 0 then "-" + NatToString(-i) else NatToString(i)
  }

  function DigitValue(c: char): nat
    requires IsDigit(c)
  {
    (c as int) - ('0' as int)
  }

  /** Reading a string of decimal digits back as a number. */
  function ParseNat(s: string): nat
    requires forall i :: 0 <= i < |s| ==> IsDigit(s[i])
  {
    if s == [] then 0 else ParseNat(s[..|s| - 1]) * 10 + DigitValue(s[|s| - 1])
  }

  function ParseInt(s: string): int
    requires forall k :: 0 <= k < |s| ==> IsDigit(s[k]) || (k == 0 && s[k] == '-')
  {
    if s != [] && s[0] == '-' then 0 - ParseNat(s[1..]) else ParseNat(s)
  }

  lemma {:induction false} NatRoundTrip(n: nat)
    ensures ParseNat(NatToString(n)) == n
  {
    if n >= 10 {
      NatRoundTrip(n / 10);
      var s := NatToString(n);
      assert s[..|s| - 1] == NatToString(n / 10);
    }
  }

  /** The decimal form of an integer reads back as that integer. */
  lemma {:induction false} IntRoundTrip(i: int)
    ensures ParseInt(IntToString(i)) == i
  {
    if i < 0 {
      NatRoundTrip(-i);
      assert IntToString(i)[1..] == NatToString(-i);
    } else {
      NatRoundTrip(i);
    }
  }

  /** Python's `int(x)` on a number: truncation toward zero. */
  function Trunc(x: real): (n: int)
    ensures x >= 0.0 ==> n as real <= x < n as real + 1.0
    ensures x < 0.0 ==> n as real - 1.0 < x <= n as real
  {
    if x >= 0.0 then x.Floor else -((-x).Floor)
  }
}

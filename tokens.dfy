/** Correlation tokens: the string `fmt.Sprintf("%d-%d", timestamp, counter)`
    built by `nextMsgId`, and the parse that recovers the counter from it. */
module Tokens {

  predicate IsDigit(c: char) {
    '0' <= c <= '9'
  }

  function DigitChar(d: nat): (c: char)
    requires d < 10
    ensures IsDigit(c)
  {
    ('0' as int + d) as char
  }

  /** Value of a decimal digit; any other character reads as 0. */
  function DigitValue(c: char): nat {
    if IsDigit(c) then c as int - '0' as int else 0
  }

  /** Go's `%d` rendering of a non-negative integer: no sign, no leading zeros. */
  function DecimalString(n: nat): (s: string)
    ensures |s| > 0
    ensures forall i :: 0 <= i < |s| ==> IsDigit(s[i])
    ensures n < 10 <==> |s| == 1
    decreases n
  {
    if n < 10 then [DigitChar(n)] else DecimalString(n / 10) + [DigitChar(n % 10)]
  }

  /** Reads a string of decimal digits back into a number. */
  function ParseDecimal(s: string): nat {
    if s == [] then 0 else ParseDecimal(s[..|s| - 1]) * 10 + DigitValue(s[|s| - 1])
  }

  lemma {:induction false} ParseDecimalString(n: nat)
    ensures ParseDecimal(DecimalString(n)) == n
    decreases n
  {
    var s := DecimalString(n);
    if n < 10 {
      assert s[..0] == [];
    } else {
      assert s[..|s| - 1] == DecimalString(n / 10);
      ParseDecimalString(n / 10);
    }
  }

  /** The token `"<timestamp>-<counter>"` of client.go:89: digits with one
      '-', placed right after the timestamp's digits. */
  function Token(timestamp: nat, counter: nat): (t: string)
    ensures |t| == |DecimalString(timestamp)| + 1 + |DecimalString(counter)|
    ensures forall i :: 0 <= i < |t| ==> (t[i] == '-' <==> i == |DecimalString(timestamp)|)
    ensures forall i :: 0 <= i < |t| && i != |DecimalString(timestamp)| ==> IsDigit(t[i])
  {
    DecimalString(timestamp) + "-" + DecimalString(counter)
  }

  /** The characters after the last '-' (all of `s` if it has none). */
  function AfterLastDash(s: string): (r: string)
    ensures |r| <= |s|
    ensures forall i :: 0 <= i < |r| ==> r[i] != '-'
  {
    if s == [] then []
    else if s[|s| - 1] == '-' then []
    else AfterLastDash(s[..|s| - 1]) + [s[|s| - 1]]
  }

  /** The counter a token was built from. */
  function CounterOf(token: string): nat {
    ParseDecimal(AfterLastDash(token))
  }

  lemma {:induction false} AfterLastDashOfJoin(prefix: string, digits: string)
    requires forall i :: 0 <= i < |digits| ==> IsDigit(digits[i])
    ensures AfterLastDash(prefix + "-" + digits) == digits
    decreases |digits|
  {
    var s := prefix + "-" + digits;
    if digits == [] {
      assert s[|s| - 1] == '-';
    } else {
      var init := digits[..|digits| - 1];
      assert s[..|s| - 1] == prefix + "-" + init;
      assert s[|s| - 1] == digits[|digits| - 1];
      AfterLastDashOfJoin(prefix, init);
      assert init + [digits[|digits| - 1]] == digits;
    }
  }

  /** Parsing a token gives back the counter it was built from. */
  lemma TokenCounter(timestamp: nat, counter: nat)
    ensures CounterOf(Token(timestamp, counter)) == counter
  {
    AfterLastDashOfJoin(DecimalString(timestamp), DecimalString(counter));
    ParseDecimalString(counter);
  }

  /** Tokens built from different counters differ, whatever the timestamps:
      two calls of `nextMsgId` never return the same token. */
  lemma TokensDistinct(t1: nat, n1: nat, t2: nat, n2: nat)
    requires n1 != n2
    ensures Token(t1, n1) != Token(t2, n2)
  {
    TokenCounter(t1, n1);
    TokenCounter(t2, n2);
  }
}

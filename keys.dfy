/** Keys under which the handlers store records.

    Three renderings appear in the handlers: `BigInt.toString()` (the decimal
    form of a token, sale or log index), `Bytes.toHexString()` (a "0x"-prefixed
    lower-case hex string) and the composite `<txHash>-<logIndex>` key used by
    every append-only record. The lemmas here show that these keys are
    injective, so two different log events can never write the same key. */
module Keys {

  predicate IsDigit(c: char) {
    '0' <= c <= '9'
  }

  predicate IsHexDigit(c: char) {
    '0' <= c <= '9' || 'a' <= c <= 'f'
  }

  /** The shape of `Bytes.toHexString()`: "0x" then lower-case hex digits. */
  predicate IsHexString(s: string) {
    && |s| >= 2
    && s[0] == '0' && s[1] == 'x'
    && forall i :: 2 <= i < |s| ==> IsHexDigit(s[i])
  }

  function DigitChar(d: nat): (c: char)
    requires d < 10
    ensures IsDigit(c) && c as int - '0' as int == d
  {
    ('0' as int + d) as char
  }

  /** `BigInt.toString()` of a non-negative value: its decimal digits. */
  function NatToString(n: nat): (s: string)
    ensures 1 <= |s|
    ensures n >= 10 <==> |s| >= 2
    ensures forall i :: 0 <= i < |s| ==> IsDigit(s[i])
    decreases n
  {
    if n < 10 then [DigitChar(n)] else NatToString(n / 10) + [DigitChar(n % 10)]
  }

  /** The value of a string of decimal digits (the reading of NatToString). */
  function DecimalValue(s: string): nat
    requires forall i :: 0 <= i < |s| ==> IsDigit(s[i])
    decreases |s|
  {
    if s == [] then 0
    else
      assert IsDigit(s[|s| - 1]);
      DecimalValue(s[..|s| - 1]) * 10 + (s[|s| - 1] as int - '0' as int)
  }

  /** Reading back the decimal rendering gives the number. */
  lemma {:induction false} DecimalRoundTrip(n: nat)
    ensures DecimalValue(NatToString(n)) == n
    decreases n
  {
    var s := NatToString(n);
    if n < 10 {
      assert s[..|s| - 1] == [];
    } else {
      DecimalRoundTrip(n / 10);
      assert s[..|s| - 1] == NatToString(n / 10);
    }
  }

  /** Distinct numbers render to distinct decimal strings. */
  lemma NatToStringInjective(a: nat, b: nat)
    ensures NatToString(a) == NatToString(b) <==> a == b
  {
    if NatToString(a) == NatToString(b) {
      DecimalRoundTrip(a);
      DecimalRoundTrip(b);
    }
  }

  /** `<txHash>-<logIndex>`: the key of a NodeEvent, Purchase or NodeBinding. */
  function EventKey(txHash: string, logIndex: nat): (k: string)
    ensures ReadsAs(k, txHash, logIndex)
  {
    DecimalRoundTrip(logIndex);
    txHash + "-" + NatToString(logIndex)
  }

  /** `k` is `prefix`, a dash, then decimal digits whose value is `n`: the
      number can be read back from the key. */
  predicate ReadsAs(k: string, prefix: string, n: nat) {
    && |prefix| < |k|
    && k[..|prefix|] == prefix
    && k[|prefix|] == '-'
    && var tail := k[|prefix| + 1..];
       && (forall i :: 0 <= i < |tail| ==> IsDigit(tail[i]))
       && DecimalValue(tail) == n
  }

  /** A key `a-b` splits uniquely at its first dash when `a` has none. */
  lemma {:induction false} DashSplit(a: string, b: string, c: string, d: string)
    requires '-' !in a && '-' !in c
    requires a + "-" + b == c + "-" + d
    ensures a == c && b == d
  {
    var s := a + "-" + b;
    assert s[|a|] == '-' && s[|c|] == '-';
    if |a| < |c| {
      assert false;
    } else if |c| < |a| {
      assert false;
    }
    assert a == s[..|a|];
    assert c == (c + "-" + d)[..|c|];
    assert b == s[|a| + 1..];
    assert d == (c + "-" + d)[|c| + 1..];
  }

  lemma NoDashInHex(s: string)
    requires IsHexString(s)
    ensures '-' !in s
  {
  }

  lemma NoDashInDecimal(n: nat)
    ensures '-' !in NatToString(n)
  {
  }

  /** Two log events write the same `<txHash>-<logIndex>` key exactly when
      they come from the same transaction and carry the same log index. */
  lemma EventKeyInjective(tx1: string, i1: nat, tx2: string, i2: nat)
    requires IsHexString(tx1) && IsHexString(tx2)
    ensures EventKey(tx1, i1) == EventKey(tx2, i2) <==> tx1 == tx2 && i1 == i2
  {
    if EventKey(tx1, i1) == EventKey(tx2, i2) {
      NoDashInHex(tx1);
      NoDashInHex(tx2);
      DashSplit(tx1, NatToString(i1), tx2, NatToString(i2));
      NatToStringInjective(i1, i2);
    }
  }
}

/** The correlation id of a Mobiline activation: group id, a fixed-width time stamp, and the SIM id
    padded to six digits. */
module Correlation {

  function Digit(d: nat): char
    requires d < 10
  {
    "0123456789"[d]
  }

  function Decimal(n: nat): (s: string)
    ensures s != []
  {
    if n < 10 then [Digit(n)] else Decimal(n / 10) + [Digit(n % 10)]
  }

  function Zeros(n: nat): (s: string)
    ensures |s| == n
  {
    seq(n, _ => '0')
  }

  // String.prototype.padStart(6, '0'): a text of six characters or more stays as it is.
  function PadStart6(s: string): string {
    if |s| < 6 then Zeros(6 - |s|) + s else s
  }

  const STAMP_WIDTH := 14

  /** The channel_order_id of buildActivation; `stamp` is yyyyMMddHHmmss in Tashkent time. */
  function ChannelOrderId(group: string, stamp: string, sim: nat): string {
    group + stamp + PadStart6(Decimal(sim))
  }

  // The number a text of digits denotes, leading zeros allowed.
  function Value(s: string): nat {
    if s == [] then 0
    else 10 * Value(s[..|s| - 1]) + DigitValue(s[|s| - 1])
  }

  function DigitValue(c: char): nat {
    if '0' <= c <= '9' then c as int - '0' as int else 0
  }

  lemma {:induction false} DecimalRoundTrip(n: nat)
    ensures Value(Decimal(n)) == n
  {
    if n < 10 {
      assert Value([]) == 0;
      assert Decimal(n)[..0] == [];
    } else {
      DecimalRoundTrip(n / 10);
      assert Decimal(n)[..|Decimal(n)| - 1] == Decimal(n / 10);
    }
  }

  lemma {:induction false} LeadingZeros(k: nat, s: string)
    ensures Value(Zeros(k) + s) == Value(s)
  {
    if s == [] {
      assert Zeros(k) + s == Zeros(k);
      ZerosAreZero(k);
    } else {
      LeadingZeros(k, s[..|s| - 1]);
      assert (Zeros(k) + s)[..k + |s| - 1] == Zeros(k) + s[..|s| - 1];
    }
  }

  lemma {:induction false} ZerosAreZero(k: nat)
    ensures Value(Zeros(k)) == 0
  {
    if k > 0 {
      ZerosAreZero(k - 1);
      assert Zeros(k)[..k - 1] == Zeros(k - 1);
    }
  }

  lemma PaddedValue(n: nat)
    ensures Value(PadStart6(Decimal(n))) == n
  {
    DecimalRoundTrip(n);
    if |Decimal(n)| < 6 {
      LeadingZeros(6 - |Decimal(n)|, Decimal(n));
    }
  }

  predicate Digits(s: string) {
    forall i | 0 <= i < |s| :: '0' <= s[i] <= '9'
  }

  lemma {:induction false} DecimalDigits(n: nat)
    ensures Digits(Decimal(n)) && (n > 0 ==> Decimal(n)[0] != '0')
  {
    if n >= 10 {
      DecimalDigits(n / 10);
    }
  }

  lemma PaddedDigits(n: nat)
    ensures var tail := PadStart6(Decimal(n)); |tail| >= 6 && Digits(tail) && (|tail| > 6 ==> tail[0] != '0')
  {
    DecimalDigits(n);
  }

  /** A correlation id is the group, the time stamp and the number of the SIM, in digits: six of them, with leading
      zeros, and more only for a number that has more. */
  lemma ChannelOrderIdMeans(group: string, stamp: string, sim: nat)
    ensures var id, cut := ChannelOrderId(group, stamp, sim), |group| + |stamp|;
            && |id| >= cut + 6 && id[..|group|] == group && id[|group|..cut] == stamp
            && Digits(id[cut..]) && Value(id[cut..]) == sim && (|id| > cut + 6 ==> id[cut] != '0')
  {
    var tail := PadStart6(Decimal(sim));
    PaddedValue(sim);
    PaddedDigits(sim);
    assert (group + stamp + tail)[|group| + |stamp|..] == tail;
  }

  /** Two activations of one group share their correlation id exactly when they are of the same SIM
      in the same second, whatever the number of digits of the ids. */
  lemma CorrelationIsInjective(group: string, stamp1: string, sim1: nat, stamp2: string, sim2: nat)
    requires |stamp1| == 14 && |stamp2| == 14
    ensures ChannelOrderId(group, stamp1, sim1) == ChannelOrderId(group, stamp2, sim2)
            <==> stamp1 == stamp2 && sim1 == sim2
  {
    var id1, id2 := ChannelOrderId(group, stamp1, sim1), ChannelOrderId(group, stamp2, sim2);
    if id1 == id2 {
      var cut := |group| + STAMP_WIDTH;
      assert id1[|group|..cut] == stamp1 && id2[|group|..cut] == stamp2;
      assert id1[cut..] == PadStart6(Decimal(sim1)) && id2[cut..] == PadStart6(Decimal(sim2));
      PaddedValue(sim1);
      PaddedValue(sim2);
    }
  }
}

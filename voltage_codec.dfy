/**
 * Conversion between a channel voltage in volts and the 16-bit code the AWG
 * offset and voltage registers hold: 0..32767 for 0 V..+1.5 V, and negative
 * voltages stored as 65535 plus their (non-positive) truncated code.
 */
module VoltageCodec {
  import opened Numerics

  const MaxVoltage: real := 1.5
  const MaxPositive: int := 32767
  const MinNegative: int := 65535

  /** One code step in volts. */
  const Lsb: real := 1.5 / 32767.0

  function EncodeVoltage(v: real): (c: int)
    ensures 0.0 <= v <= MaxVoltage ==> 0 <= c <= MaxPositive
    ensures -MaxVoltage <= v < 0.0 ==> MaxPositive < c <= MinNegative
  {
    if v < 0.0 then Trunc(MaxPositive as real * v / MaxVoltage) + MinNegative
    else Trunc(MaxPositive as real * v / MaxVoltage)
  }

  function DecodeVoltage(c: int): (v: real)
    ensures 0 <= c <= MaxPositive ==> 0.0 <= v <= MaxVoltage
    ensures MaxPositive < c <= MinNegative ==> -MaxVoltage <= v <= 0.0
    ensures c > MinNegative ==> v > 0.0
  {
    if c > MaxPositive then (c - MinNegative) as real * MaxVoltage / MaxPositive as real
    else c as real * MaxVoltage / MaxPositive as real
  }

  /** Every code below 65535 decodes to a voltage that encodes back to the same code. */
  lemma EncodeDecodeRoundTrip(c: int)
    requires 0 <= c < MinNegative
    ensures EncodeVoltage(DecodeVoltage(c)) == c
  {
    if c > MaxPositive {
      var k := c - MinNegative;
      assert MaxPositive as real * ((k as real * MaxVoltage) / MaxPositive as real) / MaxVoltage == k as real;
      TruncOfInteger(k);
    } else {
      assert MaxPositive as real * ((c as real * MaxVoltage) / MaxPositive as real) / MaxVoltage == c as real;
      TruncOfInteger(c);
    }
  }

  /** 65535 is a second spelling of 0 V: it decodes to 0 V, which encodes to 0. */
  lemma ZeroHasTwoCodes()
    ensures DecodeVoltage(MinNegative) == 0.0 == DecodeVoltage(0)
    ensures EncodeVoltage(DecodeVoltage(MinNegative)) == 0
  {
  }

  /** Codes above 65535 fall outside the scheme and read back as small positive voltages. */
  lemma CodeAboveRangeAliases()
    ensures DecodeVoltage(MinNegative + 1) == Lsb
    ensures EncodeVoltage(DecodeVoltage(MinNegative + 1)) == 1
  {
    assert MaxPositive as real * Lsb / MaxVoltage == 1.0;
    TruncOfInteger(1);
  }

  /** Encoding then decoding moves a voltage in range by less than one code step, toward 0 V. */
  lemma {:induction false} QuantizationError(v: real)
    requires -MaxVoltage <= v <= MaxVoltage
    ensures Abs(DecodeVoltage(EncodeVoltage(v)) - v) < Lsb
    ensures Abs(DecodeVoltage(EncodeVoltage(v))) <= Abs(v)
  {
    var x := MaxPositive as real * v / MaxVoltage;
    var t := Trunc(x);
    assert v == x * Lsb;
    if v < 0.0 {
      assert -MaxPositive as real <= x < 0.0;
      assert EncodeVoltage(v) == t + MinNegative;
      assert DecodeVoltage(EncodeVoltage(v)) == t as real * Lsb;
    } else {
      assert EncodeVoltage(v) == t;
      assert DecodeVoltage(EncodeVoltage(v)) == t as real * Lsb;
    }
    assert t as real - 1.0 < x < t as real + 1.0;
    assert (t as real - x) * Lsb == t as real * Lsb - v;
  }

  /** The codes for plus and minus one volt. */
  lemma OneVoltCodes()
    ensures EncodeVoltage(1.0) == 21844
    ensures EncodeVoltage(-1.0) == 65535 - 21844
  {
    assert 21844.0 <= MaxPositive as real * 1.0 / MaxVoltage < 21845.0;
  }
}

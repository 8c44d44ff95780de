/**
 * The partner's trainer ids as the bot reads them: a little-endian 32-bit value whose
 * low six decimal digits are the seven-generation TID and whose remaining digits are
 * the SID; the TID is shown as six zero-padded digits.
 */
module TrainerIds {

  type uint32 = x: int | 0 <= x < 0x1_0000_0000

  const Tid7Modulus: nat := 1_000_000

  datatype TrainerId7 = TrainerId7(tid7: nat, sid7: nat)

  /** TID7 = tidsid % 1_000_000 and SID7 = tidsid / 1_000_000. */
  function SplitTidSid(tidsid: uint32): (ids: TrainerId7)
    ensures ids.tid7 < Tid7Modulus
    ensures ids.sid7 <= 4294
    ensures JoinTidSid(ids) == tidsid
  {
    TrainerId7(tidsid % Tid7Modulus, tidsid / Tid7Modulus)
  }

  function JoinTidSid(ids: TrainerId7): nat
  {
    ids.sid7 * Tid7Modulus + ids.tid7
  }

  /** Any TID7 below a million and SID7 that fit together in 32 bits come back out of
      the split unchanged. */
  lemma SplitOfJoin(ids: TrainerId7)
    requires ids.tid7 < Tid7Modulus && JoinTidSid(ids) < 0x1_0000_0000
    ensures SplitTidSid(JoinTidSid(ids) as uint32) == ids
  {
    var n := JoinTidSid(ids);
    var back := SplitTidSid(n as uint32);
    DivModUnique(n, ids.sid7, ids.tid7, back.sid7, back.tid7);
  }

  lemma DivModUnique(n: nat, q1: nat, r1: nat, q2: nat, r2: nat)
    requires r1 < Tid7Modulus && r2 < Tid7Modulus
    requires n == q1 * Tid7Modulus + r1 && n == q2 * Tid7Modulus + r2
    ensures q1 == q2 && r1 == r2
  {
  }

  function Pow10(width: nat): (p: nat)
    ensures p >= 1
  {
    if width == 0 then 1 else 10 * Pow10(width - 1)
  }

  predicate IsDigits(s: string)
  {
    forall i :: 0 <= i < |s| ==> '0' <= s[i] <= '9'
  }

  /** The last `width` decimal digits of n, zero-padded. */
  function Digits(n: nat, width: nat): (s: string)
    ensures |s| == width && IsDigits(s)
  {
    if width == 0 then ""
    else Digits(n / 10, width - 1) + [('0' as int + n % 10) as char]
  }

  /** The number a string of decimal digits stands for. */
  function DigitsValue(s: string): nat
    requires IsDigits(s)
  {
    if s == [] then 0
    else 10 * DigitsValue(s[..|s| - 1]) + (s[|s| - 1] as int - '0' as int)
  }

  /** Zero-padding loses nothing for a number that fits the width. */
  lemma {:induction false} DigitsRoundTrip(n: nat, width: nat)
    requires n < Pow10(width)
    ensures DigitsValue(Digits(n, width)) == n
  {
    if width > 0 {
      var s := Digits(n, width);
      var d := n % 10;
      assert s[..|s| - 1] == Digits(n / 10, width - 1);
      assert s[|s| - 1] as int - '0' as int == d;
      assert DigitsValue(s) == 10 * DigitsValue(Digits(n / 10, width - 1)) + d;
      assert n / 10 < Pow10(width - 1);
      DigitsRoundTrip(n / 10, width - 1);
      assert n == 10 * (n / 10) + d;
    }
  }

  /** The TID shown for a partner ("000000" format of tidsid % 1_000_000). */
  function Tid7Text(tidsid: uint32): (s: string)
    ensures |s| == 6 && IsDigits(s)
    ensures DigitsValue(s) == SplitTidSid(tidsid).tid7
  {
    assert Pow10(6) == Tid7Modulus;
    DigitsRoundTrip(tidsid % Tid7Modulus, 6);
    Digits(tidsid % Tid7Modulus, 6)
  }
}

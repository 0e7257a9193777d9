/** Display identifiers such as "RD-0042": an alias, a dash and a zero-padded id. */
module StringDty {

  /** `n` copies of the pad character '0'. */
  function Zeros(n: nat): (z: string)
    ensures |z| == n
    ensures forall i :: 0 <= i < n ==> z[i] == '0'
  {
    if n == 0 then "" else "0" + Zeros(n - 1)
  }

  /** `s.padStart(targetLength, '0')`: when the target exceeds the length of
      `s`, zeros are prepended up to the target; otherwise `s` is returned as is
      (this covers a zero or negative target). */
  function PadStart(s: string, targetLength: int): (r: string)
    ensures |r| == if targetLength > |s| then targetLength else |s|
    ensures |r| >= |s| && r[|r| - |s|..] == s
    ensures forall i :: 0 <= i < |r| - |s| ==> r[i] == '0'
    ensures targetLength <= |s| ==> r == s
  {
    if targetLength <= |s| then s else Zeros(targetLength - |s|) + s
  }

  /** `FormatStringAlias(rider_id, numberPad, alias)`. */
  function FormatStringAlias(riderId: string, numberPad: int, alias: string): (r: string)
    ensures |r| == |alias| + 1 + (if numberPad > |riderId| then numberPad else |riderId|)
    ensures r[..|alias|] == alias && r[|alias|] == '-'
    ensures r[|r| - |riderId|..] == riderId
    ensures forall i :: |alias| < i < |r| - |riderId| ==> r[i] == '0'
  {
    var padded := PadStart(riderId, numberPad);
    assert (alias + "-" + padded)[|alias| + 1..] == padded;
    alias + "-" + padded
  }

  /** Padding an already padded id to the same width changes nothing. */
  lemma PadStartIdempotent(s: string, targetLength: int)
    ensures PadStart(PadStart(s, targetLength), targetLength) == PadStart(s, targetLength)
  {
  }

  /** Padding is unambiguous among ids of one length: two ids of equal length
      that agree after padding to the same width are the same id. */
  lemma {:induction false} PadStartInjective(s: string, t: string, targetLength: int)
    requires |s| == |t|
    requires PadStart(s, targetLength) == PadStart(t, targetLength)
    ensures s == t
  {
    var r := PadStart(s, targetLength);
    assert r[|r| - |s|..] == s;
    assert r[|r| - |t|..] == t;
  }

  /** The equal-length assumption is needed: ids of different lengths can
      collide once padded. */
  lemma PadStartCollidesAcrossLengths()
    ensures PadStart("1", 3) == PadStart("01", 3) == "001"
  {
    assert Zeros(1) == "0" && Zeros(2) == "00";
  }
}

/** NTP timestamps written and read at millisecond precision, and the offset and delay computed from them. */
module NtpTime {
  import opened Options
  import opened Bytes

  const NTP_EPOCH_OFFSET_MS := 2208988800000
  const FRACTION_SCALE := 0x1_0000_0000
  /** Milliseconds in one NTP era. */
  const ERA_MS := FRACTION_SCALE * 1000

  /** Seconds, wrapped to 32 bits, and the floored 32-bit fraction. */
  function Seconds(ms: int): nat {
    (ms + NTP_EPOCH_OFFSET_MS) / 1000 % FRACTION_SCALE
  }

  function Fraction(ms: int): nat {
    (ms + NTP_EPOCH_OFFSET_MS) % 1000 * FRACTION_SCALE / 1000
  }

  function Encoded(ms: int): seq<byte> {
    U32(Seconds(ms)) + U32(Fraction(ms))
  }

  /** All zero means no timestamp; otherwise the fraction is rounded to the nearest millisecond. */
  function Decoded(seconds: nat, fraction: nat): Option<int> {
    if seconds == 0 && fraction == 0 then None
    else Some(seconds * 1000 - NTP_EPOCH_OFFSET_MS + (fraction * 2000 + FRACTION_SCALE) / (2 * FRACTION_SCALE))
  }

  method WriteUInt32BE(buffer: array<byte>, offset: nat, value: nat)
    requires offset + 4 <= buffer.Length
    modifies buffer
    ensures buffer[..] == old(buffer[..offset]) + U32(value) + old(buffer[offset + 4..])
  {
    var octets := U32(value);
    buffer[offset] := octets[0];
    buffer[offset + 1] := octets[1];
    buffer[offset + 2] := octets[2];
    buffer[offset + 3] := octets[3];
  }

  /** Eight octets in a packet, written in place. */
  method WriteTimestamp(buffer: array<byte>, offset: nat, ms: int)
    requires offset + 8 <= buffer.Length
    modifies buffer
    ensures buffer[..] == old(buffer[..offset]) + Encoded(ms) + old(buffer[offset + 8..])
  {
    ghost var was := buffer[..];
    WriteUInt32BE(buffer, offset, Seconds(ms));
    ghost var half := buffer[..];
    WriteUInt32BE(buffer, offset + 4, Fraction(ms));
    assert half[..offset + 4] == was[..offset] + U32(Seconds(ms)) && half[offset + 8..] == was[offset + 8..];
  }

  function ReadUInt32BE(bytes: seq<byte>, offset: nat): nat
    requires offset + 4 <= |bytes|
  {
    ReadU32(bytes[offset], bytes[offset + 1], bytes[offset + 2], bytes[offset + 3])
  }

  function ReadTimestamp(bytes: seq<byte>, offset: nat): Option<int>
    requires offset + 8 <= |bytes|
  {
    Decoded(ReadUInt32BE(bytes, offset), ReadUInt32BE(bytes, offset + 4))
  }

  /** Flooring the fraction and rounding it back loses nothing. */
  lemma FractionRoundTrip(remainder: nat)
    requires remainder < 1000
    ensures var f := remainder * FRACTION_SCALE / 1000;
            f < FRACTION_SCALE && (f * 2000 + FRACTION_SCALE) / (2 * FRACTION_SCALE) == remainder
                && (f == 0 <==> remainder == 0)
  {
    var f := remainder * FRACTION_SCALE / 1000;
    assert f * 1000 <= remainder * FRACTION_SCALE < f * 1000 + 1000;
  }

  /** What comes back is the time within its era; the start of an era reads as no timestamp. */
  lemma EraRoundTrip(ms: int)
    ensures var t := ms + NTP_EPOCH_OFFSET_MS;
            Decoded(Seconds(ms), Fraction(ms)) == if t % ERA_MS == 0 then None else Some(ms - t / ERA_MS * ERA_MS)
  {
    var t := ms + NTP_EPOCH_OFFSET_MS;
    var s, r := t / 1000, t % 1000;
    FractionRoundTrip(r);
    var era, wrapped := s / FRACTION_SCALE, s % FRACTION_SCALE;
    assert t == era * ERA_MS + (wrapped * 1000 + r);
    WithinEra(t, era, wrapped * 1000 + r);
  }

  lemma WithinEra(t: int, era: int, rest: nat)
    requires t == era * ERA_MS + rest && rest < ERA_MS
    ensures t / ERA_MS == era && t % ERA_MS == rest
  {
  }

  /** Reading back a written timestamp gives the same millisecond exactly inside era 0 and off its all-zero start. */
  lemma TimestampRoundTripIff(ms: int, before: seq<byte>, after: seq<byte>)
    ensures ReadTimestamp(before + Encoded(ms) + after, |before|) == Some(ms) <==> 0 < ms + NTP_EPOCH_OFFSET_MS < ERA_MS
  {
    FractionRoundTrip((ms + NTP_EPOCH_OFFSET_MS) % 1000);
    ReadEncoded(before, Seconds(ms), Fraction(ms), after);
    EraRoundTrip(ms);
    OnlyEraZero(ms + NTP_EPOCH_OFFSET_MS);
  }

  lemma ReadEncoded(before: seq<byte>, seconds: nat, fraction: nat, after: seq<byte>)
    requires seconds < FRACTION_SCALE && fraction < FRACTION_SCALE
    ensures ReadTimestamp(before + (U32(seconds) + U32(fraction)) + after, |before|) == Decoded(seconds, fraction)
  {
    ReadWord(before, seconds, U32(fraction) + after);
    ReadWord(before + U32(seconds), fraction, after);
    Regroup(before, U32(seconds), U32(fraction), after);
  }

  lemma Regroup(a: seq<byte>, b: seq<byte>, c: seq<byte>, d: seq<byte>)
    ensures a + (b + c) + d == a + b + (c + d) && a + (b + c) + d == a + b + c + d
  {
  }

  lemma ReadWord(before: seq<byte>, value: nat, after: seq<byte>)
    requires value < FRACTION_SCALE
    ensures ReadUInt32BE(before + U32(value) + after, |before|) == value
  {
    SmallU32(value);
    ReadFour(before, U32(value), after);
  }

  lemma ReadFour(before: seq<byte>, word: seq<byte>, after: seq<byte>)
    requires |word| == 4
    ensures ReadUInt32BE(before + word + after, |before|) == ReadU32(word[0], word[1], word[2], word[3])
  {
  }

  lemma OnlyEraZero(t: int)
    ensures t % ERA_MS != 0 && t / ERA_MS * ERA_MS == 0 <==> 0 < t < ERA_MS
  {
  }

  // ------------------------------------------------------------- the format

  /** Leap years of the Gregorian calendar. */
  predicate Leap(year: nat) {
    year % 4 == 0 && (year % 100 != 0 || year % 400 == 0)
  }

  /** Days from the first of January of 1900 to that of another year. */
  function DaysSince1900(year: nat): nat
    requires year >= 1900
    decreases year
  {
    if year == 1900 then 0 else DaysSince1900(year - 1) + (if Leap(year - 1) then 366 else 365)
  }

  lemma {:induction false} DaysCounted(year: nat)
    requires 1901 <= year <= 2000
    ensures DaysSince1900(year) == 365 * (year - 1900) + (year - 1901) / 4
    decreases year
  {
    if year > 1901 {
      DaysCounted(year - 1);
    } else {
      assert DaysSince1900(1900) == 0;
    }
  }

  /** The two epochs are the first of January of 1900 and of 1970. */
  lemma EpochsApart()
    ensures NTP_EPOCH_OFFSET_MS == DaysSince1900(1970) * 24 * 60 * 60 * 1000
  {
    DaysCounted(1970);
  }

  /** The eight octets are one 64-bit number that counts units of 2^-32 seconds since 1900, rounded down, modulo its
      era. */
  lemma EncodedCounts(ms: int)
    ensures var b := Encoded(ms);
            var count := ReadU32(b[0], b[1], b[2], b[3]) * 0x1_0000_0000 + ReadU32(b[4], b[5], b[6], b[7]);
            var since1900 := (ms + NTP_EPOCH_OFFSET_MS) % (0x1_0000_0000 * 1000);
            count * 1000 <= since1900 * 0x1_0000_0000 < (count + 1) * 1000
  {
    var t := ms + NTP_EPOCH_OFFSET_MS;
    var s, r := t / 1000, t % 1000;
    FractionRoundTrip(r);
    SmallU32(Seconds(ms));
    SmallU32(Fraction(ms));
    WithinEra(t, s / FRACTION_SCALE, s % FRACTION_SCALE * 1000 + r);
    assert Fraction(ms) * 1000 <= r * FRACTION_SCALE < Fraction(ms) * 1000 + 1000;
  }

  // ---------------------------------------------------------- offset and delay

  /** A request and its response: true clock offset, the two network delays and the server's hold time, in
      milliseconds. */
  datatype Exchange = Exchange(sent: int, offset: int, outward: nat, hold: nat, homeward: nat)
  {
    function T1(): int { sent }
    function T2(): int { sent + outward + offset }
    function T3(): int { T2() + hold }
    function T4(): int { sent + outward + hold + homeward }
  }

  function ComputedOffset(t1: int, t2: int, t3: int, t4: int): real {
    (t2 - t1 + (t3 - t4)) as real / 2.0
  }

  function ComputedDelay(t1: int, t2: int, t3: int, t4: int): int {
    t4 - t1 - (t3 - t2)
  }

  predicate InEraZero(ms: int) {
    0 < ms + NTP_EPOCH_OFFSET_MS < ERA_MS
  }

  /** With server times carried as timestamps, the computed offset misses the true one by at most half the
      computed delay, by exactly half when one direction took no time, and is exact for equal delays. */
  lemma OffsetWithinHalfDelay(x: Exchange)
    requires InEraZero(x.T2()) && InEraZero(x.T3())
    ensures var t2, t3 := ReadTimestamp(Encoded(x.T2()), 0), ReadTimestamp(Encoded(x.T3()), 0);
            && t2.Some? && t3.Some?
            && var error := ComputedOffset(x.T1(), t2.value, t3.value, x.T4()) - x.offset as real;
               var delay := ComputedDelay(x.T1(), t2.value, t3.value, x.T4()) as real;
               && -delay / 2.0 <= error <= delay / 2.0
               && (error == delay / 2.0 <==> x.homeward == 0) && (error == -delay / 2.0 <==> x.outward == 0)
               && (error == 0.0 <==> x.outward == x.homeward)
  {
    TimestampRoundTripIff(x.T2(), [], []);
    TimestampRoundTripIff(x.T3(), [], []);
    assert [] + Encoded(x.T2()) + [] == Encoded(x.T2()) && [] + Encoded(x.T3()) + [] == Encoded(x.T3());
    assert x.T2() - x.T1() + (x.T3() - x.T4()) == 2 * x.offset + x.outward - x.homeward;
  }
}

/**
 * src/features/location/utils.ts: the decoder for the PostGIS extended form of
 * an OGC Well-Known Binary point (OGC 06-103r4, Simple Features Access Part 1,
 * section 8.2, with the PostGIS SRID word), given as a hex string, and the
 * label that `calculateDistance` renders for a distance.
 *
 * The IEEE-754 reinterpretation of 8 little-endian bytes and the haversine
 * great-circle distance are floating-point computations; both are parameters
 * here, so every statement holds whatever those functions are.
 */
module LocationUtils {
  import opened Wrappers
  import opened JsString
  import opened JsNumber

  datatype Coordinate = Coordinate(latitude: real, longitude: real)

  /** `DataView.getFloat64(0, true)` over the 8 bytes given, least significant byte first. */
  type Float64LE = seq<byte> -> real

  /** The haversine distance in kilometres for (lat1, lon1, lat2, lon2). */
  type Haversine = (real, real, real, real) -> real

  /** Shortest hex string accepted: 25 bytes = endian flag, type word, SRID, two doubles. */
  const MinHexLength: nat := 50

  /** Hex characters skipped before the coordinates: endian flag (1 byte), type word (4), SRID (4). */
  const HeaderHexLength: nat := 18

  /** `hex.substring(k, k + 2)` where both characters exist. */
  function PairAt(hex: string, k: nat): (p: string)
    requires k + 2 <= |hex|
    ensures |p| == 2 && p == hex[k..k + 2]
  {
    [hex[k], hex[k + 1]]
  }

  /** The 8 bytes whose hex pairs start at character `offset`: byte i comes from characters offset+2i and offset+2i+1. */
  function WordAt(hex: string, offset: nat): (w: seq<byte>)
    requires offset + 16 <= |hex|
    ensures |w| == 8
    ensures forall i :: 0 <= i < 8 ==> w[i] == ByteOf(PairAt(hex, offset + 2 * i))
  {
    seq(8, i requires 0 <= i < 8 => ByteOf(PairAt(hex, offset + 2 * i)))
  }

  /**
   * What `parseEWKB` returns: `None` (null) for a string shorter than 50
   * characters, otherwise the longitude read from the 8 bytes at character 18
   * and the latitude from the 8 bytes at character 34.
   */
  function DecodedPoint(hex: string, float64LE: Float64LE): (r: Option<Coordinate>)
    ensures r.None? <==> |hex| < MinHexLength
    ensures r.Some? ==> && r.value.longitude == float64LE(WordAt(hex, HeaderHexLength))
                        && r.value.latitude == float64LE(WordAt(hex, HeaderHexLength + 16))
  {
    if |hex| < MinHexLength then None
    else Some(Coordinate(latitude := float64LE(WordAt(hex, 34)), longitude := float64LE(WordAt(hex, 18))))
  }

  /**
   * `parseEWKB`: fills a 16-byte buffer pair by pair, reads the longitude from
   * its first 8 bytes, refills the same 8 bytes with the next 8 pairs and reads
   * the latitude.
   */
  method ParseEWKB(hex: string, float64LE: Float64LE) returns (r: Option<Coordinate>)
    ensures r == DecodedPoint(hex, float64LE)
  {
    if |hex| < MinHexLength {
      return None;
    }
    var coordsHex := hex[HeaderHexLength..];
    var view := new byte[16];
    for i := 0 to 8
      invariant forall k :: 0 <= k < i ==> view[k] == ByteOf(PairAt(hex, 18 + 2 * k))
    {
      assert PairAt(coordsHex, i * 2) == PairAt(hex, 18 + 2 * i);
      view[i] := ByteOf(PairAt(coordsHex, i * 2));
    }
    assert forall k :: 0 <= k < 8 ==> view[..8][k] == WordAt(hex, 18)[k];
    assert view[..8] == WordAt(hex, 18);
    var longitude := float64LE(view[..8]);
    for i := 0 to 8
      invariant forall k :: 0 <= k < i ==> view[k] == ByteOf(PairAt(hex, 34 + 2 * k))
    {
      assert PairAt(coordsHex, 16 + i * 2) == PairAt(hex, 34 + 2 * i);
      view[i] := ByteOf(PairAt(coordsHex, 16 + i * 2));
    }
    assert forall k :: 0 <= k < 8 ==> view[..8][k] == WordAt(hex, 34)[k];
    assert view[..8] == WordAt(hex, 34);
    var latitude := float64LE(view[..8]);
    r := Some(Coordinate(latitude, longitude));
  }

  /** Null exactly for short input (the empty string included); no malformed character ever yields null. */
  lemma DecodeNullIffShort(hex: string, float64LE: Float64LE)
    ensures DecodedPoint(hex, float64LE).None? <==> |hex| < 50
  {
  }

  /** The 18 header characters (endian flag, type word, SRID) are never inspected. */
  lemma {:induction false} HeaderIgnored(h1: string, h2: string, rest: string, float64LE: Float64LE)
    requires |h1| == |h2| == HeaderHexLength
    ensures DecodedPoint(h1 + rest, float64LE) == DecodedPoint(h2 + rest, float64LE)
  {
    if |rest| >= 32 {
      forall off | off == 18 || off == 34 ensures WordAt(h1 + rest, off) == WordAt(h2 + rest, off) {
        forall i | 0 <= i < 8 ensures PairAt(h1 + rest, off + 2 * i) == PairAt(h2 + rest, off + 2 * i) {
          assert PairAt(h1 + rest, off + 2 * i) == PairAt(rest, off - 18 + 2 * i);
          assert PairAt(h2 + rest, off + 2 * i) == PairAt(rest, off - 18 + 2 * i);
        }
      }
    }
  }

  /** Characters from index 50 on never affect the result. */
  lemma {:induction false} TailIgnored(hex: string, float64LE: Float64LE)
    requires |hex| >= MinHexLength
    ensures DecodedPoint(hex, float64LE) == DecodedPoint(hex[..MinHexLength], float64LE)
  {
    var h := hex[..MinHexLength];
    forall off | off == 18 || off == 34 ensures WordAt(hex, off) == WordAt(h, off) {
      forall i | 0 <= i < 8 ensures PairAt(hex, off + 2 * i) == PairAt(h, off + 2 * i) {
      }
    }
  }

  /** The hex string of a byte sequence, two lower-case digits per byte. */
  function HexOf(bytes: seq<byte>): (s: string)
    ensures |s| == 2 * |bytes|
    ensures forall k :: 0 <= k < |bytes| ==> PairAt(s, 2 * k) == HexPair(bytes[k])
  {
    seq(2 * |bytes|, j requires 0 <= j < 2 * |bytes| => HexPair(bytes[j / 2])[j % 2])
  }

  /** The two hex characters at 2(k + i) of a hex string read back as byte k + i. */
  lemma ByteAtHexOf(bytes: seq<byte>, k: nat, i: nat)
    requires k + i < |bytes|
    ensures ByteOf(PairAt(HexOf(bytes), 2 * k + 2 * i)) == bytes[k + i]
  {
    var j := k + i;
    assert 2 * k + 2 * i == 2 * j;
    assert PairAt(HexOf(bytes), 2 * j) == HexPair(bytes[j]);
    ByteOfHexPair(bytes[j]);
  }

  /** The 8 bytes read at character 2k of a hex string are the bytes k..k+7 it was made from. */
  lemma WordAtHexOf(bytes: seq<byte>, k: nat)
    requires k + 8 <= |bytes|
    ensures WordAt(HexOf(bytes), 2 * k) == bytes[k..k + 8]
  {
    var s := HexOf(bytes);
    forall i | 0 <= i < 8 ensures WordAt(s, 2 * k)[i] == bytes[k..k + 8][i] {
      ByteAtHexOf(bytes, k, i);
    }
  }

  /**
   * Round trip: the hex form of any 25-byte point record decodes to the doubles
   * of bytes 9..16 (longitude) and 17..24 (latitude).
   */
  lemma {:induction false} DecodeHexOf(bytes: seq<byte>, float64LE: Float64LE)
    requires |bytes| == 25
    ensures DecodedPoint(HexOf(bytes), float64LE)
            == Some(Coordinate(latitude := float64LE(bytes[17..25]), longitude := float64LE(bytes[9..17])))
  {
    WordAtHexOf(bytes, 9);
    WordAtHexOf(bytes, 17);
  }

  // ------------------------------------------------------- distance label

  /**
   * The label for a distance of `km` kilometres: below 1 km a whole number
   * of metres followed by " m" (all digits for a non-negative distance),
   * otherwise a number with one decimal followed by " km".
   */
  function FormatDistance(km: real): (r: string)
    ensures km < 1.0 ==> && |r| >= 3 && r[|r| - 2..] == " m"
                         && (0.0 <= km ==> forall i :: 0 <= i < |r| - 2 ==> IsDigit(r[i]))
    ensures km >= 1.0 ==> && |r| >= 6 && r[|r| - 3..] == " km" && r[|r| - 5] == '.'
                          && forall i :: 0 <= i < |r| - 3 && i != |r| - 5 ==> IsDigit(r[i])
  {
    if km < 1.0 then IntToString(Round(km * 1000.0)) + " m"
    else ToFixed1(km) + " km"
  }

  /**
   * `calculateDistance`: the label for the haversine distance between the
   * two points. It is in metres exactly when that distance is below 1 km,
   * and for a non-negative distance it reads back to within half a metre
   * (metres) or 0.05 km (kilometres).
   */
  function CalculateDistance(lat1: real, lon1: real, lat2: real, lon2: real, haversine: Haversine): (r: string)
    ensures var d := haversine(lat1, lon1, lat2, lon2);
            && |r| >= 3
            && (r[|r| - 2..] == " m" <==> d < 1.0)
            && (0.0 <= d ==> && ReadDistance(r).Some?
                             && (d < 1.0 ==> -0.0005 < ReadDistance(r).value - d <= 0.0005)
                             && (d >= 1.0 ==> -0.05 < ReadDistance(r).value - d <= 0.05))
  {
    var d := haversine(lat1, lon1, lat2, lon2);
    var r := FormatDistance(d);
    assert d >= 1.0 ==> r[|r| - 2..] == r[|r| - 3..][1..] == "km";
    if 0.0 <= d then FormatDistanceReadsBack(d); r else r
  }

  /** Reads a label back into kilometres: "<digits> m" or "<digits>.<digit> km". */
  function ReadDistance(s: string): Option<real> {
    if |s| >= 3 && s[|s| - 2..] == " m" && forall i :: 0 <= i < |s| - 2 ==> IsDigit(s[i]) then
      Some(DecimalValue(s[..|s| - 2]) as real / 1000.0)
    else if |s| >= 6 && s[|s| - 3..] == " km" && s[|s| - 5] == '.' && IsDigit(s[|s| - 4])
            && forall i :: 0 <= i < |s| - 5 ==> IsDigit(s[i]) then
      Some(DecimalValue(s[..|s| - 5]) as real + DigitValue(s[|s| - 4]) as real / 10.0)
    else None
  }

  /**
   * The unit rule and the rounding: below 1 km the label is in metres and reads
   * back within half a metre; from 1 km on it is in kilometres and reads back
   * within 0.05 km.
   */
  lemma FormatDistanceReadsBack(km: real)
    requires 0.0 <= km
    ensures var v := ReadDistance(FormatDistance(km));
            && v.Some?
            && (km < 1.0 ==> FormatDistance(km)[|FormatDistance(km)| - 2..] == " m"
                             && -0.0005 < v.value - km <= 0.0005)
            && (km >= 1.0 ==> FormatDistance(km)[|FormatDistance(km)| - 3..] == " km"
                              && -0.05 < v.value - km <= 0.05)
  {
    if km < 1.0 {
      MetresReadBack(km);
    } else {
      KilometresReadBack(km);
    }
  }

  lemma MetresReadBack(km: real)
    requires 0.0 <= km < 1.0
    ensures var s := FormatDistance(km);
            && s[|s| - 2..] == " m" && ReadDistance(s).Some?
            && -0.0005 < ReadDistance(s).value - km <= 0.0005
  {
    var s := FormatDistance(km);
    var n := Round(km * 1000.0);
    var ds := NatDigits(n);
    assert s == ds + " m";
    assert s[..|s| - 2] == ds;
    DecimalValueOfDigits(n);
  }

  lemma KilometresReadBack(km: real)
    requires 1.0 <= km
    ensures var s := FormatDistance(km);
            && s[|s| - 3..] == " km" && ReadDistance(s).Some?
            && -0.05 < ReadDistance(s).value - km <= 0.05
  {
    var s := FormatDistance(km);
    var n := Round(10.0 * km);
    var ds := NatDigits(n / 10);
    assert s == ds + "." + [DigitChar(n % 10)] + " km";
    assert s[|s| - 2] == 'k';
    assert s[..|s| - 5] == ds;
    DecimalValueOfDigits(n / 10);
    assert DigitValue(DigitChar(n % 10)) == n % 10;
    assert (n / 10) as real + (n % 10) as real / 10.0 == n as real / 10.0;
  }

  /** Worked values: half a kilometre, one kilometre, and a distance under 1 km that rounds up to 1000 m. */
  lemma FormatDistanceExamples()
    ensures FormatDistance(0.5) == "500 m"
    ensures FormatDistance(1.0) == "1.0 km"
    ensures FormatDistance(0.9996) == "1000 m"
  {
    assert Round(500.0) == 500;
    assert NatDigits(500) == NatDigits(50) + "0" == NatDigits(5) + "0" + "0";
    assert Round(10.0) == 10;
    assert NatDigits(1) == "1";
    assert Round(999.6) == 1000;
    assert NatDigits(1000) == NatDigits(100) + "0" == NatDigits(10) + "0" + "0" == NatDigits(1) + "0" + "0" + "0";
  }
}

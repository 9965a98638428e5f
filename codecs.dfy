/**
 * The persistence helpers of `UserDefaultsExtensions.swift` (duplicated
 * in the older `CrosshairModel.swift`): colours stored as `#RRGGBBAA`
 * strings, points stored as `{x, y}` dictionaries, and the key under which
 * the coordinate-label position is persisted.
 *
 * A colour is modelled by its four device-RGB bytes; the float
 * conversions `Int(component * 255)` and `/ 255` around them are not.
 * The defaults database is a map from keys to property-list values.
 */
module Codecs {
  import opened Wrappers
  import opened Geometry
  import opened Settings

  type Byte = b: int | 0 <= b < 256

  datatype Rgba = Rgba(r: Byte, g: Byte, b: Byte, a: Byte)

  /** The digits `%02X` prints. */
  const UpperDigits: string := "0123456789ABCDEF"

  /** The value of a hexadecimal digit of either case, as `Scanner` reads it. */
  function DigitValue(c: char): (r: Option<nat>)
    ensures r.Some? ==> r.value < 16
    ensures r.Some? <==> ('0' <= c <= '9' || 'A' <= c <= 'F' || 'a' <= c <= 'f')
  {
    if '0' <= c <= '9' then Some(c as int - '0' as int)
    else if 'A' <= c <= 'F' then Some(c as int - 'A' as int + 10)
    else if 'a' <= c <= 'f' then Some(c as int - 'a' as int + 10)
    else None
  }

  predicate IsHexDigit(c: char) { DigitValue(c).Some? }

  predicate AllHex(s: string) { forall i :: 0 <= i < |s| ==> IsHexDigit(s[i]) }

  /** One upper-case digit of `%X`. */
  function DigitChar(n: int): (c: char)
    requires 0 <= n < 16
    ensures c in UpperDigits && DigitValue(c) == Some(n)
  {
    UpperDigits[n]
  }

  /** `%02X` of one byte. */
  function Byte2(b: Byte): (s: string)
    ensures |s| == 2 && AllHex(s)
  {
    [DigitChar(b / 16), DigitChar(b % 16)]
  }

  /** The big-endian value of a string of hexadecimal digits. */
  function ValueOf(s: string): nat
    requires AllHex(s)
  {
    if |s| == 0 then 0
    else ValueOf(s[..|s| - 1]) * 16 + DigitValue(s[|s| - 1]).value
  }

  /** The value of a digit pair. */
  lemma ValueOfPair(p: string)
    requires AllHex(p) && |p| == 2
    ensures ValueOf(p) == DigitValue(p[0]).value * 16 + DigitValue(p[1]).value
    ensures ValueOf(p) < 256
  {
    assert p[..1] == [p[0]] && p[..1][..0] == [];
    assert ValueOf(p[..1]) == DigitValue(p[0]).value;
    var hi, lo := DigitValue(p[0]).value, DigitValue(p[1]).value;
    assert hi * 16 <= 15 * 16;
  }

  /** Two digits are one byte. */
  lemma ValueOfByte2(b: Byte)
    ensures ValueOf(Byte2(b)) == b
  {
    ValueOfPair(Byte2(b));
    assert b == (b / 16) * 16 + b % 16;
  }

  /** Appending a digit multiplies by 16 and adds the digit. */
  lemma ValueOfAppendDigit(a: string, c: char)
    requires AllHex(a) && IsHexDigit(c)
    ensures AllHex(a + [c]) && ValueOf(a + [c]) == ValueOf(a) * 16 + DigitValue(c).value
  {
  }

  /** Appending a digit pair multiplies by 256 and adds the pair's value. */
  lemma ValueOfAppendPair(a: string, p: string)
    requires AllHex(a) && AllHex(p) && |p| == 2
    ensures AllHex(a + p) && ValueOf(a + p) == ValueOf(a) * 256 + ValueOf(p)
  {
    ValueOfAppendDigit(a, p[0]);
    ValueOfAppendDigit(a + [p[0]], p[1]);
    assert a + p == a + [p[0]] + [p[1]];
    ValueOfPair(p);
  }

  /** The length of the longest prefix of hexadecimal digits. */
  function HexRun(s: string): (n: nat)
    ensures n <= |s| && AllHex(s[..n])
    ensures n < |s| ==> !IsHexDigit(s[n])
  {
    if |s| == 0 || !IsHexDigit(s[0]) then 0
    else
      var m := HexRun(s[1..]);
      assert s[..1 + m] == [s[0]] + s[1..][..m];
      1 + m
  }

  /**
   * `Scanner.scanHexInt64`: fails unless the string starts with a digit,
   * and otherwise reads the longest run of digits.
   */
  function ScanHex(s: string): (r: Option<nat>)
    ensures r.None? <==> (|s| == 0 || !IsHexDigit(s[0]))
    ensures AllHex(s) ==> (|s| > 0 <==> r == Some(ValueOf(s)))
  {
    var n := HexRun(s);
    if n == 0 then None
    else
      assert AllHex(s) ==> s[..n] == s;
      Some(ValueOf(s[..n]))
  }

  /** `(n & 0xff000000) >> 24`, `(n & 0x00ff0000) >> 16`, `(n & 0x0000ff00) >> 8`, `n & 0x000000ff`. */
  function Components(n: nat): Rgba
  {
    Rgba((n / 0x1000000) % 256, (n / 0x10000) % 256, (n / 0x100) % 256, n % 256)
  }

  /** `NSColor(hex:)`: `#` followed by exactly eight characters, scanned as hexadecimal. */
  function DecodeHex(s: string): (r: Option<Rgba>)
    ensures r.Some? ==> |s| == 9 && s[0] == '#' && IsHexDigit(s[1])
    ensures |s| == 9 && s[0] == '#' && IsHexDigit(s[1]) ==> r.Some?
  {
    if |s| >= 1 && s[0] == '#' && |s[1..]| == 8 then
      match ScanHex(s[1..])
      case Some(n) => Some(Components(n))
      case None => None
    else None
  }

  /** `Color.hex` for a colour whose device-RGB bytes are c: `#` and four `%02X` fields. */
  function EncodeHex(c: Rgba): (s: string)
    ensures |s| == 9 && s[0] == '#' && AllHex(s[1..])
    ensures forall i :: 1 <= i < 9 ==> s[i] in UpperDigits
  {
    "#" + Byte2(c.r) + Byte2(c.g) + Byte2(c.b) + Byte2(c.a)
  }

  /** The mask-and-shift extraction gives back the four bytes of a big-endian 32-bit word. */
  lemma ComponentsOfWord(r: Byte, g: Byte, b: Byte, a: Byte)
    ensures Components(((r * 256 + g) * 256 + b) * 256 + a) == Rgba(r, g, b, a)
  {
    var n := ((r * 256 + g) * 256 + b) * 256 + a;
    assert n == r * 0x1000000 + g * 0x10000 + b * 0x100 + a;
    assert n / 0x100 == r * 0x10000 + g * 0x100 + b;
    assert n / 0x10000 == r * 0x100 + g;
    assert n / 0x1000000 == r;
  }

  /** For eight digits after `#`, each component is the value of its digit pair. */
  lemma DecodeBigEndian(s: string)
    requires |s| == 9 && s[0] == '#' && AllHex(s[1..])
    ensures DecodeHex(s).Some?
    ensures DecodeHex(s).value.r == ValueOf(s[1..3]) && DecodeHex(s).value.g == ValueOf(s[3..5])
    ensures DecodeHex(s).value.b == ValueOf(s[5..7]) && DecodeHex(s).value.a == ValueOf(s[7..9])
  {
    var h := s[1..];
    var p1, p2, p3, p4 := s[1..3], s[3..5], s[5..7], s[7..9];
    assert h == p1 + p2 + p3 + p4;
    assert AllHex(p1) && AllHex(p2) && AllHex(p3) && AllHex(p4);
    ValueOfAppendPair([], p1);
    assert [] + p1 == p1;
    ValueOfAppendPair(p1, p2);
    ValueOfAppendPair(p1 + p2, p3);
    ValueOfAppendPair(p1 + p2 + p3, p4);
    ValueOfPair(p1);
    ValueOfPair(p2);
    ValueOfPair(p3);
    ValueOfPair(p4);
    ComponentsOfWord(ValueOf(p1), ValueOf(p2), ValueOf(p3), ValueOf(p4));
  }

  /** Decoding an encoded colour gives back its four bytes. */
  lemma HexRoundTrip(c: Rgba)
    ensures DecodeHex(EncodeHex(c)) == Some(c)
  {
    var x1, x2, x3, x4 := Byte2(c.r), Byte2(c.g), Byte2(c.b), Byte2(c.a);
    var s := EncodeHex(c);
    assert s == "#" + x1 + x2 + x3 + x4;
    assert s[1..3] == x1 && s[3..5] == x2 && s[5..7] == x3 && s[7..9] == x4;
    DecodeBigEndian(s);
    ValueOfByte2(c.r);
    ValueOfByte2(c.g);
    ValueOfByte2(c.b);
    ValueOfByte2(c.a);
    var d := DecodeHex(s).value;
    assert d.r == c.r && d.g == c.g && d.b == c.b && d.a == c.a;
  }

  /** A property-list value in the defaults database. */
  datatype Value = Str(s: string) | Flag(b: bool) | Number(n: real) | Dict(d: map<string, real>)

  /** `Color.hex`: nil when the colour has no device-RGB form. */
  function ColourHex(device: Option<Rgba>): (r: Option<string>)
    ensures r.None? <==> device.None?
    ensures r.Some? ==> DecodeHex(r.value) == device
  {
    match device
    case None => None
    case Some(c) => HexRoundTrip(c); Some(EncodeHex(c))
  }

  /** `setColor(_:forKey:)`: writes the hex string, or nothing when there is none. */
  function WithColour(store: map<string, Value>, device: Option<Rgba>, key: string): (r: map<string, Value>)
    ensures device.None? ==> r == store
    ensures device.Some? ==> r.Keys == store.Keys + {key}
    ensures forall k :: k in store && k != key ==> k in r && r[k] == store[k]
  {
    match ColourHex(device)
    case None => store
    case Some(hex) => store[key := Str(hex)]
  }

  /** `color(forKey:)`: nil unless a string is stored under the key, then `NSColor(hex:)`. */
  function StoredColour(store: map<string, Value>, key: string): (r: Option<Rgba>)
    ensures (key !in store || !store[key].Str?) ==> r.None?
    ensures key in store && store[key].Str? ==> r == DecodeHex(store[key].s)
  {
    if key in store && store[key].Str? then DecodeHex(store[key].s) else None
  }

  /** Storing a colour and reading it back under the same key gives the same bytes. */
  lemma ColourRoundTrip(store: map<string, Value>, key: string, c: Rgba)
    ensures StoredColour(WithColour(store, Some(c), key), key) == Some(c)
  {
  }

  /** `setCGPoint(_:forKey:)`'s value: the dictionary `["x": x, "y": y]`. */
  function PointValue(p: Point): (v: Value)
    ensures v.Dict? && v.d.Keys == {"x", "y"}
  {
    Dict(map["x" := p.x, "y" := p.y])
  }

  /** `cgPoint(forKey:)`'s decoding: a dictionary holding both "x" and "y". */
  function PointOf(v: Value): (r: Option<Point>)
    ensures r.Some? <==> v.Dict? && "x" in v.d && "y" in v.d
    ensures r.Some? ==> r.value == Point(v.d["x"], v.d["y"])
  {
    match v
    case Dict(d) => if "x" in d && "y" in d then Some(Point(d["x"], d["y"])) else None
    case _ => None
  }

  /** `cgPoint(forKey:)`. */
  function StoredPoint(store: map<string, Value>, key: string): (r: Option<Point>)
    ensures key !in store ==> r.None?
    ensures key in store ==> r == PointOf(store[key])
  {
    if key in store then PointOf(store[key]) else None
  }

  /** Storing a point and reading it back under the same key gives the same point. */
  lemma PointRoundTrip(store: map<string, Value>, key: string, p: Point)
    ensures StoredPoint(store[key := PointValue(p)], key) == Some(p)
  {
  }

  /** The key `mouseCoordinatesTextPosition`'s `didSet` writes to. */
  const CoordinatesTextKey: string := "mouseCoordinatesText"
  /** The key the initializer reads the text position from. */
  const TextPositionKey: string := "mouseCoordinatesTextPosition"

  /** The initializer's read of the text position: a stored raw value it recognises. */
  function LoadTextPosition(store: map<string, Value>): (r: Option<TextPosition>)
    ensures r.Some? ==> TextPositionKey in store && store[TextPositionKey] == Str(TextPositionRaw(r.value))
    ensures TextPositionKey !in store ==> r.None?
  {
    if TextPositionKey in store && store[TextPositionKey].Str? then
      ParseTextPosition(store[TextPositionKey].s)
    else None
  }

  /** The position's `didSet` as written: the raw value goes under the label-visibility key. */
  function PersistTextPositionAsWritten(store: map<string, Value>, p: TextPosition): (r: map<string, Value>)
    ensures CoordinatesTextKey in r && r[CoordinatesTextKey] == Str(TextPositionRaw(p))
    ensures r.Keys == store.Keys + {CoordinatesTextKey}
    ensures forall k :: k in store && k != CoordinatesTextKey ==> r[k] == store[k]
  {
    store[CoordinatesTextKey := Str(TextPositionRaw(p))]
  }

  /**
   * As written, the stored position is never read back, and the
   * label-visibility flag's key no longer holds a Boolean.
   */
  lemma TextPositionLostAsWritten(store: map<string, Value>, p: TextPosition)
    ensures LoadTextPosition(PersistTextPositionAsWritten(store, p)) == LoadTextPosition(store)
    ensures !PersistTextPositionAsWritten(store, p)[CoordinatesTextKey].Flag?
    ensures LoadTextPosition(PersistTextPositionAsWritten(map[], TopLeft)) == None
  {
  }

  /** The position's `didSet` with the key the initializer reads. */
  function PersistTextPosition(store: map<string, Value>, p: TextPosition): (r: map<string, Value>)
    ensures LoadTextPosition(r) == Some(p)
    ensures forall k :: k in store && k != TextPositionKey ==> k in r && r[k] == store[k]
  {
    store[TextPositionKey := Str(TextPositionRaw(p))]
  }

  /** `UserDefaults.standard`, holding property-list values by key. */
  class Defaults {
    var store: map<string, Value>

    constructor ()
      ensures store == map[]
    {
      store := map[];
    }

    /** `setColor(_:forKey:)`. */
    method SetColor(device: Option<Rgba>, key: string)
      modifies this
      ensures store == WithColour(old(store), device, key)
      ensures device.Some? ==> Color(key) == device
    {
      store := WithColour(store, device, key);
      if device.Some? { ColourRoundTrip(old(store), key, device.value); }
    }

    /** `color(forKey:)`. */
    function Color(key: string): Option<Rgba>
      reads this
    {
      StoredColour(store, key)
    }

    /** `setCGPoint(_:forKey:)`. */
    method SetCGPoint(p: Point, key: string)
      modifies this
      ensures store == old(store)[key := PointValue(p)]
      ensures CGPoint(key) == Some(p)
    {
      store := store[key := PointValue(p)];
    }

    /** `cgPoint(forKey:)`. */
    function CGPoint(key: string): Option<Point>
      reads this
    {
      StoredPoint(store, key)
    }

    /** The text position's persistence write, with the corrected key. */
    method WriteTextPosition(p: TextPosition)
      modifies this
      ensures store == PersistTextPosition(old(store), p)
    {
      store := PersistTextPosition(store, p);
    }
  }
}

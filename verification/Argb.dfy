/** WS2812 colours sent over an inverted UART (`argb.rs`): the line carries for every bit of a colour a
    high, the bit and a low.
  */
module Argb {
  import opened Wrappers

  type Byte = x: int | 0 <= x < 256

  datatype Colour = Colour(r: Byte, g: Byte, b: Byte)

  // ---------- the line ----------

  /** The lowest `n` bits of a number, highest first. */
  function Bits(x: nat, n: nat): (r: seq<bool>)
    ensures |r| == n
  {
    if n == 0 then [] else Bits(x / 2, n - 1) + [x % 2 == 1]
  }

  /** What a UART with inverted polarity, 7-bit words and one stop bit makes of a word: the start bit
      high, the data bits from the lowest on, each inverted, and the stop bit low. */
  function LineOf(w: Byte): seq<bool> {
    [ true,
      w % 2 == 0, w / 2 % 2 == 0, w / 4 % 2 == 0, w / 8 % 2 == 0, w / 16 % 2 == 0, w / 32 % 2 == 0, w / 64 % 2 == 0,
      false ]
  }

  function Line(ws: seq<Byte>): seq<bool> {
    if ws == [] then [] else LineOf(ws[0]) + Line(ws[1..])
  }

  /** What WS2812 LEDs expect: one pulse per bit, long for a one. */
  function Pulses(bits: seq<bool>): seq<bool> {
    if bits == [] then [] else [true, bits[0], false] + Pulses(bits[1..])
  }

  /** The order of a WS2812: green, red, blue. */
  function ColourBits(c: Colour): seq<bool> {
    Bits(c.g, 8) + Bits(c.r, 8) + Bits(c.b, 8)
  }

  function AllBits(cs: seq<Colour>): seq<bool> {
    if cs == [] then [] else ColourBits(cs[0]) + AllBits(cs[1..])
  }

  // ---------- as_uart_bytes ----------

  /** `LUT` */
  function Lut(v: nat): Byte
    requires v < 8
  {
    match v
    case 0 => 0x5B
    case 1 => 0x1B
    case 2 => 0x53
    case 3 => 0x13
    case 4 => 0x5A
    case 5 => 0x1A
    case 6 => 0x52
    case _ => 0x12
  }

  /** The three bytes next to each other in a `u32`. */
  function Packed(c: Colour): nat {
    c.g * 65536 + c.r * 256 + c.b
  }

  /** The words of the last `n` groups of three bits. */
  function Words(p: nat, n: nat): (ws: seq<Byte>)
    ensures |ws| == n
  {
    if n == 0 then [] else Words(p / 8, n - 1) + [Lut(p % 8)]
  }

  method AsUartBytes(c: Colour) returns (res: array<Byte>)
    ensures fresh(res) && res[..] == Words(Packed(c), 8)
  {
    var packed := Packed(c);
    res := new Byte[8](_ => 0);
    var i := 8;
    while i > 0
      invariant 0 <= i <= 8
      invariant Words(Packed(c), 8) == Words(packed, i) + res[i..]
    {
      i := i - 1;
      ghost var rest := res[i + 1..];
      res[i] := Lut(packed % 8);
      packed := packed / 8;
      assert res[i..] == [res[i]] + rest;
    }
    assert res[0..] == res[..];
  }

  // ---------- one word, one colour ----------

  lemma LutLevels(v: nat)
    requires v < 8
    ensures LineOf(Lut(v)) == [true, v / 2 / 2 % 2 == 1, false, true, v / 2 % 2 == 1, false, true, v % 2 == 1, false]
  {}

  lemma ThreeBits(v: nat)
    ensures Bits(v, 3) == [v / 2 / 2 % 2 == 1, v / 2 % 2 == 1, v % 2 == 1]
  {
    assert Bits(v / 2, 2) == [v / 2 / 2 % 2 == 1, v / 2 % 2 == 1];
  }

  /** A word of the table is three pulses on the line. */
  lemma LutLine(v: nat)
    requires v < 8
    ensures LineOf(Lut(v)) == Pulses(Bits(v, 3))
  {
    hide LineOf, Lut, Pulses, Bits;
    LutLevels(v);
    ThreeBits(v);
    ThreePulses(v / 2 / 2 % 2 == 1, v / 2 % 2 == 1, v % 2 == 1);
  }

  lemma ThreePulses(a: bool, b: bool, c: bool)
    ensures Pulses([a, b, c]) == [true, a, false, true, b, false, true, c, false]
  {
    assert [a, b, c][1..] == [b, c] && [b, c][1..] == [c] && [c][1..] == [];
    assert Pulses([c]) == [true, c, false] + Pulses([]);
    assert Pulses([b, c]) == [true, b, false] + Pulses([c]);
    assert Pulses([a, b, c]) == [true, a, false] + Pulses([b, c]);
  }

  lemma {:induction false} LineJoin(a: seq<Byte>, b: seq<Byte>)
    ensures Line(a + b) == Line(a) + Line(b)
  {
    if a == [] {
      assert a + b == b;
    } else {
      hide LineOf;
      LineJoin(a[1..], b);
      assert (a + b)[1..] == a[1..] + b && (a + b)[0] == a[0];
      Associative(LineOf(a[0]), Line(a[1..]), Line(b));
    }
  }

  lemma {:induction false} PulsesJoin(a: seq<bool>, b: seq<bool>)
    ensures Pulses(a + b) == Pulses(a) + Pulses(b)
  {
    if a == [] {
      assert a + b == b;
    } else {
      PulsesJoin(a[1..], b);
      assert (a + b)[1..] == a[1..] + b;
    }
  }

  function Pow2(k: nat): nat {
    if k == 0 then 1 else 2 * Pow2(k - 1)
  }

  lemma Halve(y: nat, b: nat)
    ensures (2 * y + b) / 2 == y + b / 2 && (2 * y + b) % 2 == b % 2
  {}

  lemma Twice(a: nat, k: nat)
    requires k > 0
    ensures a * Pow2(k) == 2 * (a * Pow2(k - 1))
  {}

  /** The bits of two numbers next to each other. */
  lemma {:induction false} BitsJoin(a: nat, b: nat, m: nat, k: nat)
    requires b < Pow2(k)
    ensures Bits(a * Pow2(k) + b, m + k) == Bits(a, m) + Bits(b, k)
  {
    if k > 0 {
      Twice(a, k);
      Halve(a * Pow2(k - 1), b);
      BitsJoin(a, b / 2, m, k - 1);
    }
  }

  lemma GroupBits(p: nat, n: nat)
    requires n > 0
    ensures Bits(p, 3 * n) == Bits(p / 8, 3 * (n - 1)) + Bits(p % 8, 3)
  {
    hide Bits;
    assert Pow2(3) == 8;
    hide Pow2;
    assert p / 8 * 8 + p % 8 == p && 3 * (n - 1) + 3 == 3 * n;
    BitsJoin(p / 8, p % 8, 3 * (n - 1), 3);
  }

  lemma {:induction false} WordsPulse(p: nat, n: nat)
    ensures Line(Words(p, n)) == Pulses(Bits(p, 3 * n))
  {
    if n > 0 {
      hide LineOf, Lut, Bits, Pulses;
      var q, v := p / 8, p % 8;
      WordsPulse(q, n - 1);
      LineJoin(Words(q, n - 1), [Lut(v)]);
      assert Line([Lut(v)]) == LineOf(Lut(v));
      LutLine(v);
      GroupBits(p, n);
      PulsesJoin(Bits(q, 3 * (n - 1)), Bits(v, 3));
    }
  }

  /** One colour on the line: a pulse for each of its 24 bits, highest first. */
  lemma ColourOnLine(c: Colour)
    ensures Line(Words(Packed(c), 8)) == Pulses(ColourBits(c))
  {
    WordsPulse(Packed(c), 8);
    assert Pow2(8) == 256;
    BitsJoin(c.g, c.r, 8, 8);
    BitsJoin(c.g * 256 + c.r, c.b, 16, 8);
  }

  // ---------- display ----------

  /** One channel of `Colour::scale`, in 16 bits, where nothing overflows: the part `x / 255` of the value,
      cut off. */
  function Dimmed(v: Byte, x: Byte): (r: Byte)
    ensures 255 * r <= v * x < 255 * (r + 1)
    ensures r <= v && r <= x && v * x < 65536
  {
    Products(v, x);
    v * x / 255
  }

  lemma Products(v: Byte, x: Byte)
    ensures 0 <= v * x <= 255 * v && v * x <= 255 * x
  {
    assert (255 - x) * v >= 0 && (255 - v) * x >= 0;
  }

  /** Full brightness changes nothing, and more brightness is never darker. */
  lemma ScaleDims(v: Byte, x: Byte, y: Byte)
    requires x <= y
    ensures Dimmed(v, 255) == v && Dimmed(v, 0) == 0 && Dimmed(v, x) <= Dimmed(v, y)
  {
    assert v * x <= v * y;
  }

  /** `Colour::scale` */
  function Scale(c: Colour, x: Byte): Colour {
    Colour(Dimmed(c.r, x), Dimmed(c.g, x), Dimmed(c.b, x))
  }

  function Scaled(cs: seq<Colour>, x: Byte): seq<Colour> {
    seq(|cs|, i requires 0 <= i < |cs| => Scale(cs[i], x))
  }

  /** A byte at brightness `x`, cut off. */
  predicate IsPart(d: Byte, v: Byte, x: Byte) {
    255 * d <= v * x < 255 * (d + 1)
  }

  /** The colours at brightness `x`, each of their three parts by itself. */
  predicate AtBrightness(ds: seq<Colour>, cs: seq<Colour>, x: Byte) {
    |ds| == |cs| &&
    forall i :: 0 <= i < |cs| ==>
      IsPart(ds[i].r, cs[i].r, x) && IsPart(ds[i].g, cs[i].g, x) && IsPart(ds[i].b, cs[i].b, x)
  }

  lemma ScaledIs(cs: seq<Colour>, x: Byte)
    ensures AtBrightness(Scaled(cs, x), cs, x)
  {}

  function Encoded(cs: seq<Colour>): seq<Byte> {
    if cs == [] then [] else Words(Packed(cs[0]), 8) + Encoded(cs[1..])
  }

  lemma {:induction false} EncodedOnLine(cs: seq<Colour>)
    ensures Line(Encoded(cs)) == Pulses(AllBits(cs))
  {
    if cs != [] {
      EncodedOnLine(cs[1..]);
      ColourOnLine(cs[0]);
      LineJoin(Words(Packed(cs[0]), 8), Encoded(cs[1..]));
      PulsesJoin(ColourBits(cs[0]), AllBits(cs[1..]));
    }
  }

  // ---------- what the LEDs read ----------

  /** The bits of a line made of pulses. */
  function ReadPulses(line: seq<bool>): Option<seq<bool>> {
    if line == [] then Some([])
    else if |line| < 3 || !line[0] || line[2] then None
    else
      var rest := ReadPulses(line[3..]);
      if rest.None? then None else Some([line[1]] + rest.value)
  }

  function Value(bits: seq<bool>): nat {
    if bits == [] then 0 else 2 * Value(bits[..|bits| - 1]) + if bits[|bits| - 1] then 1 else 0
  }

  function ByteOf(bits: seq<bool>): Byte {
    Value(bits) % 256
  }

  /** Each LED takes the first 24 bits and passes on the rest. */
  function ReadColours(bits: seq<bool>): Option<seq<Colour>> {
    if bits == [] then Some([])
    else if |bits| < 24 then None
    else
      var rest := ReadColours(bits[24..]);
      if rest.None? then None
      else Some([Colour(ByteOf(bits[8..16]), ByteOf(bits[..8]), ByteOf(bits[16..24]))] + rest.value)
  }

  lemma {:induction false} PulsesRead(bits: seq<bool>)
    ensures ReadPulses(Pulses(bits)) == Some(bits)
  {
    if bits != [] {
      PulsesRead(bits[1..]);
      var line := Pulses(bits);
      assert line == [true, bits[0], false] + Pulses(bits[1..]);
      assert line[3..] == Pulses(bits[1..]);
      assert [bits[0]] + bits[1..] == bits;
    }
  }

  lemma {:induction false} ValueOfBits(x: nat, n: nat)
    requires x < Pow2(n)
    ensures Value(Bits(x, n)) == x
  {
    if n > 0 {
      ValueOfBits(x / 2, n - 1);
      assert Bits(x, n)[..n - 1] == Bits(x / 2, n - 1);
    }
  }

  lemma ByteRead(x: Byte)
    ensures ByteOf(Bits(x, 8)) == x
  {
    assert Pow2(8) == 256;
    ValueOfBits(x, 8);
  }

  lemma ColourRead(c: Colour, rest: seq<bool>)
    ensures var bits := ColourBits(c) + rest;
            bits[24..] == rest && Colour(ByteOf(bits[8..16]), ByteOf(bits[..8]), ByteOf(bits[16..24])) == c
  {
    hide Bits, ByteOf;
    var bits := ColourBits(c) + rest;
    assert bits[..8] == Bits(c.g, 8) && bits[8..16] == Bits(c.r, 8) && bits[16..24] == Bits(c.b, 8);
    ByteRead(c.g);
    ByteRead(c.r);
    ByteRead(c.b);
  }

  lemma {:induction false} ColoursRead(cs: seq<Colour>)
    ensures ReadColours(AllBits(cs)) == Some(cs)
  {
    if cs != [] {
      hide Bits, ByteOf;
      ColoursRead(cs[1..]);
      ColourRead(cs[0], AllBits(cs[1..]));
      assert [cs[0]] + cs[1..] == cs;
    }
  }

  /** What the LEDs make of a line. */
  function Shown(line: seq<bool>): Option<seq<Colour>> {
    var bits := ReadPulses(line);
    if bits.None? then None else ReadColours(bits.value)
  }

  /** Any number of colours gets through. */
  lemma EncodedIsShown(cs: seq<Colour>)
    ensures Shown(Line(Encoded(cs))) == Some(cs)
  {
    EncodedOnLine(cs);
    PulsesRead(AllBits(cs));
    ColoursRead(cs);
  }

  /** On the line, these words make the LEDs show the colours at brightness `x`. */
  ghost predicate Shows(words: seq<Byte>, cs: seq<Colour>, x: Byte) {
    exists ds :: Shown(Line(words)) == Some(ds) && AtBrightness(ds, cs, x)
  }

  lemma EncodedShows(cs: seq<Colour>, x: Byte)
    ensures Shows(Encoded(Scaled(cs, x)), cs, x)
  {
    EncodedIsShown(Scaled(cs, x));
    ScaledIs(cs, x);
    hide Scaled, Encoded, AtBrightness, Shown, Line;
  }

  /** `Controller`. `sent` is what the UART was given. */
  class Controller {
    const brightness: Byte
    var sent: seq<Byte>

    constructor (brightness: Byte)
      ensures this.brightness == brightness && sent == []
    {
      this.brightness, sent := brightness, [];
    }

    /** `Controller::display`: on the line the LEDs read the colours at the brightness. */
    method Display(pattern: seq<Colour>)
      modifies this
      ensures exists bytes :: sent == old(sent) + bytes && Shows(bytes, pattern, brightness)
    {
      hide Shows, Scale, Packed, Words;
      var bytes: seq<Byte> := [];
      ghost var cs := Scaled(pattern, brightness);
      for i := 0 to |pattern|
        invariant Encoded(cs) == bytes + Encoded(cs[i..])
        invariant sent == old(sent)
      {
        var word := AsUartBytes(Scale(pattern[i], brightness));
        assert cs[i..][1..] == cs[i + 1..];
        bytes := bytes + word[..];
      }
      assert cs[|pattern|..] == [];
      EncodedShows(pattern, brightness);
      sent := sent + bytes;
    }
  }
}

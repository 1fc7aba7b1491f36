/** Octets, C strings and the hexadecimal text that `utils.c` produces. */
module Octets {

  datatype Option<+T> = None | Some(value: T)

  /** A C `uint8_t`. */
  type byte = b: int | 0 <= b < 256

  /** Conversion of a C `int` to `uint8_t`: reduction modulo 256. */
  function Low8(n: int): (b: byte) {
    n % 256
  }

  /** Addition in a `uint8_t`, which wraps around. */
  function Add8(b: byte, n: nat): (r: byte) {
    Low8(b as int + n)
  }

  lemma AddWraps(a: int, n: nat)
    ensures Add8(Low8(a), n) == Low8(a + n)
  {
  }

  lemma AddAdds(b: byte, m: nat, n: nat)
    ensures Add8(Add8(b, m), n) == Add8(b, m + n)
    ensures Add8(b, 0) == b
  {
  }

  function Zeros(n: nat): (s: seq<byte>)
    ensures |s| == n
  {
    seq(n, _ => 0)
  }

  /** The text a C reader finds in a buffer: everything before the first NUL. */
  function CString(buf: seq<char>): (s: string) {
    if buf == [] || buf[0] == '\0' then [] else [buf[0]] + CString(buf[1..])
  }

  lemma {:induction false} CStringOf(text: string, rest: seq<char>)
    requires '\0' !in text
    requires rest == [] || rest[0] == '\0'
    ensures CString(text + rest) == text
  {
    if text == [] {
      assert text + rest == rest;
    } else {
      assert (text + rest)[1..] == text[1..] + rest;
      CStringOf(text[1..], rest);
    }
  }

  function HexDigit(d: int): (c: char)
    requires 0 <= d < 16
  {
    if d < 0xA then (0x30 + d) as char else (0x41 + d - 0xA) as char
  }

  /** Two upper-case digits, most significant first. */
  function Hex(b: byte): (s: string) {
    [HexDigit(b / 16), HexDigit(b % 16)]
  }

  function HexAll(s: seq<byte>): (t: string)
    ensures |t| == 2 * |s|
    ensures '\0' !in t
  {
    if s == [] then [] else Hex(s[0]) + HexAll(s[1..])
  }

  lemma {:induction false} HexAllAppend(a: seq<byte>, b: seq<byte>)
    ensures HexAll(a + b) == HexAll(a) + HexAll(b)
  {
    if a == [] {
      assert a + b == b;
    } else {
      assert (a + b)[1..] == a[1..] + b;
      HexAllAppend(a[1..], b);
    }
  }

  /** A hexadecimal digit of either case, as any reader of hexadecimal text accepts it. */
  function DigitValue(c: char): (d: Option<int>)
    ensures d.Some? ==> 0 <= d.value < 16
  {
    if '0' <= c <= '9' then Some(c as int - '0' as int)
    else if 'A' <= c <= 'F' then Some(c as int - 'A' as int + 10)
    else if 'a' <= c <= 'f' then Some(c as int - 'a' as int + 10)
    else None
  }

  function Unhex(t: string): (s: Option<seq<byte>>) {
    if t == [] then Some([])
    else if |t| == 1 then None
    else
      var hi, lo, rest := DigitValue(t[0]), DigitValue(t[1]), Unhex(t[2..]);
      if hi.None? || lo.None? || rest.None? then None
      else Some([16 * hi.value + lo.value] + rest.value)
  }

  lemma DigitRoundTrip(d: int)
    requires 0 <= d < 16
    ensures DigitValue(HexDigit(d)) == Some(d)
  {
  }

  lemma UnhexStep(b: byte, t: string)
    requires Unhex(t).Some?
    ensures Unhex(Hex(b) + t) == Some([b] + Unhex(t).value)
  {
    DigitRoundTrip(b / 16);
    DigitRoundTrip(b % 16);
    assert (Hex(b) + t)[2..] == t;
  }

  /** Reading back what was written. */
  lemma {:induction false} UnhexHexAll(s: seq<byte>)
    ensures Unhex(HexAll(s)) == Some(s)
  {
    if s != [] {
      UnhexHexAll(s[1..]);
      UnhexStep(s[0], HexAll(s[1..]));
      assert s == [s[0]] + s[1..];
    }
  }

  /** `uchar_to_ascii`: two characters through an advancing pointer; a null `out` is ignored. */
  method UcharToAscii(out: array?<char>, at: nat, input: byte)
    requires out != null ==> at + 2 <= out.Length
    modifies out
    ensures out != null ==> out[at] == Hex(input)[0] && out[at + 1] == Hex(input)[1]
    ensures out != null ==>
              forall i :: 0 <= i < out.Length && i != at && i != at + 1 ==> out[i] == old(out[i])
  {
    if out == null {
      return;
    }
    var p := at;
    var high := input / 16;
    if high < 0xA {
      out[p] := (0x30 + high) as char;
    } else {
      out[p] := (0x41 + high - 0xA) as char;
    }
    p := p + 1;
    var low := input % 16;
    if low < 0xA {
      out[p] := (0x30 + low) as char;
    } else {
      out[p] := (0x41 + low - 0xA) as char;
    }
  }
}

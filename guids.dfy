/**
 * Field identifiers. `FormatB` stands for `Guid.ToString("B")`: the model
 * writes the bytes as lower-case hexadecimal between braces. Only two facts
 * about it are used elsewhere: it is injective, and `ParseB` reads it back.
 */
module Guids {
  import opened Wrappers

  newtype byte = x: int | 0 <= x < 256

  datatype Guid = Guid(bytes: seq<byte>)

  function HexChar(n: nat): (c: char)
    requires n < 16
  {
    if n < 10 then ('0' as int + n) as char else ('a' as int + n - 10) as char
  }

  function HexValue(c: char): (r: Option<nat>)
    ensures r.Some? ==> r.value < 16
  {
    if '0' <= c <= '9' then Some(c as int - '0' as int)
    else if 'a' <= c <= 'f' then Some(c as int - 'a' as int + 10)
    else None
  }

  function HexOfBytes(bs: seq<byte>): (s: string)
    ensures |s| == 2 * |bs|
  {
    if bs == [] then []
    else [HexChar(bs[0] as int / 16), HexChar(bs[0] as int % 16)] + HexOfBytes(bs[1..])
  }

  function BytesOfHex(s: string): Option<seq<byte>>
  {
    if s == [] then Some([])
    else if |s| < 2 then None
    else
      match (HexValue(s[0]), HexValue(s[1]), BytesOfHex(s[2..]))
      case (Some(hi), Some(lo), Some(rest)) => Some([(hi * 16 + lo) as byte] + rest)
      case _ => None
  }

  /** The brace ("B") format of a Guid. */
  function FormatB(g: Guid): (s: string)
    ensures |s| == 2 * |g.bytes| + 2 && s[0] == '{' && s[|s| - 1] == '}'
  {
    "{" + HexOfBytes(g.bytes) + "}"
  }

  /** Reads a brace-format Guid back; `None` when `s` is not one. */
  function ParseB(s: string): Option<Guid>
  {
    if |s| >= 2 && s[0] == '{' && s[|s| - 1] == '}' then
      match BytesOfHex(s[1..|s| - 1])
      case Some(bs) => Some(Guid(bs))
      case None => None
    else None
  }

  lemma {:induction false} HexRoundTrip(bs: seq<byte>)
    ensures BytesOfHex(HexOfBytes(bs)) == Some(bs)
  {
    if bs != [] {
      var s := HexOfBytes(bs);
      var b := bs[0] as int;
      assert HexValue(HexChar(b / 16)) == Some(b / 16);
      assert HexValue(HexChar(b % 16)) == Some(b % 16);
      assert s[2..] == HexOfBytes(bs[1..]);
      HexRoundTrip(bs[1..]);
      assert [(b / 16 * 16 + b % 16) as byte] + bs[1..] == bs;
    }
  }

  /** Reading back what `FormatB` wrote gives the same Guid. */
  lemma ParseFormatB(g: Guid)
    ensures ParseB(FormatB(g)) == Some(g)
  {
    var s := FormatB(g);
    assert s[1..|s| - 1] == HexOfBytes(g.bytes);
    HexRoundTrip(g.bytes);
  }

  lemma {:induction false} BytesOfHexExact(s: string)
    requires BytesOfHex(s).Some?
    ensures HexOfBytes(BytesOfHex(s).value) == s
  {
    if s != [] {
      var hi, lo := HexValue(s[0]).value, HexValue(s[1]).value;
      BytesOfHexExact(s[2..]);
      var b := (hi * 16 + lo) as byte;
      assert b as int / 16 == hi && b as int % 16 == lo;
      assert BytesOfHex(s).value == [b] + BytesOfHex(s[2..]).value;
      assert s == [s[0], s[1]] + s[2..];
    }
  }

  /** `ParseB` accepts nothing but what `FormatB` writes. */
  lemma FormatParseB(s: string)
    requires ParseB(s).Some?
    ensures FormatB(ParseB(s).value) == s
  {
    BytesOfHexExact(s[1..|s| - 1]);
    assert s == "{" + s[1..|s| - 1] + "}";
  }

  /** Distinct Guids have distinct brace formats. */
  lemma FormatBInjective(g: Guid, h: Guid)
    ensures FormatB(g) == FormatB(h) ==> g == h
  {
    ParseFormatB(g);
    ParseFormatB(h);
  }
}

/**
 The preimage of a project adopt token: a domain tag, two decoded SHA-256 fingerprints
 and two length-framed strings. Only equal sources give equal bytes.
 */
module Preimage {
  import opened Wrappers

  type byte = x: int | 0 <= x < 256
  type Bytes = seq<byte>

  function Ascii(s: string): Bytes {
    seq(|s|, i requires 0 <= i < |s| => (s[i] as int) % 256)
  }

  const Tag: Bytes := Ascii("mcphub-project-adopt-preimage-v1") + [0]
  const Client: Bytes := Ascii("codex-cli")
  const MaxLen := 0xffff_ffff

  // ---- lowercase hex ----

  function Digit(c: byte): Option<byte> {
    if 0x30 <= c <= 0x39 then Some(c - 0x30)
    else if 0x61 <= c <= 0x66 then Some(c - 0x61 + 10)
    else None
  }

  function HexChar(d: byte): (c: byte)
    requires d < 16
    ensures Digit(c) == Some(d)
  {
    if d < 10 then 0x30 + d else 0x61 + d - 10
  }

  function DecodeHex(v: Bytes): Option<Bytes> {
    if v == [] then Some([])
    else if |v| == 1 || Digit(v[0]).None? || Digit(v[1]).None? then None
    else
      var rest := DecodeHex(v[2..]);
      if rest.None? then None else Some([Digit(v[0]).value * 16 + Digit(v[1]).value] + rest.value)
  }

  function EncodeHex(b: Bytes): Bytes {
    if b == [] then [] else [HexChar(b[0] / 16), HexChar(b[0] % 16)] + EncodeHex(b[1..])
  }

  /** Decoding a lowercase fingerprint loses nothing. */
  lemma {:induction false} DecodeIsExact(v: Bytes)
    requires DecodeHex(v).Some?
    ensures |v| == 2 * |DecodeHex(v).value| && EncodeHex(DecodeHex(v).value) == v
  {
    if v != [] {
      DecodeIsExact(v[2..]);
      var b := DecodeHex(v).value;
      assert b[1..] == DecodeHex(v[2..]).value;
      DigitsBack(v[0], v[1]);
      assert v == [v[0], v[1]] + v[2..];
    }
  }

  lemma DigitsBack(hi: byte, lo: byte)
    requires Digit(hi).Some? && Digit(lo).Some?
    ensures (Digit(hi).value * 16 + Digit(lo).value) / 16 == Digit(hi).value
    ensures (Digit(hi).value * 16 + Digit(lo).value) % 16 == Digit(lo).value
    ensures HexChar(Digit(hi).value) == hi && HexChar(Digit(lo).value) == lo
  {
  }

  function Fingerprint(v: Bytes): Option<Bytes> {
    if |v| != 64 then None else DecodeHex(v)
  }

  // ---- length framing ----

  function U32(n: nat): (b: Bytes)
    requires n <= MaxLen
    ensures |b| == 4
  {
    [n / 0x100_0000, n / 0x1_0000 % 0x100, n / 0x100 % 0x100, n % 0x100]
  }

  function FromU32(b: Bytes): nat
    requires |b| == 4
  {
    b[0] as int * 0x100_0000 + b[1] as int * 0x1_0000 + b[2] as int * 0x100 + b[3] as int
  }

  lemma Digits(n: nat)
    ensures n / 0x1_0000 == n / 0x100 / 0x100 && n / 0x100_0000 == n / 0x1_0000 / 0x100
    ensures n == 0x100 * (n / 0x100) + n % 0x100
  {
  }

  lemma U32Back(n: nat)
    requires n <= MaxLen
    ensures FromU32(U32(n)) == n
  {
    Digits(n);
    Digits(n / 0x100);
    Digits(n / 0x1_0000);
  }

  function Framed(s: Bytes): Bytes
    requires |s| <= MaxLen
  {
    U32(|s|) + s
  }

  function Unframe(m: Bytes): Option<(Bytes, Bytes)> {
    if |m| < 4 then None
    else
      var n := FromU32(m[..4]);
      if |m| - 4 < n then None else Some((m[4..4 + n], m[4 + n..]))
  }

  /** A framed string is read back whatever follows it. */
  lemma UnframeBack(s: Bytes, rest: Bytes)
    requires |s| <= MaxLen
    ensures Unframe(Framed(s) + rest) == Some((s, rest))
  {
    var m := Framed(s) + rest;
    assert m[..4] == U32(|s|);
    U32Back(|s|);
    assert m[4..4 + |s|] == s && m[4 + |s|..] == rest;
  }

  // ---- the material ----

  datatype Source = Source(project: Bytes, entry: Bytes, config: Bytes)

  predicate Accepted(s: Source) {
    Fingerprint(s.project).Some? && Fingerprint(s.config).Some? && s.entry != [] && |s.entry| <= MaxLen
  }

  function Material(s: Source): (m: Option<Bytes>)
    ensures m.Some? <==> Accepted(s)
  {
    var project, config := Fingerprint(s.project), Fingerprint(s.config);
    if project.None? || config.None? || s.entry == [] || |s.entry| > MaxLen then None
    else Some(Tag + project.value + Framed(Client) + Framed(s.entry) + config.value)
  }

  // The reader of the material, which the program itself never needs.
  function Read(m: Bytes): Option<Source> {
    if |m| < |Tag| + 32 || m[..|Tag|] != Tag then None
    else
      var first := Unframe(m[|Tag| + 32..]);
      if first.None? || first.value.0 != Client then None
      else
        var second := Unframe(first.value.1);
        if second.None? || |second.value.1| != 32 then None
        else Some(Source(EncodeHex(m[|Tag|..|Tag| + 32]), second.value.0, EncodeHex(second.value.1)))
  }

  lemma Sections(a: Bytes, b: Bytes, c: Bytes, d: Bytes, e: Bytes)
    ensures var m := a + b + c + d + e;
            m[..|a|] == a && m[|a|..|a| + |b|] == b && m[|a| + |b|..] == c + (d + e)
  {
  }

  /** The material determines its source. */
  lemma ReadBack(s: Source)
    requires Accepted(s)
    ensures Read(Material(s).value) == Some(s)
  {
    var project, config := Fingerprint(s.project).value, Fingerprint(s.config).value;
    DecodeIsExact(s.project);
    DecodeIsExact(s.config);
    var tail := Framed(s.entry) + config;
    Sections(Tag, project, Framed(Client), Framed(s.entry), config);
    UnframeBack(Client, tail);
    UnframeBack(s.entry, config);
  }

  /** Two accepted sources with equal material are equal. */
  lemma MaterialInjective(a: Source, b: Source)
    requires Accepted(a) && Accepted(b) && Material(a) == Material(b)
    ensures a == b
  {
    ReadBack(a);
    ReadBack(b);
  }
}

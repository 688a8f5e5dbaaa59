/** Decoding the numbers of an RSA JWK: base64url with or without padding, and
    the fold of the exponent's octets into a 64-bit int. Characters and octets
    are Go bytes. */
module Jwk {
  import opened Options

  newtype Byte = x: int | 0 <= x < 256

  // ---------- The alphabet of section 5 of RFC 4648 ----------

  predicate PlainChar(c: char) { c != '=' && c != '\r' && c != '\n' }

  function Encode6(v: int): (c: char)
    requires 0 <= v < 64
    ensures PlainChar(c)
  {
    if v < 26 then 'A' + v as char
    else if v < 52 then 'a' + (v - 26) as char
    else if v < 62 then '0' + (v - 52) as char
    else if v == 62 then '-' else '_'
  }

  /** The value of a character, 64 for one outside the alphabet. */
  function Decode6(c: char): (v: int)
    ensures 0 <= v <= 64
  {
    if 'A' <= c <= 'Z' then (c - 'A') as int
    else if 'a' <= c <= 'z' then (c - 'a') as int + 26
    else if '0' <= c <= '9' then (c - '0') as int + 52
    else if c == '-' then 62
    else if c == '_' then 63
    else 64
  }

  lemma Decode6OfEncode6(v: int)
    requires 0 <= v < 64
    ensures Decode6(Encode6(v)) == v
  {
  }

  /** The alphabet as section 5 of RFC 4648 lists it. */
  const ALPHABET: string := Letters('A', 26) + Letters('a', 26) + Letters('0', 10) + "-_"

  function Letters(first: char, n: nat): string
    requires first as int + n <= 128
  {
    seq(n, i requires 0 <= i < n => first + i as char)
  }

  lemma EncodesByPosition(v: int)
    requires 0 <= v < 64
    ensures |ALPHABET| == 64 && Encode6(v) == ALPHABET[v]
  {
  }

  /** Values are positions in the alphabet, and every other character has none. */
  lemma AlphabetIs(c: char)
    ensures Decode6(c) < 64 <==> c in ALPHABET
    ensures Decode6(c) < 64 ==> |ALPHABET| == 64 && ALPHABET[Decode6(c)] == c
  {
    if Decode6(c) < 64 {
      EncodesByPosition(Decode6(c));
    }
    if c in ALPHABET {
      EncodesByPosition(0);
      var i :| 0 <= i < |ALPHABET| && ALPHABET[i] == c;
      EncodesByPosition(i);
    }
  }

  // ---------- Go's decoder ----------

  /** The decoder skips line breaks wherever they stand. */
  function StripBreaks(s: string): string {
    if s == [] then []
    else (if s[0] == '\r' || s[0] == '\n' then [] else [s[0]]) + StripBreaks(s[1..])
  }

  function Octets3(v: int): seq<Byte>
    requires 0 <= v < 0x100_0000
  {
    [(v / 65536) as Byte, (v / 256 % 256) as Byte, (v % 256) as Byte]
  }

  /** The value of four characters, if all are in the alphabet. */
  function Quantum(a: char, b: char, c: char, d: char): Option<int> {
    var w, x, y, z := Decode6(a), Decode6(b), Decode6(c), Decode6(d);
    if w < 64 && x < 64 && y < 64 && z < 64 then Some(w * 262144 + x * 4096 + y * 64 + z) else None
  }

  /** A decoded quantum stays below 2^24. */
  lemma QuantumBounded(a: char, b: char, c: char, d: char)
    ensures var q := Quantum(a, b, c, d); q.Some? ==> 0 <= q.value < 0x100_0000
  {
  }

  /** base64.URLEncoding (padded) and base64.RawURLEncoding on text without
      line breaks. The bits a short last quantum leaves over are not checked. */
  function Decode(s: string, padded: bool): Option<seq<Byte>>
    decreases |s|
  {
    if s == [] then Some([])
    else if |s| < 4 then (if padded || |s| == 1 then None else Tail(s))
    else if padded && |s| == 4 && s[2] == '=' && s[3] == '=' then Tail(s[..2])
    else if padded && |s| == 4 && s[3] == '=' then Tail(s[..3])
    else
      var q := Quantum(s[0], s[1], s[2], s[3]);
      var rest := Decode(s[4..], padded);
      QuantumBounded(s[0], s[1], s[2], s[3]);
      if q.None? || rest.None? then None else Some(Octets3(q.value) + rest.value)
  }

  /** A last quantum of two or three characters: one or two octets. */
  function Tail(s: string): Option<seq<Byte>>
    requires |s| == 2 || |s| == 3
  {
    var q := Quantum(s[0], s[1], if |s| == 3 then s[2] else 'A', 'A');
    QuantumBounded(s[0], s[1], if |s| == 3 then s[2] else 'A', 'A');
    if q.None? then None else Some(Octets3(q.value)[..|s| - 1])
  }

  function TrimPadding(s: string): string {
    if s != [] && s[|s| - 1] == '=' then TrimPadding(s[..|s| - 1]) else s
  }

  function Repad(s: string): string { if |s| % 4 == 2 then s + "==" else if |s| % 4 == 3 then s + "=" else s }

  function OrNothing(octets: Option<seq<Byte>>): seq<Byte> {
    match octets
    case Some(o) => o
    case None => []
  }

  /** What base64URLDecode yields: the padded decoder's octets, else the raw one's, else none. */
  function Decoded(text: string): seq<Byte> {
    var s := Repad(TrimPadding(text));
    var first := Decode(StripBreaks(s), true);
    OrNothing(if first.Some? then first else Decode(StripBreaks(TrimPadding(s)), false))
  }

  // ---------- The encoder of the standard ----------

  /** The four characters of a full quantum. */
  function Chars(v: int): (s: string)
    requires 0 <= v < 0x100_0000
    ensures |s| == 4 && Plain(s)
  {
    [Encode6(v / 262144), Encode6(v / 4096 % 64), Encode6(v / 64 % 64), Encode6(v % 64)]
  }

  function Join(a: Byte, b: Byte, c: Byte): (v: int)
    ensures 0 <= v < 0x100_0000
  {
    a as int * 65536 + b as int * 256 + c as int
  }

  function Encode(octets: seq<Byte>): string {
    if octets == [] then ""
    else if |octets| == 1 then Chars(Join(octets[0], 0, 0))[..2]
    else if |octets| == 2 then Chars(Join(octets[0], octets[1], 0))[..3]
    else Chars(Join(octets[0], octets[1], octets[2])) + Encode(octets[3..])
  }

  /** Base64url text: no padding, no line break, a length the decoder accepts. */
  predicate Plain(s: string) { |s| % 4 != 1 && forall i :: 0 <= i < |s| ==> PlainChar(s[i]) }

  lemma {:induction false} EncodeIsPlain(octets: seq<Byte>)
    ensures Plain(Encode(octets))
  {
    if |octets| == 1 || |octets| == 2 {
      var b: Byte := if |octets| == 2 then octets[1] else 0;
      PlainPrefix(Chars(Join(octets[0], b, 0)), |octets| + 1);
    } else if |octets| > 2 {
      EncodeIsPlain(octets[3..]);
      PlainConcat(Chars(Join(octets[0], octets[1], octets[2])), Encode(octets[3..]));
    }
  }

  lemma PlainConcat(head: string, rest: string)
    requires |head| == 4 && Plain(head) && Plain(rest)
    ensures Plain(head + rest)
  {
  }

  lemma PlainPrefix(s: string, n: nat)
    requires |s| == 4 && Plain(s) && 2 <= n <= 3
    ensures Plain(s[..n])
  {
  }

  lemma Sextets(v: int)
    requires 0 <= v < 0x100_0000
    ensures v / 262144 < 64 && v / 262144 * 262144 + v / 4096 % 64 * 4096 + v / 64 % 64 * 64 + v % 64 == v
  {
    Nested(v);
    assert v == v / 64 * 64 + v % 64;
    assert v / 64 == v / 4096 * 64 + v / 64 % 64;
    assert v / 4096 == v / 262144 * 64 + v / 4096 % 64;
  }

  lemma Nested(v: int)
    requires 0 <= v < 0x100_0000
    ensures v / 4096 == v / 64 / 64 && v / 262144 == v / 4096 / 64 && v / 262144 < 64
  {
  }

  lemma Digits(a: int, b: int, c: int)
    requires 0 <= a < 256 && 0 <= b < 256 && 0 <= c < 256
    ensures var v := a * 65536 + b * 256 + c; v / 65536 == a && v / 256 % 256 == b && v % 256 == c
  {
    var v := a * 65536 + b * 256 + c;
    assert v / 256 == a * 256 + b;
  }

  lemma OctetsOf(a: Byte, b: Byte, c: Byte)
    ensures Octets3(Join(a, b, c)) == [a, b, c]
  {
    Digits(a as int, b as int, c as int);
  }

  lemma QuantumOfChars(v: int)
    requires 0 <= v < 0x100_0000
    ensures var s := Chars(v); Quantum(s[0], s[1], s[2], s[3]) == Some(v)
  {
    Sextets(v);
    Decode6OfEncode6(v / 262144);
    Decode6OfEncode6(v / 4096 % 64);
    Decode6OfEncode6(v / 64 % 64);
    Decode6OfEncode6(v % 64);
  }

  /** A short quantum leaves out characters that would be A. */
  lemma TailOfChars(v: int, octets: seq<Byte>)
    requires 0 <= v < 0x100_0000 && 1 <= |octets| <= 2 && Octets3(v)[..|octets|] == octets
    requires v % 64 == 0 && (|octets| == 1 ==> v / 64 % 64 == 0)
    ensures Tail(Chars(v)[..|octets| + 1]) == Some(octets)
  {
    QuantumOfChars(v);
    assert Encode6(0) == 'A';
    var s := Chars(v);
    assert s[3] == 'A' && (|octets| == 1 ==> s[2] == 'A');
  }

  lemma JoinZeros(a: Byte, b: Byte)
    ensures Join(a, b, 0) % 64 == 0 && Join(a, 0, 0) % 64 == 0 && Join(a, 0, 0) / 64 % 64 == 0
  {
    Multiple64(Join(a, b, 0), a as int * 1024 + b as int * 4);
    Multiple64(Join(a, 0, 0), a as int * 1024);
    Multiple64(Join(a, 0, 0) / 64, a as int * 16);
  }

  lemma Multiple64(x: int, q: int)
    requires x == 64 * q
    ensures x % 64 == 0 && x / 64 == q
  {
  }

  /** Text that ends in a short quantum. */
  lemma DecodeShort(s: string, octets: seq<Byte>)
    requires (|s| == 2 || |s| == 3) && Plain(s) && Tail(s) == Some(octets)
    ensures Decode(s, false) == Some(octets) && Decode(Repad(s), true) == Some(octets)
  {
    assert Repad(s)[..|s|] == s;
    assert |s| == 3 ==> PlainChar(s[2]);
  }

  /** One full quantum in front. */
  lemma DecodeQuantum(v: int, rest: string, octets: seq<Byte>, padded: bool)
    requires 0 <= v < 0x100_0000 && Decode(rest, padded) == Some(octets)
    ensures Decode(Chars(v) + rest, padded) == Some(Octets3(v) + octets)
  {
    var head := Chars(v);
    QuantumOfChars(v);
    DecodeStep(head, rest, v, octets, padded);
  }

  lemma DecodeStep(head: string, rest: string, v: int, octets: seq<Byte>, padded: bool)
    requires |head| == 4 && Plain(head) && 0 <= v < 0x100_0000 && Quantum(head[0], head[1], head[2], head[3]) == Some(v)
    requires Decode(rest, padded) == Some(octets)
    ensures Decode(head + rest, padded) == Some(Octets3(v) + octets)
  {
    assert (head + rest)[4..] == rest;
    assert PlainChar(head[2]) && PlainChar(head[3]);
  }

  lemma OneOctet(a: Byte)
    ensures Tail(Chars(Join(a, 0, 0))[..2]) == Some([a])
  {
    OctetsOf(a, 0, 0);
    JoinZeros(a, 0);
    TailOfChars(Join(a, 0, 0), [a]);
  }

  lemma TwoOctets(a: Byte, b: Byte)
    ensures Tail(Chars(Join(a, b, 0))[..3]) == Some([a, b])
  {
    OctetsOf(a, b, 0);
    JoinZeros(a, b);
    TailOfChars(Join(a, b, 0), [a, b]);
  }

  lemma ShortEncode(octets: seq<Byte>)
    requires 1 <= |octets| <= 2
    ensures var s := Encode(octets); |s| == |octets| + 1 && Plain(s) && Tail(s) == Some(octets)
  {
    EncodeIsPlain(octets);
    if |octets| == 1 {
      OneOctet(octets[0]);
      assert octets == [octets[0]];
    } else {
      TwoOctets(octets[0], octets[1]);
      assert octets == [octets[0], octets[1]];
    }
  }

  lemma DecodeOfShort(octets: seq<Byte>)
    requires 1 <= |octets| <= 2
    ensures Decode(Encode(octets), false) == Some(octets)
    ensures Decode(Repad(Encode(octets)), true) == Some(octets)
  {
    ShortEncode(octets);
    DecodeShort(Encode(octets), octets);
  }

  lemma RepadBehind(head: string, rest: string)
    requires |head| == 4
    ensures Repad(head + rest) == head + Repad(rest)
  {
    assert |head + rest| % 4 == |rest| % 4;
  }

  /** Decoding what the standard's encoder wrote, padded again or not, gives the octets back. */
  lemma {:induction false} DecodeOfEncode(octets: seq<Byte>)
    ensures Decode(Encode(octets), false) == Some(octets)
    ensures Decode(Repad(Encode(octets)), true) == Some(octets)
    decreases |octets|
  {
    if octets == [] {
    } else if |octets| < 3 {
      DecodeOfShort(octets);
    } else {
      DecodeOfEncode(octets[3..]);
      var v, rest := Join(octets[0], octets[1], octets[2]), Encode(octets[3..]);
      DecodeQuantum(v, rest, octets[3..], false);
      DecodeQuantum(v, Repad(rest), octets[3..], true);
      RepadBehind(Chars(v), rest);
      OctetsOf(octets[0], octets[1], octets[2]);
      assert octets == [octets[0], octets[1], octets[2]] + octets[3..];
    }
  }

  lemma {:induction false} StripPlain(s: string)
    requires forall i :: 0 <= i < |s| ==> s[i] != '\r' && s[i] != '\n'
    ensures StripBreaks(s) == s
  {
    if s != [] { StripPlain(s[1..]); }
  }

  lemma {:induction false} TrimPlain(s: string, pad: string)
    requires (s == [] || s[|s| - 1] != '=') && forall i :: 0 <= i < |pad| ==> pad[i] == '='
    ensures TrimPadding(s + pad) == s
    decreases |pad|
  {
    if pad == [] {
      assert s + pad == s;
    } else {
      assert (s + pad)[..|s + pad| - 1] == s + pad[..|pad| - 1];
      TrimPlain(s, pad[..|pad| - 1]);
    }
  }

  // ---------- What the two decoders come to ----------

  lemma StripsBreaks(c: char)
    ensures StripBreaks([c]) == if c == '\r' || c == '\n' then [] else [c]
  {
  }

  /** Exactly the line breaks are stripped, piece by piece. */
  lemma {:induction false} StripAppends(s: string, t: string)
    ensures StripBreaks(s + t) == StripBreaks(s) + StripBreaks(t)
  {
    if s == [] {
      assert s + t == t;
    } else {
      assert (s + t)[0] == s[0] && (s + t)[1..] == s[1..] + t;
      StripAppends(s[1..], t);
    }
  }

  /** Where the padded decoder accepts what was padded again, it agrees with
      the raw one; where the padding is wrong, as line breaks make it, it refuses. */
  lemma {:induction false} PaddedAgrees(s: string, pad: string)
    requires '=' !in s && (pad == "" || pad == "=" || pad == "==")
    ensures Decode(s + pad, true).Some? ==> Decode(s + pad, true) == Decode(s, false)
    decreases |s|
  {
    var t := s + pad;
    if |s| >= 4 {
      assert t[4..] == s[4..] + pad && t[3] == s[3] && s[3] in s;
      PaddedAgrees(s[4..], pad);
    } else if |s| == 3 && pad == "==" {
      assert t[3] == '=';
      assert Quantum(t[0], t[1], t[2], t[3]) == None;
    } else if |s| == 3 {
      assert t[..3] == s && s[2] in s;
    } else if |s| == 2 {
      assert t[..2] == s;
    }
  }

  /** Exactly the padding at the end is trimmed. */
  lemma {:induction false} TrimmedEnd(s: string)
    ensures var t := TrimPadding(s); t == [] || t[|t| - 1] != '='
    ensures var t := TrimPadding(s); t <= s && forall i :: |t| <= i < |s| ==> s[i] == '='
    decreases |s|
  {
    if s != [] && s[|s| - 1] == '=' { TrimmedEnd(s[..|s| - 1]); }
  }

  /** Trimming, padding again and trying two decoders come to raw decoding of
      the text without padding and line breaks, if no padding stands inside. */
  lemma DecodedIsRaw(text: string)
    requires '=' !in StripBreaks(TrimPadding(text))
    ensures Decoded(text) == OrNothing(Decode(StripBreaks(TrimPadding(text)), false))
  {
    var t := TrimPadding(text);
    var pad := if |t| % 4 == 2 then "==" else if |t| % 4 == 3 then "=" else "";
    assert Repad(t) == t + pad;
    StripAppends(t, pad);
    StripPlain(pad);
    PaddedAgrees(StripBreaks(t), pad);
    TrimmedEnd(text);
    TrimPlain(t, pad);
  }

  predicate InAlphabet(s: string) { forall i :: 0 <= i < |s| ==> Decode6(s[i]) < 64 }

  lemma AlphabetSplits(s: string)
    requires |s| >= 4
    ensures InAlphabet(s) <==> Quantum(s[0], s[1], s[2], s[3]).Some? && InAlphabet(s[4..])
  {
    forall i | 4 <= i < |s| ensures s[i] == s[4..][i - 4] {}
    if Quantum(s[0], s[1], s[2], s[3]).Some? && InAlphabet(s[4..]) {
      forall i | 0 <= i < |s| ensures Decode6(s[i]) < 64 {
        if i >= 4 { assert s[i] == s[4..][i - 4]; }
      }
    }
  }

  lemma TailDecodes(s: string)
    requires |s| == 2 || |s| == 3
    ensures Tail(s).Some? <==> InAlphabet(s)
  {
    var sound := Decode6(s[0]) < 64 && Decode6(s[1]) < 64 && (|s| == 3 ==> Decode6(s[2]) < 64);
    assert sound ==> InAlphabet(s);
    assert Tail(s).Some? <==> sound;
  }

  lemma ShortDecodes(s: string)
    requires |s| < 4
    ensures Decode(s, false).Some? <==> |s| != 1 && InAlphabet(s)
  {
    if |s| == 2 || |s| == 3 { TailDecodes(s); }
  }

  /** Raw text decodes exactly when its length fits and every character is in the alphabet. */
  lemma {:induction false} DecodableIs(s: string)
    ensures Decode(s, false).Some? <==> |s| % 4 != 1 && InAlphabet(s)
    decreases |s|
  {
    if |s| < 4 {
      ShortDecodes(s);
    } else {
      DecodableIs(s[4..]);
      AlphabetSplits(s);
      assert |s[4..]| % 4 == |s| % 4;
    }
  }

  /** No decoder accepts a character outside the alphabet, padding apart. */
  lemma {:induction false} ForeignRefused(s: string, padded: bool, k: nat)
    requires k < |s| && s[k] != '=' && Decode6(s[k]) == 64
    ensures Decode(s, padded) == None
    decreases |s|
  {
    if |s| >= 4 && k >= 4 {
      assert s[4..][k - 4] == s[k];
      ForeignRefused(s[4..], padded, k - 4);
    }
  }

  /** Octets written as base64url, broken into lines and padded in any way. */
  predicate Spells(text: string, octets: seq<Byte>) { StripBreaks(TrimPadding(text)) == Encode(octets) }

  lemma {:induction false} StripKeeps(s: string, k: nat)
    requires k < |s| && s[k] != '\r' && s[k] != '\n'
    ensures s[k] in StripBreaks(s)
  {
    if k > 0 {
      StripKeeps(s[1..], k - 1);
    }
  }

  lemma EndsPlain(text: string, s: string)
    requires StripBreaks(text) == s && Plain(s)
    ensures text == [] || text[|text| - 1] != '='
  {
    if text != [] && text[|text| - 1] == '=' {
      StripKeeps(text, |text| - 1);
    }
  }

  /** The text may be broken anywhere and followed by any number of padding characters. */
  lemma BrokenAndPadded(text: string, pad: string, octets: seq<Byte>)
    requires StripBreaks(text) == Encode(octets) && forall i :: 0 <= i < |pad| ==> pad[i] == '='
    ensures Spells(text + pad, octets)
  {
    EncodeIsPlain(octets);
    EndsPlain(text, Encode(octets));
    TrimPlain(text, pad);
  }

  /** base64URLDecode undoes the encoding, however it was broken into lines and padded. */
  lemma DecodedOfEncoded(text: string, octets: seq<Byte>)
    requires Spells(text, octets)
    ensures Decoded(text) == octets
  {
    EncodeIsPlain(octets);
    assert forall c :: c in Encode(octets) ==> PlainChar(c);
    DecodedIsRaw(text);
    DecodeOfEncode(octets);
  }

  /** Text with a foreign character, or of an impossible length, decodes to nothing. */
  lemma MalformedIsNothing(text: string)
    requires Malformed(StripBreaks(TrimPadding(text)))
    ensures Decoded(text) == []
  {
    var t := TrimPadding(text);
    var s := StripBreaks(t);
    var pad := if |t| % 4 == 2 then "==" else if |t| % 4 == 3 then "=" else "";
    if k: nat :| k < |s| && s[k] != '=' && Decode6(s[k]) == 64 {
      assert Repad(t) == t + pad;
      StripAppends(t, pad);
      StripPlain(pad);
      assert (s + pad)[k] == s[k];
      ForeignRefused(s + pad, true, k);
      ForeignRefused(s, false, k);
      TrimmedEnd(text);
      TrimPlain(t, pad);
    } else {
      DecodedIsRaw(text);
      DecodableIs(s);
    }
  }

  predicate Malformed(s: string) {
    || (exists k :: 0 <= k < |s| && s[k] != '=' && Decode6(s[k]) == 64)
    || ('=' !in s && |s| % 4 == 1)
  }

  /** base64URLDecode: trim, pad again by the length, decode; failing that,
      decode without padding; failing that, no octets at all. */
  method Base64UrlDecode(text: string) returns (raw: seq<Byte>)
    ensures raw == Decoded(text)
    ensures var s := StripBreaks(TrimPadding(text));
            && ('=' !in s ==> raw == OrNothing(Decode(s, false)))
            && (Malformed(s) ==> raw == [])
    ensures var s := StripBreaks(TrimPadding(text));
            |s| % 4 != 1 && (forall c :: c in s ==> c in ALPHABET) ==>
              OctetBits(raw) <= SextetBits(s) && 0 <= 6 * |s| - 8 * |raw| < 6
    ensures forall octets :: Spells(text, octets) ==> raw == octets
  {
    var s := TrimPadding(text);
    match |s| % 4 {
      case 2 => s := s + "==";
      case 3 => s := s + "=";
      case _ =>
    }
    Base64UrlDecodeMeans(text);
    LeadingBits(text);
    var first := Decode(StripBreaks(s), true);
    if first.Some? { return first.value; }
    var second := Decode(StripBreaks(TrimPadding(s)), false);
    if second.Some? { return second.value; }
    raw := [];
  }

  lemma Base64UrlDecodeMeans(text: string)
    ensures var s := StripBreaks(TrimPadding(text));
            && ('=' !in s ==> Decoded(text) == OrNothing(Decode(s, false)))
            && (Malformed(s) ==> Decoded(text) == [])
    ensures forall octets :: Spells(text, octets) ==> Decoded(text) == octets
  {
    var s := StripBreaks(TrimPadding(text));
    if '=' !in s { DecodedIsRaw(text); }
    if Malformed(s) { MalformedIsNothing(text); }
    forall octets | Spells(text, octets) ensures Decoded(text) == octets { DecodedOfEncoded(text, octets); }
  }

  // ---------- Bits ----------

  function Pow2(n: nat): (p: nat)
    ensures p >= 1
  {
    if n == 0 then 1 else 2 * Pow2(n - 1)
  }

  /** The low n bits of v, the most significant first. */
  function Bits(v: nat, n: nat): (bits: seq<bool>)
    ensures |bits| == n
  {
    if n == 0 then [] else Bits(v / 2, n - 1) + [v % 2 == 1]
  }

  /** Six bits a character: its position in the alphabet. */
  function SextetBits(s: string): (bits: seq<bool>)
    ensures |bits| == 6 * |s|
  {
    if s == [] then [] else Bits(Decode6(s[0]), 6) + SextetBits(s[1..])
  }

  function OctetBits(octets: seq<Byte>): (bits: seq<bool>)
    ensures |bits| == 8 * |octets|
  {
    if octets == [] then [] else Bits(octets[0] as int, 8) + OctetBits(octets[1..])
  }

  lemma {:induction false} BitsJoin(a: nat, m: nat, b: nat, n: nat)
    requires b < Pow2(n)
    ensures Bits(a * Pow2(n) + b, m + n) == Bits(a, m) + Bits(b, n)
  {
    if n > 0 {
      var v, half := a * Pow2(n) + b, a * Pow2(n - 1);
      assert a * Pow2(n) == 2 * half;
      assert v / 2 == half + b / 2 && v % 2 == b % 2;
      BitsJoin(a, m, b / 2, n - 1);
      assert Bits(v, m + n) == (Bits(a, m) + Bits(b / 2, n - 1)) + [b % 2 == 1];
    }
  }

  lemma SextetJoin(a: nat, m: nat, b: nat)
    requires b < 64
    ensures Bits(a * 64 + b, m + 6) == Bits(a, m) + Bits(b, 6)
  {
    assert Pow2(1) == 2 && Pow2(2) == 4 && Pow2(3) == 8 && Pow2(4) == 16 && Pow2(5) == 32 && Pow2(6) == 64;
    BitsJoin(a, m, b, 6);
  }

  lemma OctetJoin(a: nat, m: nat, b: Byte)
    ensures Bits(a * 256 + b as int, m + 8) == Bits(a, m) + Bits(b as int, 8)
  {
    assert Pow2(1) == 2 && Pow2(2) == 4 && Pow2(3) == 8 && Pow2(4) == 16 && Pow2(5) == 32 && Pow2(6) == 64;
    assert Pow2(7) == 128 && Pow2(8) == 256;
    BitsJoin(a, m, b as int, 8);
  }

  lemma FourSextets(w: nat, x: nat, y: nat, z: nat, n: nat)
    requires x < 64 && y < 64 && z < 64
    ensures Bits(((w * 64 + x) * 64 + y) * 64 + z, n + 18) == Bits(w, n) + Bits(x, 6) + Bits(y, 6) + Bits(z, 6)
  {
    SextetJoin(w, n, x);
    SextetJoin(w * 64 + x, n + 6, y);
    SextetJoin((w * 64 + x) * 64 + y, n + 12, z);
  }

  lemma ThreeOctets(a: nat, b: Byte, c: Byte, n: nat)
    ensures Bits((a * 256 + b as int) * 256 + c as int, n + 16) == Bits(a, n) + Bits(b as int, 8) + Bits(c as int, 8)
  {
    OctetJoin(a, n, b);
    OctetJoin(a * 256 + b as int, n + 8, c);
  }

  lemma SextetsOfFour(s: string)
    requires |s| == 4
    ensures SextetBits(s)
            == Bits(Decode6(s[0]), 6) + Bits(Decode6(s[1]), 6) + Bits(Decode6(s[2]), 6) + Bits(Decode6(s[3]), 6)
  {
    var a, b, c, d := Bits(Decode6(s[0]), 6), Bits(Decode6(s[1]), 6), Bits(Decode6(s[2]), 6), Bits(Decode6(s[3]), 6);
    assert s[1..][1..] == s[2..] && s[2..][1..] == s[3..];
    assert SextetBits(s[3..]) == d;
    assert SextetBits(s[2..]) == c + d;
    assert SextetBits(s[1..]) == b + (c + d);
    assert a + (b + (c + d)) == a + b + c + d;
  }

  lemma OctetsOfThree(octets: seq<Byte>)
    requires |octets| == 3
    ensures OctetBits(octets)
            == Bits(octets[0] as int, 8) + Bits(octets[1] as int, 8) + Bits(octets[2] as int, 8)
  {
    var a, b, c := Bits(octets[0] as int, 8), Bits(octets[1] as int, 8), Bits(octets[2] as int, 8);
    assert octets[1..][1..] == octets[2..];
    assert OctetBits(octets[2..]) == c;
    assert OctetBits(octets[1..]) == b + c;
    assert a + (b + c) == a + b + c;
  }

  /** Four characters and three octets hold the same bits. */
  lemma QuantumBits(s: string)
    requires |s| == 4 && Quantum(s[0], s[1], s[2], s[3]).Some?
    ensures var q := Quantum(s[0], s[1], s[2], s[3]).value;
            0 <= q < 0x100_0000 && SextetBits(s) == OctetBits(Octets3(q))
  {
    QuantumBounded(s[0], s[1], s[2], s[3]);
    var w, x, y, z := Decode6(s[0]), Decode6(s[1]), Decode6(s[2]), Decode6(s[3]);
    var q := Quantum(s[0], s[1], s[2], s[3]).value;
    assert q == ((w * 64 + x) * 64 + y) * 64 + z;
    FourSextets(w, x, y, z, 6);
    SextetsOfFour(s);
    Octets3Bits(q);
  }

  lemma Octets3Bits(v: int)
    requires 0 <= v < 0x100_0000
    ensures OctetBits(Octets3(v)) == Bits(v, 6 + 18)
  {
    var o := Octets3(v);
    Octets3Join(v);
    ThreeOctets(o[0] as int, o[1], o[2], 8);
    OctetsOfThree(o);
  }

  lemma Octets3Join(v: int)
    requires 0 <= v < 0x100_0000
    ensures var o := Octets3(v); (o[0] as int * 256 + o[1] as int) * 256 + o[2] as int == v
  {
    assert v / 65536 == v / 256 / 256;
  }

  lemma {:induction false} SextetsAppend(s: string, t: string)
    ensures SextetBits(s + t) == SextetBits(s) + SextetBits(t)
  {
    if s == [] {
      assert s + t == t;
    } else {
      assert (s + t)[0] == s[0] && (s + t)[1..] == s[1..] + t;
      SextetsAppend(s[1..], t);
    }
  }

  lemma {:induction false} OctetsAppend(a: seq<Byte>, b: seq<Byte>)
    ensures OctetBits(a + b) == OctetBits(a) + OctetBits(b)
  {
    if a == [] {
      assert a + b == b;
    } else {
      assert (a + b)[0] == a[0] && (a + b)[1..] == a[1..] + b;
      OctetsAppend(a[1..], b);
    }
  }

  lemma TailBits(s: string)
    requires (|s| == 2 || |s| == 3) && Tail(s).Some?
    ensures |Tail(s).value| == |s| - 1 && OctetBits(Tail(s).value) <= SextetBits(s)
  {
    var whole := [s[0], s[1], if |s| == 3 then s[2] else 'A', 'A'];
    QuantumBits(whole);
    var octets := Octets3(Quantum(whole[0], whole[1], whole[2], whole[3]).value);
    assert whole == s + whole[|s|..];
    SextetsAppend(s, whole[|s|..]);
    assert octets == octets[..|s| - 1] + octets[|s| - 1..];
    OctetsAppend(octets[..|s| - 1], octets[|s| - 1..]);
    PrefixOfSame(OctetBits(octets[..|s| - 1]), SextetBits(s), SextetBits(whole));
  }

  lemma PrefixOfSame(a: seq<bool>, b: seq<bool>, whole: seq<bool>)
    requires a <= whole && b <= whole && |a| <= |b|
    ensures a <= b
  {
  }

  /** Raw decoding by section 4 of RFC 4648: the octets are the leading bits of
      the characters, and fewer than six bits are left over. */
  lemma {:induction false} DecodedBits(s: string)
    requires Decode(s, false).Some?
    ensures var octets := Decode(s, false).value;
            OctetBits(octets) <= SextetBits(s) && 0 <= 6 * |s| - 8 * |octets| < 6
    decreases |s|
  {
    if 2 <= |s| < 4 {
      TailBits(s);
    } else if |s| >= 4 {
      DecodedBits(s[4..]);
      QuantumBits(s[..4]);
      var q, rest := Quantum(s[0], s[1], s[2], s[3]).value, Decode(s[4..], false).value;
      assert s == s[..4] + s[4..];
      SextetsAppend(s[..4], s[4..]);
      OctetsAppend(Octets3(q), rest);
    }
  }

  /** What the padded decoder yields: the raw one's octets, for whole quanta
      with at most two padding characters at the end. */
  function Unpadded(s: string): Option<seq<Byte>> {
    var t := TrimPadding(s);
    if |s| % 4 == 0 && |s| - |t| <= 2 then Decode(t, false) else None
  }

  /** Sound text decodes to its leading bits. */
  lemma LeadingBits(text: string)
    ensures var s := StripBreaks(TrimPadding(text));
            |s| % 4 != 1 && (forall c :: c in s ==> c in ALPHABET) ==>
              OctetBits(Decoded(text)) <= SextetBits(s) && 0 <= 6 * |s| - 8 * |Decoded(text)| < 6
  {
    var s := StripBreaks(TrimPadding(text));
    if |s| % 4 != 1 && forall c :: c in s ==> c in ALPHABET {
      forall i | 0 <= i < |s| ensures Decode6(s[i]) < 64 && s[i] != '=' {
        AlphabetIs(s[i]);
      }
      DecodableIs(s);
      DecodedBits(s);
      DecodedIsRaw(text);
    }
  }

  /** The padded decoder is the raw one on whole quanta with at most two padding characters at the end. */
  lemma {:induction false} PaddedIs(s: string)
    ensures Decode(s, true) == Unpadded(s)
    decreases |s|
  {
    if |s| == 4 {
      PaddedQuantum(s);
    } else if |s| > 4 {
      PaddedIs(s[4..]);
      DecodeBehind(s[..4], s[4..], true);
      UnpaddedBehind(s[..4], s[4..]);
      assert s == s[..4] + s[4..];
    } else if s != [] {
      assert |s| % 4 != 0;
    }
  }

  /** The octets of a quantum in front of the rest's. */
  function Joined(head: string, rest: Option<seq<Byte>>): Option<seq<Byte>>
    requires |head| == 4
  {
    var q := Quantum(head[0], head[1], head[2], head[3]);
    QuantumBounded(head[0], head[1], head[2], head[3]);
    if q.None? || rest.None? then None else Some(Octets3(q.value) + rest.value)
  }

  lemma DecodeBehind(head: string, rest: string, padded: bool)
    requires |head| == 4 && rest != []
    ensures Decode(head + rest, padded) == Joined(head, Decode(rest, padded))
  {
    assert (head + rest)[4..] == rest;
  }

  lemma UnpaddedBehind(head: string, rest: string)
    requires |head| == 4 && rest != []
    ensures Unpadded(head + rest) == Joined(head, Unpadded(rest))
  {
    TrimBehind(head, rest);
    if TrimPadding(rest) == [] {
      TrimmedEnd(head);
      assert |rest| % 4 == 0 ==> |rest| >= 4;
      assert |head + rest| % 4 == |rest| % 4;
    } else {
      DecodeBehind(head, TrimPadding(rest), false);
      assert |head + rest| % 4 == |rest| % 4;
    }
  }

  lemma PaddedQuantum(s: string)
    requires |s| == 4
    ensures Decode(s, true) == Unpadded(s)
  {
    TrimmedEnd(s);
    var t := TrimPadding(s);
    assert t == s[..|t|];
    if |t| == 4 {
      assert Decode(s[4..], true) == Some([]) && Decode(s[4..], false) == Some([]);
    } else if |t| == 3 {
      assert s[3] == '=' && s[2] != '=';
    } else {
      assert s[2] == '=' && s[3] == '=';
    }
  }

  lemma {:induction false} TrimBehind(head: string, rest: string)
    ensures TrimPadding(rest) != [] ==> TrimPadding(head + rest) == head + TrimPadding(rest)
    ensures TrimPadding(rest) == [] ==> TrimPadding(head + rest) == TrimPadding(head)
    decreases |rest|
  {
    if rest == [] {
      assert head + rest == head;
    } else if rest[|rest| - 1] == '=' {
      assert (head + rest)[..|head + rest| - 1] == head + rest[..|rest| - 1];
      TrimBehind(head, rest[..|rest| - 1]);
    }
  }

  /** With padding inside, nothing but the padded decoder can help. */
  lemma DecodedWithPaddingInside(text: string)
    requires '=' in StripBreaks(TrimPadding(text))
    ensures var t := TrimPadding(text);
            var padded := StripBreaks(t) + if |t| % 4 == 2 then "==" else if |t| % 4 == 3 then "=" else "";
            Decoded(text) == OrNothing(Unpadded(padded))
  {
    var t := TrimPadding(text);
    var pad := if |t| % 4 == 2 then "==" else if |t| % 4 == 3 then "=" else "";
    assert Repad(t) == t + pad;
    StripAppends(t, pad);
    StripPlain(pad);
    TrimmedEnd(text);
    TrimPlain(t, pad);
    PaddedIs(StripBreaks(t) + pad);
    var s := StripBreaks(t);
    var k :| 0 <= k < |s| && s[k] == '=';
    assert Decode6(s[k]) == 64;
    DecodableIs(s);
  }

  // ---------- Numbers ----------

  /** The number big-endian octets denote; big.Int.SetBytes. */
  function BigEndian(octets: seq<Byte>): nat {
    if octets == [] then 0 else 256 * BigEndian(octets[..|octets| - 1]) + octets[|octets| - 1] as int
  }

  /** Their bits are the number's, the most significant first. */
  lemma {:induction false} BigEndianBits(octets: seq<Byte>)
    ensures Bits(BigEndian(octets), 8 * |octets|) == OctetBits(octets)
    ensures BigEndian(octets) < Pow2(8 * |octets|)
    decreases |octets|
  {
    if octets != [] {
      var k := |octets| - 1;
      var front, last := octets[..k], octets[k];
      BigEndianBits(front);
      OctetJoin(BigEndian(front), 8 * k, last);
      assert octets == front + [last];
      OctetsAppend(front, [last]);
      assert OctetBits([last]) == Bits(last as int, 8);
      Pow2Of8More(8 * k);
    }
  }

  lemma Pow2Of8More(n: nat)
    ensures Pow2(n + 8) == 256 * Pow2(n)
  {
    assert Pow2(n + 2) == 4 * Pow2(n) && Pow2(n + 4) == 16 * Pow2(n) && Pow2(n + 6) == 64 * Pow2(n);
  }

  /** The least octets denoting n, one zero octet for zero: Base64urlUInt of section 2 of RFC 7518. */
  function UIntOctets(n: nat): (octets: seq<Byte>)
    ensures octets != [] && (octets[0] == 0 ==> n == 0 && |octets| == 1)
  {
    if n < 256 then [n as Byte] else UIntOctets(n / 256) + [(n % 256) as Byte]
  }

  lemma {:induction false} BigEndianOfUInt(n: nat)
    ensures BigEndian(UIntOctets(n)) == n
  {
    if n >= 256 {
      BigEndianOfUInt(n / 256);
      assert UIntOctets(n)[..|UIntOctets(n)| - 1] == UIntOctets(n / 256);
    } else {
      assert UIntOctets(n)[..0] == [];
    }
  }

  const TWO63 := 0x8000_0000_0000_0000
  const TWO64 := 0x1_0000_0000_0000_0000

  /** The value of a 64-bit int register holding x's low 64 bits. */
  function Int64(x: int): (r: int)
    ensures -TWO63 <= r < TWO63
  {
    var low := x % TWO64;
    if low < TWO63 then low else low - TWO64
  }

  /** One turn of the loop, e<<8 | int(b), on a 64-bit int: the shift drops
      the high bits and leaves the low eight clear for b. */
  function ShiftOr(e: int, b: Byte): int { Int64(e * 256) + b as int }

  lemma ShiftOrIsExact(value: int, b: Byte)
    ensures ShiftOr(Int64(value), b) == Int64(256 * value + b as int)
  {
    var k := Wraps(value);
    var e := Int64(value);
    var m := Wraps(256 * e);
    var high := e - m * 0x100_0000_0000_0000;
    assert Int64(256 * e) == 256 * high;
    Int64Unique(256 * high + b as int, 256 * k + m);
  }

  /** How often x wraps around in the register. */
  lemma Wraps(x: int) returns (k: int)
    ensures x == Int64(x) + k * TWO64
  {
    k := x / TWO64;
    if x % TWO64 >= TWO63 { k := k + 1; }
  }

  lemma Int64Unique(r: int, k: int)
    requires -TWO63 <= r < TWO63
    ensures Int64(r + k * TWO64) == r
  {
    var x := r + k * TWO64;
    var m := Wraps(x);
    assert Int64(x) - r == (k - m) * TWO64;
  }

  datatype PublicKey = PublicKey(n: nat, e: int)

  /** What parseRSAJWK yields: nothing if a field is missing, else the two numbers the texts denote, the exponent on 64
      bits. */
  function Parsed(n: string, e: string): Option<PublicKey> {
    if n == "" || e == "" then None else Some(PublicKey(BigEndian(Decoded(n)), Int64(BigEndian(Decoded(e)))))
  }

  method ParseRsaJwk(n: string, e: string) returns (key: Option<PublicKey>)
    ensures key == Parsed(n, e)
    ensures key.None? <==> n == "" || e == ""
    ensures key.Some? ==>
            key.value.n == BigEndian(Decoded(n)) && -0x8000_0000_0000_0000 <= key.value.e < 0x8000_0000_0000_0000
    ensures key.Some? ==> exists k :: BigEndian(Decoded(e)) == key.value.e + k * 0x1_0000_0000_0000_0000
  {
    if n == "" || e == "" { return None; }
    var nBytes := Base64UrlDecode(n);
    var eBytes := Base64UrlDecode(e);
    var value := Exponent(eBytes);
    var _ := Wraps(BigEndian(eBytes));
    key := Some(PublicKey(BigEndian(nBytes), value));
  }

  /** The exponent's loop. */
  method Exponent(octets: seq<Byte>) returns (value: int)
    ensures value == Int64(BigEndian(octets))
  {
    value := 0;
    for i := 0 to |octets|
      invariant value == Int64(BigEndian(octets[..i]))
    {
      ShiftOrIsExact(BigEndian(octets[..i]), octets[i]);
      assert octets[..i + 1][..i] == octets[..i];
      value := ShiftOr(value, octets[i]);
    }
    assert octets[..|octets|] == octets;
  }

  /** Empty text spells no octets. */
  lemma SpelledText(text: string, octets: seq<Byte>)
    requires Spells(text, octets) && octets != []
    ensures text != ""
  {
  }

  /** A modulus and an exponent written as section 6.3.1 of RFC 7518 asks,
      padded or not and broken into lines or not, are read back: the modulus
      always, the exponent exactly when it fits a 64-bit int. */
  lemma JwkRoundTrip(n: nat, e: nat, nText: string, eText: string)
    ensures Spells(nText, UIntOctets(n)) && Spells(eText, UIntOctets(e)) ==>
              var key := Parsed(nText, eText);
              key.Some? && key.value.n == n && (key.value.e == e <==> e < TWO63)
  {
    if Spells(nText, UIntOctets(n)) && Spells(eText, UIntOctets(e)) {
      DecodedOfEncoded(nText, UIntOctets(n));
      DecodedOfEncoded(eText, UIntOctets(e));
      SpelledText(nText, UIntOctets(n));
      SpelledText(eText, UIntOctets(e));
      BigEndianOfUInt(n);
      BigEndianOfUInt(e);
      ExponentExact(UIntOctets(e));
    }
  }

  /** For arbitrary octets the loop's result is the denoted number exactly below 2^63. */
  lemma ExponentExact(octets: seq<Byte>)
    ensures Int64(BigEndian(octets)) == BigEndian(octets) <==> BigEndian(octets) < TWO63
  {
  }
}

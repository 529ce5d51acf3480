/** The transported proof pack: a text over the URL-safe alphabet is taken only if decoding it
    and encoding the bytes again gives the same text (sections 3.5 and 5 of RFC 4648). */
module ProofPack {
  import opened Prelude

  type Byte = x: nat | x < 256
  type Sextet = x: nat | x < 64

  const MAX_TRANSPORT := 60_000
  const MAX_EXPANDED := 65_536

  function ToChar(x: Sextet): char {
    if x < 26 then 'A' + x as char
    else if x < 52 then 'a' + (x - 26) as char
    else if x < 62 then '0' + (x - 52) as char
    else if x == 62 then '-' else '_'
  }

  function FromChar(c: char): Option<Sextet> {
    if 'A' <= c <= 'Z' then Some((c - 'A') as nat)
    else if 'a' <= c <= 'z' then Some((c - 'a') as nat + 26)
    else if '0' <= c <= '9' then Some((c - '0') as nat + 52)
    else if c == '-' then Some(62) else if c == '_' then Some(63) else None
  }

  lemma CharRoundTrip(x: Sextet, c: char)
    ensures FromChar(ToChar(x)) == Some(x)
    ensures FromChar(c).Some? ==> ToChar(FromChar(c).value) == c
  {
  }

  /** The bytes as groups of six bits, without padding. */
  function Split(b: seq<Byte>): seq<Sextet>
    decreases |b|
  {
    if |b| == 0 then []
    else if |b| == 1 then [b[0] / 4, (b[0] % 4) * 16]
    else if |b| == 2 then [b[0] / 4, (b[0] % 4) * 16 + b[1] / 16, (b[1] % 16) * 4]
    else [b[0] / 4, (b[0] % 4) * 16 + b[1] / 16, (b[1] % 16) * 4 + b[2] / 64, b[2] % 64] + Split(b[3..])
  }

  function FirstByte(x: Sextet, y: Sextet): Byte {
    var a: nat, b: nat := x, y;
    a * 4 + b / 16
  }

  function SecondByte(y: Sextet, z: Sextet): Byte {
    var b: nat, c: nat := y, z;
    (b % 16) * 16 + c / 4
  }

  function ThirdByte(z: Sextet, w: Sextet): Byte {
    var c: nat, d: nat := z, w;
    (c % 4) * 64 + d
  }

  /** The decoder's reading: left-over bits and a dangling group are dropped. */
  function Join(s: seq<Sextet>): seq<Byte>
    decreases |s|
  {
    if |s| < 2 then []
    else if |s| == 2 then [FirstByte(s[0], s[1])]
    else if |s| == 3 then [FirstByte(s[0], s[1]), SecondByte(s[1], s[2])]
    else [FirstByte(s[0], s[1]), SecondByte(s[1], s[2]), ThirdByte(s[2], s[3])] + Join(s[4..])
  }

  predicate InAlphabet(text: string) {
    forall i | 0 <= i < |text| :: FromChar(text[i]).Some?
  }

  function Sextets(text: string): (s: seq<Sextet>)
    requires InAlphabet(text)
    ensures |s| == |text|
  {
    seq(|text|, i requires 0 <= i < |text| => FromChar(text[i]).value)
  }

  function Text(s: seq<Sextet>): (t: string)
    ensures |t| == |s|
  {
    seq(|s|, i requires 0 <= i < |s| => ToChar(s[i]))
  }

  function Encode(b: seq<Byte>): string {
    Text(Split(b))
  }

  function Decode(text: string): seq<Byte>
    requires InAlphabet(text)
  {
    Join(Sextets(text))
  }

  lemma TextRoundTrip(s: seq<Sextet>)
    ensures InAlphabet(Text(s)) && Sextets(Text(s)) == s
  {
    forall i | 0 <= i < |s| ensures FromChar(Text(s)[i]) == Some(s[i]) {
      CharRoundTrip(s[i], 'A');
    }
  }

  lemma SextetsRoundTrip(text: string)
    requires InAlphabet(text)
    ensures Text(Sextets(text)) == text
  {
    forall i | 0 <= i < |text| ensures Text(Sextets(text))[i] == text[i] {
      CharRoundTrip(0, text[i]);
    }
  }

  lemma BytesReturn(a: Byte, b: Byte, c: Byte)
    ensures FirstByte(a / 4, (a % 4) * 16 + b / 16) == a && FirstByte(a / 4, (a % 4) * 16) == a
    ensures SecondByte((a % 4) * 16 + b / 16, (b % 16) * 4 + c / 64) == b
    ensures SecondByte((a % 4) * 16 + b / 16, (b % 16) * 4) == b
    ensures ThirdByte((b % 16) * 4 + c / 64, c % 64) == c
  {
  }

  lemma JoinGroup(g: seq<Sextet>, more: seq<Sextet>)
    requires |g| == 4
    ensures Join(g + more) == [FirstByte(g[0], g[1]), SecondByte(g[1], g[2]), ThirdByte(g[2], g[3])] + Join(more)
  {
    assert (g + more)[4..] == more;
  }

  lemma {:induction false} JoinSplit(b: seq<Byte>)
    ensures Join(Split(b)) == b
    decreases |b|
  {
    if |b| == 1 {
      BytesReturn(b[0], 0, 0);
    } else if |b| == 2 {
      BytesReturn(b[0], b[1], 0);
    } else if |b| >= 3 {
      BytesReturn(b[0], b[1], b[2]);
      JoinGroup([b[0] / 4, (b[0] % 4) * 16 + b[1] / 16, (b[1] % 16) * 4 + b[2] / 64, b[2] % 64], Split(b[3..]));
      JoinSplit(b[3..]);
    }
  }

  /** Encoding loses nothing. */
  lemma DecodeEncode(b: seq<Byte>)
    ensures InAlphabet(Encode(b)) && Decode(Encode(b)) == b
  {
    TextRoundTrip(Split(b));
    JoinSplit(b);
  }

  /** No dangling group, and no bits beyond the last byte. */
  predicate Clean(s: seq<Sextet>) {
    && |s| % 4 != 1
    && (|s| % 4 == 2 ==> s[|s| - 1] % 16 == 0)
    && (|s| % 4 == 3 ==> s[|s| - 1] % 4 == 0)
  }

  lemma LastSextetIff(x: Sextet, y: Sextet, z: Sextet)
    ensures FirstByte(x, y) / 4 == x && ((FirstByte(x, y) % 4) * 16 == y <==> y % 16 == 0)
    ensures (FirstByte(x, y) % 4) * 16 + SecondByte(y, z) / 16 == y
    ensures (SecondByte(y, z) % 16) * 4 == z <==> z % 4 == 0
  {
  }

  lemma TwoSextets(s: seq<Sextet>, b: Byte)
    requires |s| == 2 && b == FirstByte(s[0], s[1])
    ensures Split([b]) == s <==> s[1] % 16 == 0
  {
    LastSextetIff(s[0], s[1], 0);
    var t := Split([b]);
    assert |t| == 2 && t[0] == b / 4 && t[1] == (b % 4) * 16;
    assert t == s <==> t[0] == s[0] && t[1] == s[1];
  }

  lemma ThreeSextets(s: seq<Sextet>, b: Byte, c: Byte)
    requires |s| == 3 && b == FirstByte(s[0], s[1]) && c == SecondByte(s[1], s[2])
    ensures Split([b, c]) == s <==> s[2] % 4 == 0
  {
    LastSextetIff(s[0], s[1], s[2]);
    var t := Split([b, c]);
    assert |t| == 3 && t[0] == b / 4 && t[1] == (b % 4) * 16 + c / 16 && t[2] == (c % 16) * 4;
    assert t == s <==> t[0] == s[0] && t[1] == s[1] && t[2] == s[2];
  }

  lemma ShortClean(s: seq<Sextet>)
    requires |s| < 4
    ensures Clean(s) <==> |s| == 0 || (|s| == 2 && s[1] % 16 == 0) || (|s| == 3 && s[2] % 4 == 0)
  {
  }

  lemma ShortSplitJoinIff(s: seq<Sextet>)
    requires |s| < 4
    ensures Split(Join(s)) == s <==> Clean(s)
  {
    ShortClean(s);
    if |s| == 2 {
      var b := FirstByte(s[0], s[1]);
      assert Join(s) == [b];
      TwoSextets(s, b);
    } else if |s| == 3 {
      var b, c := FirstByte(s[0], s[1]), SecondByte(s[1], s[2]);
      assert Join(s) == [b, c];
      ThreeSextets(s, b, c);
    } else {
      assert Split([]) == [];
    }
  }

  lemma BitsReturn(x: Sextet, y: Sextet, z: Sextet, w: Sextet)
    ensures FirstByte(x, y) / 4 == x
    ensures (FirstByte(x, y) % 4) * 16 + SecondByte(y, z) / 16 == y
    ensures (SecondByte(y, z) % 16) * 4 + ThirdByte(z, w) / 64 == z
    ensures ThirdByte(z, w) % 64 == w
  {
  }

  lemma SplitGroup(a: Byte, b: Byte, c: Byte, g: seq<Sextet>, more: seq<Byte>)
    requires |g| == 4 && a / 4 == g[0] && (a % 4) * 16 + b / 16 == g[1]
    requires (b % 16) * 4 + c / 64 == g[2] && c % 64 == g[3]
    ensures Split([a, b, c] + more) == g + Split(more)
  {
    assert ([a, b, c] + more)[3..] == more;
  }

  lemma GroupRoundTrip(s: seq<Sextet>)
    requires |s| >= 4
    ensures Split(Join(s)) == s[..4] + Split(Join(s[4..]))
  {
    var a, b, c := FirstByte(s[0], s[1]), SecondByte(s[1], s[2]), ThirdByte(s[2], s[3]);
    assert Join(s) == [a, b, c] + Join(s[4..]);
    BitsReturn(s[0], s[1], s[2], s[3]);
    SplitGroup(a, b, c, s[..4], Join(s[4..]));
  }

  lemma CleanTail(s: seq<Sextet>)
    requires |s| >= 4
    ensures Clean(s) <==> Clean(s[4..])
  {
  }

  lemma SameTail(s: seq<Sextet>, t: seq<Sextet>)
    requires |s| >= 4
    ensures s[..4] + t == s <==> t == s[4..]
  {
    assert s == s[..4] + s[4..];
    if s[..4] + t == s {
      assert t == (s[..4] + t)[4..] == s[4..];
    }
  }

  lemma {:induction false} SplitJoinIff(s: seq<Sextet>)
    ensures Split(Join(s)) == s <==> Clean(s)
    decreases |s|
  {
    if |s| < 4 {
      ShortSplitJoinIff(s);
    } else {
      SplitJoinIff(s[4..]);
      GroupRoundTrip(s);
      CleanTail(s);
      SameTail(s, Split(Join(s[4..])));
    }
  }

  predicate Accepted(text: string) {
    1 <= |text| <= MAX_TRANSPORT && InAlphabet(text) && Encode(Decode(text)) == text
  }

  /** The check accepts a text exactly when it is the unpadded encoding of some bytes, and that
      is exactly when it has no dangling character and its unused trailing bits are zero. */
  lemma AcceptedIffCanonical(text: string)
    requires 1 <= |text| <= MAX_TRANSPORT && InAlphabet(text)
    ensures Accepted(text) <==> exists b: seq<Byte> :: Encode(b) == text
    ensures Accepted(text) <==> Clean(Sextets(text))
  {
    var s := Sextets(text);
    SextetsRoundTrip(text);
    SplitJoinIff(s);
    if Accepted(text) {
      assert Encode(Decode(text)) == text;
      TextRoundTrip(Split(Join(s)));
      TextRoundTrip(s);
    }
    if b: seq<Byte> :| Encode(b) == text {
      DecodeEncode(b);
    }
  }

  lemma {:induction false} JoinLength(s: seq<Sextet>)
    ensures |Join(s)| == |s| * 3 / 4
    decreases |s|
  {
    if |s| >= 4 {
      JoinLength(s[4..]);
    }
  }

  datatype Encoding = Raw | Compressed

  datatype Failure = EncodingInvalid | RootInvalid

  const MAGIC: seq<Byte> := [80, 65, 67, 75]

  /** Reading bytes as ASCII drops the high bit of each. */
  function Ascii(b: Byte): Byte {
    b % 128
  }

  predicate IsPack(b: seq<Byte>) {
    |b| >= 4 && Ascii(b[0]) == MAGIC[0] && Ascii(b[1]) == MAGIC[1] && Ascii(b[2]) == MAGIC[2] && Ascii(b[3]) == MAGIC[3]
  }

  /** So a pack is taken for one exactly when each of its first four bytes is the magic one or that
      byte with its high bit set. */
  lemma PackIff(b: seq<Byte>)
    ensures IsPack(b) <==> |b| >= 4 && forall i | 0 <= i < 4 :: b[i] == MAGIC[i] || b[i] == MAGIC[i] + 128
    ensures IsPack([0xD0, 0xC1, 0xC3, 0xCB])
  {
    if |b| >= 4 && forall i | 0 <= i < 4 :: b[i] == MAGIC[i] || b[i] == MAGIC[i] + 128 {
      assert b[0] in {80, 208} && b[1] in {65, 193} && b[2] in {67, 195} && b[3] in {75, 203};
    }
  }

  /** Decompression gives nothing when it fails or its output would pass the limit; hashing is
      an uninterpreted function. */
  function DecodePack(text: string, expected: nat, expand: seq<Byte> -> Option<seq<Byte>>, hash: seq<Byte> -> nat)
    : Result<(seq<Byte>, Encoding), Failure>
  {
    if !Accepted(text) then Err(EncodingInvalid) else
    var transported := Decode(text);
    var raw := IsPack(transported);
    var bytes := if raw then Some(transported) else expand(transported);
    if bytes.None? then Err(EncodingInvalid)
    else if |bytes.value| < 12 || |bytes.value| > MAX_EXPANDED || !IsPack(bytes.value) || hash(bytes.value) != expected then
      Err(RootInvalid)
    else Ok((bytes.value, if raw then Raw else Compressed))
  }

  /** The transport limit alone keeps a raw pack under the expanded limit, so a raw pack is
      refused only for being shorter than its header or for its hash. */
  lemma RawPackIsNeverTooLarge(text: string, expected: nat, expand: seq<Byte> -> Option<seq<Byte>>,
                               hash: seq<Byte> -> nat)
    requires Accepted(text) && IsPack(Decode(text))
    ensures |Decode(text)| <= 45_000 < MAX_EXPANDED
    ensures DecodePack(text, expected, expand, hash).Ok? <==>
              |Decode(text)| >= 12 && hash(Decode(text)) == expected
  {
    JoinLength(Sextets(text));
  }

  /** Two different texts never stand for the same raw pack. */
  lemma OneTextPerRawPack(text: string, other: string, expected: nat, expand: seq<Byte> -> Option<seq<Byte>>,
                          hash: seq<Byte> -> nat, bytes: seq<Byte>)
    requires DecodePack(text, expected, expand, hash) == Ok((bytes, Raw))
    requires DecodePack(other, expected, expand, hash) == Ok((bytes, Raw))
    ensures text == other == Encode(bytes)
  {
  }

  /** The first four bytes, but for their high bits, are the magic ones. */
  predicate StartsAsPack(b: seq<Byte>) {
    |b| >= 4 && forall i | 0 <= i < 4 :: b[i] == MAGIC[i] || b[i] == MAGIC[i] + 128
  }

  /** A text is accepted exactly when it is the canonical encoding of bytes that are the expected pack, or
      that expand to it: at least a header long, no longer than the limit, starting as a pack, and with
      the expected hash. It is told apart whether the text itself or only what it expands to is wrong. */
  lemma PackAcceptedIff(text: string, expected: nat, expand: seq<Byte> -> Option<seq<Byte>>, hash: seq<Byte> -> nat,
                        sent: seq<Byte>, bytes: seq<Byte>)
    requires 1 <= |text| <= MAX_TRANSPORT && InAlphabet(text) && Encode(sent) == text
    requires if StartsAsPack(sent) then bytes == sent else expand(sent) == Some(bytes)
    ensures var r := DecodePack(text, expected, expand, hash);
            if 12 <= |bytes| <= MAX_EXPANDED && StartsAsPack(bytes) && hash(bytes) == expected
            then r == Ok((bytes, if StartsAsPack(sent) then Raw else Compressed))
            else r == Err(RootInvalid)
  {
    AcceptedIffCanonical(text);
    DecodeEncode(sent);
    PackIff(sent);
    PackIff(bytes);
  }

  lemma PackRefusedIff(text: string, expected: nat, expand: seq<Byte> -> Option<seq<Byte>>, hash: seq<Byte> -> nat)
    ensures DecodePack(text, expected, expand, hash) == Err(EncodingInvalid) <==>
              !(1 <= |text| <= MAX_TRANSPORT) || !InAlphabet(text) || !(exists b: seq<Byte> :: Encode(b) == text)
              || (!StartsAsPack(Decode(text)) && expand(Decode(text)).None?)
  {
    if 1 <= |text| <= MAX_TRANSPORT && InAlphabet(text) {
      AcceptedIffCanonical(text);
      PackIff(Decode(text));
    }
  }
}

/** Canonical base64 (RFC 4648 sections 4 and 3.5) as the converters encode, check and decode it. */
module Base64 {
  import opened Common
  import opened Json

  predicate IsBase64Char(c: char) {
    'A' <= c <= 'Z' || 'a' <= c <= 'z' || '0' <= c <= '9' || c == '+' || c == '/'
  }

  type sextet = v: int | 0 <= v < 64

  /** `base64_value`. */
  function CharValue(c: char): (v: sextet)
    requires IsBase64Char(c)
  {
    if 'A' <= c <= 'Z' then c as int - 'A' as int
    else if 'a' <= c <= 'z' then c as int - 'a' as int + 26
    else if '0' <= c <= '9' then c as int - '0' as int + 52
    else if c == '+' then 62 else 63
  }

  /** `base64_chars`, inverse to `CharValue`. */
  function ValueChar(v: sextet): (c: char)
    ensures IsBase64Char(c) && CharValue(c) == v
  {
    if v < 26 then ('A' as int + v) as char
    else if v < 52 then ('a' as int + (v - 26)) as char
    else if v < 62 then ('0' as int + (v - 52)) as char
    else if v == 62 then '+' else '/'
  }

  /** `base64_decode_table`. */
  function DecodeTable(c: char): (v: int) {
    if IsBase64Char(c) then CharValue(c) else -1
  }

  lemma CharUnique(c: char)
    requires IsBase64Char(c)
    ensures ValueChar(CharValue(c)) == c
  {}

  // ---- Blocks ----

  /** Three octets as four groups of six bits. */
  function Sextets(x: byte, y: byte, z: byte): (q: (sextet, sextet, sextet, sextet)) {
    (x / 4, x % 4 * 16 + y / 16, y % 16 * 4 + z / 64, z % 64)
  }

  /** Four groups of six bits as three octets. */
  function Octets(a: sextet, b: sextet, c: sextet, d: sextet): (o: (byte, byte, byte)) {
    (a * 4 + b / 16, b % 16 * 16 + c / 4, c % 4 * 64 + d)
  }

  lemma Quotient(v: int, d: int, q: int, r: int)
    requires v == q * d + r && 0 <= r < d
    ensures v / d == q && v % d == r
  {
    assert (v / d - q) * d == r - v % d;
    if v / d != q { NoMultiple(v / d - q, d); }
  }

  lemma NoMultiple(k: int, d: int)
    requires k != 0 && d > 0
    ensures k * d >= d || k * d <= -d
  {}

  lemma OctetsOfSextets(x: byte, y: byte, z: byte)
    ensures var q := Sextets(x, y, z); Octets(q.0, q.1, q.2, q.3) == (x, y, z)
  {
    var b: int, c: int := x % 4 * 16 + y / 16, y % 16 * 4 + z / 64;
    Quotient(b, 16, x % 4, y / 16);
    Quotient(c, 4, y % 16, z / 64);
  }

  lemma SextetsOfOctets(a: sextet, b: sextet, c: sextet, d: sextet)
    ensures var o := Octets(a, b, c, d); Sextets(o.0, o.1, o.2) == (a, b, c, d)
  {
    var x: int, y: int, z: int := a * 4 + b / 16, b % 16 * 16 + c / 4, c % 4 * 64 + d;
    Quotient(x, 4, a, b / 16);
    Quotient(y, 16, b % 16, c / 4);
    Quotient(z, 64, c % 4, d);
  }

  /** The four characters for up to three octets; missing octets are zero and shown as padding. */
  function EncodeBlock(b: seq<byte>): (t: string)
    requires 1 <= |b| <= 3
    ensures |t| == 4
  {
    var q := Sextets(b[0], if |b| > 1 then b[1] else 0, if |b| > 2 then b[2] else 0);
    [ValueChar(q.0), ValueChar(q.1),
     if |b| > 1 then ValueChar(q.2) else '=', if |b| > 2 then ValueChar(q.3) else '=']
  }

  /** The number of padding characters at the end of a block. */
  function Padding(t: string): (p: nat)
    requires |t| == 4
    ensures p <= 2
  {
    if t[3] != '=' then 0 else if t[2] != '=' then 1 else 2
  }

  /** A block in canonical form: the bits that the padding leaves over are zero. */
  predicate CanonicalBlock(t: string) {
    && |t| == 4
    && (forall i :: 0 <= i < 4 - Padding(t) ==> IsBase64Char(t[i]))
    && (Padding(t) == 1 ==> CharValue(t[2]) % 4 == 0)
    && (Padding(t) == 2 ==> CharValue(t[1]) % 16 == 0)
  }

  function BlockOctets(t: string): (o: (byte, byte, byte))
    requires CanonicalBlock(t)
  {
    Octets(CharValue(t[0]), CharValue(t[1]),
           if Padding(t) < 2 then CharValue(t[2]) else 0, if Padding(t) < 1 then CharValue(t[3]) else 0)
  }

  function DecodeBlock(t: string): (b: seq<byte>)
    requires CanonicalBlock(t)
    ensures |b| == 3 - Padding(t)
  {
    var o := BlockOctets(t);
    [o.0, o.1, o.2][..3 - Padding(t)]
  }

  lemma BlockDecodes(b: seq<byte>)
    requires 1 <= |b| <= 3
    ensures CanonicalBlock(EncodeBlock(b)) && DecodeBlock(EncodeBlock(b)) == b
    ensures Padding(EncodeBlock(b)) == 3 - |b|
  {
    OctetsOfSextets(b[0], if |b| > 1 then b[1] else 0, if |b| > 2 then b[2] else 0);
  }

  lemma BlockEncodes(t: string)
    requires CanonicalBlock(t)
    ensures EncodeBlock(DecodeBlock(t)) == t
  {
    SextetsOfOctets(CharValue(t[0]), CharValue(t[1]),
                    if Padding(t) < 2 then CharValue(t[2]) else 0, if Padding(t) < 1 then CharValue(t[3]) else 0);
    forall i | 0 <= i < 4 - Padding(t) ensures ValueChar(CharValue(t[i])) == t[i] {
      CharUnique(t[i]);
    }
  }

  // ---- Whole texts ----

  /** The encoding, three octets at a time. */
  function Encode(b: seq<byte>): (t: string)
    ensures |t| == (|b| + 2) / 3 * 4
  {
    if |b| == 0 then [] else if |b| <= 3 then EncodeBlock(b)
    else
      assert (|b| + 2) / 3 == (|b[3..]| + 2) / 3 + 1;
      EncodeBlock(b[..3]) + Encode(b[3..])
  }

  /** Canonical text: canonical blocks, padding in the last one only. */
  predicate Canonical(t: string) {
    if |t| == 0 then true
    else if |t| <= 4 then CanonicalBlock(t)
    else CanonicalBlock(t[..4]) && Padding(t[..4]) == 0 && Canonical(t[4..])
  }

  function Decode(t: string): (b: seq<byte>)
    requires Canonical(t)
  {
    if |t| == 0 then [] else if |t| <= 4 then DecodeBlock(t) else DecodeBlock(t[..4]) + Decode(t[4..])
  }

  /** The padding at the end of a whole text. */
  function TailPadding(t: string): (p: nat)
    ensures p <= 2
  {
    if |t| < 4 then 0 else Padding(t[|t| - 4..])
  }

  lemma {:induction false} DecodedLength(t: string)
    requires Canonical(t)
    ensures |t| % 4 == 0 && 3 * |t| == 4 * |Decode(t)| + 4 * TailPadding(t)
  {
    hide CanonicalBlock, DecodeBlock, TailPadding;
    if |t| > 4 {
      DecodedLength(t[4..]);
      SameTail(t);
    } else if |t| > 0 {
      CanonicalBlockSize(t);
    } else {
      NoTail();
    }
  }

  lemma NoTail()
    ensures TailPadding("") == 0
  {}

  lemma SameTail(t: string)
    requires |t| >= 8
    ensures TailPadding(t) == TailPadding(t[4..])
  {
    assert t[4..][|t| - 8..] == t[|t| - 4..];
  }

  lemma CanonicalBlockSize(t: string)
    requires CanonicalBlock(t)
    ensures |t| == 4 && TailPadding(t) == Padding(t)
  {
    assert t[0..] == t;
  }

  /** Decoding an encoding gives the octets back. */
  lemma {:induction false} DecodeAfterEncode(b: seq<byte>)
    ensures Canonical(Encode(b)) && Decode(Encode(b)) == b
  {
    if |b| > 3 {
      BlockDecodes(b[..3]);
      DecodeAfterEncode(b[3..]);
      var t := Encode(b);
      assert t[..4] == EncodeBlock(b[..3]) && t[4..] == Encode(b[3..]);
    } else if |b| > 0 {
      BlockDecodes(b);
    }
  }

  /** Encoding what a canonical text decodes to gives the text back. */
  lemma {:induction false} EncodeAfterDecode(t: string)
    requires Canonical(t)
    ensures Encode(Decode(t)) == t
  {
    if |t| > 4 {
      BlockEncodes(t[..4]);
      EncodeAfterDecode(t[4..]);
      assert Decode(t)[..3] == DecodeBlock(t[..4]) && Decode(t)[3..] == Decode(t[4..]);
    } else if |t| > 0 {
      BlockEncodes(t);
    }
  }

  // ---- The loops of the source ----

  lemma SextetsDenote(x: byte, y: byte, z: byte)
    ensures var q := Sextets(x, y, z);
            var a: int, b: int, c: int, d: int := q.0, q.1, q.2, q.3;
            a * 262144 + b * 4096 + c * 64 + d == x as int * 65536 + y as int * 256 + z as int
  {}

  lemma OctetsDenote(a: sextet, b: sextet, c: sextet, d: sextet)
    ensures var o := Octets(a, b, c, d);
            var x: int, y: int, z: int := o.0, o.1, o.2;
            x * 65536 + y * 256 + z == a as int * 262144 + b as int * 4096 + c as int * 64 + d as int
  {}

  lemma SextetDigits(v: int, a: sextet, b: sextet, c: sextet, d: sextet)
    requires v == a as int * 262144 + b as int * 4096 + c as int * 64 + d as int
    ensures v / 262144 % 64 == a && v / 4096 % 64 == b && v / 64 % 64 == c && v % 64 == d
  {
    var m: int, n: int := a as int * 64 + b as int, a as int * 4096 + b as int * 64 + c as int;
    assert v / 64 == n && v / 4096 == m && v / 262144 == a;
  }

  lemma OctetDigits(v: int, x: byte, y: byte, z: byte)
    requires v == x as int * 65536 + y as int * 256 + z as int
    ensures v / 65536 % 256 == x && v / 256 % 256 == y && v % 256 == z
  {
    assert v / 256 == x as int * 256 + y as int && v / 65536 == x;
  }

  /** The 24-bit word of three octets holds their sextets, and the other way round. */
  lemma TripleBits(x: byte, y: byte, z: byte)
    ensures var triple: int := x as int * 65536 + y as int * 256 + z as int;
            Sextets(x, y, z) == (triple / 262144 % 64, triple / 4096 % 64, triple / 64 % 64, triple % 64)
  {
    hide Sextets;
    SextetsDenote(x, y, z);
    var q := Sextets(x, y, z);
    SextetDigits(x as int * 65536 + y as int * 256 + z as int, q.0, q.1, q.2, q.3);
  }

  lemma SextetWord(a: sextet, b: sextet, c: sextet, d: sextet)
    ensures var triple: int := a as int * 262144 + b as int * 4096 + c as int * 64 + d as int;
            Octets(a, b, c, d) == (triple / 65536 % 256, triple / 256 % 256, triple % 256)
  {
    hide Octets;
    OctetsDenote(a, b, c, d);
    var o := Octets(a, b, c, d);
    OctetDigits(a as int * 262144 + b as int * 4096 + c as int * 64 + d as int, o.0, o.1, o.2);
  }

  /** The octets of the next block, and those after it. */
  ghost function Head(b: seq<byte>): (h: seq<byte>) { if |b| <= 3 then b else b[..3] }

  ghost function Tail(b: seq<byte>): (t: seq<byte>) { if |b| <= 3 then [] else b[3..] }

  lemma NextBlock(input: seq<byte>, i: nat)
    requires i < |input|
    ensures var y := if i + 1 < |input| then input[i + 1] else 0;
            var z := if i + 2 < |input| then input[i + 2] else 0;
            var q := Sextets(input[i], y, z);
            EncodeBlock(Head(input[i..])) ==
              [ValueChar(q.0), ValueChar(q.1),
               if i + 1 < |input| then ValueChar(q.2) else '=', if i + 2 < |input| then ValueChar(q.3) else '=']
  {
    hide ValueChar, Sextets;
  }

  /** One round of the encoder. */
  method WriteBlock(input: seq<byte>, i: nat, output: array<char>, j: nat)
    requires i < |input| && j + 4 <= output.Length
    modifies output
    ensures output[..j + 4] == old(output[..j]) + EncodeBlock(Head(input[i..]))
  {
    hide EncodeBlock, ValueChar, Sextets, Head;
    var x: byte := input[i];
    var y: byte := if i + 1 < |input| then input[i + 1] else 0;
    var z: byte := if i + 2 < |input| then input[i + 2] else 0;
    var triple := x as int * 65536 + y as int * 256 + z as int;
    TripleBits(x, y, z);
    NextBlock(input, i);
    output[j] := ValueChar(triple / 262144 % 64);
    output[j + 1] := ValueChar(triple / 4096 % 64);
    output[j + 2] := if i + 1 < |input| then ValueChar(triple / 64 % 64) else '=';
    output[j + 3] := if i + 2 < |input| then ValueChar(triple % 64) else '=';
  }

  lemma EncodeStep(b: seq<byte>)
    requires b != []
    ensures Encode(b) == EncodeBlock(Head(b)) + Encode(Tail(b))
  {}

  /** `base64_encode`. */
  method EncodeInto(input: seq<byte>, output: array<char>) returns (n: nat)
    modifies output
    ensures output.Length < |Encode(input)| + 1 ==> n == 0 && output[..] == old(output[..])
    ensures output.Length >= |Encode(input)| + 1 ==>
              n == |Encode(input)| && output[..n] == Encode(input) && output[n] == '\0'
  {
    var outputLen := (|input| + 2) / 3 * 4;
    if output.Length < outputLen + 1 {
      return 0;
    }
    hide Encode, EncodeBlock, Head;
    var i, j := 0, 0;
    ghost var rest := input;
    while i < |input|
      invariant 0 <= i && 0 <= j <= outputLen && rest == if i <= |input| then input[i..] else []
      invariant output[..j] + Encode(rest) == Encode(input)
      decreases |input| - i
    {
      EncodeStep(rest);
      Regroup(output[..j], EncodeBlock(Head(rest)), Encode(Tail(rest)));
      WriteBlock(input, i, output, j);
      rest := Tail(rest);
      i, j := i + 3, j + 4;
    }
    output[j] := '\0';
    assert output[..j] == Encode(input);
    n := j;
  }

  // ---- The decoder on any text ----

  function Bits(c: char): (v: sextet) { if IsBase64Char(c) then CharValue(c) else 0 }

  /** The octets of the 24-bit word of four characters; those outside the alphabet count as zero. */
  function Word(t: string): (b: seq<byte>)
    requires |t| == 4
    ensures |b| == 3
  {
    var o := Octets(Bits(t[0]), Bits(t[1]), Bits(t[2]), Bits(t[3]));
    [o.0, o.1, o.2]
  }

  /** Whole blocks, each with two characters of the alphabet first. */
  predicate Readable(t: string) {
    t == "" || (|t| >= 4 && IsBase64Char(t[0]) && IsBase64Char(t[1]) && Readable(t[4..]))
  }

  /** The words of all blocks. */
  function Words(t: string): (b: seq<byte>)
    requires |t| % 4 == 0
    ensures |b| == |t| / 4 * 3
  {
    if t == "" then [] else Word(t[..4]) + Words(t[4..])
  }

  /** The number of octets, from the length and the last two characters. */
  function DecodedSize(t: string): (n: nat)
    requires t != "" && |t| % 4 == 0
    ensures n <= |t| / 4 * 3
  {
    |t| / 4 * 3 - (if t[|t| - 1] == '=' then 1 else 0) - (if t[|t| - 2] == '=' then 1 else 0)
  }

  lemma BlockWord(t: string)
    requires CanonicalBlock(t)
    ensures DecodeBlock(t) == Word(t)[..3 - Padding(t)] && IsBase64Char(t[0]) && IsBase64Char(t[1])
  {
    hide Octets, CharValue;
  }

  /** On canonical text the decoder computes what the text stands for. */
  lemma {:induction false} CanonicalWords(t: string)
    requires Canonical(t)
    ensures |t| % 4 == 0 && Readable(t) && |Decode(t)| <= |Words(t)| && Decode(t) == Words(t)[..|Decode(t)|]
  {
    hide Word, DecodeBlock, CanonicalBlock;
    DecodedLength(t);
    if |t| > 4 {
      BlockWord(t[..4]);
      CanonicalWords(t[4..]);
    } else if |t| == 4 {
      BlockWord(t);
      assert t[..4] == t && t[4..] == "";
    }
  }

  lemma CanonicalSize(t: string)
    requires Canonical(t) && t != ""
    ensures |t| % 4 == 0 && DecodedSize(t) == |Decode(t)|
  {
    DecodedLength(t);
    LastBlock(t);
  }

  method ReadBlock(block: string) returns (ok: bool, x: byte, y: byte, z: byte)
    requires |block| == 4
    ensures ok <==> IsBase64Char(block[0]) && IsBase64Char(block[1])
    ensures ok ==> Word(block) == [x, y, z]
  {
    hide CharValue, Octets;
    var a, b := DecodeTable(block[0]), DecodeTable(block[1]);
    var c, d := DecodeTable(block[2]), DecodeTable(block[3]);
    if a < 0 || b < 0 {
      return false, 0, 0, 0;
    }
    var triple := a * 262144 + b * 4096;
    if c >= 0 { triple := triple + c * 64; }
    if d >= 0 { triple := triple + d; }
    SextetWord(a, b, if c >= 0 then c else 0, if d >= 0 then d else 0);
    ok, x, y, z := true, triple / 65536 % 256, triple / 256 % 256, triple % 256;
  }

  /** Stores up to three octets of a word, as many as the output has left. */
  method WriteOctets(output: array<byte>, j: nat, outputLen: nat, x: byte, y: byte, z: byte) returns (k: nat)
    requires j <= outputLen <= output.Length
    modifies output
    ensures k == if outputLen - j < 3 then outputLen else j + 3
    ensures output[..k] == old(output[..j]) + [x, y, z][..k - j]
  {
    k := j;
    if k < outputLen { output[k] := x; k := k + 1; }
    if k < outputLen { output[k] := y; k := k + 1; }
    if k < outputLen { output[k] := z; k := k + 1; }
  }

  /**
   `base64_decode`. `item_to_base64_bytes` answers an empty text itself; `json_get_bytes` passes it on,
   and the result is 0 as for every text that cannot be read.
   */
  method DecodeInto(input: string, output: array<byte>) returns (n: nat)
    modifies output
    ensures input == "" || |input| % 4 != 0 ==> n == 0
    ensures input != "" && |input| % 4 == 0 ==>
              if DecodedSize(input) <= output.Length && Readable(input)
              then n == DecodedSize(input) && output[..n] == Words(input)[..n] else n == 0
  {
    if input == "" || |input| % 4 != 0 {
      return 0;
    }
    var outputLen := |input| / 4 * 3;
    if input[|input| - 1] == '=' { outputLen := outputLen - 1; }
    if input[|input| - 2] == '=' { outputLen := outputLen - 1; }
    if output.Length < outputLen {
      return 0;
    }
    hide Word, Words, Readable;
    var ok := DecodeBlocks(input, output, outputLen);
    n := if ok then outputLen else 0;
  }

  /** The loop of the decoder. */
  method DecodeBlocks(input: string, output: array<byte>, outputLen: nat) returns (ok: bool)
    requires |input| % 4 == 0 && outputLen <= output.Length && outputLen <= |input| / 4 * 3
    modifies output
    ensures ok <==> Readable(input)
    ensures ok ==> output[..outputLen] == Words(input)[..outputLen]
  {
    hide Word, Words, Readable;
    var i, j := 0, 0;
    ghost var done: seq<byte>, rest := [], input;
    while i < |input|
      invariant 0 <= i <= |input| && |rest| % 4 == 0 && rest == input[i..]
      invariant done + Words(rest) == Words(input) && (Readable(rest) <==> Readable(input))
      invariant j == Least(|done|, outputLen) && output[..j] == done[..j]
    {
      WordsStep(rest);
      ok, j := DecodeRound(input[i..i + 4], output, j, outputLen, done);
      assert rest[..4] == input[i..i + 4] && rest[4..] == input[i + 4..];
      if !ok {
        return false;
      }
      Regroup(done, Word(rest[..4]), Words(rest[4..]));
      done, rest := done + Word(rest[..4]), rest[4..];
      i := i + 4;
    }
    WordsEnd(rest);
    assert done == Words(input);
    ok := true;
  }

  lemma WordsStep(t: string)
    requires t != "" && |t| % 4 == 0
    ensures |t| >= 4 && |t[4..]| % 4 == 0 && Words(t) == Word(t[..4]) + Words(t[4..])
    ensures Readable(t) <==> IsBase64Char(t[..4][0]) && IsBase64Char(t[..4][1]) && Readable(t[4..])
  {}

  lemma WordsEnd(t: string)
    requires t == ""
    ensures Words(t) == [] && Readable(t)
  {}

  /** One round of the decoder; `done` are the words before this block. */
  method DecodeRound(block: string, output: array<byte>, j: nat, outputLen: nat, ghost done: seq<byte>)
    returns (ok: bool, k: nat)
    requires |block| == 4 && outputLen <= output.Length && j == Least(|done|, outputLen) && output[..j] == done[..j]
    modifies output
    ensures ok <==> IsBase64Char(block[0]) && IsBase64Char(block[1])
    ensures ok ==> k == Least(|done| + 3, outputLen) && output[..k] == (done + Word(block))[..k]
  {
    hide Word, IsBase64Char;
    var x, y, z;
    ok, x, y, z := ReadBlock(block);
    if !ok {
      return false, j;
    }
    k := WriteOctets(output, j, outputLen, x, y, z);
    assert output[..k] == (done + [x, y, z])[..k];
  }

  lemma LastBlock(t: string)
    requires Canonical(t) && t != ""
    ensures |t| >= 4
    ensures (if t[|t| - 1] == '=' then 1 else 0) + (if t[|t| - 2] == '=' then 1 else 0) == TailPadding(t)
  {
    if |t| > 4 {
      LastBlock(t[4..]);
      assert t[4..][|t| - 8..] == t[|t| - 4..];
    } else {
      assert t[0..] == t;
    }
  }

  /** `is_valid_base64`. */
  method IsValid(s: string) returns (valid: bool)
    ensures valid <==> Canonical(s)
  {
    var n := |s|;
    AcceptedIsCanonical(s);
    if n % 4 != 0 {
      return false;
    }
    var padding := 0;
    if n >= 1 && s[n - 1] == '=' { padding := padding + 1; }
    if n >= 2 && s[n - 2] == '=' { padding := padding + 1; }
    var i := 0;
    while i < n - padding
      invariant 0 <= i <= n - padding
      invariant forall k :: 0 <= k < i ==> IsBase64Char(s[k])
    {
      if !IsBase64Char(s[i]) {
        return false;
      }
      i := i + 1;
    }
    if padding == 1 && CharValue(s[n - 2]) % 4 != 0 {
      return false;
    }
    if padding == 2 && CharValue(s[n - 3]) % 16 != 0 {
      return false;
    }
    valid := true;
  }

  /** The tests of `is_valid_base64`, which count '=' in the last two places only. */
  predicate Accepted(s: string) {
    var n := |s|;
    var padding := (if n >= 1 && s[n - 1] == '=' then 1 else 0) + (if n >= 2 && s[n - 2] == '=' then 1 else 0);
    && n % 4 == 0
    && (forall i :: 0 <= i < n - padding ==> IsBase64Char(s[i]))
    && (padding == 1 ==> CharValue(s[n - 2]) % 4 == 0)
    && (padding == 2 ==> CharValue(s[n - 3]) % 16 == 0)
  }

  lemma {:induction false} AcceptedIsCanonical(s: string)
    ensures Accepted(s) <==> Canonical(s)
  {
    if |s| % 4 != 0 {
      if Canonical(s) { DecodedLength(s); }
    } else if |s| > 4 {
      AcceptedByBlocks(s);
      AcceptedIsCanonical(s[4..]);
    }
  }

  /** The tests may be applied block by block. */
  lemma AcceptedByBlocks(s: string)
    requires |s| > 4 && |s| % 4 == 0
    ensures Accepted(s) <==> CanonicalBlock(s[..4]) && Padding(s[..4]) == 0 && Accepted(s[4..])
  {}

  lemma EmptyDecodes()
    ensures Canonical("") && Decode("") == []
  {}

  lemma LongTextHoldsMore(t: string, capacity: nat)
    requires Canonical(t) && |t| > (capacity + 2) / 3 * 4
    ensures |Decode(t)| > capacity
  {
    DecodedLength(t);
    hide Canonical, Decode, TailPadding;
    SizeBound(|t|, |Decode(t)|, TailPadding(t), capacity);
  }

  lemma SizeBound(chars: nat, octets: nat, padding: nat, capacity: nat)
    requires chars % 4 == 0 && 3 * chars == 4 * octets + 4 * padding && padding <= 2
    requires chars > (capacity + 2) / 3 * 4
    ensures octets > capacity
  {
    var blocks := chars / 4;
    assert chars == 4 * blocks && octets == 3 * blocks - padding;
    assert blocks >= (capacity + 2) / 3 + 1;
  }

  /** `item_to_base64_bytes`; `bytes` is the caller's buffer of `capacity` octets. */
  method ItemToBytes(item: Json, capacity: nat) returns (r: Option<seq<byte>>)
    ensures r == if item.String? && Canonical(item.text) && |Decode(item.text)| <= capacity
                 then Some(Decode(item.text)) else None
  {
    EmptyDecodes();
    hide Canonical, Decode, Words, Readable;
    if !item.String? {
      return None;
    }
    var maxChars := (capacity + 2) / 3 * 4;
    var n := |item.text|;
    if n > maxChars {
      if Canonical(item.text) { LongTextHoldsMore(item.text, capacity); }
      return None;
    }
    if n == 0 {
      return Some([]);
    }
    var valid := IsValid(item.text);
    if !valid {
      return None;
    }
    var bytes := new byte[capacity];
    CanonicalWords(item.text);
    CanonicalSize(item.text);
    var decoded := DecodeInto(item.text, bytes);
    if decoded == 0 {
      return None;
    }
    r := Some(bytes[..decoded]);
  }

  /** The guarded decoder accepts exactly the encodings of at most `capacity` octets. */
  lemma GuardedDecoderInvertsEncoder(text: string, capacity: nat, b: seq<byte>)
    ensures Canonical(text) && |Decode(text)| <= capacity && Decode(text) == b <==> Encode(b) == text && |b| <= capacity
  {
    DecodeAfterEncode(b);
    if Canonical(text) { EncodeAfterDecode(text); }
  }
}

/** Base64 with line breaks: the encoder of messages (`base64_lines` in
    crates/polywan/src/mail.rs) and its inverse (`base64_decode` in
    crates/testbed/src/sendmail.rs); section 6.8 of RFC 2045. */
module Base64 {
  import opened Model

  type Byte = x: nat | x < 256

  type Sextet = x: nat | x < 64

  // ----------------------------------------------------------------- alphabet

  function Letter(v: Sextet): char
  {
    if v < 26 then 'A' + v as char
    else if v < 52 then 'a' + (v - 26) as char
    else if v < 62 then '0' + (v - 52) as char
    else if v == 62 then '+'
    else '/'
  }

  function ValueOf(c: char): Option<Sextet>
  {
    if 'A' <= c <= 'Z' then Some(c as int - 'A' as int)
    else if 'a' <= c <= 'z' then Some(c as int - 'a' as int + 26)
    else if '0' <= c <= '9' then Some(c as int - '0' as int + 52)
    else if c == '+' then Some(62)
    else if c == '/' then Some(63)
    else None
  }

  predicate Ignored(c: char) { c == ' ' || c == '\t' || c == '\n' || c == '\U{C}' || c == '\r' || c == '=' }

  lemma LetterValue(v: Sextet)
    ensures ValueOf(Letter(v)) == Some(v) && !Ignored(Letter(v))
  {
  }

  // ------------------------------------------------------------------ encoding

  /** The 24 bits of a group, missing bytes as zero. */
  function Bits(c: seq<Byte>): nat
    requires 1 <= |c| <= 3
  {
    65536 * c[0] as int + 256 * (if |c| > 1 then c[1] as int else 0) + (if |c| > 2 then c[2] as int else 0)
  }

  function Group(c: seq<Byte>): string
    requires 1 <= |c| <= 3
  {
    var n := Bits(c);
    [Letter(n / 262144 % 64), Letter(n / 4096 % 64),
     if |c| > 1 then Letter(n / 64 % 64) else '=', if |c| > 2 then Letter(n % 64) else '=']
  }

  function EncodeLine(line: seq<Byte>): string
  {
    if line == [] then ""
    else if |line| <= 3 then Group(line)
    else Group(line[..3]) + EncodeLine(line[3..])
  }

  function Encode(data: seq<Byte>): string
  {
    if data == [] then ""
    else if |data| <= 57 then EncodeLine(data) + "\n"
    else EncodeLine(data[..57]) + "\n" + Encode(data[57..])
  }

  method EncodeGroup(c: seq<Byte>) returns (out: string)
    requires 1 <= |c| <= 3
    ensures out == Group(c)
  {
    var n := Bits(c);
    out := [Letter(n / 262144 % 64), Letter(n / 4096 % 64)];
    for i := 2 to 4
      invariant out == Group(c)[..i]
    {
      var shifted := if i == 2 then n / 64 else n;
      out := out + [if i <= |c| then Letter(shifted % 64) else '='];
    }
  }

  method EncodeOneLine(line: seq<Byte>) returns (out: string)
    ensures out == EncodeLine(line)
  {
    hide Group;
    out := "";
    var rest := line;
    while rest != []
      invariant EncodeLine(line) == out + EncodeLine(rest)
      decreases |rest|
    {
      var take := if |rest| <= 3 then |rest| else 3;
      var group := EncodeGroup(rest[..take]);
      assert |rest| <= 3 ==> rest[..take] == rest && rest[take..] == [];
      out := out + group;
      rest := rest[take..];
    }
  }

  /** The encoder's loops over lines of 57 bytes and groups of 3. */
  method EncodeLines(data: seq<Byte>) returns (out: string)
    ensures out == Encode(data)
  {
    hide EncodeLine;
    out := "";
    var rest := data;
    while rest != []
      invariant Encode(data) == out + Encode(rest)
      decreases |rest|
    {
      var cut := if |rest| <= 57 then |rest| else 57;
      var line := EncodeOneLine(rest[..cut]);
      assert |rest| <= 57 ==> rest[..cut] == rest && rest[cut..] == [];
      out := out + line + "\n";
      rest := rest[cut..];
    }
  }

  // ------------------------------------------------------------------ decoding

  const WORD: nat := 4294967296

  /** The accumulator (32 bits), the number of bits not yet used, the output. */
  datatype Decoder = Decoder(bits: nat, n: nat, out: seq<Byte>)

  function Power(n: nat): (p: nat)
    ensures p > 0
  {
    if n == 0 then 1 else 2 * Power(n - 1)
  }

  function Feed(d: Decoder, v: Sextet): Decoder
  {
    var bits := d.bits * 64 % WORD + v;
    if d.n + 6 >= 8 then Decoder(bits, d.n - 2, d.out + [bits / Power(d.n - 2) % 256]) else Decoder(bits, d.n + 6, d.out)
  }

  function FeedChar(d: Option<Decoder>, c: char): Option<Decoder>
  {
    if d.None? || Ignored(c) then d else if ValueOf(c).None? then None else Some(Feed(d.value, ValueOf(c).value))
  }

  function FeedAll(d: Option<Decoder>, text: string): Option<Decoder>
    decreases |text|
  {
    if text == "" then d else FeedAll(FeedChar(d, text[0]), text[1..])
  }

  function Decode(text: string): Option<seq<Byte>>
  {
    var d := FeedAll(Some(Decoder(0, 0, [])), text);
    if d.None? then None else Some(d.value.out)
  }

  method DecodeText(text: string) returns (r: Option<seq<Byte>>)
    ensures r == Decode(text)
  {
    var bits: nat, n: nat, out: seq<Byte> := 0, 0, [];
    for i := 0 to |text|
      invariant FeedAll(Some(Decoder(bits, n, out)), text[i..]) == FeedAll(Some(Decoder(0, 0, [])), text)
    {
      var c := text[i];
      assert text[i..][0] == c && text[i..][1..] == text[i + 1..];
      if !Ignored(c) {
        var v := ValueOf(c);
        if v.None? {
          FailsForGood(text[i + 1..]);
          return None;
        }
        bits := bits * 64 % WORD + v.value;
        n := n + 6;
        if n >= 8 {
          n := n - 8;
          out := out + [bits / Power(n) % 256];
        }
      }
    }
    r := Some(out);
  }

  lemma {:induction false} FailsForGood(text: string)
    ensures FeedAll(None, text) == None
    decreases |text|
  {
    if text != "" { FailsForGood(text[1..]); }
  }

  lemma {:induction false} FeedConcat(d: Option<Decoder>, a: string, b: string)
    ensures FeedAll(d, a + b) == FeedAll(FeedAll(d, a), b)
    decreases |a|
  {
    if a == "" {
      assert a + b == b;
    } else {
      assert (a + b)[1..] == a[1..] + b;
      FeedConcat(FeedChar(d, a[0]), a[1..], b);
    }
  }

  // ---------------------------------------------------------------- one group

  /** The low bits of the accumulator, which are all that is used later. */
  lemma LowBits(bits: nat, v: Sextet)
    ensures (bits * 64 % WORD + v) % 16384 == 64 * (bits % 256) + v
  {
    var q := bits * 64 / WORD;
    var b, l := bits / 256, bits % 256;
    assert bits * 64 == WORD * q + bits * 64 % WORD;
    assert WORD == 16384 * 262144;
    var x := bits * 64 % WORD + v;
    assert x == 16384 * (b - 262144 * q) + 64 * l + v;
    Remainder(x, 16384, b - 262144 * q, 64 * l + v);
  }

  lemma Remainder(x: int, m: nat, k: int, r: nat)
    requires m > 0 && x == m * k + r && r < m
    ensures x % m == r && x / m == k
  {
    var d := x / m - k;
    assert m * d == r - x % m by { assert m * (x / m - k) == m * (x / m) - m * k; }
    Multiples(m, d);
  }

  lemma Multiples(m: int, d: int)
    requires m > 0
    ensures (d >= 1 ==> m * d >= m) && (d <= -1 ==> m * d <= -m)
  {
  }

  /** One letter, in terms of the low bits. */
  lemma FeedLow(d: Decoder, v: Sextet)
    requires d.n in {0, 2, 4, 6}
    ensures var low, d' := d.bits % 256, Feed(d, v);
            && d'.bits % 256 == 64 * (low % 4) + v
            && (d.n == 0 ==> d'.n == 6 && d'.out == d.out)
            && (d.n == 6 ==> d'.n == 4 && d'.out == d.out + [(64 * low + v) / 16 % 256])
            && (d.n == 4 ==> d'.n == 2 && d'.out == d.out + [(64 * low + v) / 4 % 256])
            && (d.n == 2 ==> d'.n == 0 && d'.out == d.out + [(64 * low + v) % 256])
  {
    LowBits(d.bits, v);
    var x, y := d.bits * 64 % WORD + v, 64 * (d.bits % 256) + v;
    var k := x / 16384;
    assert x == 16384 * k + y;
    assert Power(0) == 1 && Power(1) == 2 && Power(2) == 4 && Power(3) == 8 && Power(4) == 16;
    LowPart(x, k, y);
    Remainder(y, 256, (d.bits % 256) / 4, 64 * (d.bits % 256 % 4) + v);
  }

  lemma LowPart(x: nat, k: nat, y: nat)
    requires x == 16384 * k + y && y < 16384
    ensures x % 256 == y % 256
    ensures x / 16 % 256 == y / 16 % 256 && x / 4 % 256 == y / 4 % 256 && x / 1 % 256 == y % 256
  {
    Remainder(x, 256, 64 * k + y / 256, y % 256);
    Remainder(x, 16, 1024 * k + y / 16, y % 16);
    Remainder(x / 16, 256, 4 * k + y / 16 / 256, y / 16 % 256);
    Remainder(x, 4, 4096 * k + y / 4, y % 4);
    Remainder(x / 4, 256, 16 * k + y / 4 / 256, y / 4 % 256);
  }

  /** The letters of a group. */
  lemma GroupLetters(a: Byte, b: Byte, c: Byte)
    ensures var n := 65536 * a as int + 256 * b as int + c as int;
            && n / 262144 % 64 == a / 4 && n / 4096 % 64 == 16 * (a % 4) + b / 16
            && n / 64 % 64 == 4 * (b % 16) + c / 64 && n % 64 == c % 64
  {
    var n := 65536 * a as int + 256 * b as int + c as int;
    Remainder(n, 262144, a / 4, 65536 * (a % 4) + 256 * b as int + c as int);
    Remainder(n, 4096, 16 * a as int + b / 16, 256 * (b % 16) + c as int);
    Remainder(16 * a as int + b / 16, 64, a / 4, 16 * (a % 4) + b / 16);
    Remainder(n, 64, 1024 * a as int + 4 * b as int + c / 64, c % 64);
    Remainder(1024 * a as int + 4 * b as int + c / 64, 64, 16 * a as int + b / 16, 4 * (b % 16) + c / 64);
  }

  lemma FourChars(d: Decoder, s: string)
    requires |s| == 4
    ensures FeedAll(Some(d), s) == FeedChar(FeedChar(FeedChar(FeedChar(Some(d), s[0]), s[1]), s[2]), s[3])
  {
    hide FeedAll, FeedChar;
    var d1 := FeedChar(Some(d), s[0]);
    var d2 := FeedChar(d1, s[1]);
    var d3 := FeedChar(d2, s[2]);
    FeedOne(Some(d), s);
    FeedOne(d1, s[1..]);
    FeedOne(d2, s[2..]);
    FeedOne(d3, s[3..]);
    assert s[1..][1..] == s[2..] && s[2..][1..] == s[3..] && s[3..][1..] == "";
    FeedNothing(FeedChar(d3, s[3]));
  }

  lemma FeedOne(d: Option<Decoder>, s: string)
    requires s != ""
    ensures FeedAll(d, s) == FeedAll(FeedChar(d, s[0]), s[1..])
  {
  }

  lemma FeedNothing(d: Option<Decoder>)
    ensures FeedAll(d, "") == d
  {
  }

  lemma BytesOf(low: nat, a: Byte, b: Byte, c: Byte)
    requires low < 256
    ensures var v0, v1, v2, v3 := a / 4, 16 * (a % 4) + b / 16, 4 * (b % 16) + c / 64, c % 64;
            var l1 := 64 * (low % 4) + v0;
            var l2 := 64 * (l1 % 4) + v1;
            var l3 := 64 * (l2 % 4) + v2;
            && l1 < 256 && l2 < 256 && l3 < 256
            && (64 * l1 + v1) / 16 % 256 == a && (64 * l2 + v2) / 4 % 256 == b && (64 * l3 + v3) % 256 == c
  {
    var v0, v1, v2, v3 := a / 4, 16 * (a % 4) + b / 16, 4 * (b % 16) + c / 64, c % 64;
    var l1 := 64 * (low % 4) + v0;
    var l2 := 64 * (l1 % 4) + v1;
    var l3 := 64 * (l2 % 4) + v2;
    var x1, x2, x3 := 64 * l1 + v1, 64 * l2 + v2, 64 * l3 + v3;
    Remainder(x1, 16, 256 * (low % 4) + a as int, b / 16);
    Remainder(256 * (low % 4) + a as int, 256, low % 4, a as int);
    Remainder(l1, 4, 16 * (low % 4) + v0 / 4, v0 % 4);
    Remainder(x2, 4, 1024 * (l1 % 4) + 16 * v1 + (b % 16), c / 64);
    Remainder(v1, 16, a % 4, b / 16);
    Remainder(1024 * (l1 % 4) + 16 * v1 + (b % 16), 256, 4 * (l1 % 4) + a % 4, b as int);
    Remainder(l2, 4, 16 * (l1 % 4) + v1 / 4, v1 % 4);
    Remainder(l3, 4, 16 * (l2 % 4) + b % 16, c / 64);
    Remainder(x3, 256, 16 * (l2 % 4) + b % 16, c as int);
  }

  lemma FeedLetter(d: Decoder, v: Sextet)
    ensures FeedChar(Some(d), Letter(v)) == Some(Feed(d, v))
  {
    hide Feed, Letter, ValueOf, Ignored;
    LetterValue(v);
  }

  /** Decoding a group from a byte boundary gives its bytes, whatever the
      accumulator held before; a full group ends on a boundary. */
  lemma GroupDecodes(d: Decoder, c: seq<Byte>)
    requires d.n == 0 && 1 <= |c| <= 3
    ensures var r := FeedAll(Some(d), Group(c));
            r.Some? && r.value.out == d.out + c && (|c| == 3 ==> r.value.n == 0)
  {
    var a, b, e: Byte := c[0], if |c| > 1 then c[1] else 0, if |c| > 2 then c[2] else 0;
    GroupText(c, a, b, e);
    hide Feed, FeedChar, Letter, FeedAll, Group;
    FourChars(d, Group(c));
    var v0, v1, v2, v3 := a / 4, 16 * (a % 4) + b / 16, 4 * (b % 16) + e / 64, e % 64;
    var d1 := Feed(d, v0);
    var d2 := Feed(d1, v1);
    var d3 := Feed(d2, v2);
    FeedLetter(d, v0);
    FeedLetter(d1, v1);
    FeedLetter(d2, v2);
    FeedLetter(d3, v3);
    FeedPad(d2);
    FeedPad(d3);
    FourFeeds(d, a, b, e);
    GroupEnds(d, c, d2, d3, Feed(d3, v3));
  }

  lemma GroupText(c: seq<Byte>, a: Byte, b: Byte, e: Byte)
    requires 1 <= |c| <= 3 && a == c[0] && b == (if |c| > 1 then c[1] else 0) && e == (if |c| > 2 then c[2] else 0)
    ensures |Group(c)| == 4 && Group(c)[0] == Letter(a / 4) && Group(c)[1] == Letter(16 * (a % 4) + b / 16)
    ensures Group(c)[2] == if |c| > 1 then Letter(4 * (b % 16) + e / 64) else '='
    ensures Group(c)[3] == if |c| > 2 then Letter(e % 64) else '='
  {
    hide Letter;
    GroupLetters(a, b, e);
  }

  lemma FourFeeds(d: Decoder, a: Byte, b: Byte, e: Byte)
    requires d.n == 0
    ensures var d2 := Feed(Feed(d, a / 4), 16 * (a % 4) + b / 16);
            var d3 := Feed(d2, 4 * (b % 16) + e / 64);
            var d4 := Feed(d3, e % 64);
            d2.out == d.out + [a] && d3.out == d2.out + [b] && d4.out == d3.out + [e] && d4.n == 0
  {
    hide Feed;
    var v0, v1, v2, v3 := a / 4, 16 * (a % 4) + b / 16, 4 * (b % 16) + e / 64, e % 64;
    var d1 := Feed(d, v0);
    var d2 := Feed(d1, v1);
    var d3 := Feed(d2, v2);
    BytesOf(d.bits % 256, a, b, e);
    FeedLow(d, v0);
    FeedLow(d1, v1);
    FeedLow(d2, v2);
    FeedLow(d3, v3);
  }

  lemma FeedPad(d: Decoder)
    ensures FeedChar(Some(d), '=') == Some(d)
  {
  }

  lemma GroupEnds(d: Decoder, c: seq<Byte>, d2: Decoder, d3: Decoder, d4: Decoder)
    requires 1 <= |c| <= 3 && d2.out == d.out + [c[0]]
    requires |c| > 1 ==> d3.out == d2.out + [c[1]]
    requires |c| > 2 ==> d4.out == d3.out + [c[2]]
    ensures (if |c| == 1 then d2 else if |c| == 2 then d3 else d4).out == d.out + c
  {
  }

  lemma {:induction false} LineDecodes(d: Decoder, line: seq<Byte>)
    requires d.n == 0
    ensures var r := FeedAll(Some(d), EncodeLine(line));
            r.Some? && r.value.out == d.out + line && (|line| % 3 == 0 ==> r.value.n == 0)
    decreases |line|
  {
    hide FeedAll, Group;
    if line == [] {
      FeedNothing(Some(d));
    } else if |line| <= 3 {
      GroupDecodes(d, line);
    } else {
      GroupDecodes(d, line[..3]);
      FeedConcat(Some(d), Group(line[..3]), EncodeLine(line[3..]));
      LineDecodes(FeedAll(Some(d), Group(line[..3])).value, line[3..]);
      assert d.out + line == d.out + line[..3] + line[3..];
    }
  }

  lemma NewlineIgnored(d: Option<Decoder>, line: string)
    ensures FeedAll(d, line + "\n") == FeedAll(d, line)
  {
    FeedConcat(d, line, "\n");
    FeedOne(FeedAll(d, line), "\n");
    assert "\n"[1..] == "";
  }

  lemma {:induction false} TextDecodes(d: Decoder, data: seq<Byte>)
    requires d.n == 0
    ensures var r := FeedAll(Some(d), Encode(data)); r.Some? && r.value.out == d.out + data
    decreases |data|
  {
    hide FeedAll, EncodeLine;
    if data == [] {
      FeedNothing(Some(d));
    } else if |data| <= 57 {
      LineDecodes(d, data);
      NewlineIgnored(Some(d), EncodeLine(data));
    } else {
      var line := EncodeLine(data[..57]);
      LineDecodes(d, data[..57]);
      NewlineIgnored(Some(d), line);
      FeedConcat(Some(d), line + "\n", Encode(data[57..]));
      TextDecodes(FeedAll(Some(d), line).value, data[57..]);
      assert d.out + data == d.out + data[..57] + data[57..];
    }
  }

  /** Decoding the encoder's output returns the input, for every input. */
  lemma RoundTrip(data: seq<Byte>)
    ensures Decode(Encode(data)) == Some(data)
  {
    hide FeedAll, Encode;
    TextDecodes(Decoder(0, 0, []), data);
    assert [] + data == data;
  }

  // ------------------------------------------------------------- text shape

  lemma {:induction false} LineLength(line: seq<Byte>)
    ensures |EncodeLine(line)| == 4 * ((|line| + 2) / 3)
    decreases |line|
  {
    hide Group;
    if line != [] {
      FourLetters(if |line| <= 3 then line else line[..3]);
      if |line| > 3 { LineLength(line[3..]); }
    }
  }

  lemma FourLetters(c: seq<Byte>)
    requires 1 <= |c| <= 3
    ensures |Group(c)| == 4 && '\n' !in Group(c)
    ensures |c| == 3 ==> '=' !in Group(c)
    ensures PaddedBy(Group(c), 2)
  {
    hide Bits, Letter;
    var n := Bits(c);
    LetterPlain(n / 262144 % 64);
    LetterPlain(n / 4096 % 64);
    LetterPlain(n / 64 % 64);
    LetterPlain(n % 64);
  }

  lemma LetterPlain(v: Sextet)
    ensures Letter(v) != '\n' && Letter(v) != '='
  {
  }

  /** Padding occurs in the last `n` characters only. */
  predicate PaddedBy(t: string, n: nat) { forall i :: 0 <= i < |t| && t[i] == '=' ==> i >= |t| - n }

  lemma PaddedJoin(a: string, b: string, n: nat)
    requires '=' !in a && PaddedBy(b, n)
    ensures PaddedBy(a + b, n)
  {
    assert forall i :: 0 <= i < |a| ==> (a + b)[i] in a;
  }

  lemma {:induction false} LineShape(line: seq<Byte>)
    ensures '\n' !in EncodeLine(line) && PaddedBy(EncodeLine(line), 2)
    ensures |line| % 3 == 0 ==> '=' !in EncodeLine(line)
    decreases |line|
  {
    hide Group, PaddedBy;
    if line == [] {
      NoPadding();
    } else {
      FourLetters(if |line| <= 3 then line else line[..3]);
      if |line| > 3 {
        LineShape(line[3..]);
        PaddedJoin(Group(line[..3]), EncodeLine(line[3..]), 2);
      }
    }
  }

  lemma NoPadding()
    ensures PaddedBy("", 2) && PaddedBy("", 3) && PaddedBy("\n", 3)
  {
  }

  predicate Unbroken(t: string, i: nat, j: nat)
    requires i <= j <= |t|
  {
    '\n' !in t[i..j]
  }

  /** No stretch without a line break is longer than 76 characters. */
  ghost predicate ShortLines(t: string)
  {
    forall i: nat, j: nat :: i <= j <= |t| && Unbroken(t, i, j) ==> j - i <= 76
  }

  lemma ShortJoin(line: string, rest: string)
    requires |line| <= 76 && ShortLines(rest)
    ensures ShortLines(line + "\n" + rest)
  {
    var t := line + "\n" + rest;
    forall i: nat, j: nat | i <= j <= |t| && j - i > 76 ensures !Unbroken(t, i, j) {
      if i <= |line| {
        assert t[i..j][|line| - i] == '\n';
      } else {
        var a, b := i - |line| - 1, j - |line| - 1;
        assert t[i..j] == rest[a..b];
        assert !Unbroken(rest, a, b);
      }
    }
  }

  /** Every line has at most 76 characters; padding is only at the end, before
      the last line break, and only when the input is no multiple of three. */
  lemma {:induction false} EncodedShape(data: seq<Byte>)
    ensures ShortLines(Encode(data)) && PaddedBy(Encode(data), 3)
    ensures |data| % 3 == 0 ==> '=' !in Encode(data)
    decreases |data|
  {
    hide EncodeLine, ShortLines, PaddedBy;
    if data == [] {
      NoLines();
      NoPadding();
    } else if |data| <= 57 {
      LineShape(data);
      LineLength(data);
      NoLines();
      ShortJoin(EncodeLine(data), "");
      assert EncodeLine(data) + "\n" + "" == EncodeLine(data) + "\n";
      PaddedLine(EncodeLine(data));
    } else {
      var line := EncodeLine(data[..57]);
      LineShape(data[..57]);
      LineLength(data[..57]);
      EncodedShape(data[57..]);
      ShortJoin(line, Encode(data[57..]));
      PaddedJoin(line + "\n", Encode(data[57..]), 3);
    }
  }

  lemma PaddedLine(line: string)
    requires PaddedBy(line, 2)
    ensures PaddedBy(line + "\n", 3)
  {
  }

  lemma NoLines()
    ensures ShortLines("")
  {
  }
}

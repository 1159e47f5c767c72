/** The Internet checksum (section 1 of RFC 1071) and ICMP echo messages
    (crates/polywan/src/probe.rs). */
module Checksum {
  import opened Model

  type Byte = x: nat | x < 256

  const WORD: nat := 4294967296
  const TOKEN_LEN: nat := 16

  /** Below this length the 32-bit sum cannot overflow. */
  const SAFE_LENGTH: nat := 131072

  // --------------------------------------------------------------- the checksum

  /** The first 16-bit word; an odd last byte is its high half. */
  function FirstWord(data: seq<Byte>): nat
    requires data != []
  {
    256 * data[0] as int + (if |data| > 1 then data[1] as int else 0)
  }

  function Rest(data: seq<Byte>): seq<Byte> { if |data| <= 2 then [] else data[2..] }

  /** The sum of the words, as a number. */
  function Sum(data: seq<Byte>): nat
    decreases |data|
  {
    if data == [] then 0 else FirstWord(data) + Sum(Rest(data))
  }

  /** Folding the carries back in. */
  function Fold(n: nat): (r: nat)
    ensures r < 65536
  {
    if n < 65536 then n else Fold(n % 65536 + n / 65536)
  }

  function ChecksumOf(data: seq<Byte>): nat { 65535 - Fold(Sum(data) % WORD) }

  method AddUp(data: seq<Byte>) returns (sum: nat)
    ensures sum == Sum(data) % WORD
  {
    sum := 0;
    var rest := data;
    while rest != []
      invariant sum < WORD && (sum + Sum(rest)) % WORD == Sum(data) % WORD
      decreases |rest|
    {
      SumWraps(sum, FirstWord(rest), Sum(Rest(rest)));
      sum := (sum + FirstWord(rest)) % WORD;
      rest := Rest(rest);
    }
  }

  lemma SumWraps(sum: nat, word: nat, rest: nat)
    ensures ((sum + word) % WORD + rest) % WORD == (sum + word + rest) % WORD
  {
    var q := (sum + word) / WORD;
    Remainder(sum + word + rest, WORD, q + ((sum + word) % WORD + rest) / WORD, ((sum + word) % WORD + rest) % WORD);
  }

  lemma Remainder(x: int, m: int, k: int, r: int)
    requires m > 0 && x == m * k + r && 0 <= r < m
    ensures x % m == r && x / m == k
  {
    var d := x / m - k;
    assert m * d == r - x % m by { assert m * (x / m - k) == m * (x / m) - m * k; }
    Multiples(m, d);
  }

  lemma Multiples(m: int, d: int)
    requires m > 0
    ensures (d >= 1 ==> m * d >= m) && (d <= -1 ==> m * d <= -m)
  {
  }

  method Checksum16(data: seq<Byte>) returns (c: nat)
    ensures c == ChecksumOf(data) && c < 65536
  {
    hide Sum;
    var sum := AddUp(data);
    while sum >= 65536
      invariant Fold(sum) == Fold(Sum(data) % WORD)
      decreases sum
    {
      sum := sum % 65536 + sum / 65536;
    }
    c := 65535 - sum;
  }

  // ----------------------------------------------------------------- residues

  /** Folding ends with the residue modulo 65535, with 65535 for zero unless the
      sum is zero. */
  lemma {:induction false} FoldResidue(n: nat)
    ensures Fold(n) == if n == 0 then 0 else (n - 1) % 65535 + 1
    decreases n
  {
    if n < 65536 {
      if n == 65535 { Remainder(n - 1, 65535, 0, 65534); }
    } else {
      var q, r := n / 65536, n % 65536;
      FoldResidue(r + q);
      var k := (r + q - 1) / 65535;
      Remainder(n - 1, 65535, q + k, (r + q - 1) % 65535);
    }
  }

  lemma {:induction false} SumBound(data: seq<Byte>)
    ensures Sum(data) <= 65535 * ((|data| + 1) / 2)
    decreases |data|
  {
    if data != [] { SumBound(Rest(data)); }
  }

  /** A message checks out exactly if its words add up to a positive multiple of
      65535. */
  lemma ZeroIff(data: seq<Byte>)
    requires |data| <= SAFE_LENGTH
    ensures ChecksumOf(data) == 0 <==> Sum(data) > 0 && Sum(data) % 65535 == 0
  {
    hide Sum, Fold;
    var n := Sum(data);
    SumBound(data);
    assert n < WORD && n % WORD == n;
    FoldResidue(n);
    if n > 0 {
      var k, r := (n - 1) / 65535, (n - 1) % 65535;
      if r == 65534 { Remainder(n, 65535, k + 1, 0); } else { Remainder(n, 65535, k, r + 1); }
    }
  }

  // ------------------------------------------------------------- changed words

  /** The word at an even position replaced. */
  function SetWord(data: seq<Byte>, i: nat, w: nat): seq<Byte>
    requires 2 * i + 1 < |data| && w < 65536
  {
    data[2 * i := w / 256][2 * i + 1 := w % 256]
  }

  function WordAt(data: seq<Byte>, i: nat): nat
    requires 2 * i + 1 < |data|
  {
    256 * data[2 * i] as int + data[2 * i + 1] as int
  }

  /** The sum follows the word. */
  lemma {:induction false} SumChanges(data: seq<Byte>, i: nat, w: nat)
    requires 2 * i + 1 < |data| && w < 65536
    ensures Sum(SetWord(data, i, w)) == Sum(data) - WordAt(data, i) + w
    decreases i
  {
    var data' := SetWord(data, i, w);
    if i == 0 {
      assert Rest(data') == Rest(data);
      assert FirstWord(data') == 256 * (w / 256) + w % 256;
    } else {
      SumChanges(Rest(data), i - 1, w);
      assert Rest(data') == SetWord(Rest(data), i - 1, w);
      assert FirstWord(data') == FirstWord(data);
    }
  }

  /** Changing one word of a message that checks out goes unnoticed if and only
      if the change is a multiple of 65535 that leaves a positive sum. */
  lemma CorruptionIff(data: seq<Byte>, i: nat, w: nat)
    requires |data| <= SAFE_LENGTH && 2 * i + 1 < |data| && w < 65536 && ChecksumOf(data) == 0
    ensures ChecksumOf(SetWord(data, i, w)) == 0
       <==> (w - WordAt(data, i)) % 65535 == 0 && Sum(SetWord(data, i, w)) > 0
  {
    hide Sum, Fold, SetWord, WordAt, ChecksumOf;
    SumChanges(data, i, w);
    ZeroIff(data);
    SameLength(data, i, w);
    ZeroIff(SetWord(data, i, w));
    var s, delta := Sum(data), w - WordAt(data, i);
    var k := s / 65535;
    assert s == 65535 * k;
    Remainder(s + delta, 65535, k + delta / 65535, delta % 65535);
  }

  lemma SameLength(data: seq<Byte>, i: nat, w: nat)
    requires 2 * i + 1 < |data| && w < 65536
    ensures |SetWord(data, i, w)| == |data|
  {
  }

  // ------------------------------------------------------------ echo messages

  type Word16 = x: nat | x < 65536

  predicate IsToken(t: seq<Byte>) { |t| == TOKEN_LEN }

  /** An echo message with a checksum field. */
  function Message(kind: Byte, sum: Word16, id: Word16, sequence: Word16, token: seq<Byte>): seq<Byte>
  {
    [kind, 0, sum / 256, sum % 256, id / 256, id % 256, sequence / 256, sequence % 256] + token
  }

  /** The request of a probe; the kernel computes the ICMPv6 checksum itself. */
  method EchoRequest(v6: bool, id: Word16, sequence: Word16, token: seq<Byte>) returns (p: seq<Byte>)
    requires IsToken(token)
    ensures v6 ==> p == Message(128, 0, id, sequence, token)
    ensures !v6 ==> p == Message(8, ChecksumOf(Message(8, 0, id, sequence, token)), id, sequence, token)
    ensures !v6 ==> ChecksumOf(p) == 0
  {
    hide ChecksumOf;
    p := [if v6 then 128 else 8, 0, 0, 0];
    p := p + [id / 256, id % 256];
    p := p + [sequence / 256, sequence % 256];
    p := p + token;
    assert p == Message(if v6 then 128 else 8, 0, id, sequence, token);
    if !v6 {
      ghost var plain := p;
      var c := Checksum16(p);
      p := p[2 := c / 256][3 := c % 256];
      MessageChecks(8, id, sequence, token);
      assert p == Message(8, ChecksumOf(plain), id, sequence, token);
    }
  }

  /** With its checksum filled in, a message checks out. */
  lemma MessageChecks(kind: Byte, id: Word16, sequence: Word16, token: seq<Byte>)
    requires IsToken(token)
    ensures var c := ChecksumOf(Message(kind, 0, id, sequence, token));
            c < 65536 && ChecksumOf(Message(kind, c, id, sequence, token)) == 0
  {
    hide Sum, Fold;
    var plain := Message(kind, 0, id, sequence, token);
    var n := Sum(plain);
    var c := ChecksumOf(plain);
    SumBound(plain);
    FoldResidue(n);
    var full := Message(kind, c, id, sequence, token);
    assert full == SetWord(plain, 1, c);
    SumChanges(plain, 1, c);
    ZeroIff(full);
    if n == 0 {
      Remainder(65535, 65535, 1, 0);
    } else {
      var k := (n - 1) / 65535;
      Remainder(n + c, 65535, k + 1, 0);
    }
  }

  datatype EchoReply = EchoReply(source: seq<Byte>, id: Word16, sequence: Word16, token: seq<Byte>)

  /** Where the ICMP message of a received IPv4 packet starts. */
  function HeaderLength(packet: seq<Byte>): nat
    requires packet != []
  {
    packet[0] % 16 * 4
  }

  function ParseMessage(v6: bool, icmp: seq<Byte>, source: seq<Byte>): Option<EchoReply>
  {
    if |icmp| < 8 + TOKEN_LEN || icmp[0] != (if v6 then 129 else 0) || icmp[1] != 0 then None
    else if !v6 && ChecksumOf(icmp) != 0 then None
    else Some(EchoReply(source, 256 * icmp[4] as int + icmp[5] as int, 256 * icmp[6] as int + icmp[7] as int,
                        icmp[8..8 + TOKEN_LEN]))
  }

  /** What a raw socket received: with the IP header for IPv4, already validated
      without it for IPv6. */
  function ParseEchoReply(v6: bool, packet: seq<Byte>, from: seq<Byte>): Option<EchoReply>
  {
    if v6 then ParseMessage(true, packet, from)
    else if packet == [] || |packet| < (if HeaderLength(packet) < 20 then 20 else HeaderLength(packet)) then None
    else ParseMessage(false, packet[HeaderLength(packet)..], packet[12..16])
  }

  /** An IPv4 header of its own length, at least 20 bytes. */
  predicate IsHeader(header: seq<Byte>) { |header| >= 20 && header[0] % 16 * 4 == |header| }

  lemma HeaderSplits(header: seq<Byte>, icmp: seq<Byte>, from: seq<Byte>)
    requires IsHeader(header)
    ensures ParseEchoReply(false, header + icmp, from) == ParseMessage(false, icmp, header[12..16])
  {
    hide ParseMessage;
    var packet := header + icmp;
    assert packet[0] == header[0] && packet[HeaderLength(packet)..] == icmp && packet[12..16] == header[12..16];
  }

  /** The reply to a request is recognised, with exactly its identifier,
      sequence number and token. */
  lemma ReplyRecovered(header: seq<Byte>, from: seq<Byte>, id: Word16, sequence: Word16, token: seq<Byte>)
    requires IsHeader(header) && IsToken(token)
    ensures var c := ChecksumOf(Message(0, 0, id, sequence, token));
            c < 65536
            && ParseEchoReply(false, header + Message(0, c, id, sequence, token), from)
               == Some(EchoReply(header[12..16], id, sequence, token))
    ensures ParseEchoReply(true, Message(129, 0, id, sequence, token), from) == Some(EchoReply(from, id, sequence, token))
  {
    MessageChecks(0, id, sequence, token);
    var c := ChecksumOf(Message(0, 0, id, sequence, token));
    hide ChecksumOf, Message, ParseMessage;
    HeaderSplits(header, Message(0, c, id, sequence, token), from);
    MessageParses(false, c, id, sequence, token, header[12..16]);
    MessageParses(true, 0, id, sequence, token, from);
  }

  lemma MessageParses(v6: bool, sum: Word16, id: Word16, sequence: Word16, token: seq<Byte>, source: seq<Byte>)
    requires IsToken(token) && (v6 || ChecksumOf(Message(0, sum, id, sequence, token)) == 0)
    ensures ParseMessage(v6, Message(if v6 then 129 else 0, sum, id, sequence, token), source)
         == Some(EchoReply(source, id, sequence, token))
  {
    hide ChecksumOf;
    var icmp := Message(if v6 then 129 else 0, sum, id, sequence, token);
    assert icmp[8..8 + TOKEN_LEN] == token;
  }

  /** A reply with one word changed is rejected, unless the change is a multiple
      of 65535. */
  lemma CorruptedRejected(header: seq<Byte>, icmp: seq<Byte>, from: seq<Byte>, i: nat, w: nat)
    requires IsHeader(header) && |icmp| <= SAFE_LENGTH && 2 * i + 1 < |icmp| && w < 65536
    requires ParseEchoReply(false, header + icmp, from).Some? && (w - WordAt(icmp, i)) % 65535 != 0
    ensures ParseEchoReply(false, header + SetWord(icmp, i, w), from).None?
  {
    hide ChecksumOf, SetWord, WordAt;
    HeaderSplits(header, icmp, from);
    HeaderSplits(header, SetWord(icmp, i, w), from);
    CorruptionIff(icmp, i, w);
  }
}

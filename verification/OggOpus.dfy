/** Ogg Opus framing of one window of access units: an Ogg page writer, and the
    page and packet parser of section 6 of RFC 3533 it is proved against;
    Opus headers and granule positions are those of sections 4 and 5 of RFC 7845
    (`build_ogg_opus` and `append_ogg_page`, crates/vidarax-api/src/live_audio.rs). */
module OggOpus {
  import opened Wrappers
  import opened LiveAudio
  import opened Octets
  import OggCrc

  const OPUS_PRE_SKIP: nat := 312
  const OPUS_CLOCK_RATE: nat := 48_000
  const SERIAL: nat := 0x5649_4458
  const FIRST_PAGE: bv8 := 0x02
  const LAST_PAGE: bv8 := 0x04

  // ------------------------------------------------------------ little-endian numbers

  function Le(n: nat, width: nat): (r: seq<bv8>)
    ensures |r| == width
  {
    if width == 0 then [] else [(n % 256) as bv8] + Le(n / 256, width - 1)
  }

  function FromLe(s: seq<bv8>): nat {
    if s == [] then 0 else (s[0] as int) + 256 * FromLe(s[1..])
  }

  function Pow256(k: nat): (r: nat)
    ensures r > 0
  {
    if k == 0 then 1 else 256 * Pow256(k - 1)
  }

  lemma {:induction false} LeRoundTrips(n: nat, width: nat)
    requires n < Pow256(width)
    ensures FromLe(Le(n, width)) == n
  {
    if width > 0 {
      LeRoundTrips(n / 256, width - 1);
      assert Le(n, width)[1..] == Le(n / 256, width - 1);
      ByteRoundTrips(n % 256);
    }
  }

  /** Byte `k` is digit `k` of the number in base 256, least significant first. */
  lemma {:induction false} LeDigits(n: nat, width: nat, k: nat)
    requires k < width
    ensures Le(n, width)[k] as int == n / Pow256(k) % 256
  {
    ByteRoundTrips(n % 256);
    if k > 0 {
      LeDigits(n / 256, width - 1, k - 1);
      DigitsShift(n, Pow256(k - 1));
    }
  }

  lemma Scaled(d: nat, x: int, y: int)
    requires x <= y
    ensures d * x <= d * y
  {
  }

  lemma QuotientIs(n: nat, d: nat, q: nat, r: nat)
    requires d > 0 && n == d * q + r && r < d
    ensures n / d == q
  {
    var x := n / d;
    assert n == d * x + n % d;
    if x > q {
      Scaled(d, q + 1, x);
    } else if x < q {
      Scaled(d, x + 1, q);
    }
  }

  lemma DigitsShift(n: nat, p: nat)
    requires p > 0
    ensures n / 256 / p == n / (256 * p)
  {
    var a := n / 256;
    var q, r := a / p, a % p;
    assert a == p * q + r;
    assert n == 256 * (p * q + r) + n % 256;
    assert n == (256 * p) * q + (256 * r + n % 256);
    QuotientIs(n, 256 * p, q, 256 * r + n % 256);
  }

  lemma Widths()
    ensures Pow256(4) == TWO_32 && Pow256(8) == TWO_32 * TWO_32 && Pow256(2) == TWO_16
  {
    assert Pow256(3) == 256 * 256 * 256;
    assert Pow256(6) == 256 * 256 * Pow256(4);
  }

  // ------------------------------------------------------------ pages

  const MAGIC: seq<bv8> := [0x4f, 0x67, 0x67, 0x53]
  const ZERO4: seq<bv8> := [0, 0, 0, 0]

  /** What goes on one page. */
  datatype Sheet = Sheet(packet: seq<bv8>, granule: nat, sequence: nat, flags: bv8)

  function SegmentCount(packet: seq<bv8>): nat { |packet| / 255 + 1 }

  predicate Fits(packet: seq<bv8>) { SegmentCount(packet) <= 255 }

  function Repeat(byte: bv8, n: nat): (r: seq<bv8>)
    ensures |r| == n && forall k :: 0 <= k < n ==> r[k] == byte
  {
    seq(n, _ => byte)
  }

  /** The lacing values of one packet: full segments, then the remainder. */
  function Table(packet: seq<bv8>): (r: seq<bv8>)
    ensures |r| == SegmentCount(packet)
  {
    Repeat(255, |packet| / 255) + [(|packet| % 255) as bv8]
  }

  /** The page up to its checksum. */
  function Lead(s: Sheet): (r: seq<bv8>)
    ensures |r| == 22
  {
    MAGIC + [0, s.flags] + Le(s.granule, 8) + Le(SERIAL, 4) + Le(s.sequence, 4)
  }

  /** The page after its checksum: segment count, segment table, packet. */
  function Tail(packet: seq<bv8>): (r: seq<bv8>)
    requires Fits(packet)
    ensures |r| == 1 + SegmentCount(packet) + |packet|
  {
    [SegmentCount(packet) as bv8] + Table(packet) + packet
  }

  function PageWith(s: Sheet, crc: seq<bv8>): (r: seq<bv8>)
    requires Fits(s.packet) && |crc| == 4
    ensures |r| == 27 + SegmentCount(s.packet) + |s.packet|
  {
    Lead(s) + crc + Tail(s.packet)
  }

  function Octet0(x: bv32): bv8 { (x & 0xff) as bv8 }
  function Octet1(x: bv32): bv8 { ((x >> 8) & 0xff) as bv8 }
  function Octet2(x: bv32): bv8 { ((x >> 16) & 0xff) as bv8 }
  function Octet3(x: bv32): bv8 { ((x >> 24) & 0xff) as bv8 }

  function CrcBytes(crc: bv32): (r: seq<bv8>)
    ensures |r| == 4
  {
    [Octet0(crc), Octet1(crc), Octet2(crc), Octet3(crc)]
  }

  function PageBytes(s: Sheet): seq<bv8>
    requires Fits(s.packet)
  {
    PageWith(s, CrcBytes(OggCrc.Crc(PageWith(s, ZERO4))))
  }

  /** Exactly the packets over 65024 bytes do not fit. */
  lemma FitsUpTo65024(packet: seq<bv8>)
    ensures Fits(packet) <==> |packet| <= 65024
  {
  }

  // ------------------------------------------------------------ RFC 3533 parser

  /** Bytes that spell a text. */
  predicate Spells(bytes: seq<bv8>, text: string) {
    |bytes| == |text| && forall i :: 0 <= i < |text| ==> bytes[i] as int == text[i] as int
  }

  datatype Page = Page(flags: bv8, granule: nat, serial: nat, sequence: nat, lacing: seq<bv8>, body: seq<bv8>)

  function Sum(lacing: seq<bv8>): nat {
    if lacing == [] then 0 else Sum(lacing[..|lacing| - 1]) + (lacing[|lacing| - 1] as int)
  }

  function Zeroed(page: seq<bv8>): (r: seq<bv8>)
    requires |page| >= 27
    ensures |r| == |page|
  {
    page[..22] + ZERO4 + page[26..]
  }

  predicate ChecksumOk(page: seq<bv8>)
    requires |page| >= 27
  {
    CrcBytes(OggCrc.Crc(Zeroed(page))) == page[22..26]
  }

  /** One page at the start of the bytes, and its length. */
  function ParsePage(b: seq<bv8>): (r: Option<(Page, nat)>)
    ensures r.Some? ==> 27 <= r.value.1 <= |b|
  {
    if |b| < 27 || !Spells(b[..4], "OggS") || b[4] != 0 then None
    else
      var n := b[26] as int;
      if |b| < 27 + n then None
      else
        var lacing := b[27..27 + n];
        var total: nat := 27 + n + Sum(lacing);
        if |b| < total || !ChecksumOk(b[..total]) then None
        else
          var page := Page(b[5], FromLe(b[6..14]), FromLe(b[14..18]), FromLe(b[18..22]), lacing, b[27 + n..total]);
          var found: (Page, nat) := (page, total);
          Some(found)
  }

  /** The bits of the header type: a continued packet, and the first and the last
      page of a logical stream. */
  predicate Continued(p: Page) { p.flags & 0x01 != 0 }
  predicate Begins(p: Page) { p.flags & 0x02 != 0 }
  predicate Ends(p: Page) { p.flags & 0x04 != 0 }

  function ParsePages(b: seq<bv8>): Option<seq<Page>>
    decreases |b|
  {
    if b == [] then Some([])
    else
      match ParsePage(b)
      case None => None
      case Some((page, length)) =>
        match ParsePages(b[length..])
        case None => None
        case Some(rest) => Some([page] + rest)
  }

  /** Packets completed so far, and the one still open: a lacing value of 255
      continues the packet, any smaller one ends it. */
  datatype Demux = Demux(packets: seq<seq<bv8>>, open: seq<bv8>)

  function Lace(d: Demux, lacing: seq<bv8>, body: seq<bv8>): Demux
    decreases |lacing|
  {
    if lacing == [] then d
    else
      var n := lacing[0] as int;
      if n > |body| then d
      else
        var grown := d.open + body[..n];
        Lace(if n < 255 then Demux(d.packets + [grown], []) else d.(open := grown), lacing[1..], body[n..])
  }

  function Packets(pages: seq<Page>): Demux {
    if pages == [] then Demux([], [])
    else
      var last := pages[|pages| - 1];
      Lace(Packets(pages[..|pages| - 1]), last.lacing, last.body)
  }

  // ------------------------------------------------------------ page round trip

  function PageOf(s: Sheet): Page {
    Page(s.flags, s.granule, SERIAL, s.sequence, Table(s.packet), s.packet)
  }

  predicate Numbered(s: Sheet) { s.granule < TWO_32 * TWO_32 && s.sequence < TWO_32 }

  lemma Parts(a: seq<bv8>, x: seq<bv8>, c: seq<bv8>)
    ensures var b := a + x + c;
            b[..|a|] == a && b[|a|..|a| + |x|] == x && b[|a| + |x|..] == c
  {
  }

  lemma Within(b: seq<bv8>, i: nat, j: nat, k: nat)
    requires i <= j <= k <= |b|
    ensures b[i..][j - i..k - i] == b[j..k] && b[..k][i..j] == b[i..j] && b[i..][j - i..] == b[j..]
  {
  }

  lemma LeadFields(s: Sheet)
    ensures var h := Lead(s);
            && h[..4] == MAGIC && h[4] == 0 && h[5] == s.flags
            && h[6..14] == Le(s.granule, 8) && h[14..18] == Le(SERIAL, 4) && h[18..22] == Le(s.sequence, 4)
  {
    hide Le;
  }

  /** Setting the checksum field afterwards is writing the page with it. */
  lemma Patched(s: Sheet, crc: seq<bv8>, other: seq<bv8>)
    requires Fits(s.packet) && |crc| == 4 && |other| == 4
    ensures var p := PageWith(s, crc);
            p[22..26] == crc && p[..22] + other + p[26..] == PageWith(s, other)
  {
    hide Lead, Tail;
    Parts(Lead(s), crc, Tail(s.packet));
  }

  lemma {:induction false} SumOfRepeat(n: nat)
    ensures Sum(Repeat(255, n)) == 255 * n
  {
    if n > 0 {
      SumOfRepeat(n - 1);
      assert Repeat(255, n)[..n - 1] == Repeat(255, n - 1);
      ByteRoundTrips(255);
    }
  }

  lemma TableSums(packet: seq<bv8>)
    ensures Sum(Table(packet)) == |packet|
  {
    SumOfRepeat(|packet| / 255);
    var t := Table(packet);
    assert t[..|t| - 1] == Repeat(255, |packet| / 255);
    ByteRoundTrips(|packet| % 255);
  }

  lemma TailParts(packet: seq<bv8>, rest: seq<bv8>)
    requires Fits(packet)
    ensures var t, n := Tail(packet) + rest, SegmentCount(packet);
            t[0] == n as bv8 && t[1..1 + n] == Table(packet) && t[1 + n..1 + n + |packet|] == packet
  {
    hide Table, SegmentCount;
    ThreeParts(SegmentCount(packet) as bv8, Table(packet), packet, rest);
  }

  lemma ThreeParts(first: bv8, table: seq<bv8>, packet: seq<bv8>, rest: seq<bv8>)
    ensures var t, n := [first] + table + packet + rest, |table|;
            t[0] == first && t[1..1 + n] == table && t[1 + n..1 + n + |packet|] == packet
  {
  }

  /** Where everything is on a page that is followed by more bytes. */
  lemma PageParts(s: Sheet, crc: seq<bv8>, rest: seq<bv8>)
    requires Fits(s.packet) && |crc| == 4
    ensures var p, n := PageWith(s, crc), SegmentCount(s.packet);
            var b := p + rest;
            && b[..|p|] == p && b[|p|..] == rest && b[..22] == Lead(s)
            && b[26] == n as bv8 && b[27..27 + n] == Table(s.packet) && b[27 + n..|p|] == s.packet
  {
    hide Lead, Tail, Table, SegmentCount;
    var n := SegmentCount(s.packet);
    PageAt(Lead(s), crc, Tail(s.packet), rest, n);
    TailParts(s.packet, []);
    assert Tail(s.packet) + [] == Tail(s.packet);
  }

  lemma PageAt(lead: seq<bv8>, crc: seq<bv8>, tail: seq<bv8>, rest: seq<bv8>, n: nat)
    requires |lead| == 22 && |crc| == 4 && 1 + n <= |tail|
    ensures var p := lead + crc + tail;
            var b := p + rest;
            && b[..|p|] == p && b[|p|..] == rest && b[..22] == lead
            && b[26] == tail[0] && b[27..27 + n] == tail[1..1 + n] && b[27 + n..|p|] == tail[1 + n..]
  {
  }

  lemma LeadOfPage(b: seq<bv8>, h: seq<bv8>)
    requires |h| == 22 <= |b| && b[..22] == h
    ensures b[..4] == h[..4] && b[4] == h[4] && b[5] == h[5] && b[6..14] == h[6..14]
    ensures b[14..18] == h[14..18] && b[18..22] == h[18..22]
  {
    assert forall k :: 0 <= k < 22 ==> b[k] == h[k];
  }

  lemma MagicSpells()
    ensures Spells(MAGIC, "OggS")
  {
  }

  lemma NumbersRoundTrip(s: Sheet)
    requires Numbered(s)
    ensures FromLe(Le(s.granule, 8)) == s.granule && FromLe(Le(SERIAL, 4)) == SERIAL
            && FromLe(Le(s.sequence, 4)) == s.sequence
  {
    hide Le, FromLe, Pow256;
    Widths();
    LeRoundTrips(s.granule, 8);
    LeRoundTrips(SERIAL, 4);
    LeRoundTrips(s.sequence, 4);
  }

  lemma WrittenChecksumOk(s: Sheet)
    requires Fits(s.packet)
    ensures ChecksumOk(PageBytes(s))
  {
    hide PageWith, CrcBytes;
    Patched(s, CrcBytes(OggCrc.Crc(PageWith(s, ZERO4))), ZERO4);
  }

  /** The parser reads back every field of a written page and its packet, and
      leaves what follows. */
  lemma PageRoundTrips(s: Sheet, rest: seq<bv8>)
    requires Fits(s.packet) && Numbered(s)
    ensures ParsePage(PageBytes(s) + rest) == Some((PageOf(s), |PageBytes(s)|))
  {
    hide PageWith, Lead, Table, Le, FromLe, Sum, CrcBytes, ChecksumOk, Spells;
    var b := PageBytes(s) + rest;
    MagicSpells();
    PageParts(s, CrcBytes(OggCrc.Crc(PageWith(s, ZERO4))), rest);
    LeadOfPage(b, Lead(s));
    LeadFields(s);
    NumbersRoundTrip(s);
    TableSums(s.packet);
    WrittenChecksumOk(s);
    ByteRoundTrips(SegmentCount(s.packet));
  }

  /** A page damaged inside four consecutive bytes, wholly outside or wholly
      inside its checksum field, no longer passes its checksum. */
  lemma DamageIsDetected(page: seq<bv8>, other: seq<bv8>, i: nat)
    requires |page| == |other| >= 27 && ChecksumOk(page) && page != other
    requires OggCrc.DifferWithin(page, other, i)
    requires i + 4 <= 22 || i == 22 || i >= 26
    ensures !ChecksumOk(other)
  {
    var z, y := Zeroed(page), Zeroed(other);
    if i == 22 {
      assert z == y;
      var k :| 0 <= k < |page| && page[k] != other[k];
      assert page[22..26][k - 22] != other[22..26][k - 22];
    } else {
      assert page[22..26] == other[22..26];
      var k :| 0 <= k < |page| && page[k] != other[k];
      assert z[k] == page[k] && y[k] == other[k];
      OggCrc.BurstDetected(z, y, i);
      if ChecksumOk(other) {
        CrcBytesInjective(OggCrc.Crc(z), OggCrc.Crc(y));
        assert false;
      }
    }
  }

  /** Any damage at all: a page damaged anywhere passes its checksum if and only
      if the damage, read as a page, passes its own. */
  lemma DamagePassesExactly(page: seq<bv8>, other: seq<bv8>)
    requires |page| == |other| >= 27 && ChecksumOk(page)
    ensures ChecksumOk(other) <==> ChecksumOk(OggCrc.XorBytes(page, other))
  {
    hide CrcBytes, OggCrc.Crc, OggCrc.Xor, OggCrc.XorByte;
    var z, y, damage := Zeroed(page), Zeroed(other), OggCrc.XorBytes(page, other);
    ByteXorLaws(0, 0);
    assert Zeroed(damage) == OggCrc.XorBytes(z, y);
    OggCrc.CrcIsLinear(z, y);
    CrcBytesOfXor(OggCrc.Crc(z), OggCrc.Crc(y));
    assert damage[22..26] == OggCrc.XorBytes(page[22..26], other[22..26]);
    XorBytesCancel(page[22..26], CrcBytes(OggCrc.Crc(y)), other[22..26]);
  }

  lemma ByteXorLaws(a: bv8, b: bv8)
    ensures OggCrc.XorByte(a, a) == 0 && OggCrc.XorByte(a, OggCrc.XorByte(a, b)) == b
  {
  }

  lemma XorBytesCancel(a: seq<bv8>, x: seq<bv8>, y: seq<bv8>)
    requires |a| == |x| == |y|
    ensures OggCrc.XorBytes(a, x) == OggCrc.XorBytes(a, y) <==> x == y
    ensures OggCrc.XorBytes(a, OggCrc.XorBytes(a, x)) == x
  {
    hide OggCrc.XorByte;
    var p, q := OggCrc.XorBytes(a, x), OggCrc.XorBytes(a, y);
    forall k | 0 <= k < |a| ensures OggCrc.XorByte(a[k], p[k]) == x[k] && OggCrc.XorByte(a[k], q[k]) == y[k] {
      ByteXorLaws(a[k], x[k]);
      ByteXorLaws(a[k], y[k]);
    }
    if p == q {
      assert forall k :: 0 <= k < |a| ==> x[k] == y[k];
    }
  }

  lemma CrcBytesOfXor(x: bv32, y: bv32)
    ensures CrcBytes(OggCrc.Xor(x, y)) == OggCrc.XorBytes(CrcBytes(x), CrcBytes(y))
  {
    hide OggCrc.Xor, OggCrc.XorByte, Octet0, Octet1, Octet2, Octet3;
    Octet0OfXor(x, y);
    Octet1OfXor(x, y);
    Octet2OfXor(x, y);
    Octet3OfXor(x, y);
  }

  lemma Octet0OfXor(x: bv32, y: bv32)
    ensures Octet0(OggCrc.Xor(x, y)) == OggCrc.XorByte(Octet0(x), Octet0(y))
  {
  }

  lemma Octet1OfXor(x: bv32, y: bv32)
    ensures Octet1(OggCrc.Xor(x, y)) == OggCrc.XorByte(Octet1(x), Octet1(y))
  {
  }

  lemma Octet2OfXor(x: bv32, y: bv32)
    ensures Octet2(OggCrc.Xor(x, y)) == OggCrc.XorByte(Octet2(x), Octet2(y))
  {
  }

  lemma Octet3OfXor(x: bv32, y: bv32)
    ensures Octet3(OggCrc.Xor(x, y)) == OggCrc.XorByte(Octet3(x), Octet3(y))
  {
  }

  /** Four consecutive bytes across the edge of the checksum field. */
  function Straddling(): (r: seq<bv8>)
    ensures |r| == 31
  {
    Repeat(0, 20) + [0x81, 0x35, 0xa0, 0xd0] + Repeat(0, 7)
  }

  /** Damage to four bytes across the edge of the field can pass, so the limits
      of `DamageIsDetected` cannot be dropped. */
  lemma StraddlingDamagePasses(page: seq<bv8>)
    requires |page| == 31 && ChecksumOk(page)
    ensures var other := OggCrc.XorBytes(page, Straddling());
            other != page && OggCrc.DifferWithin(page, other, 20) && ChecksumOk(other)
  {
    hide CrcBytes, OggCrc.Crc;
    var other := OggCrc.XorBytes(page, Straddling());
    XorBytesCancel(page, Straddling(), Straddling());
    StraddlingIsAPage();
    DamagePassesExactly(page, other);
    assert Straddling()[20] == 0x81;
    ByteXorLaws(page[20], 0x81);
    assert other[20] != page[20];
    forall k | 0 <= k < 31 && !(20 <= k < 24) ensures page[k] == other[k] {
      assert Straddling()[k] == 0;
    }
  }

  lemma StraddlingIsAPage()
    ensures ChecksumOk(Straddling())
  {
    hide OggCrc.Feed, OggCrc.Bits;
    var z := Zeroed(Straddling());
    var lead, mid, tail := Repeat(0, 20), [0x81, 0x35], Repeat(0, 9);
    assert z == lead + mid + tail;
    OggCrc.CrcSplits(0, lead + mid, tail);
    OggCrc.CrcSplits(0, lead, mid);
    OggCrc.ZerosShift(0, lead);
    OggCrc.BitsOfZero(160);
    StraddlingRegister();
    assert mid[..1] == [0x81] && mid[..1][..0] == [];
    assert OggCrc.CrcFrom(0, mid) == 0x9362_1fbf;
    OggCrc.ZerosShift(0x9362_1fbf, tail);
  }

  /** The register after the two damaged bytes before the field, and after the
      nine zero bytes that follow them. */
  lemma StraddlingRegister()
    ensures OggCrc.Feed(OggCrc.Feed(0, 0x81), 0x35) == 0x9362_1fbf
    ensures OggCrc.Bits(0x9362_1fbf, 72) == 0xd0a0
  {
    hide OggCrc.Bits;
    NineBytes();
    OggCrc.BitsCompose(0x9362_1fbf, 8, 8);
    OggCrc.BitsCompose(0x9362_1fbf, 16, 8);
    OggCrc.BitsCompose(0x9362_1fbf, 24, 8);
    OggCrc.BitsCompose(0x9362_1fbf, 32, 8);
    OggCrc.BitsCompose(0x9362_1fbf, 40, 8);
    OggCrc.BitsCompose(0x9362_1fbf, 48, 8);
    OggCrc.BitsCompose(0x9362_1fbf, 56, 8);
    OggCrc.BitsCompose(0x9362_1fbf, 64, 8);
  }

  lemma NineBytes()
    ensures OggCrc.Feed(OggCrc.Feed(0, 0x81), 0x35) == 0x9362_1fbf
    ensures OggCrc.Bits(0x9362_1fbf, 8) == 0x4a41_a247
    ensures OggCrc.Bits(0x4a41_a247, 8) == 0x5aae_e1a1
    ensures OggCrc.Bits(0x5aae_e1a1, 8) == 0xf9fc_dcd1
    ensures OggCrc.Bits(0xf9fc_dcd1, 8) == 0x57ad_dc06
    ensures OggCrc.Bits(0x57ad_dc06, 8) == 0xcb0c_fd02
    ensures OggCrc.Bits(0xcb0c_fd02, 8) == 0x7a3c_59f8
    ensures OggCrc.Bits(0x7a3c_59f8, 8) == 0xf367_3331
    ensures OggCrc.Bits(0xf367_3331, 8) == 0xe3c8_ead0
    ensures OggCrc.Bits(0xe3c8_ead0, 8) == 0x0000_d0a0
  {
  }

  lemma CrcBytesInjective(x: bv32, y: bv32)
    requires CrcBytes(x) == CrcBytes(y)
    ensures x == y
  {
    var a, b := CrcBytes(x), CrcBytes(y);
    assert a[0] == b[0] && a[1] == b[1] && a[2] == b[2] && a[3] == b[3];
    OctetsDecide(x, y);
  }

  lemma OctetsDecide(x: bv32, y: bv32)
    requires Octet0(x) == Octet0(y) && Octet1(x) == Octet1(y) && Octet2(x) == Octet2(y) && Octet3(x) == Octet3(y)
    ensures x == y
  {
  }

  // ------------------------------------------------------------ packet round trip

  lemma LaceOne(d: Demux, lacing: seq<bv8>, body: seq<bv8>)
    requires lacing != [] && lacing[0] == 255 && 255 <= |body|
    ensures Lace(d, lacing, body) == Lace(d.(open := d.open + body[..255]), lacing[1..], body[255..])
  {
    ByteRoundTrips(255);
  }

  lemma LaceLast(d: Demux, r: bv8, body: seq<bv8>)
    requires |body| == r as int < 255
    ensures Lace(d, [r], body) == Demux(d.packets + [d.open + body], [])
  {
    assert body[..r as int] == body;
  }

  lemma {:induction false} LaceFull(d: Demux, n: nat, r: bv8, body: seq<bv8>)
    requires |body| == 255 * n + (r as int) && r as int < 255
    ensures Lace(d, Repeat(255, n) + [r], body) == Demux(d.packets + [d.open + body], [])
    decreases n
  {
    hide Lace;
    var lacing := Repeat(255, n) + [r];
    if n == 0 {
      LaceLast(d, r, body);
      assert lacing == [r];
    } else {
      LaceOne(d, lacing, body);
      assert lacing[1..] == Repeat(255, n - 1) + [r];
      LaceFull(d.(open := d.open + body[..255]), n - 1, r, body[255..]);
      assert d.open + body[..255] + body[255..] == d.open + body;
    }
  }

  /** A page carries exactly one whole packet. */
  lemma PageCarriesPacket(d: Demux, s: Sheet)
    requires d.open == []
    ensures Lace(d, Table(s.packet), s.packet) == Demux(d.packets + [s.packet], [])
  {
    ByteRoundTrips(|s.packet| % 255);
    LaceFull(d, |s.packet| / 255, (|s.packet| % 255) as bv8, s.packet);
    assert [] + s.packet == s.packet;
  }
}

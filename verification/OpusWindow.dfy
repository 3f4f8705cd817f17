/** One window of access units as an Ogg Opus file, and its clock
    (`build_ogg_opus` and `append_ogg_page`, crates/vidarax-api/src/live_audio.rs). */
module OpusWindow {
  import opened Wrappers
  import opened Octets
  import opened LiveAudio
  import opened OggOpus
  import OggCrc

  const MAX_SEQUENCE: nat := 0xFFFF_FFFF

  // ------------------------------------------------------------ headers

  const OPUS_HEAD: seq<bv8> := [0x4f, 0x70, 0x75, 0x73, 0x48, 0x65, 0x61, 0x64]
  const OPUS_TAGS: seq<bv8> := [0x4f, 0x70, 0x75, 0x73, 0x54, 0x61, 0x67, 0x73]
  const VENDOR: seq<bv8> := [0x76, 0x69, 0x64, 0x61, 0x72, 0x61, 0x78]

  function HeadPacket(): seq<bv8> {
    OPUS_HEAD + [1, 2] + Le(OPUS_PRE_SKIP, 2) + Le(OPUS_CLOCK_RATE, 4) + Le(0, 2) + [0]
  }

  function TagsPacket(): seq<bv8> {
    OPUS_TAGS + Le(|VENDOR|, 4) + VENDOR + Le(0, 4)
  }

  /** The identification header of section 5.1 of RFC 7845, channel mapping family 0. */
  datatype Head = Head(version: bv8, channels: bv8, preSkip: nat, inputRate: nat, gain: nat)

  function ParseHead(p: seq<bv8>): Option<Head> {
    if |p| != 19 || !Spells(p[..8], "OpusHead") || p[18] != 0 then None
    else Some(Head(p[8], p[9], FromLe(p[10..12]), FromLe(p[12..16]), FromLe(p[16..18])))
  }

  /** The comment header of section 5.2 of RFC 7845: vendor string and comment count. */
  function ParseTags(p: seq<bv8>): Option<(seq<bv8>, nat)> {
    if |p| < 16 || !Spells(p[..8], "OpusTags") then None
    else
      var n := FromLe(p[8..12]);
      if |p| < 16 + n then None else Some((p[12..12 + n], FromLe(p[12 + n..16 + n])))
  }

  lemma HeadParses()
    ensures ParseHead(HeadPacket()) == Some(Head(1, 2, 312, 48_000, 0))
  {
    hide Le, FromLe, Pow256, Spells;
    TextsSpell();
    var p := HeadPacket();
    assert p[..8] == OPUS_HEAD && p[10..12] == Le(OPUS_PRE_SKIP, 2);
    assert p[12..16] == Le(OPUS_CLOCK_RATE, 4) && p[16..18] == Le(0, 2);
    Widths();
    LeRoundTrips(OPUS_PRE_SKIP, 2);
    LeRoundTrips(OPUS_CLOCK_RATE, 4);
    LeRoundTrips(0, 2);
  }

  lemma TagsParse()
    ensures ParseTags(TagsPacket()) == Some((VENDOR, 0)) && Spells(VENDOR, "vidarax")
  {
    hide Le, FromLe, Pow256, Spells;
    TextsSpell();
    var p := TagsPacket();
    assert p[..8] == OPUS_TAGS && p[8..12] == Le(7, 4) && p[12..19] == VENDOR && p[19..23] == Le(0, 4);
    Widths();
    LeRoundTrips(7, 4);
    LeRoundTrips(0, 4);
  }

  lemma TextsSpell()
    ensures Spells(OPUS_HEAD, "OpusHead") && Spells(OPUS_TAGS, "OpusTags") && Spells(VENDOR, "vidarax")
  {
  }

  // ------------------------------------------------------------ pages of a window

  /** Ticks to the next frame, or from the previous one at the end of a window. */
  function Gap(frames: seq<Frame>, i: nat): nat
    requires i < |frames|
  {
    if i + 1 < |frames| then WrapSub(frames[i + 1].timestamp, frames[i].timestamp)
    else if i >= 1 then WrapSub(frames[i].timestamp, frames[i - 1].timestamp)
    else 960
  }

  function Granule(frames: seq<Frame>, i: nat): (g: nat)
    requires i < |frames|
    ensures g < TWO_32 * TWO_32
  {
    OPUS_PRE_SKIP + WrapSub(frames[i].timestamp, frames[0].timestamp) + Clamp(Gap(frames, i), 120, 5_760)
  }

  function FlagsAt(frames: seq<Frame>, i: nat): bv8 { if i + 1 == |frames| then LAST_PAGE else 0 }

  function PageNumber(page: nat): nat { Min(page, MAX_SEQUENCE) }

  /** The sheet of frame `n` when `page` pages come before it. */
  function FrameSheet(frames: seq<Frame>, n: nat, page: nat): Sheet
    requires n < |frames|
  {
    Sheet(frames[n].data, Granule(frames, n), PageNumber(page), FlagsAt(frames, n))
  }

  function HeaderSheets(): seq<Sheet> {
    [Sheet(HeadPacket(), 0, 0, FIRST_PAGE), Sheet(TagsPacket(), 0, 1, 0)]
  }

  /** The two headers and one sheet for each of the first `n` frames that has data. */
  function SheetsUpTo(frames: seq<Frame>, n: nat): (r: seq<Sheet>)
    requires n <= |frames|
    ensures |r| >= 2
  {
    if n == 0 then HeaderSheets()
    else
      var earlier := SheetsUpTo(frames, n - 1);
      if frames[n - 1].data == [] then earlier else earlier + [FrameSheet(frames, n - 1, |earlier|)]
  }

  function Sheets(frames: seq<Frame>): seq<Sheet> { SheetsUpTo(frames, |frames|) }

  ghost predicate AllFit(sheets: seq<Sheet>) {
    forall k :: 0 <= k < |sheets| ==> Fits(sheets[k].packet)
  }

  ghost predicate AllNumbered(sheets: seq<Sheet>) {
    forall k :: 0 <= k < |sheets| ==> Numbered(sheets[k])
  }

  function Bytes(sheets: seq<Sheet>): seq<bv8>
    requires AllFit(sheets)
  {
    if sheets == [] then [] else PageBytes(sheets[0]) + Bytes(sheets[1..])
  }

  lemma {:induction false} BytesAppend(sheets: seq<Sheet>, s: Sheet)
    requires AllFit(sheets) && Fits(s.packet)
    ensures AllFit(sheets + [s]) && Bytes(sheets + [s]) == Bytes(sheets) + PageBytes(s)
  {
    hide PageBytes;
    if sheets == [] {
      assert [s][1..] == [];
    } else {
      assert (sheets + [s])[1..] == sheets[1..] + [s];
      BytesAppend(sheets[1..], s);
    }
  }

  lemma HeadersFit()
    ensures Fits(HeadPacket()) && Fits(TagsPacket())
    ensures AllFit(HeaderSheets()) && AllNumbered(HeaderSheets())
  {
  }

  lemma HeaderPages(frames: seq<Frame>)
    ensures |SheetsUpTo(frames, 0)| == 2
  {
  }

  // ------------------------------------------------------------ the writer

  class OggFile {
    var output: seq<bv8>

    constructor ()
      ensures output == []
    {
      output := [];
    }

    /** Appends the page with a zero checksum. */
    method Emit(packet: seq<bv8>, granule: nat, sequence: nat, flags: bv8)
      requires Fits(packet)
      modifies this
      ensures output == old(output) + PageWith(Sheet(packet, granule, sequence, flags), ZERO4)
    {
      hide Le, Repeat, PageWith, Table;
      ghost var sheet := Sheet(packet, granule, sequence, flags);
      WrittenOut(output, sheet);
      output := output + MAGIC + [0] + [flags];
      output := output + Le(granule, 8) + Le(SERIAL, 4) + Le(sequence, 4) + ZERO4;
      output := output + [SegmentCount(packet) as bv8] + Repeat(255, |packet| / 255) + [(|packet| % 255) as bv8];
      output := output + packet;
    }

    /** Overwrites the checksum field of the page that starts at `pageStart`. */
    method Seal(ghost before: seq<bv8>, ghost sheet: Sheet, pageStart: nat)
      requires Fits(sheet.packet) && pageStart == |before|
      requires output == before + PageWith(sheet, ZERO4)
      modifies this
      ensures output == before + PageBytes(sheet)
    {
      hide PageWith, OggCrc.Crc, CrcBytes;
      assert output[pageStart..] == PageWith(sheet, ZERO4);
      var checksum := OggCrc.OggCrc(output[pageStart..]);
      PatchedInPlace(before, sheet, CrcBytes(checksum));
      output := output[..pageStart + 22] + CrcBytes(checksum) + output[pageStart + 26..];
    }

    /** Appends one page, or refuses a packet over 65024 bytes leaving the output as it was. */
    method AppendPage(packet: seq<bv8>, granule: nat, sequence: nat, flags: bv8) returns (ok: bool)
      modifies this
      ensures ok <==> |packet| <= 65024
      ensures output == if ok then old(output) + PageBytes(Sheet(packet, granule, sequence, flags)) else old(output)
    {
      hide PageWith, PageBytes;
      if SegmentCount(packet) > 255 {
        return false;
      }
      var pageStart := |output|;
      Emit(packet, granule, sequence, flags);
      Seal(old(output), Sheet(packet, granule, sequence, flags), pageStart);
      ok := true;
    }
  }

  lemma WrittenOut(before: seq<bv8>, s: Sheet)
    requires Fits(s.packet)
    ensures before + MAGIC + [0] + [s.flags] + Le(s.granule, 8) + Le(SERIAL, 4) + Le(s.sequence, 4) + ZERO4
            + [SegmentCount(s.packet) as bv8] + Repeat(255, |s.packet| / 255) + [(|s.packet| % 255) as bv8] + s.packet
            == before + PageWith(s, ZERO4)
  {
    hide Le, Repeat;
    var lead := Lead(s);
    assert before + MAGIC + [0] + [s.flags] + Le(s.granule, 8) + Le(SERIAL, 4) + Le(s.sequence, 4) == before + lead;
    assert Tail(s.packet) == [SegmentCount(s.packet) as bv8] + Repeat(255, |s.packet| / 255)
           + [(|s.packet| % 255) as bv8] + s.packet;
    Regroup(before + lead, ZERO4, [SegmentCount(s.packet) as bv8], Repeat(255, |s.packet| / 255),
            [(|s.packet| % 255) as bv8], s.packet);
    Regroup(before, lead, ZERO4, Tail(s.packet), [], []);
  }

  lemma Regroup(a: seq<bv8>, b: seq<bv8>, c: seq<bv8>, d: seq<bv8>, e: seq<bv8>, f: seq<bv8>)
    ensures a + b + c + d + e + f == a + b + (c + d + e + f)
    ensures a + b + c + d == a + (b + c + d)
  {
  }

  lemma PatchedInPlace(before: seq<bv8>, s: Sheet, crc: seq<bv8>)
    requires Fits(s.packet) && |crc| == 4
    ensures var out, n := before + PageWith(s, ZERO4), |before|;
            out[..n + 22] + crc + out[n + 26..] == before + PageWith(s, crc)
  {
    hide PageWith;
    Patched(s, ZERO4, crc);
    var p := PageWith(s, ZERO4);
    assert (before + p)[..|before| + 22] == before + p[..22];
    assert (before + p)[|before| + 26..] == p[26..];
    assert before + p[..22] + crc + p[26..] == before + (p[..22] + crc + p[26..]);
  }

  ghost predicate Encodable(frames: seq<Frame>) {
    forall i :: 0 <= i < |frames| ==> |frames[i].data| <= 65024
  }

  /** The output holds exactly the pages of the first `n` frames. */
  ghost predicate Written(frames: seq<Frame>, n: nat, output: seq<bv8>)
    requires n <= |frames|
  {
    AllFit(SheetsUpTo(frames, n)) && output == Bytes(SheetsUpTo(frames, n))
  }

  lemma HeadersWritten(frames: seq<Frame>)
    ensures Fits(HeadPacket()) && Fits(TagsPacket())
    ensures Written(frames, 0, [] + PageBytes(Sheet(HeadPacket(), 0, 0, FIRST_PAGE))
                    + PageBytes(Sheet(TagsPacket(), 0, 1, 0)))
  {
    hide PageBytes, HeadPacket, TagsPacket;
    HeadersFit();
    var h := HeaderSheets();
    assert h[1..] == [h[1]] && h[1..][1..] == [];
    assert Bytes(h[1..]) == PageBytes(h[1]) + [];
  }

  lemma FrameSkipped(frames: seq<Frame>, n: nat, output: seq<bv8>)
    requires n < |frames| && frames[n].data == [] && Written(frames, n, output)
    ensures Written(frames, n + 1, output) && SheetsUpTo(frames, n + 1) == SheetsUpTo(frames, n)
  {
  }

  lemma FrameWritten(frames: seq<Frame>, n: nat, output: seq<bv8>, s: Sheet)
    requires n < |frames| && frames[n].data != [] && Fits(frames[n].data) && Written(frames, n, output)
    requires s == FrameSheet(frames, n, |SheetsUpTo(frames, n)|)
    ensures |SheetsUpTo(frames, n + 1)| == |SheetsUpTo(frames, n)| + 1
    ensures Written(frames, n + 1, output + PageBytes(s))
  {
    hide PageBytes, Bytes, Granule, HeaderSheets;
    BytesAppend(SheetsUpTo(frames, n), s);
  }

  method AppendHeaders(file: OggFile, ghost frames: seq<Frame>)
    requires file.output == []
    modifies file
    ensures Written(frames, 0, file.output)
  {
    hide PageBytes, Bytes, HeadPacket, TagsPacket, SheetsUpTo, Fits, Written;
    HeadersWritten(frames);
    FitsUpTo65024(HeadPacket());
    FitsUpTo65024(TagsPacket());
    var ok := file.AppendPage(HeadPacket(), 0, 0, FIRST_PAGE);
    ok := file.AppendPage(TagsPacket(), 0, 1, 0);
  }

  /** One frame's page, unless it has no data; the number of the next page. */
  method AppendFrame(frames: seq<Frame>, index: nat, file: OggFile, sequence: nat) returns (next: Option<nat>)
    requires index < |frames| && Written(frames, index, file.output)
    requires sequence == PageNumber(|SheetsUpTo(frames, index)|)
    modifies file
    ensures next == None <==> |frames[index].data| > 65024
    ensures next.Some? ==> Written(frames, index + 1, file.output)
    ensures next.Some? ==> next.value == PageNumber(|SheetsUpTo(frames, index + 1)|)
  {
    hide PageBytes, Bytes, Granule, SheetsUpTo, Fits, Written;
    var frame := frames[index];
    if frame.data == [] {
      FrameSkipped(frames, index, file.output);
      return Some(sequence);
    }
    FitsUpTo65024(frame.data);
    ghost var before := file.output;
    var ok := file.AppendPage(frame.data, Granule(frames, index), sequence, FlagsAt(frames, index));
    if !ok {
      return None;
    }
    FrameWritten(frames, index, before, Sheet(frame.data, Granule(frames, index), sequence, FlagsAt(frames, index)));
    next := Some(if sequence < MAX_SEQUENCE then sequence + 1 else MAX_SEQUENCE);
  }

  /** Fails exactly when some frame is over 65024 bytes; otherwise the window's
      pages in order. */
  method BuildOggOpus(frames: seq<Frame>) returns (r: Option<seq<bv8>>)
    requires frames != []
    ensures r.Some? <==> Encodable(frames)
    ensures r.Some? ==> AllFit(Sheets(frames)) && r.value == Bytes(Sheets(frames)) && ReadsBack(frames, r.value)
  {
    hide Bytes, SheetsUpTo, ReadsBack, AllFit;
    var file := new OggFile();
    AppendHeaders(file, frames);
    var sequence := 2;
    assert sequence == PageNumber(|SheetsUpTo(frames, 0)|) by { HeaderPages(frames); }
    for index := 0 to |frames|
      invariant forall i :: 0 <= i < index ==> |frames[i].data| <= 65024
      invariant Written(frames, index, file.output)
      invariant sequence == PageNumber(|SheetsUpTo(frames, index)|)
    {
      var next := AppendFrame(frames, index, file, sequence);
      if next.None? {
        return None;
      }
      sequence := next.value;
    }
    WindowReadsBack(frames);
    r := Some(file.output);
  }

  // ------------------------------------------------------------ reading a window back

  function PagesOf(sheets: seq<Sheet>): seq<Page> {
    seq(|sheets|, k requires 0 <= k < |sheets| => PageOf(sheets[k]))
  }

  function PacketsOf(sheets: seq<Sheet>): seq<seq<bv8>> {
    seq(|sheets|, k requires 0 <= k < |sheets| => sheets[k].packet)
  }

  /** A written stream parses, page for page. */
  lemma {:induction false} BytesParse(sheets: seq<Sheet>)
    requires AllFit(sheets) && AllNumbered(sheets)
    ensures ParsePages(Bytes(sheets)) == Some(PagesOf(sheets))
  {
    hide PageBytes, ParsePage, PageOf, Fits, Numbered;
    if sheets == [] {
      assert PagesOf(sheets) == [];
    } else {
      var s, rest := sheets[0], sheets[1..];
      BytesParse(rest);
      PageRoundTrips(s, Bytes(rest));
      var b := Bytes(sheets);
      PageNonempty(s);
      assert b[|PageBytes(s)|..] == Bytes(rest);
      assert PagesOf(sheets) == [PageOf(s)] + PagesOf(rest);
    }
  }

  lemma PageNonempty(s: Sheet)
    requires Fits(s.packet)
    ensures |PageBytes(s)| >= 27
  {
    hide PageWith, CrcBytes;
  }

  /** Its pages carry one whole packet each, in order. */
  lemma {:induction false} PagesCarryPackets(sheets: seq<Sheet>)
    ensures Packets(PagesOf(sheets)) == Demux(PacketsOf(sheets), [])
  {
    hide Lace, Table;
    if sheets != [] {
      var n := |sheets| - 1;
      var pages := PagesOf(sheets);
      assert pages[..n] == PagesOf(sheets[..n]);
      PagesCarryPackets(sheets[..n]);
      PageCarriesPacket(Packets(pages[..n]), sheets[n]);
      assert PacketsOf(sheets) == PacketsOf(sheets[..n]) + [sheets[n].packet];
    }
  }

  /** Which of the first `n` frames have data. */
  function Kept(frames: seq<Frame>, n: nat): (r: seq<nat>)
    requires n <= |frames|
    ensures forall k :: 0 <= k < |r| ==> r[k] < n
  {
    if n == 0 then []
    else if frames[n - 1].data == [] then Kept(frames, n - 1)
    else Kept(frames, n - 1) + [n - 1]
  }

  /** Each frame with data is kept once, in order, and no other. */
  lemma {:induction false} KeptExactly(frames: seq<Frame>, n: nat)
    requires n <= |frames|
    ensures var kept := Kept(frames, n);
            && (forall k :: 0 <= k < |kept| ==> frames[kept[k]].data != [])
            && (forall j, k :: 0 <= j < k < |kept| ==> kept[j] < kept[k])
            && forall i :: 0 <= i < n && frames[i].data != [] ==> i in kept
  {
    if n > 0 {
      KeptExactly(frames, n - 1);
    }
  }

  lemma {:induction false} SheetsAre(frames: seq<Frame>, n: nat)
    requires n <= |frames|
    ensures var sheets, kept := SheetsUpTo(frames, n), Kept(frames, n);
            && |sheets| == 2 + |kept| && sheets[0] == HeaderSheets()[0] && sheets[1] == HeaderSheets()[1]
            && forall k :: 0 <= k < |kept| ==> sheets[2 + k] == FrameSheet(frames, kept[k], 2 + k)
  {
    hide HeaderSheets, FrameSheet;
    if n == 0 {
      HeaderPages(frames);
    } else {
      SheetsAre(frames, n - 1);
      var earlier, before := SheetsUpTo(frames, n - 1), Kept(frames, n - 1);
      if frames[n - 1].data == [] {
        assert SheetsUpTo(frames, n) == earlier && Kept(frames, n) == before;
      } else {
        assert SheetsUpTo(frames, n) == earlier + [FrameSheet(frames, n - 1, |earlier|)];
        assert Kept(frames, n) == before + [n - 1];
      }
    }
  }

  lemma FrameSheetFits(frames: seq<Frame>, n: nat, page: nat)
    requires n < |frames| && |frames[n].data| <= 65024
    ensures Fits(FrameSheet(frames, n, page).packet) && Numbered(FrameSheet(frames, n, page))
  {
    hide Granule;
    FitsUpTo65024(frames[n].data);
  }

  lemma {:induction false} SheetsFit(frames: seq<Frame>, n: nat)
    requires n <= |frames| && Encodable(frames)
    ensures AllFit(SheetsUpTo(frames, n)) && AllNumbered(SheetsUpTo(frames, n))
  {
    hide HeaderSheets, FrameSheet, Fits, Numbered;
    if n == 0 {
      HeadersFit();
    } else {
      SheetsFit(frames, n - 1);
      FrameSheetFits(frames, n - 1, |SheetsUpTo(frames, n - 1)|);
    }
  }

  /** The data of the frames that have any, in order. */
  function DataOf(frames: seq<Frame>): seq<seq<bv8>> {
    var kept := Kept(frames, |frames|);
    seq(|kept|, k requires 0 <= k < |kept| => frames[kept[k]].data)
  }

  /** The stream begins on page 0 alone, and ends on the page of the last frame
      if that has data. */
  ghost predicate Flagged(pages: seq<Page>, lastKept: bool) {
    forall k :: 0 <= k < |pages| ==>
      && (Begins(pages[k]) <==> k == 0)
      && (Ends(pages[k]) <==> k == |pages| - 1 && lastKept)
      && !Continued(pages[k])
  }

  /** What the bytes of a window parse as. */
  ghost predicate ReadsBack(frames: seq<Frame>, bytes: seq<bv8>)
    requires frames != []
  {
    var parsed, kept := ParsePages(bytes), Kept(frames, |frames|);
    && parsed.Some? && |parsed.value| == 2 + |kept|
    && Packets(parsed.value) == Demux([HeadPacket(), TagsPacket()] + DataOf(frames), [])
    && Flagged(parsed.value, frames[|frames| - 1].data != [])
    && (forall k :: 0 <= k < |parsed.value| ==>
          parsed.value[k].serial == 0x5649_4458 && parsed.value[k].sequence == Min(k, 0xFFFF_FFFF))
    && parsed.value[0].granule == 0 == parsed.value[1].granule
    && forall k :: 0 <= k < |kept| ==> parsed.value[2 + k].granule == Granule(frames, kept[k])
  }

  /** Whatever window was written reads back as its headers and the data of its
      frames in order, one packet a page, numbered from 0, with the first-page
      flag on page 0 alone and the last-page flag on the last page alone,
      exactly if the last frame has data. */
  lemma WindowReadsBack(frames: seq<Frame>)
    requires frames != [] && Encodable(frames)
    ensures AllFit(Sheets(frames)) && ReadsBack(frames, Bytes(Sheets(frames)))
  {
    hide HeadPacket, TagsPacket, Bytes, ParsePages, Packets, Granule, Kept, Table, SheetsUpTo;
    var sheets, kept := Sheets(frames), Kept(frames, |frames|);
    SheetsFit(frames, |frames|);
    BytesParse(sheets);
    PagesCarryPackets(sheets);
    SheetsAre(frames, |frames|);
    assert PacketsOf(sheets) == [HeadPacket(), TagsPacket()] + DataOf(frames);
    WindowFlags(frames);
    WindowNumbers(frames);
  }

  lemma WindowFlags(frames: seq<Frame>)
    requires frames != []
    ensures Flagged(PagesOf(Sheets(frames)), frames[|frames| - 1].data != [])
  {
    hide HeadPacket, TagsPacket, Kept, Granule, SheetsUpTo, Table;
    var sheets, kept, last := Sheets(frames), Kept(frames, |frames|), |frames| - 1;
    SheetsAre(frames, |frames|);
    LastKept(frames);
    forall k | 0 <= k < |sheets|
      ensures sheets[k].flags == if k == 0 then FIRST_PAGE
                                 else if k == |sheets| - 1 && frames[last].data != [] then LAST_PAGE else 0
    {
      if k >= 2 {
        assert sheets[k] == FrameSheet(frames, kept[k - 2], k);
      }
    }
    FlagBits();
  }

  lemma FlagBits()
    ensures FIRST_PAGE & 0x02 != 0 && FIRST_PAGE & 0x04 == 0 && FIRST_PAGE & 0x01 == 0
    ensures LAST_PAGE & 0x02 == 0 && LAST_PAGE & 0x04 != 0 && LAST_PAGE & 0x01 == 0
    ensures (0 as bv8) & 0x02 == 0 && (0 as bv8) & 0x04 == 0 && (0 as bv8) & 0x01 == 0
  {
  }

  lemma LastKept(frames: seq<Frame>)
    requires frames != []
    ensures var kept, last := Kept(frames, |frames|), |frames| - 1;
            && (frames[last].data != [] ==> kept != [])
            && forall k :: 0 <= k < |kept| ==> (kept[k] == last <==> k == |kept| - 1 && frames[last].data != [])
  {
  }

  lemma WindowNumbers(frames: seq<Frame>)
    requires frames != []
    ensures var sheets := Sheets(frames);
            forall k :: 0 <= k < |sheets| ==> sheets[k].sequence == PageNumber(k)
  {
    hide HeadPacket, TagsPacket, Kept, Granule, SheetsUpTo;
    var sheets, kept := Sheets(frames), Kept(frames, |frames|);
    SheetsAre(frames, |frames|);
    forall k | 2 <= k < |sheets|
      ensures sheets[k].sequence == PageNumber(k)
    {
      assert sheets[k] == FrameSheet(frames, kept[k - 2], k);
    }
  }

  // ------------------------------------------------------------ granule positions

  /** How long frame `i` lasts on the unwrapped clock. */
  function Duration(ticks: seq<int>, i: nat): int
    requires i < |ticks|
  {
    if i + 1 < |ticks| then ticks[i + 1] - ticks[i]
    else if i >= 1 then ticks[i] - ticks[i - 1]
    else 960
  }

  /** Total samples of the first `n` frames. */
  function Samples(ticks: seq<int>, n: nat): int
    requires n <= |ticks|
  {
    if n == 0 then 0 else Samples(ticks, n - 1) + Duration(ticks, n - 1)
  }

  ghost predicate Paced(frames: seq<Frame>, ticks: seq<int>) {
    && |ticks| == |frames| && Clocked(frames, ticks) && InOrder(ticks)
    && (frames != [] ==> ticks[|ticks| - 1] - ticks[0] < TWO_32)
  }

  lemma ElapsedIsExact(frames: seq<Frame>, ticks: seq<int>, i: nat, j: nat)
    requires Paced(frames, ticks) && i <= j < |frames|
    ensures WrapSub(frames[j].timestamp, frames[i].timestamp) == ticks[j] - ticks[i] >= 0
  {
    hide WrapSub;
    assert ticks[0] <= ticks[i] <= ticks[j] <= ticks[|ticks| - 1];
    WrapSubIsElapsed(ticks[i], ticks[j]);
  }

  /** Seen on the unwrapped clock, a granule position is pre-skip, elapsed
      ticks, and the clamped duration. */
  lemma GranuleUnwrapped(frames: seq<Frame>, ticks: seq<int>, i: nat)
    requires Paced(frames, ticks) && i < |frames|
    ensures Duration(ticks, i) >= 0
    ensures Granule(frames, i) == 312 + (ticks[i] - ticks[0]) + Max(120, Min(Duration(ticks, i), 5_760))
  {
    hide Clocked, InOrder, WrapSub;
    ElapsedIsExact(frames, ticks, 0, i);
    if i + 1 < |frames| {
      ElapsedIsExact(frames, ticks, i, i + 1);
    } else if i >= 1 {
      ElapsedIsExact(frames, ticks, i - 1, i);
    }
  }

  /** Granule positions never fall while the window spans less than 2^32 ticks,
      and rise whenever the clock does. */
  lemma {:induction false} GranulesRise(frames: seq<Frame>, ticks: seq<int>, i: nat, j: nat)
    requires Paced(frames, ticks) && i <= j < |frames|
    ensures Granule(frames, i) <= Granule(frames, j)
    ensures ticks[i] < ticks[j] ==> Granule(frames, i) < Granule(frames, j)
    decreases j - i
  {
    hide Clocked, InOrder, Granule;
    if i < j {
      GranuleUnwrapped(frames, ticks, i);
      GranuleUnwrapped(frames, ticks, i + 1);
      GranulesRise(frames, ticks, i + 1, j);
    }
  }

  lemma {:induction false} SamplesAreElapsed(ticks: seq<int>, n: nat)
    requires n < |ticks|
    ensures Samples(ticks, n) == ticks[n] - ticks[0]
  {
    if n > 0 {
      SamplesAreElapsed(ticks, n - 1);
    }
  }

  /** A granule position counts pre-skip and every sample up to the end of its
      frame, exactly when that frame lasts between 120 and 5760 ticks. */
  lemma GranuleCountsSamples(frames: seq<Frame>, ticks: seq<int>, i: nat)
    requires Paced(frames, ticks) && i < |frames|
    ensures Granule(frames, i) == 312 + Samples(ticks, i + 1) <==> 120 <= Duration(ticks, i) <= 5_760
  {
    hide Clocked, InOrder, Granule, Duration;
    GranuleUnwrapped(frames, ticks, i);
    SamplesAreElapsed(ticks, i);
  }
}

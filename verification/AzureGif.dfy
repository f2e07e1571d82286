/**
 The Azure GIF scanner, against the block grammar of the GIF89a specification: sections 17 to 19
 for the opening, 20 to 22 for images, 23 to 26 for extensions, 15 and 16 for data sub-blocks, 27
 for the trailer.
 */
module AzureGif {
  import opened Wrappers
  import opened Bytes
  import opened Sequences

  // ------------------------------------------------------------------ the grammar

  const GIF87A: seq<Byte> := [0x47, 0x49, 0x46, 0x38, 0x37, 0x61]
  const GIF89A: seq<Byte> := [0x47, 0x49, 0x46, 0x38, 0x39, 0x61]

  datatype Section =
    | Image(position: seq<Byte>, packed: Byte, table: seq<Byte>, codeSize: Byte, data: seq<seq<Byte>>)
    | Extension(tag: Byte, data: seq<seq<Byte>>)

  datatype Gif = Gif(
    signature: seq<Byte>, size: seq<Byte>, packed: Byte, background: Byte, aspect: Byte,
    table: seq<Byte>, sections: seq<Section>)

  /** Two to the power of one more than the index. */
  const COLORS: seq<nat> := [2, 4, 8, 16, 32, 64, 128, 256]

  /** The bytes of the color table a packed field declares. */
  function TableSize(packed: Byte): nat {
    if packed >= 0x80 then 3 * COLORS[packed % 8] else 0
  }

  predicate SubBlocksValid(data: seq<seq<Byte>>) {
    forall i :: 0 <= i < |data| ==> 0 < |data[i]| < 256
  }

  predicate SectionValid(s: Section) {
    SubBlocksValid(s.data)
    && (s.Image? ==> |s.position| == 8 && |s.table| == TableSize(s.packed))
  }

  predicate Valid(g: Gif) {
    && (g.signature == GIF87A || g.signature == GIF89A)
    && |g.size| == 4 && |g.table| == TableSize(g.packed)
    && forall i :: 0 <= i < |g.sections| ==> SectionValid(g.sections[i])
  }

  /** Data sub-blocks, each after its length, and the terminator. */
  function SubBlockBytes(data: seq<seq<Byte>>): seq<Byte>
    requires SubBlocksValid(data)
  {
    if data == [] then [0] else [|data[0]|] + data[0] + SubBlockBytes(data[1..])
  }

  function SectionBytes(s: Section): seq<Byte>
    requires SectionValid(s)
  {
    match s
    case Image(position, packed, table, codeSize, data) =>
      [0x2c] + position + [packed] + table + [codeSize] + SubBlockBytes(data)
    case Extension(tag, data) => [0x21, tag] + SubBlockBytes(data)
  }

  function SectionsBytes(sections: seq<Section>): seq<Byte>
    requires forall i :: 0 <= i < |sections| ==> SectionValid(sections[i])
  {
    if sections == [] then [0x3b] else SectionBytes(sections[0]) + SectionsBytes(sections[1..])
  }

  function OpeningBytes(g: Gif): seq<Byte> {
    g.signature + g.size + [g.packed, g.background, g.aspect] + g.table
  }

  function GifBytes(g: Gif): seq<Byte>
    requires Valid(g)
  {
    OpeningBytes(g) + SectionsBytes(g.sections)
  }

  function Images(sections: seq<Section>): nat {
    if sections == [] then 0 else (if sections[0].Image? then 1 else 0) + Images(sections[1..])
  }

  // ------------------------------------------------------------------- the scanner

  /** The offset after a terminator, if the sub-blocks end within the bytes. */
  function Skip(bytes: seq<Byte>, offset: nat): (end: Option<nat>)
    ensures end.Some? ==> offset < end.value <= |bytes|
    decreases |bytes| - offset
  {
    if offset >= |bytes| then None
    else if bytes[offset] == 0 then Some(offset + 1)
    else if offset + 1 + bytes[offset] > |bytes| then None
    else Skip(bytes, offset + 1 + bytes[offset])
  }

  /** How a scan ends: at the trailer, at an image that settles the count, or nowhere. */
  datatype Scan = Trailer(frames: nat) | Settled(frames: nat) | Malformed {
    function Frames(): Option<nat> {
      if Malformed? then None else Some(frames)
    }
  }

  function ScanFrom(bytes: seq<Byte>, offset: nat, frames: nat): Scan
    decreases |bytes| - offset
  {
    if offset >= |bytes| then Malformed
    else if bytes[offset] == 0x2c then
      if frames + 1 > 1 || offset + 10 > |bytes| then Settled(frames + 1)
      else
        var end := Skip(bytes, offset + 10 + TableSize(bytes[offset + 9]) + 1);
        if end.None? then Malformed else ScanFrom(bytes, end.value, frames + 1)
    else if bytes[offset] == 0x21 then
      var end := Skip(bytes, offset + 2);
      if end.None? then Malformed else ScanFrom(bytes, end.value, frames)
    else if bytes[offset] == 0x3b then Trailer(frames)
    else Malformed
  }

  function ScanGif(bytes: seq<Byte>): Scan {
    if |bytes| < 13 || (bytes[..6] != GIF87A && bytes[..6] != GIF89A) then Malformed
    else ScanFrom(bytes, 13 + TableSize(bytes[10]), 0)
  }

  method SkipSubBlocks(bytes: seq<Byte>, start: nat) returns (end: Option<nat>)
    ensures end == Skip(bytes, start)
  {
    var offset := start;
    while true
      invariant Skip(bytes, offset) == Skip(bytes, start)
      decreases |bytes| - offset
    {
      if offset >= |bytes| {
        return None;
      }
      var length := bytes[offset];
      offset := offset + 1;
      if length == 0 {
        return Some(offset);
      }
      offset := offset + length;
      if offset > |bytes| {
        return None;
      }
    }
  }

  method GifFrameCount(bytes: seq<Byte>) returns (r: Option<nat>)
    ensures r == ScanGif(bytes).Frames()
  {
    hide Skip;
    if |bytes| < 13 || (bytes[..6] != GIF87A && bytes[..6] != GIF89A) {
      return None;
    }
    var offset := 13;
    if bytes[10] >= 0x80 {
      offset := offset + 3 * COLORS[bytes[10] % 8];
    }
    var frames := 0;
    while offset < |bytes|
      invariant ScanFrom(bytes, offset, frames) == ScanGif(bytes)
      decreases |bytes| - offset
    {
      match bytes[offset] {
        case 0x2c =>
          frames := frames + 1;
          if frames > 1 || offset + 10 > |bytes| {
            return Some(frames);
          }
          var packed := bytes[offset + 9];
          var data := offset + 10;
          if packed >= 0x80 {
            data := data + 3 * COLORS[packed % 8];
          }
          var end := SkipSubBlocks(bytes, data + 1);
          if end.None? {
            return None;
          }
          offset := end.value;
        case 0x21 =>
          var end := SkipSubBlocks(bytes, offset + 2);
          if end.None? {
            return None;
          }
          offset := end.value;
        case 0x3b => return Some(frames);
        case _ => return None;
      }
    }
    return None;
  }

  // ---------------------------------------------------- generated bytes are counted

  lemma {:induction false} SkipsGenerated(before: seq<Byte>, data: seq<seq<Byte>>, after: seq<Byte>)
    requires SubBlocksValid(data)
    ensures Skip(before + SubBlockBytes(data) + after, |before|) == Some(|before + SubBlockBytes(data)|)
    decreases |data|
  {
    var bytes := before + SubBlockBytes(data) + after;
    if data == [] {
      assert bytes[|before|] == 0;
    } else {
      var head := [|data[0]| as Byte] + data[0];
      var rest := SubBlockBytes(data[1..]);
      assert bytes[|before|] == |data[0]|;
      SkipsGenerated(before + head, data[1..], after);
      assert bytes == (before + head) + rest + after;
      assert |before + head| == |before| + 1 + |data[0]|;
    }
  }

  /** Scanning on from a section boundary of generated bytes. */
  lemma {:induction false} ScansGenerated(before: seq<Byte>, sections: seq<Section>, after: seq<Byte>, frames: nat)
    requires forall i :: 0 <= i < |sections| ==> SectionValid(sections[i])
    requires frames <= 1
    ensures
      var total := frames + Images(sections);
      ScanFrom(before + SectionsBytes(sections) + after, |before|, frames)
        == if total <= 1 then Trailer(total) else Settled(2)
    decreases |sections|
  {
    hide SectionBytes, Skip, TableSize;
    var bytes := before + SectionsBytes(sections) + after;
    if sections == [] {
      assert bytes[|before|] == 0x3b;
    } else {
      var first := SectionBytes(sections[0]);
      var rest := SectionsBytes(sections[1..]) + after;
      assert bytes == before + first + rest;
      assert bytes == (before + first) + SectionsBytes(sections[1..]) + after;
      OneSection(before, sections[0], rest);
      if sections[0].Extension? {
        ScansGenerated(before + first, sections[1..], after, frames);
      } else if frames == 0 {
        ScansGenerated(before + first, sections[1..], after, 1);
      }
    }
  }

  /** What the scanner reads of one section. */
  lemma OneSection(before: seq<Byte>, s: Section, after: seq<Byte>)
    requires SectionValid(s)
    ensures
      var bytes, at := before + SectionBytes(s) + after, |before|;
      && at < |bytes| && bytes[at] == (if s.Image? then 0x2c else 0x21)
      && (s.Image? ==>
            && at + 10 <= |bytes|
            && Skip(bytes, at + 10 + TableSize(bytes[at + 9]) + 1) == Some(|before + SectionBytes(s)|))
      && (s.Extension? ==> Skip(bytes, at + 2) == Some(|before + SectionBytes(s)|))
  {
    hide TableSize, Skip;
    match s {
      case Image(position, packed, table, codeSize, data) =>
        OneImage(before, position, packed, table, codeSize, SubBlockBytes(data), after);
        SkipsGenerated(before + ImageHead(position, packed, table, codeSize), data, after);
        assert SectionBytes(s) == ImageHead(position, packed, table, codeSize) + SubBlockBytes(data);
        assert before + SectionBytes(s) == before + ImageHead(position, packed, table, codeSize) + SubBlockBytes(data);
      case Extension(tag, data) =>
        var head := before + [0x21, tag];
        SkipsGenerated(head, data, after);
        assert before + SectionBytes(s) + after == head + SubBlockBytes(data) + after;
        assert before + SectionBytes(s) == head + SubBlockBytes(data);
    }
  }

  function ImageHead(position: seq<Byte>, packed: Byte, table: seq<Byte>, codeSize: Byte): seq<Byte> {
    [0x2c] + position + [packed] + table + [codeSize]
  }

  lemma OneImage(
    before: seq<Byte>, position: seq<Byte>, packed: Byte, table: seq<Byte>, codeSize: Byte, data: seq<Byte>,
      after: seq<Byte>)
    requires |position| == 8
    ensures
      var head := ImageHead(position, packed, table, codeSize);
      var bytes, at := before + head + data + after, |before|;
      && bytes[at] == 0x2c && bytes[at + 9] == packed && |before + head| == at + 10 + |table| + 1
      && at + 10 <= |bytes|
  {
    var head := ImageHead(position, packed, table, codeSize);
    assert head[0] == 0x2c && head[9] == packed;
    assert forall k :: 0 <= k < |head| ==> (before + head + data + after)[|before| + k] == head[k];
  }

  /** On bytes generated by the grammar the scanner counts the images, stopping at the second. */
  lemma GeneratedGifIsCounted(g: Gif, after: seq<Byte>)
    requires Valid(g)
    ensures
      var n := Images(g.sections);
      ScanGif(GifBytes(g) + after) == if n <= 1 then Trailer(n) else Settled(2)
    ensures ScanGif(GifBytes(g) + after).Frames() == Some(if Images(g.sections) < 2 then Images(g.sections) else 2)
  {
    hide TableSize;
    var opening := OpeningBytes(g);
    var bytes := GifBytes(g) + after;
    assert bytes == opening + SectionsBytes(g.sections) + after;
    assert bytes[..6] == g.signature && bytes[10] == g.packed;
    SectionsAreNotEmpty(g.sections);
    ScansGenerated(opening, g.sections, after, 0);
  }

  lemma SectionsAreNotEmpty(sections: seq<Section>)
    requires forall i :: 0 <= i < |sections| ==> SectionValid(sections[i])
    ensures |SectionsBytes(sections)| >= 1
  {
  }

  // ------------------------------------------------------ a trailer means the grammar

  lemma {:induction false} SkippedAreSubBlocks(bytes: seq<Byte>, offset: nat) returns (data: seq<seq<Byte>>)
    requires Skip(bytes, offset).Some?
    ensures SubBlocksValid(data) && bytes[offset..Skip(bytes, offset).value] == SubBlockBytes(data)
    decreases |bytes| - offset
  {
    var end := Skip(bytes, offset).value;
    if bytes[offset] == 0 {
      data := [];
      assert bytes[offset..end] == [0];
    } else {
      var next := offset + 1 + bytes[offset];
      var rest := SkippedAreSubBlocks(bytes, next);
      var first := bytes[offset + 1..next];
      data := [first] + rest;
      assert data[1..] == rest;
      assert bytes[offset..end] == [bytes[offset]] + first + bytes[next..end];
    }
  }

  lemma {:induction false} TrailerMeansSections(bytes: seq<Byte>, offset: nat, frames: nat)
    returns (sections: seq<Section>, end: nat)
    requires ScanFrom(bytes, offset, frames).Trailer?
    ensures forall i :: 0 <= i < |sections| ==> SectionValid(sections[i])
    ensures offset <= end <= |bytes| && bytes[offset..end] == SectionsBytes(sections)
    ensures ScanFrom(bytes, offset, frames).frames == frames + Images(sections)
    decreases |bytes| - offset
  {
    hide SectionBytes, TableSize, Skip;
    if bytes[offset] == 0x3b {
      sections, end := [], offset + 1;
      assert bytes[offset..end] == [0x3b];
    } else {
      var first, next := ScannedSection(bytes, offset);
      var rest;
      rest, end := TrailerMeansSections(bytes, next, if first.Image? then frames + 1 else frames);
      sections := [first] + rest;
      assert sections[1..] == rest;
      assert bytes[offset..end] == bytes[offset..next] + bytes[next..end];
    }
  }

  /** The section the scanner has just passed. */
  lemma ScannedSection(bytes: seq<Byte>, offset: nat) returns (s: Section, end: nat)
    requires offset < |bytes|
    requires bytes[offset] == 0x2c ==>
      offset + 10 <= |bytes| && Skip(bytes, offset + 10 + TableSize(bytes[offset + 9]) + 1).Some?
    requires bytes[offset] != 0x2c ==> bytes[offset] == 0x21 && Skip(bytes, offset + 2).Some?
    ensures s.Image? <==> bytes[offset] == 0x2c
    ensures s.Image? ==> Skip(bytes, offset + 10 + TableSize(bytes[offset + 9]) + 1) == Some(end)
    ensures s.Extension? ==> Skip(bytes, offset + 2) == Some(end)
    ensures offset < end <= |bytes| && SectionValid(s) && bytes[offset..end] == SectionBytes(s)
  {
    hide TableSize;
    if bytes[offset] == 0x2c {
      var table := offset + 10;
      var code := table + TableSize(bytes[offset + 9]);
      end := Skip(bytes, code + 1).value;
      var data := SkippedAreSubBlocks(bytes, code + 1);
      s := Image(bytes[offset + 1..offset + 9], bytes[offset + 9], bytes[table..code], bytes[code], data);
      assert bytes[offset..end] == [0x2c] + bytes[offset + 1..offset + 9] + [bytes[offset + 9]]
        + bytes[table..code] + [bytes[code]] + bytes[code + 1..end];
    } else {
      end := Skip(bytes, offset + 2).value;
      var data := SkippedAreSubBlocks(bytes, offset + 2);
      s := Extension(bytes[offset + 1], data);
      assert bytes[offset..end] == [0x21, bytes[offset + 1]] + bytes[offset + 2..end];
    }
  }

  /** A count reached at the trailer is the number of images of a GIF the bytes begin with. */
  lemma TrailerMeansGif(bytes: seq<Byte>) returns (g: Gif, after: seq<Byte>)
    requires ScanGif(bytes).Trailer?
    ensures Valid(g) && bytes == GifBytes(g) + after && Images(g.sections) == ScanGif(bytes).frames
  {
    hide TableSize, SectionsBytes;
    var start := 13 + TableSize(bytes[10]);
    var sections, end := TrailerMeansSections(bytes, start, 0);
    g := Gif(bytes[..6], bytes[6..10], bytes[10], bytes[11], bytes[12], bytes[13..start], sections);
    after := bytes[end..];
    assert OpeningBytes(g) == bytes[..start];
    assert bytes == bytes[..start] + bytes[start..end] + after;
  }
}

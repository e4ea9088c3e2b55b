/**
 * What the table of signatures and the allowlists come to, type by type: which leading bytes pass under which
 * declared type, and which types a context admits.
 */
module MagicTable {
  import opened Base
  import opened Admission

  /** The buffer holds these bytes at this offset. */
  predicate Carries(buffer: Bytes, offset: nat, bytes: Bytes) {
    offset + |bytes| <= |buffer| && buffer[offset..offset + |bytes|] == bytes
  }

  lemma EntryCarries(buffer: Bytes, entry: Entry)
    ensures MatchesEntry(buffer, entry) <==> Carries(buffer, entry.offset, entry.bytes)
  {
    if Carries(buffer, entry.offset, entry.bytes) {
      forall i | 0 <= i < |entry.bytes| ensures buffer[entry.offset + i] == entry.bytes[i] {
        assert buffer[entry.offset..entry.offset + |entry.bytes|][i] == entry.bytes[i];
      }
    }
  }

  lemma SingleCarries(buffer: Bytes, offset: nat, bytes: Bytes)
    requires offset + |bytes| <= MAX_MAGIC_BYTES
    ensures MatchesSignature(buffer, Single(offset, bytes)) <==> Carries(buffer, offset, bytes)
  {
    EntryCarries(buffer, Entry(offset, bytes));
    assert Single(offset, bytes)[0] == Entry(offset, bytes);
  }

  lemma PairCarries(buffer: Bytes, first: Bytes, second: Bytes)
    requires |first| <= 8 && |second| <= 8
    ensures MatchesSignature(buffer, Single(0, first) + Single(8, second))
       <==> Carries(buffer, 0, first) && Carries(buffer, 8, second)
  {
    var signature := Single(0, first) + Single(8, second);
    EntryCarries(buffer, Entry(0, first));
    EntryCarries(buffer, Entry(8, second));
    assert signature[0] == Entry(0, first) && signature[1] == Entry(8, second);
  }

  lemma AnyOf(buffer: Bytes, first: Signature, rest: seq<Signature>)
    ensures MatchesAny(buffer, [first] + rest) <==> MatchesSignature(buffer, first) || MatchesAny(buffer, rest)
  {
    var all := [first] + rest;
    if MatchesSignature(buffer, first) {
      assert MatchesSignature(buffer, all[0]);
    }
    if MatchesAny(buffer, rest) {
      var i :| 0 <= i < |rest| && MatchesSignature(buffer, rest[i]);
      assert all[i + 1] == rest[i];
    }
  }

  lemma OneOf(buffer: Bytes, only: Signature)
    ensures MatchesAny(buffer, [only]) <==> MatchesSignature(buffer, only)
  {
    assert [only] + [] == [only];
    AnyOf(buffer, only, []);
  }

  lemma EitherOf(buffer: Bytes, a: Signature, b: Signature)
    ensures MatchesAny(buffer, [a, b]) <==> MatchesSignature(buffer, a) || MatchesSignature(buffer, b)
  {
    assert [a] + [b] == [a, b];
    AnyOf(buffer, a, [b]);
    OneOf(buffer, b);
  }

  // A declared type in its plain form is checked against its own signatures, on the whole buffer.
  lemma Checked(buffer: Bytes, mime: string, signatures: seq<Signature>)
    requires Plain(mime) && Signatures(mime) == Some(signatures)
    ensures MagicOk(buffer, mime) <==> MatchesAny(buffer, signatures)
  {
    NormalisePlain(mime);
    HeaderDecides(buffer, signatures);
  }

  lemma CheckedOne(buffer: Bytes, mime: string, offset: nat, bytes: Bytes)
    requires offset + |bytes| <= MAX_MAGIC_BYTES
    requires Plain(mime) && Signatures(mime) == Some([Single(offset, bytes)])
    ensures MagicOk(buffer, mime) <==> Carries(buffer, offset, bytes)
  {
    hide MagicOk, Signatures, Plain, MatchesAny, MatchesSignature, Carries;
    Checked(buffer, mime, [Single(offset, bytes)]);
    OneOf(buffer, Single(offset, bytes));
    SingleCarries(buffer, offset, bytes);
  }

  // ----- type by type -----

  // Which images pass.
  lemma PhotosCarry(buffer: Bytes)
    ensures MagicOk(buffer, "image/jpeg") <==> Carries(buffer, 0, [0xff, 0xd8, 0xff])
    ensures MagicOk(buffer, "image/png") <==> Carries(buffer, 0, [0x89, 0x50, 0x4e, 0x47, 0x0d, 0x0a, 0x1a, 0x0a])
    ensures MagicOk(buffer, "image/gif") <==> Carries(buffer, 0, [0x47, 0x49, 0x46, 0x38])
    ensures MagicOk(buffer, "image/webp")
       <==> Carries(buffer, 0, [0x52, 0x49, 0x46, 0x46]) && Carries(buffer, 8, [0x57, 0x45, 0x42, 0x50])
  {
    hide MagicOk, MatchesAny, MatchesSignature, Carries;
    CheckedOne(buffer, "image/jpeg", 0, [0xff, 0xd8, 0xff]);
    CheckedOne(buffer, "image/png", 0, [0x89, 0x50, 0x4e, 0x47, 0x0d, 0x0a, 0x1a, 0x0a]);
    CheckedOne(buffer, "image/gif", 0, [0x47, 0x49, 0x46, 0x38]);
    Checked(buffer, "image/webp", [Single(0, RIFF) + Single(8, WEBP)]);
    OneOf(buffer, Single(0, RIFF) + Single(8, WEBP));
    PairCarries(buffer, RIFF, WEBP);
  }

  // The images in an ISO container, by their brand: heic, heix, hevc; mif1, msf1.
  lemma HeifCarry(buffer: Bytes)
    ensures MagicOk(buffer, "image/heic")
       <==> || Carries(buffer, 4, [0x66, 0x74, 0x79, 0x70, 0x68, 0x65, 0x69, 0x63])
            || Carries(buffer, 4, [0x66, 0x74, 0x79, 0x70, 0x68, 0x65, 0x69, 0x78])
            || Carries(buffer, 4, [0x66, 0x74, 0x79, 0x70, 0x68, 0x65, 0x76, 0x63])
    ensures MagicOk(buffer, "image/heif")
       <==> || Carries(buffer, 4, [0x66, 0x74, 0x79, 0x70, 0x6d, 0x69, 0x66, 0x31])
            || Carries(buffer, 4, [0x66, 0x74, 0x79, 0x70, 0x6d, 0x73, 0x66, 0x31])
  {
    hide MagicOk, MatchesAny, MatchesSignature, Carries;
    var heic, heix := Brand([0x68, 0x65, 0x69, 0x63]), Brand([0x68, 0x65, 0x69, 0x78]);
    var hevc := Brand([0x68, 0x65, 0x76, 0x63]);
    var mif1, msf1 := Brand([0x6d, 0x69, 0x66, 0x31]), Brand([0x6d, 0x73, 0x66, 0x31]);
    Checked(buffer, "image/heic", [heic, heix, hevc]);
    assert [heic] + [heix, hevc] == [heic, heix, hevc];
    AnyOf(buffer, heic, [heix, hevc]);
    EitherOf(buffer, heix, hevc);
    Checked(buffer, "image/heif", [mif1, msf1]);
    EitherOf(buffer, mif1, msf1);
    BrandCarries(buffer, [0x68, 0x65, 0x69, 0x63], [0x66, 0x74, 0x79, 0x70, 0x68, 0x65, 0x69, 0x63]);
    BrandCarries(buffer, [0x68, 0x65, 0x69, 0x78], [0x66, 0x74, 0x79, 0x70, 0x68, 0x65, 0x69, 0x78]);
    BrandCarries(buffer, [0x68, 0x65, 0x76, 0x63], [0x66, 0x74, 0x79, 0x70, 0x68, 0x65, 0x76, 0x63]);
    BrandCarries(buffer, [0x6d, 0x69, 0x66, 0x31], [0x66, 0x74, 0x79, 0x70, 0x6d, 0x69, 0x66, 0x31]);
    BrandCarries(buffer, [0x6d, 0x73, 0x66, 0x31], [0x66, 0x74, 0x79, 0x70, 0x6d, 0x73, 0x66, 0x31]);
  }

  lemma BrandCarries(buffer: Bytes, brand: Bytes, box: Bytes)
    requires |brand| <= 4 && box == [0x66, 0x74, 0x79, 0x70] + brand
    ensures MatchesSignature(buffer, Brand(brand)) <==> Carries(buffer, 4, box)
  {
    SingleCarries(buffer, 4, FTYP + brand);
  }

  lemma CheckedBrand(buffer: Bytes, mime: string, brand: Bytes, box: Bytes)
    requires |brand| <= 4 && box == [0x66, 0x74, 0x79, 0x70] + brand
    requires Plain(mime) && Signatures(mime) == Some([Brand(brand)])
    ensures MagicOk(buffer, mime) <==> Carries(buffer, 4, box)
  {
    hide MagicOk, Signatures, Plain, MatchesAny, MatchesSignature, Carries;
    Checked(buffer, mime, [Brand(brand)]);
    OneOf(buffer, Brand(brand));
    BrandCarries(buffer, brand, box);
  }

  // Which videos pass.
  lemma VideosCarry(buffer: Bytes)
    ensures MagicOk(buffer, "video/mp4") <==> Carries(buffer, 4, [0x66, 0x74, 0x79, 0x70])
    ensures MagicOk(buffer, "video/quicktime") <==> Carries(buffer, 4, [0x66, 0x74, 0x79, 0x70, 0x71, 0x74])
    ensures MagicOk(buffer, "video/webm") <==> Carries(buffer, 0, [0x1a, 0x45, 0xdf, 0xa3])
    ensures MagicOk(buffer, "video/x-matroska") <==> Carries(buffer, 0, [0x1a, 0x45, 0xdf, 0xa3])
  {
    hide MagicOk, MatchesAny, MatchesSignature, Carries;
    CheckedBrand(buffer, "video/mp4", [], [0x66, 0x74, 0x79, 0x70]);
    CheckedBrand(buffer, "video/quicktime", [0x71, 0x74], [0x66, 0x74, 0x79, 0x70, 0x71, 0x74]);
    CheckedOne(buffer, "video/webm", 0, EBML);
    CheckedOne(buffer, "video/x-matroska", 0, EBML);
  }

  // Which sounds pass.
  lemma SoundsCarry(buffer: Bytes)
    ensures MagicOk(buffer, "audio/ogg") <==> Carries(buffer, 0, [0x4f, 0x67, 0x67, 0x53])
    ensures MagicOk(buffer, "audio/wav")
       <==> Carries(buffer, 0, [0x52, 0x49, 0x46, 0x46]) && Carries(buffer, 8, [0x57, 0x41, 0x56, 0x45])
    ensures MagicOk(buffer, "audio/mp4") <==> Carries(buffer, 4, [0x66, 0x74, 0x79, 0x70])
    ensures MagicOk(buffer, "audio/aac") <==> Carries(buffer, 0, [0xff, 0xf1]) || Carries(buffer, 0, [0xff, 0xf9])
  {
    hide MagicOk, Signatures, Carries;
    OggIs();
    CheckedOne(buffer, "audio/ogg", 0, [0x4f, 0x67, 0x67, 0x53]);
    WavCarries(buffer);
    Mp4Carries(buffer);
    AacCarries(buffer);
  }

  lemma OggIs()
    ensures Plain("audio/ogg") && Signatures("audio/ogg") == Some([Single(0, [0x4f, 0x67, 0x67, 0x53])])
  {}

  lemma WavCarries(buffer: Bytes)
    ensures MagicOk(buffer, "audio/wav")
       <==> Carries(buffer, 0, [0x52, 0x49, 0x46, 0x46]) && Carries(buffer, 8, [0x57, 0x41, 0x56, 0x45])
  {
    hide MagicOk, MatchesAny, MatchesSignature, Carries;
    Checked(buffer, "audio/wav", [Single(0, RIFF) + Single(8, WAVE)]);
    OneOf(buffer, Single(0, RIFF) + Single(8, WAVE));
    PairCarries(buffer, RIFF, WAVE);
  }

  lemma Mp4Carries(buffer: Bytes)
    ensures MagicOk(buffer, "audio/mp4") <==> Carries(buffer, 4, [0x66, 0x74, 0x79, 0x70])
  {
    hide MagicOk, MatchesAny, MatchesSignature, Carries;
    CheckedBrand(buffer, "audio/mp4", [], [0x66, 0x74, 0x79, 0x70]);
  }

  lemma AacCarries(buffer: Bytes)
    ensures MagicOk(buffer, "audio/aac") <==> Carries(buffer, 0, [0xff, 0xf1]) || Carries(buffer, 0, [0xff, 0xf9])
  {
    hide MagicOk, MatchesAny, MatchesSignature, Carries;
    Checked(buffer, "audio/aac", [Single(0, [0xff, 0xf1]), Single(0, [0xff, 0xf9])]);
    EitherOf(buffer, Single(0, [0xff, 0xf1]), Single(0, [0xff, 0xf9]));
    SingleCarries(buffer, 0, [0xff, 0xf1]);
    SingleCarries(buffer, 0, [0xff, 0xf9]);
  }

  // MPEG audio starts with one of three frame headers or with an ID3 tag.
  lemma MpegCarries(buffer: Bytes)
    ensures MagicOk(buffer, "audio/mpeg")
       <==> || Carries(buffer, 0, [0xff, 0xfb]) || Carries(buffer, 0, [0xff, 0xf3]) || Carries(buffer, 0, [0xff, 0xf2])
            || Carries(buffer, 0, [0x49, 0x44, 0x33])
  {
    hide MagicOk, MatchesAny, MatchesSignature, Carries;
    var a, b, c := Single(0, [0xff, 0xfb]), Single(0, [0xff, 0xf3]), Single(0, [0xff, 0xf2]);
    var d := Single(0, [0x49, 0x44, 0x33]);
    Checked(buffer, "audio/mpeg", [a, b, c, d]);
    assert [a] + [b, c, d] == [a, b, c, d] && [b] + [c, d] == [b, c, d];
    AnyOf(buffer, a, [b, c, d]);
    AnyOf(buffer, b, [c, d]);
    EitherOf(buffer, c, d);
    SingleCarries(buffer, 0, [0xff, 0xfb]);
    SingleCarries(buffer, 0, [0xff, 0xf3]);
    SingleCarries(buffer, 0, [0xff, 0xf2]);
    SingleCarries(buffer, 0, [0x49, 0x44, 0x33]);
  }

  const OFFICE: string := "application/vnd.openxmlformats-officedocument."

  lemma OfficeIsOpenXml()
    ensures OFFICE == OPENXML
  {
    assert "application/vnd." + "openxmlformats-" == "application/vnd.openxmlformats-";
    assert "application/vnd.openxmlformats-" + "officedocument." == OFFICE;
  }

  // Which documents pass: PDF, the old Word format, and what is a ZIP archive.
  lemma DocumentsCarry(buffer: Bytes)
    ensures MagicOk(buffer, "application/pdf") <==> Carries(buffer, 0, [0x25, 0x50, 0x44, 0x46])
    ensures MagicOk(buffer, "application/msword")
       <==> Carries(buffer, 0, [0xd0, 0xcf, 0x11, 0xe0, 0xa1, 0xb1, 0x1a, 0xe1])
    ensures MagicOk(buffer, "application/zip") <==> Carries(buffer, 0, [0x50, 0x4b, 0x03, 0x04])
  {
    hide MagicOk, MatchesAny, MatchesSignature, Carries;
    CheckedOne(buffer, "application/pdf", 0, [0x25, 0x50, 0x44, 0x46]);
    CheckedOne(buffer, "application/msword", 0, [0xd0, 0xcf, 0x11, 0xe0, 0xa1, 0xb1, 0x1a, 0xe1]);
    ArchiveCarries(buffer);
  }

  lemma ArchiveCarries(buffer: Bytes)
    ensures MagicOk(buffer, "application/zip") <==> Carries(buffer, 0, [0x50, 0x4b, 0x03, 0x04])
  {
    hide MagicOk, MatchesAny, MatchesSignature, Carries;
    assert "application/zip" == ZIP_TYPES[3];
    hide ZIP_TYPES;
    OnlyZip("application/zip");
    CheckedOne(buffer, "application/zip", 0, PK);
  }

  lemma OfficeCarries(buffer: Bytes, kind: string)
    requires kind in {"wordprocessingml.document", "spreadsheetml.sheet", "presentationml.presentation"}
    ensures MagicOk(buffer, OFFICE + kind) <==> Carries(buffer, 0, [0x50, 0x4b, 0x03, 0x04])
  {
    hide MagicOk, MatchesAny, MatchesSignature, Carries;
    OfficeIsOpenXml();
    var mime := OPENXML + kind;
    assert mime == ZIP_TYPES[0] || mime == ZIP_TYPES[1] || mime == ZIP_TYPES[2];
    ZipPlain(mime);
    OnlyZip(mime);
    CheckedOne(buffer, mime, 0, PK);
  }

  // A type of an archive is none of the others: it starts with other letters or is longer.
  lemma OnlyZip(mime: string)
    requires mime in ZIP_TYPES
    ensures Signatures(mime) == Some([Single(0, PK)])
  {
    assert mime[0] == 'a' && mime[1] == 'p';
  }

  // ----- which types a context admits -----

  lemma ImageTypes(mime: string)
    ensures mime in Allowlist(Avatar) <==>
      mime in {"image/jpeg", "image/png", "image/gif", "image/webp", "image/heic", "image/heif"}
    ensures mime in Allowlist(GroupIcon) <==> mime in Allowlist(Avatar)
    ensures mime in IMAGE_TYPES <==> mime in Allowlist(Avatar)
  {}

  // A message may be any image, a video, a sound, a document, an archive, or an opaque blob.
  lemma MessageTypes(mime: string)
    ensures mime in Allowlist(Message) <==>
      || mime in Allowlist(Avatar)
      || mime in {"video/mp4", "video/quicktime", "video/webm", "video/x-matroska",
                  "audio/mpeg", "audio/ogg", "audio/wav", "audio/mp4", "audio/aac",
                  "application/pdf", "application/msword", "application/zip", "application/octet-stream"}
      || mime in {OFFICE + "wordprocessingml.document", OFFICE + "spreadsheetml.sheet",
                  OFFICE + "presentationml.presentation"}
  {
    OfficeIsOpenXml();
    hide OPENXML, OFFICE;
  }
}

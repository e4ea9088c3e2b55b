/** What an upload must satisfy before it may be stored: size limits, allowlists and magic bytes. */
module Admission {
  import opened Base

  datatype Context = Message | Avatar | GroupIcon

  const UPLOAD_MAX_BYTES: nat := 100 * 1024 * 1024
  const THUMBNAIL_MAX_BYTES: nat := 5 * 1024 * 1024
  const OCTET_STREAM: string := "application/octet-stream"

  function SizeLimit(context: Context): nat {
    match context
    case Message => 100 * 1024 * 1024
    case Avatar => 5 * 1024 * 1024
    case GroupIcon => 5 * 1024 * 1024
  }

  predicate PublicReadable(context: Context) {
    context == Avatar || context == GroupIcon
  }

  const IMAGE_TYPES: seq<string> :=
    ["image/jpeg", "image/png", "image/gif", "image/webp", "image/heic", "image/heif"]

  const OPENXML: string := "application/vnd." + "openxmlformats-" + "officedocument."

  const ZIP_TYPES: seq<string> :=
    [OPENXML + "wordprocessingml.document",
     OPENXML + "spreadsheetml.sheet",
     OPENXML + "presentationml.presentation",
     "application/zip"]

  const AV_TYPES: seq<string> :=
    ["video/mp4", "video/quicktime", "video/webm", "video/x-matroska",
     "audio/mpeg", "audio/ogg", "audio/wav", "audio/mp4", "audio/aac"]

  const OTHER_TYPES: seq<string> := ["application/pdf", "application/msword", OCTET_STREAM]

  const MESSAGE_TYPES: seq<string> := IMAGE_TYPES + AV_TYPES + ZIP_TYPES + OTHER_TYPES

  function Allowlist(context: Context): seq<string> {
    match context
    case Message => MESSAGE_TYPES
    case Avatar => IMAGE_TYPES
    case GroupIcon => IMAGE_TYPES
  }

  // ----- MIME normalisation -----

  /** The characters that `String.prototype.trim` strips. */
  predicate IsSpace(c: char) {
    || '\U{0009}' <= c <= '\U{000D}' || c == ' ' || c == '\U{00A0}' || c == '\U{1680}'
    || '\U{2000}' <= c <= '\U{200A}' || c == '\U{2028}' || c == '\U{2029}' || c == '\U{202F}'
    || c == '\U{205F}' || c == '\U{3000}' || c == '\U{FEFF}'
  }

  function TrimLeft(s: string): string {
    if s != "" && IsSpace(s[0]) then TrimLeft(s[1..]) else s
  }

  function TrimRight(s: string): string {
    if s != "" && IsSpace(s[|s| - 1]) then TrimRight(s[..|s| - 1]) else s
  }

  function Trim(s: string): string {
    TrimRight(TrimLeft(s))
  }

  function LowerChar(c: char): char {
    if 'A' <= c <= 'Z' then (c as int + 32) as char else c
  }

  function Lower(s: string): string {
    seq(|s|, i requires 0 <= i < |s| => LowerChar(s[i]))
  }

  /** `s.split(c)[0]` */
  function Before(s: string, c: char): string {
    if s == "" || s[0] == c then "" else [s[0]] + Before(s[1..], c)
  }

  function Normalise(mime: string): string {
    Lower(Trim(Before(mime, ';')))
  }

  // ----- magic bytes -----

  /** Number of leading bytes that are looked at. */
  const MAX_MAGIC_BYTES: nat := 16

  datatype RawEntry = Entry(offset: nat, bytes: Bytes)

  /** Every entry of the table lies within the bytes that are looked at. */
  type Entry = e: RawEntry | e.offset + |e.bytes| <= MAX_MAGIC_BYTES witness Entry(0, [])

  /** A signature matches when all its entries do. */
  type Signature = seq<Entry>

  const FTYP: Bytes := [0x66, 0x74, 0x79, 0x70]
  const RIFF: Bytes := [0x52, 0x49, 0x46, 0x46]
  const WEBP: Bytes := [0x57, 0x45, 0x42, 0x50]
  const WAVE: Bytes := [0x57, 0x41, 0x56, 0x45]
  const EBML: Bytes := [0x1a, 0x45, 0xdf, 0xa3]
  const PK: Bytes := [0x50, 0x4b, 0x03, 0x04]

  function Single(offset: nat, bytes: Bytes): (s: Signature)
    requires offset + |bytes| <= MAX_MAGIC_BYTES
  {
    [Entry(offset, bytes)]
  }

  function Brand(brand: Bytes): Signature
    requires |brand| <= 4
  {
    Single(4, FTYP + brand)
  }

  function ImageSignatures(mime: string): Option<seq<Signature>> {
    if mime == "image/jpeg" then Some([Single(0, [0xff, 0xd8, 0xff])])
    else if mime == "image/png" then Some([Single(0, [0x89, 0x50, 0x4e, 0x47, 0x0d, 0x0a, 0x1a, 0x0a])])
    else if mime == "image/gif" then Some([Single(0, [0x47, 0x49, 0x46, 0x38])])
    else if mime == "image/webp" then Some([Single(0, RIFF) + Single(8, WEBP)])
    else if mime == "image/heic" then
      Some([Brand([0x68, 0x65, 0x69, 0x63]), Brand([0x68, 0x65, 0x69, 0x78]), Brand([0x68, 0x65, 0x76, 0x63])])
    else if mime == "image/heif" then
      Some([Brand([0x6d, 0x69, 0x66, 0x31]), Brand([0x6d, 0x73, 0x66, 0x31])])
    else None
  }

  function AudioVideoSignatures(mime: string): Option<seq<Signature>> {
    if mime == "video/mp4" then Some([Brand([])])
    else if mime == "video/quicktime" then Some([Brand([0x71, 0x74])])
    else if mime == "video/webm" then Some([Single(0, EBML)])
    else if mime == "video/x-matroska" then Some([Single(0, EBML)])
    else if mime == "audio/mpeg" then
      Some([Single(0, [0xff, 0xfb]), Single(0, [0xff, 0xf3]), Single(0, [0xff, 0xf2]), Single(0, [0x49, 0x44, 0x33])])
    else if mime == "audio/ogg" then Some([Single(0, [0x4f, 0x67, 0x67, 0x53])])
    else if mime == "audio/wav" then Some([Single(0, RIFF) + Single(8, WAVE)])
    else if mime == "audio/mp4" then Some([Brand([])])
    else if mime == "audio/aac" then Some([Single(0, [0xff, 0xf1]), Single(0, [0xff, 0xf9])])
    else None
  }

  function DocumentSignatures(mime: string): Option<seq<Signature>> {
    if mime == "application/pdf" then Some([Single(0, [0x25, 0x50, 0x44, 0x46])])
    else if mime == "application/msword" then
      Some([Single(0, [0xd0, 0xcf, 0x11, 0xe0, 0xa1, 0xb1, 0x1a, 0xe1])])
    else if mime in ZIP_TYPES then Some([Single(0, PK)])
    else None
  }

  /** MAGIC_MAP: any signature may match. None for a type that is not validated. */
  function Signatures(mime: string): Option<seq<Signature>> {
    if ImageSignatures(mime).Some? then ImageSignatures(mime)
    else if AudioVideoSignatures(mime).Some? then AudioVideoSignatures(mime)
    else DocumentSignatures(mime)
  }

  predicate MatchesEntry(header: Bytes, entry: Entry) {
    && |header| >= entry.offset + |entry.bytes|
    && forall i :: 0 <= i < |entry.bytes| ==> header[entry.offset + i] == entry.bytes[i]
  }

  predicate MatchesSignature(header: Bytes, signature: Signature) {
    forall i :: 0 <= i < |signature| ==> MatchesEntry(header, signature[i])
  }

  predicate MatchesAny(header: Bytes, signatures: seq<Signature>) {
    exists i :: 0 <= i < |signatures| && MatchesSignature(header, signatures[i])
  }

  function Header(buffer: Bytes): Bytes {
    buffer[..Min(|buffer|, MAX_MAGIC_BYTES)]
  }

  /** `validateMagicBytes` returns normally. */
  predicate MagicOk(buffer: Bytes, declared: string) {
    var signatures := Signatures(Normalise(declared));
    signatures.None? || MatchesAny(Header(buffer), signatures.value)
  }

  // Looking at the 16-byte header decides exactly what looking at the whole buffer would.
  lemma HeaderDecides(buffer: Bytes, signatures: seq<Signature>)
    ensures MatchesAny(Header(buffer), signatures) <==> MatchesAny(buffer, signatures)
  {
    forall i | 0 <= i < |signatures|
      ensures MatchesSignature(Header(buffer), signatures[i]) <==> MatchesSignature(buffer, signatures[i])
    {
      forall j | 0 <= j < |signatures[i]|
        ensures MatchesEntry(Header(buffer), signatures[i][j]) <==> MatchesEntry(buffer, signatures[i][j])
      {
        var e := signatures[i][j];
        assert |Header(buffer)| >= e.offset + |e.bytes| <==> |buffer| >= e.offset + |e.bytes|;
      }
    }
  }

  lemma RiffBrand(buffer: Bytes, brand: Bytes)
    requires |brand| == 4 && MatchesAny(Header(buffer), [Single(0, RIFF) + Single(8, brand)])
    ensures |buffer| >= 12 && buffer[8..12] == brand
  {
    var signature := Single(0, RIFF) + Single(8, brand);
    HeaderDecides(buffer, [signature]);
    assert MatchesSignature(buffer, [signature][0]);
    assert MatchesEntry(buffer, signature[1]);
  }

  // No buffer passes both as WebP and as WAV, whatever decoration the declared types carry.
  lemma WebpIsNotWav(buffer: Bytes, webp: string, wav: string)
    requires Normalise(webp) == "image/webp" && Normalise(wav) == "audio/wav"
    ensures !(MagicOk(buffer, webp) && MagicOk(buffer, wav))
  {
    if MagicOk(buffer, webp) {
      RiffBrand(buffer, WEBP);
      assert buffer[8..12][1] == 0x45;
    }
    if MagicOk(buffer, wav) {
      RiffBrand(buffer, WAVE);
      assert buffer[8..12][1] == 0x41;
    }
  }

  // ----- admission -----

  datatype File = File(content: Bytes, size: int, mime: string)

  /** The checks between the quota check and the content-safety scan. */
  predicate Admissible(file: File, context: Context) {
    && file.size <= SizeLimit(context)
    && MagicOk(file.content, file.mime)
    && file.mime in Allowlist(context)
  }

  predicate PlainChar(c: char) {
    'a' <= c <= 'z' || '-' <= c <= '9'
  }

  predicate Plain(s: string) {
    forall i :: 0 <= i < |s| ==> PlainChar(s[i])
  }

  lemma {:induction false} BeforeAbsent(s: string, c: char)
    requires forall i :: 0 <= i < |s| ==> s[i] != c
    ensures Before(s, c) == s
  {
    if s != "" {
      BeforeAbsent(s[1..], c);
    }
  }

  // A type written in lower-case letters, digits, `-`, `.` and `/` is its own normal form.
  lemma NormalisePlain(s: string)
    requires Plain(s)
    ensures Normalise(s) == s
  {
    BeforeAbsent(s, ';');
    assert s != "" ==> PlainChar(s[0]) && PlainChar(s[|s| - 1]);
    assert Lower(s) == s;
  }

  lemma ImagesPlain(mime: string)
    requires mime in IMAGE_TYPES
    ensures Plain(mime)
  {}

  lemma VideoPlain(mime: string)
    requires mime in AV_TYPES[..4]
    ensures Plain(mime)
  {}

  lemma AudioPlain(mime: string)
    requires mime in AV_TYPES[4..]
    ensures Plain(mime)
  {}

  lemma PlainConcat(a: string, b: string)
    requires Plain(a) && Plain(b)
    ensures Plain(a + b)
  {}

  lemma OpenXmlPlain(suffix: string)
    requires Plain(suffix)
    ensures Plain(OPENXML + suffix)
  {
    PlainConcat("application/vnd.", "openxmlformats-");
    PlainConcat("application/vnd." + "openxmlformats-", "officedocument.");
    PlainConcat(OPENXML, suffix);
  }

  lemma ZipPlain(mime: string)
    requires mime in ZIP_TYPES
    ensures Plain(mime)
  {
    OpenXmlPlain("wordprocessingml.document");
    OpenXmlPlain("spreadsheetml.sheet");
    OpenXmlPlain("presentationml.presentation");
  }

  lemma OtherPlain(mime: string)
    requires mime in OTHER_TYPES
    ensures Plain(mime)
  {}

  lemma AllowlistIsPlain(mime: string)
    requires mime in MESSAGE_TYPES
    ensures Plain(mime)
  {
    if mime in IMAGE_TYPES {
      ImagesPlain(mime);
    } else if mime in AV_TYPES {
      if mime in AV_TYPES[..4] {
        VideoPlain(mime);
      } else {
        AudioPlain(mime);
      }
    } else if mime in ZIP_TYPES {
      ZipPlain(mime);
    } else {
      OtherPlain(mime);
    }
  }

  lemma AllowlistHasSignatures(mime: string)
    requires mime in MESSAGE_TYPES
    ensures mime == OCTET_STREAM || Signatures(mime).Some?
  {}

  // What admission means for the stored bytes: a type of the context's allowlist, a size within 100 MB and
  // within the context's own limit, and content that matches a signature of exactly that type on its whole
  // length, opaque blobs excepted.
  lemma AdmissibleMeans(file: File, context: Context)
    requires Admissible(file, context)
    ensures file.size <= SizeLimit(context) <= UPLOAD_MAX_BYTES
    ensures file.mime in Allowlist(context)
    ensures file.mime == OCTET_STREAM
         || (Signatures(file.mime).Some? && MatchesAny(file.content, Signatures(file.mime).value))
    ensures file.mime == OCTET_STREAM ==> context == Message
  {
    assert file.mime in MESSAGE_TYPES;
    hide MatchesAny, Signatures;
    AllowlistIsPlain(file.mime);
    NormalisePlain(file.mime);
    AllowlistHasSignatures(file.mime);
    if file.mime == OCTET_STREAM {
      OctetStreamIsNoImage();
    } else {
      HeaderDecides(file.content, Signatures(file.mime).value);
    }
  }

  lemma OctetStreamIsNoImage()
    ensures OCTET_STREAM !in IMAGE_TYPES
  {
    assert OCTET_STREAM[0] == 'a';
    forall i | 0 <= i < |IMAGE_TYPES| ensures IMAGE_TYPES[i][0] == 'i' {}
  }
}

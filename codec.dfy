/**
 * The content codec of internal/core/compression.go and the content hash of
 * internal/core/validation.go. gzip (RFC 1952), base64 with the standard alphabet
 * (RFC 4648 section 4) and SHA-256 (FIPS 180-4) are library calls; the model receives them
 * as the fields of a `Lib` value and assumes nothing about them except, where a lemma says
 * so, that decoding inverts encoding (Lawful).
 */
module Codec {
  import opened Wrappers

  /** The library functions the codec and the hashes are built from. */
  datatype Lib = Lib(
    gzip: string -> string,
    gunzip: string -> Option<string>,
    base64Encode: string -> string,
    base64Decode: string -> Option<string>,
    sha256Hex: string -> string)

  /** Decoding inverts encoding: the round-trip property of the two libraries. */
  ghost predicate Lawful(lib: Lib) {
    && (forall b :: lib.base64Decode(lib.base64Encode(b)) == Some(b))
    && (forall s :: lib.gunzip(lib.gzip(s)) == Some(s))
  }

  /** Content shorter than this many bytes is never compressed. */
  const CompressionThreshold: int := 1024

  /** What the schema stores for one file: the text and whether it is base64(gzip(original)). */
  datatype Stored = Stored(content: string, compressed: bool)

  /** Why stored content could not be decompressed. */
  datatype DecodeError = MalformedBase64 | MalformedGzip

  /**
   * CompressContent: short content is stored verbatim; otherwise the compressed form is
   * used only when it is strictly shorter than the original.
   */
  function CompressContent(lib: Lib, content: string): (r: Stored)
    ensures |content| < CompressionThreshold ==> r == Stored(content, false)
    ensures r.compressed ==> |r.content| < |content| && r.content == lib.base64Encode(lib.gzip(content))
    ensures !r.compressed ==> r.content == content
  {
    if |content| < CompressionThreshold then Stored(content, false)
    else
      var compressed := lib.base64Encode(lib.gzip(content));
      if |compressed| < |content| then Stored(compressed, true) else Stored(content, false)
  }

  /** DecompressContent: the identity on uncompressed content; base64-decode then gunzip otherwise. */
  function DecompressContent(lib: Lib, content: string, compressed: bool): (r: Result<string, DecodeError>)
    ensures !compressed ==> r == Ok(content)
    ensures compressed && lib.base64Decode(content).None? ==> r == Err(MalformedBase64)
    ensures compressed && lib.base64Decode(content).Some? && lib.gunzip(lib.base64Decode(content).value).None? ==>
              r == Err(MalformedGzip)
    ensures compressed && lib.base64Decode(content).Some? && lib.gunzip(lib.base64Decode(content).value).Some? ==>
              r == Ok(lib.gunzip(lib.base64Decode(content).value).value)
  {
    if !compressed then Ok(content)
    else match lib.base64Decode(content)
      case None => Err(MalformedBase64)
      case Some(data) =>
        match lib.gunzip(data)
        case None => Err(MalformedGzip)
        case Some(text) => Ok(text)
  }

  /** Decompressing what CompressContent stored gives the original content back. */
  lemma CompressRoundTrip(lib: Lib, content: string)
    requires Lawful(lib)
    ensures var s := CompressContent(lib, content); DecompressContent(lib, s.content, s.compressed) == Ok(content)
  {
    var s := CompressContent(lib, content);
    if s.compressed {
      assert lib.base64Decode(lib.base64Encode(lib.gzip(content))) == Some(lib.gzip(content));
      assert lib.gunzip(lib.gzip(content)) == Some(content);
    }
  }

  /** CalculateContentHash: the SHA-256 hex digest of the bytes. */
  function ContentHash(lib: Lib, content: string): string {
    lib.sha256Hex(content)
  }
}

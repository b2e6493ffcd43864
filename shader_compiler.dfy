/**
 * Loading SPIR-V shader binaries: a blob is accepted only when it is
 * non-empty, a whole number of 32-bit words, and starts with the SPIR-V
 * magic number 0x07230203 (section 3.1 "Magic Number" of the Khronos
 * SPIR-V Specification); an accepted blob becomes its word sequence, any
 * other yields the empty sequence. A shader module is created only from a
 * non-empty word sequence.
 *
 * The asset manager and the file system are inputs: an asset or file is
 * either unavailable or its bytes. Words are read in the host's byte
 * order, which on the targeted Android devices is little-endian.
 */
module Shaders {
  import opened Types

  newtype Byte = x: int | 0 <= x < 256

  /** A 32-bit unsigned word. */
  type Word = w: nat | w < 0x1_0000_0000

  const SpirvMagic: Word := 0x07230203

  /** The little-endian word starting at byte `k`. */
  function WordAt(bytes: seq<Byte>, k: nat): (w: Word)
    requires k + 4 <= |bytes|
  {
    bytes[k] as nat + 0x100 * (bytes[k + 1] as nat + 0x100 * (bytes[k + 2] as nat + 0x100 * bytes[k + 3] as nat))
  }

  /** The blob reinterpreted as words, as the copy into a word vector does. */
  function Words(bytes: seq<Byte>): (ws: seq<Word>)
    requires |bytes| % 4 == 0
  {
    seq(|bytes| / 4, i requires 0 <= i < |bytes| / 4 => WordAt(bytes, 4 * i))
  }

  /** The validation `loadFromAsset` and `loadFromFile` share once the bytes are in hand. */
  function Validated(bytes: seq<Byte>): (ws: seq<Word>)
    ensures |ws| > 0 <==> |bytes| > 0 && |bytes| % 4 == 0 && WordAt(bytes, 0) == SpirvMagic
    ensures |ws| > 0 ==> |ws| == |bytes| / 4 && ws[0] == SpirvMagic
    ensures |ws| > 0 ==> forall i :: 0 <= i < |ws| ==> ws[i] == WordAt(bytes, 4 * i)
  {
    if |bytes| == 0 || |bytes| % 4 != 0 then []
    else
      var spirv := Words(bytes);
      if spirv[0] != SpirvMagic then [] else spirv
  }

  /**
   * `loadFromAsset`: empty without an asset manager or when the asset
   * cannot be opened; otherwise the validated contents.
   */
  function LoadFromAsset(hasAssetManager: bool, asset: Option<seq<Byte>>): (ws: seq<Word>)
    ensures !hasAssetManager || asset.None? ==> ws == []
    ensures hasAssetManager && asset.Some? ==> ws == Validated(asset.value)
  {
    if !hasAssetManager then []
    else if asset.None? then []
    else Validated(asset.value)
  }

  /** `loadFromFile`: empty when the file cannot be opened; otherwise the validated contents. */
  function LoadFromFile(file: Option<seq<Byte>>): (ws: seq<Word>)
    ensures file.None? ==> ws == []
    ensures file.Some? ==> ws == Validated(file.value)
  {
    if file.None? then [] else Validated(file.value)
  }

  /**
   * `createModule`: the null handle for an empty word sequence (the
   * device is not called); otherwise the handle the device created, or
   * null when creation failed.
   */
  function CreateModule(spirv: seq<Word>, created: Option<Handle>): (h: Handle)
    ensures spirv == [] ==> h == NullHandle
    ensures spirv != [] && created.Some? ==> h == created.value
    ensures created.None? ==> h == NullHandle
  {
    if |spirv| == 0 then NullHandle
    else if created.None? then NullHandle
    else created.value
  }

  // ---------------------------------------------------------------
  // The inverse: serialising words
  // ---------------------------------------------------------------

  /** The four little-endian bytes of a word. */
  function WordBytes(w: Word): (bs: seq<Byte>)
    ensures |bs| == 4
  {
    var q1 := w / 0x100;
    var q2 := q1 / 0x100;
    var q3 := q2 / 0x100;
    [(w % 0x100) as Byte, (q1 % 0x100) as Byte, (q2 % 0x100) as Byte, q3 as Byte]
  }

  /** A word sequence laid out as bytes, as a SPIR-V file stores it on this host. */
  function Serialise(ws: seq<Word>): (bytes: seq<Byte>)
  {
    if ws == [] then [] else WordBytes(ws[0]) + Serialise(ws[1..])
  }

  lemma WordBytesRoundTrip(w: Word)
    ensures WordAt(WordBytes(w), 0) == w
  {
    var q1 := w / 0x100;
    var q2 := q1 / 0x100;
    var q3 := q2 / 0x100;
    assert w == w % 0x100 + 0x100 * q1;
    assert q1 == q1 % 0x100 + 0x100 * q2;
    assert q2 == q2 % 0x100 + 0x100 * q3;
  }

  /** Serialising gives four bytes per word, and the word at byte 4i is the i-th word. */
  lemma {:induction false} SerialiseLayout(ws: seq<Word>)
    ensures |Serialise(ws)| == 4 * |ws|
    ensures forall i :: 0 <= i < |ws| ==> WordAt(Serialise(ws), 4 * i) == ws[i]
  {
    if ws != [] {
      SerialiseLayout(ws[1..]);
      var head := WordBytes(ws[0]);
      var rest := Serialise(ws[1..]);
      assert Serialise(ws) == head + rest;
      WordBytesRoundTrip(ws[0]);
      forall i | 0 <= i < |ws|
        ensures WordAt(Serialise(ws), 4 * i) == ws[i]
      {
        if i == 0 {
          assert WordAt(Serialise(ws), 0) == WordAt(head, 0);
        } else {
          assert WordAt(Serialise(ws), 4 * i) == WordAt(rest, 4 * (i - 1));
        }
      }
    }
  }

  /** Reading back what was serialised gives the same words. */
  lemma WordsOfSerialise(ws: seq<Word>)
    ensures |Serialise(ws)| % 4 == 0
    ensures Words(Serialise(ws)) == ws
  {
    SerialiseLayout(ws);
  }

  /**
   * Every well-formed SPIR-V module (non-empty, starting with the magic
   * number) survives serialisation and loading unchanged; every blob that
   * loads is the serialisation of the words it loads as.
   */
  lemma LoadRoundTrip(ws: seq<Word>, bytes: seq<Byte>)
    ensures ws != [] && ws[0] == SpirvMagic ==> LoadFromFile(Some(Serialise(ws))) == ws
    ensures Validated(bytes) != [] ==> Serialise(Validated(bytes)) == bytes
  {
    WordsOfSerialise(ws);
    if Validated(bytes) != [] {
      var loaded := Validated(bytes);
      SerialiseLayout(loaded);
      SerialiseInverse(bytes);
      assert loaded == Words(bytes);
    }
  }

  /** Serialising the words of a whole-word blob gives the blob back. */
  lemma {:induction false} SerialiseInverse(bytes: seq<Byte>)
    requires |bytes| % 4 == 0
    ensures Serialise(Words(bytes)) == bytes
    decreases |bytes|
  {
    if bytes != [] {
      var rest := bytes[4..];
      SerialiseInverse(rest);
      assert Words(bytes) == [WordAt(bytes, 0)] + Words(rest) by {
        forall i | 0 <= i < |bytes| / 4
          ensures Words(bytes)[i] == ([WordAt(bytes, 0)] + Words(rest))[i]
        {
          if i > 0 {
            assert WordAt(bytes, 4 * i) == WordAt(rest, 4 * (i - 1));
          }
        }
      }
      assert Words(bytes)[1..] == Words(rest);
      BytesOfWordAt(bytes);
      assert bytes == bytes[..4] + rest;
    }
  }

  /** The four bytes a word was read from are the bytes it serialises to. */
  lemma BytesOfWordAt(bytes: seq<Byte>)
    requires |bytes| >= 4
    ensures WordBytes(WordAt(bytes, 0)) == bytes[..4]
  {
    var w := WordAt(bytes, 0);
    var b0, b1, b2, b3 := bytes[0] as nat, bytes[1] as nat, bytes[2] as nat, bytes[3] as nat;
    assert w == b0 + 0x100 * (b1 + 0x100 * (b2 + 0x100 * b3));
    DivMod256(w, b0, b1 + 0x100 * (b2 + 0x100 * b3));
    DivMod256(b1 + 0x100 * (b2 + 0x100 * b3), b1, b2 + 0x100 * b3);
    DivMod256(b2 + 0x100 * b3, b2, b3);
  }

  /** Division by 256 of a number written as r + 256q with r < 256. */
  lemma DivMod256(x: nat, r: nat, q: nat)
    requires r < 0x100 && x == r + 0x100 * q
    ensures x / 0x100 == q && x % 0x100 == r
  {
  }
}

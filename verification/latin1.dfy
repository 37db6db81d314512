/**
  The bytes a send puts on the wire. The text is converted to Latin-1, one
  byte per character, with '?' for a character Latin-1 cannot represent, and
  the buffer is handed over as a zero-terminated string, so the write stops
  at the first NUL byte.
 */
module Latin1 {

  newtype byte = x: int | 0 <= x < 256

  const QuestionMark: byte := 0x3F

  /** One character in Latin-1. */
  function EncodeChar(c: char): byte {
    if c as int < 256 then c as int as byte else QuestionMark
  }

  /** `QString::toLatin1`. */
  function Encode(text: string): (bs: seq<byte>)
    ensures |bs| == |text|
  {
    seq(|text|, i requires 0 <= i < |text| => EncodeChar(text[i]))
  }

  /** Bytes read back as Latin-1 characters. */
  function Decode(bs: seq<byte>): (text: string)
    ensures |text| == |bs|
  {
    seq(|bs|, i requires 0 <= i < |bs| => bs[i] as int as char)
  }

  /** The bytes of a zero-terminated buffer: everything before the first NUL. */
  function UntilNul(bs: seq<byte>): (r: seq<byte>)
    ensures |r| <= |bs| && r == bs[..|r|]
    ensures forall k :: 0 <= k < |r| ==> r[k] != 0
    ensures |r| == |bs| || bs[|r|] == 0
  {
    if bs == [] || bs[0] == 0 then [] else [bs[0]] + UntilNul(bs[1..])
  }

  /** The bytes `QIODevice::write(const char *)` sends for `text`. */
  function Payload(text: string): seq<byte> {
    UntilNul(Encode(text))
  }

  /** Text whose every character is a non-NUL Latin-1 character. */
  predicate IsLatin1Text(text: string) {
    forall i :: 0 <= i < |text| ==> 0 < text[i] as int < 256
  }

  /** A buffer without NUL bytes is sent whole. */
  lemma {:induction false} UntilNulOfNoNul(bs: seq<byte>)
    requires forall k :: 0 <= k < |bs| ==> bs[k] != 0
    ensures UntilNul(bs) == bs
  {
    if bs != [] {
      UntilNulOfNoNul(bs[1..]);
    }
  }

  /** The payload is never longer than the text, holds no NUL byte, and is a
      prefix of the text's full encoding. */
  lemma PayloadIsNulFreePrefix(text: string)
    ensures |Payload(text)| <= |text|
    ensures forall k :: 0 <= k < |Payload(text)| ==> Payload(text)[k] != 0
    ensures Payload(text) == Encode(text)[..|Payload(text)|]
  {
  }

  /** For non-NUL Latin-1 text the payload is the text itself, byte for
      character: decoding it gives the text back. */
  lemma PayloadRoundTrip(text: string)
    requires IsLatin1Text(text)
    ensures Payload(text) == Encode(text)
    ensures Decode(Payload(text)) == text
  {
    UntilNulOfNoNul(Encode(text));
  }

  /** A NUL character cuts the payload short: nothing from it onwards is sent. */
  lemma PayloadStopsAtNul(text: string, k: nat)
    requires k < |text| && text[k] == '\0'
    ensures |Payload(text)| <= k
  {
    var bs := Encode(text);
    assert bs[k] == 0;
  }
}

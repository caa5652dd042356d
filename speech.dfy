/**
 * The steps of a transcription that do not depend on the offscreen document's
 * state: removing the data-URL prefix from the recorded audio, turning the
 * decoded binary string into bytes, reading the text out of the recogniser's
 * output, and the confidence heuristic applied to that text.
 */
module Speech {
  import opened Js

  /** `TranscriptionResult`: the trimmed text, its heuristic confidence and the recogniser's model. */
  datatype Transcription = Transcription(text: string, confidence: real, model: string)

  /**
   * The base64 payload of a data URL: when the text contains a comma, the
   * piece between the first comma and the next one (`split(",")[1]`);
   * otherwise the whole text.
   */
  function StripDataUrlPrefix(audio: string): (data: string)
    ensures ',' !in audio ==> data == audio
    ensures ',' !in data
  {
    match IndexOf(audio, ',')
    case None => audio
    case Some(i) =>
      var rest := audio[i + 1..];
      match IndexOf(rest, ',')
      case None => rest
      case Some(j) => rest[..j]
  }

  /** A data URL gives back exactly the base64 text that follows its header. */
  lemma StripDataUrl(header: string, payload: string)
    requires ',' !in header && ',' !in payload
    ensures StripDataUrlPrefix(header + "," + payload) == payload
  {
    var audio := header + "," + payload;
    assert audio[|header|] == ',';
    assert audio[..|header|] == header;
    assert audio[|header| + 1..] == payload;
  }

  /** An element of a `Uint8Array`. */
  newtype Byte = x: int | 0 <= x < 256

  /** The byte a character code becomes when stored into a `Uint8Array`: the code modulo 256. */
  function ByteOf(c: char): (b: Byte)
    ensures c as int < 256 ==> b as int == c as int
  {
    (c as int % 256) as Byte
  }

  /** The bytes of a binary string, one per character. */
  function BinaryBytes(binary: string): (bytes: seq<Byte>)
    ensures |bytes| == |binary|
    ensures forall i :: 0 <= i < |binary| ==> bytes[i] == ByteOf(binary[i])
  {
    seq(|binary|, i requires 0 <= i < |binary| => ByteOf(binary[i]))
  }

  /** The copying loop of `base64ToBlob`. */
  method BinaryToBytes(binary: string) returns (bytes: array<Byte>)
    ensures fresh(bytes)
    ensures bytes[..] == BinaryBytes(binary)
  {
    bytes := new Byte[|binary|];
    var i := 0;
    while i < |binary|
      invariant 0 <= i <= |binary|
      invariant forall k :: 0 <= k < i ==> bytes[k] == ByteOf(binary[k])
    {
      bytes[i] := ByteOf(binary[i]);
      i := i + 1;
    }
  }

  /** What the speech recogniser returns: a bare string, or an object whose `text` may be absent. */
  datatype AsrOutput = PlainText(plain: string) | Structured(text: Option<string>)

  /** `typeof result === "string" ? result : result.text || ""` */
  function TextOf(output: AsrOutput): (text: string)
    ensures output.PlainText? ==> text == output.plain
    ensures output.Structured? && output.text.Some? ==> text == output.text.value
    ensures output.Structured? && output.text.None? ==> text == ""
  {
    match output
    case PlainText(plain) => plain
    case Structured(t) => if t.Some? then t.value else ""
  }

  /** Characters matched by `/[^a-zA-Z0-9\s]/`. */
  predicate IsSpecial(c: char) {
    !('a' <= c <= 'z' || 'A' <= c <= 'Z' || '0' <= c <= '9' || IsWhiteSpace(c))
  }

  /** The number of special characters (`(text.match(/[^a-zA-Z0-9\s]/g) || []).length`). */
  function SpecialCount(text: string): (n: nat)
    ensures n <= |text|
    ensures n == 0 <==> forall i :: 0 <= i < |text| ==> !IsSpecial(text[i])
  {
    if text == [] then 0
    else
      var n := SpecialCount(text[1..]);
      assert forall i :: 1 <= i < |text| ==> text[i] == text[1..][i - 1];
      (if IsSpecial(text[0]) then 1 else 0) + n
  }

  /**
   * `calculateConfidence(text)`: zero for empty text; otherwise 0.8, less 0.2
   * for fewer than five characters, less 0.3 when more than 30% of the
   * characters are special, clamped to [0, 1]. The result is zero exactly for
   * empty text and otherwise one of four values: the full 0.8 exactly when the
   * text has at least five characters and at most 30% of them special, 0.6
   * exactly when only the length penalty applies, 0.5 exactly when only the
   * special-character penalty applies, and 0.3 exactly when both apply.
   */
  function CalculateConfidence(text: string): (confidence: real)
    ensures 0.0 <= confidence <= 1.0
    ensures confidence == 0.0 <==> text == []
    ensures text != [] ==> confidence in {0.8, 0.6, 0.5, 0.3}
    ensures confidence == 0.8 <==> |text| >= 5 && 10 * SpecialCount(text) <= 3 * |text|
    ensures confidence == 0.3 <==> 0 < |text| < 5 && 10 * SpecialCount(text) > 3 * |text|
    ensures confidence == 0.6 <==> 0 < |text| < 5 && 10 * SpecialCount(text) <= 3 * |text|
    ensures confidence == 0.5 <==> |text| >= 5 && 10 * SpecialCount(text) > 3 * |text|
  {
    if text == [] then 0.0
    else
      var shortPenalty := if |text| < 5 then 0.2 else 0.0;
      var specialPenalty := if (SpecialCount(text) as real) > (|text| as real) * 0.3 then 0.3 else 0.0;
      var confidence := 0.8 - shortPenalty - specialPenalty;
      if confidence < 0.0 then 0.0 else if confidence > 1.0 then 1.0 else confidence
  }
}

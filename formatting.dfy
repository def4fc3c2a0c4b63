/**
 * The string and label helpers `formatting.ts` exports: truncation with an
 * ellipsis, capitalisation, and two emoji lookups, one keyed by a likelihood
 * level and one by a sentiment label.
 *
 * Each emoji is written as one `char` here; JavaScript stores each of them
 * except the white circle as a surrogate pair.
 */
module Formatting {
  import opened JsString

  const Ellipsis: string := "..."

  const GreenCircle: string := "\U{1F7E2}"
  const YellowCircle: string := "\U{1F7E1}"
  const RedCircle: string := "\U{1F534}"
  const WhiteCircle: string := "\U{26AA}"

  const SmilingFace: string := "\U{1F60A}"
  const WorriedFace: string := "\U{1F61F}"
  const NeutralFace: string := "\U{1F610}"

  /**
   * `truncateText(text, maxLength)`: the text itself when it fits, otherwise
   * its first `maxLength` characters followed by an ellipsis.  A negative
   * `maxLength` is clamped to 0, leaving only the ellipsis.
   */
  function TruncateText(text: string, maxLength: int): (r: string)
    ensures |text| <= maxLength ==> r == text
    ensures |text| > maxLength ==>
              |r| == Clamp(maxLength, |text|) + |Ellipsis| && r == text[..|r| - |Ellipsis|] + Ellipsis
  {
    if |text| <= maxLength then text else Substring(text, 0, maxLength) + Ellipsis
  }

  /**
   * A text that does not fit keeps its first `maxLength` characters, then the
   * ellipsis; the result is longer than the text itself when the text exceeds
   * the limit by fewer than three characters.
   */
  lemma TruncateTextCutsLongText(text: string, maxLength: int)
    requires 0 <= maxLength < |text|
    ensures |TruncateText(text, maxLength)| == maxLength + 3
    ensures |TruncateText(text, maxLength)| > |text| <==> |text| < maxLength + 3
    ensures TruncateText(text, maxLength)[..maxLength] == text[..maxLength]
    ensures TruncateText(text, maxLength)[maxLength..] == "..."
  {
  }

  /** With a negative `maxLength` every text, the empty one included, becomes the bare ellipsis. */
  lemma TruncateTextNegativeLimit(text: string, maxLength: int)
    requires maxLength < 0
    ensures TruncateText(text, maxLength) == "..."
  {
  }

  /** Truncating a truncated text with the same limit changes nothing. */
  lemma TruncateTextIdempotent(text: string, maxLength: int)
    ensures TruncateText(TruncateText(text, maxLength), maxLength) == TruncateText(text, maxLength)
  {
  }

  /**
   * `capitalizeFirst(str)`: the first character upper-cased, then the rest
   * lower-cased, with ASCII-only case mapping.
   */
  function CapitalizeFirst(str: string): (r: string)
    ensures |r| == |str|
    ensures str == [] ==> r == []
    ensures str != [] ==> r[0] == ToUpperChar(str[0]) && !IsAsciiLower(r[0])
    ensures forall i :: 1 <= i < |str| ==> r[i] == ToLowerChar(str[i]) && !IsAsciiUpper(r[i])
  {
    ToUpperCase(CharAt(str, 0)) + ToLowerCase(Slice(str, 1))
  }

  /** Capitalising a capitalised string changes nothing. */
  lemma CapitalizeFirstIdempotent(str: string)
    ensures CapitalizeFirst(CapitalizeFirst(str)) == CapitalizeFirst(str)
  {
  }

  /** `getLikelihoodEmoji(level)`: green, yellow, red for High, Medium, Low; a white circle for anything else. */
  function LikelihoodEmoji(level: string): (r: string)
    ensures r in {GreenCircle, YellowCircle, RedCircle, WhiteCircle}
    ensures r == GreenCircle <==> level == "High"
    ensures r == YellowCircle <==> level == "Medium"
    ensures r == RedCircle <==> level == "Low"
    ensures r == WhiteCircle <==> level !in {"High", "Medium", "Low"}
  {
    match level
    case "High" => GreenCircle
    case "Medium" => YellowCircle
    case "Low" => RedCircle
    case _ => WhiteCircle
  }

  /** `getSentimentEmoji(sentiment)`: a smile for Positive, a worried face for Negative, the neutral face otherwise. */
  function SentimentEmoji(sentiment: string): (r: string)
    ensures r in {SmilingFace, WorriedFace, NeutralFace}
    ensures r == SmilingFace <==> sentiment == "Positive"
    ensures r == WorriedFace <==> sentiment == "Negative"
    ensures r == NeutralFace <==> sentiment != "Positive" && sentiment != "Negative"
  {
    match sentiment
    case "Positive" => SmilingFace
    case "Negative" => WorriedFace
    case _ => NeutralFace
  }

  /** The three sentiments the analysis service reports get three different faces; Neutral gets the default one. */
  lemma SentimentEmojiNeutralIsDefault()
    ensures SentimentEmoji("Neutral") == SentimentEmoji("Mixed") == NeutralFace
    ensures SentimentEmoji("Positive") != SentimentEmoji("Neutral")
    ensures SentimentEmoji("Negative") != SentimentEmoji("Neutral")
  {
  }
}

/**
 * The two demonstration text tools: `text_transform` and `base64`. Both
 * answer every input with text; a failure comes back as "Error: ...".
 * Unicode case mapping is not modelled: `upper`, `lower` and `title`
 * stand for Python's `str.upper`, `str.lower` and `str.title`.
 */
module TextTransform {
  import opened Wrappers
  import opened Text
  import Utf8
  import Base64

  function Unknown(operation: String): String {
    "Unknown operation: " + operation
  }

  /** `len(text.split())`, reported. */
  function WordCount(text: String): String {
    "Word count: " + NatToString(|Words(text)|)
  }

  /** `TextTransformTool.execute` */
  function Transform(text: String, operation: String,
                     upper: String -> String, lower: String -> String, title: String -> String): (out: String)
    ensures operation == "uppercase" ==> out == "Uppercase: " + upper(text)
    ensures operation == "lowercase" ==> out == "Lowercase: " + lower(text)
    ensures operation == "capitalize" ==> out == "Capitalized: " + title(text)
    ensures operation == "word_count" ==> out == WordCount(text)
    ensures operation == "char_count" ==> out == "Character count: " + NatToString(|text|) + " (including spaces)"
    ensures operation !in {"uppercase", "lowercase", "reverse", "word_count", "char_count", "capitalize"} ==> out == Unknown(operation)
  {
    if operation == "uppercase" then "Uppercase: " + upper(text)
    else if operation == "lowercase" then "Lowercase: " + lower(text)
    else if operation == "reverse" then "Reversed: " + Reverse(text)
    else if operation == "word_count" then WordCount(text)
    else if operation == "char_count" then "Character count: " + NatToString(|text|) + " (including spaces)"
    else if operation == "capitalize" then "Capitalized: " + title(text)
    else Unknown(operation)
  }

  const ReversedLead: String := "Reversed: "

  /** Reversing what "reverse" answered gives back the text. */
  lemma ReverseTwice(text: String, upper: String -> String, lower: String -> String, title: String -> String)
    ensures var out := Transform(text, "reverse", upper, lower, title);
      StartsWith(out, ReversedLead) && Reverse(out[|ReversedLead|..]) == text
  {
    var out := Transform(text, "reverse", upper, lower, title);
    assert out[..|ReversedLead|] == ReversedLead;
    assert out[|ReversedLead|..] == Reverse(text);
    ReverseInvolutive(text);
  }

  /** The word count is the number of maximal runs of non-whitespace characters. */
  lemma WordCountIsRuns(text: String, upper: String -> String, lower: String -> String, title: String -> String)
    ensures Transform(text, "word_count", upper, lower, title) == "Word count: " + NatToString(RunStarts(text, true))
  {
    WordsCountRuns(text);
  }

  const EncodedLead: String := "Base64 encoded: "
  const DecodedLead: String := "Base64 decoded: "

  /** `Base64Tool.execute`: encode the text's UTF-8 bytes, or decode and read the bytes as UTF-8. */
  function Base64Tool(text: String, operation: String): (out: String)
    ensures operation == "encode" ==> out == EncodedLead + Base64.Encode(Utf8.Encode(text))
    ensures operation == "decode" ==> StartsWith(out, DecodedLead) || StartsWith(out, "Error: ")
    ensures operation != "encode" && operation != "decode" ==> out == Unknown(operation)
  {
    if operation == "encode" then EncodedLead + Base64.Encode(Utf8.Encode(text))
    else if operation == "decode" then
      var out :=
        match Base64.Decode(text)
        case Failure(e) => "Error: " + e
        case Success(bs) =>
          match Utf8.Decode(bs)
          case Failure(e) => "Error: " + e
          case Success(s) => DecodedLead + s;
      assert StartsWith(out, DecodedLead) || out[..7] == "Error: ";
      out
    else Unknown(operation)
  }

  /** The encoding is padded Base64: four characters for every three bytes begun. */
  lemma EncodedLength(text: String)
    ensures |Base64Tool(text, "encode")| == |EncodedLead| + 4 * ((|Utf8.Encode(text)| + 2) / 3)
  {
  }

  /** Decoding what "encode" answered gives back the text. */
  lemma EncodeThenDecode(text: String)
    ensures var encoded := Base64Tool(text, "encode");
      StartsWith(encoded, EncodedLead)
      && Base64Tool(encoded[|EncodedLead|..], "decode") == DecodedLead + text
  {
    var encoded := Base64Tool(text, "encode");
    assert encoded[..|EncodedLead|] == EncodedLead;
    assert encoded[|EncodedLead|..] == Base64.Encode(Utf8.Encode(text));
    Base64.DecodeEncode(Utf8.Encode(text));
    Utf8.DecodeEncode(text);
  }

  /** Text that is not ASCII is never valid input for decoding. */
  lemma DecodeNeedsAscii(text: String)
    requires !Base64.Ascii(text)
    ensures Base64Tool(text, "decode") == "Error: " + Base64.NotAscii
  {
  }
}

/**
 * The error normalizer of stream.go: parseUpstreamError turns a failed
 * response body into one message, and enhanceErrorMessage appends a hint
 * when the message says a model is not supported or not available.
 */
module UpstreamErrors {
  import opened Api

  const UnknownError := "unknown error"
  /** Bodies longer than this many bytes are cut before being used as the message. */
  const MaxBodyLength := 500
  const Ellipsis := "..."
  const ModelHint := "\n\nMake sure the model is enabled in your Copilot settings: https://github.com/settings/copilot"

  /** strings.ToLower restricted to ASCII letters. */
  function LowerChar(c: char): char {
    if 'A' <= c <= 'Z' then (c as int + 32) as char else c
  }

  /** Maps every ASCII capital to its small letter, 32 code points higher; no capital is left and every other character is kept. */
  function ToLower(s: string): (r: string)
    ensures |r| == |s|
    ensures forall i :: 0 <= i < |r| ==> !('A' <= r[i] <= 'Z')
    ensures forall i :: 0 <= i < |s| && !('A' <= s[i] <= 'Z') ==> r[i] == s[i]
    ensures forall i :: 0 <= i < |s| && 'A' <= s[i] <= 'Z' ==> r[i] as int == s[i] as int + 32
  {
    seq(|s|, i requires 0 <= i < |s| => LowerChar(s[i]))
  }

  /** `sub` occurs in `s` starting at index `i`. */
  ghost predicate OccursAt(s: string, sub: string, i: int) {
    0 <= i && i + |sub| <= |s| && s[i..i + |sub|] == sub
  }

  /** strings.Contains, as a left-to-right search. */
  function Contains(s: string, sub: string): (b: bool)
    ensures b <==> exists i :: OccursAt(s, sub, i)
    decreases |s|
  {
    if |sub| > |s| then false
    else if s[..|sub|] == sub then
      assert OccursAt(s, sub, 0);
      true
    else
      var b := Contains(s[1..], sub);
      assert b ==> exists i :: OccursAt(s, sub, i) by {
        if b {
          var i :| OccursAt(s[1..], sub, i);
          assert s[1..][i..i + |sub|] == s[i + 1..i + 1 + |sub|];
          assert OccursAt(s, sub, i + 1);
        }
      }
      assert (exists i :: OccursAt(s, sub, i)) ==> b by {
        if exists i :: OccursAt(s, sub, i) {
          var i :| OccursAt(s, sub, i);
          assert i != 0;
          assert s[1..][i - 1..i - 1 + |sub|] == s[i..i + |sub|];
          assert OccursAt(s[1..], sub, i - 1);
        }
      }
      b
  }

  /** The hint condition, stated on occurrences in the lower-cased message. */
  ghost predicate MentionsUnavailableModel(message: string) {
    var lower := ToLower(message);
    (exists i :: OccursAt(lower, "model", i)) &&
    ((exists j :: OccursAt(lower, "not supported", j)) || (exists k :: OccursAt(lower, "not available", k)))
  }

  /** enhanceErrorMessage: the message with the model-enablement hint appended when it applies. */
  function EnhanceErrorMessage(message: string): (r: string)
    ensures MentionsUnavailableModel(message) ==> r == message + ModelHint
    ensures !MentionsUnavailableModel(message) ==> r == message
  {
    var lower := ToLower(message);
    if Contains(lower, "model") && (Contains(lower, "not supported") || Contains(lower, "not available")) then
      message + ModelHint
    else
      message
  }

  /** The message the decoded body carries: the nested error.message first, then the top-level message. */
  function DecodedMessage(shape: ErrorShape): string {
    match shape
    case Undecodable => ""
    case Decoded(nested, top) => if nested != "" then nested else top
  }

  /** parseUpstreamError, given the body and what decoding it as JSON yields. */
  function ParseUpstreamError(body: string, shape: ErrorShape): (r: string)
    ensures shape.Decoded? && shape.errorMessage != "" ==> r == EnhanceErrorMessage(shape.errorMessage)
    ensures shape.Decoded? && shape.errorMessage == "" && shape.message != "" ==> r == EnhanceErrorMessage(shape.message)
    ensures DecodedMessage(shape) == "" && body == "" ==> r == UnknownError
    ensures DecodedMessage(shape) == "" && 0 < |body| <= MaxBodyLength ==> r == EnhanceErrorMessage(body)
    ensures DecodedMessage(shape) == "" && |body| > MaxBodyLength ==> r == EnhanceErrorMessage(body[..MaxBodyLength] + Ellipsis)
    ensures r != ""
  {
    var message := DecodedMessage(shape);
    if message != "" then EnhanceErrorMessage(message)
    else
      var bodyStr := if |body| > MaxBodyLength then body[..MaxBodyLength] + Ellipsis else body;
      if bodyStr == "" then UnknownError else EnhanceErrorMessage(bodyStr)
  }

  /** The hint only ever extends a message: the message is a prefix of the result. */
  lemma EnhanceExtends(message: string)
    ensures var r := EnhanceErrorMessage(message);
      (r == message || r == message + ModelHint) && |message| <= |r| && r[..|message|] == message
  {
    if MentionsUnavailableModel(message) {
      assert (message + ModelHint)[..|message|] == message;
    }
  }

  /** Whether the hint is added depends only on the lower-cased message. */
  lemma HintIgnoresCase(a: string, b: string)
    requires ToLower(a) == ToLower(b)
    ensures (EnhanceErrorMessage(a) == a + ModelHint) == (EnhanceErrorMessage(b) == b + ModelHint)
  {
    assert MentionsUnavailableModel(a) == MentionsUnavailableModel(b);
    assert |ModelHint| > 0;
    assert a + ModelHint != a by { assert |a + ModelHint| != |a|; }
    assert b + ModelHint != b by { assert |b + ModelHint| != |b|; }
  }

  /** `x` and `y` are the same character up to ASCII letter case. */
  predicate SameIgnoringCase(x: char, y: char) {
    || x == y
    || ('A' <= x <= 'Z' && y as int == x as int + 32)
    || ('A' <= y <= 'Z' && x as int == y as int + 32)
  }

  /** Two messages that differ only in the case of ASCII letters get the same hint decision. */
  lemma CaseVariantsHintedAlike(a: string, b: string)
    requires |a| == |b|
    requires forall i :: 0 <= i < |a| ==> SameIgnoringCase(a[i], b[i])
    ensures (EnhanceErrorMessage(a) == a + ModelHint) == (EnhanceErrorMessage(b) == b + ModelHint)
  {
    var la, lb := ToLower(a), ToLower(b);
    forall i | 0 <= i < |a| ensures la[i] == lb[i] {
      assert SameIgnoringCase(a[i], b[i]);
    }
    assert la == lb;
    HintIgnoresCase(a, b);
  }

  /** A body with no usable message that is longer than 500 bytes is cut to exactly its first 500 bytes plus "...". */
  lemma LongBodyTruncated(body: string, shape: ErrorShape)
    requires DecodedMessage(shape) == "" && |body| > MaxBodyLength
    ensures var r := ParseUpstreamError(body, shape);
      |r| >= MaxBodyLength + |Ellipsis| && r[..MaxBodyLength + |Ellipsis|] == body[..MaxBodyLength] + Ellipsis
  {
    EnhanceExtends(body[..MaxBodyLength] + Ellipsis);
  }

  /** A message without "model" is never changed, e.g. "file not available". */
  lemma FileNotAvailableUnchanged()
    ensures EnhanceErrorMessage("file not available") == "file not available"
  {
    var lower := ToLower("file not available");
    assert lower == "file not available";
    forall i | 0 <= i + 5 <= |lower| ensures !OccursAt(lower, "model", i) {
      if 0 <= i {
        assert lower[i..i + 5][0] == lower[i] != 'm';
      }
    }
    assert !MentionsUnavailableModel("file not available");
  }

  /** A message naming an unavailable model gets the hint, whatever its case. */
  lemma UnavailableModelHinted()
    ensures EnhanceErrorMessage("Model NOT available") == "Model NOT available" + ModelHint
  {
    var lower := ToLower("Model NOT available");
    assert lower[..5] == "model";
    assert lower[6..] == "not available";
    assert OccursAt(lower, "model", 0);
    assert OccursAt(lower, "not available", 6);
  }
}

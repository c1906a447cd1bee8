/** Caption moderation (functions/index.js): the parse of the language
    model's reply in `classifyCaption` and the status `moderateVideo`
    writes back. The language-model call is a parameter: a function from
    the caption text to its reply, `None` when the call fails (a thrown
    request, or a reply without content, whose `toLowerCase` throws). */
module Moderation {
  import opened Wrappers
  import opened Text

  const BLOCKED := "blocked"
  const SENSITIVE := "sensitive"
  const SAFE := "safe"
  const ERROR := "error"

  /** The label read off a model reply: the reply is lower-cased and
      searched for "blocked" first, then "sensitive"; anything else is
      "safe" (the parse fails open). */
  function Classify(reply: string): (verdict: string)
    ensures verdict in {BLOCKED, SENSITIVE, SAFE}
    ensures verdict == BLOCKED <==> Contains(Lower(reply), BLOCKED)
    ensures verdict == SENSITIVE <==>
      !Contains(Lower(reply), BLOCKED) && Contains(Lower(reply), SENSITIVE)
    ensures verdict == SAFE <==>
      !Contains(Lower(reply), BLOCKED) && !Contains(Lower(reply), SENSITIVE)
  {
    var output := Lower(reply);
    if Contains(output, BLOCKED) then BLOCKED
    else if Contains(output, SENSITIVE) then SENSITIVE
    else SAFE
  }

  /** "blocked" is recognised in any letter case, and wins over "sensitive". */
  lemma ClassifyBlockedAnyCase(reply: string, word: string)
    requires Lower(word) == BLOCKED
    requires Contains(reply, word)
    ensures Classify(reply) == BLOCKED
  {
    ContainsLower(reply, word);
  }

  /** "sensitive" in any letter case, without "blocked", gives "sensitive". */
  lemma ClassifySensitiveAnyCase(reply: string, word: string)
    requires Lower(word) == SENSITIVE
    requires Contains(reply, word)
    requires !Contains(Lower(reply), BLOCKED)
    ensures Classify(reply) == SENSITIVE
  {
    ContainsLower(reply, word);
  }

  /** What `moderateVideo` does with one created record: the status it
      writes and the text it sent to the classifier (`None`: not called). */
  datatype Decision = Decision(status: string, prompted: Option<string>)

  /** `data.caption || ""`: an absent or empty caption means no text. */
  function CaptionText(caption: Option<string>): string {
    caption.GetOr("")
  }

  function ModerationDecision(caption: Option<string>, classifier: string -> Option<string>): (d: Decision)
    ensures d.status in {SAFE, SENSITIVE, BLOCKED, ERROR}
    ensures CaptionText(caption) == "" ==> d == Decision(SAFE, None)
    ensures CaptionText(caption) != "" ==> d.prompted == Some(CaptionText(caption))
    ensures CaptionText(caption) != "" && classifier(CaptionText(caption)).None? ==>
      d.status == ERROR
    ensures CaptionText(caption) != "" && classifier(CaptionText(caption)).Some? ==>
      d.status == Classify(classifier(CaptionText(caption)).value)
  {
    var text := CaptionText(caption);
    if text == "" then Decision(SAFE, None)
    else
      match classifier(text)
      case None => Decision(ERROR, Some(text))
      case Some(reply) => Decision(Classify(reply), Some(text))
  }
}

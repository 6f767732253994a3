/** Worked replies for the JSON extraction of the LLM helpers. */
module ParserExamples {
  import opened Wrappers
  import opened Parser
  import Text

  /** The closing fence of the worked reply is found right after its payload. */
  lemma FencedReplyEnd()
    ensures FenceEnd("```json\n{}\n```", 8) == Some(10)
  {
    var t := "```json\n{}\n```";
    assert t[8..] == "{}\n```" && t[9..] == "}\n```" && t[10..] == "\n```";
    assert Text.LeadSpaces(t[8..]) == 0;
    assert Text.LeadSpaces(t[9..]) == 0;
    assert Text.LeadSpaces(t[10..]) == 1;
    assert !ClosesFence(t[8..]) && !ClosesFence(t[9..]) && ClosesFence(t[10..]);
  }

  /** The opening fence of the worked reply, its `json` tag and the newline after it. */
  lemma FencedReplyStart()
    ensures FindFrom("```json\n{}\n```", "```", 0) == Some(0)
    ensures PayloadStart("```json\n{}\n```", 0) == 8
  {
    var t := "```json\n{}\n```";
    assert OccursAt(t, "```", 0);
    assert Text.IsPrefix("json", t[3..]);
    assert t[7..] == "\n{}\n```";
    assert Text.LeadSpaces(t[7..]) == 1;
  }

  /** The body of a fence found at `p`, with its payload from `b` to the closing fence at `e`. */
  lemma FenceBodyAt(t: string, p: nat, b: nat, e: nat)
    requires FindFrom(t, "```", 0) == Some(p) && PayloadStart(t, p) == b && FenceEnd(t, b) == Some(e)
    ensures FencedBody(t) == Some(t[b..e])
  {
  }

  /** The payload of the worked reply is the empty object. */
  lemma FencedReplyPayload()
    ensures "```json\n{}\n```"[8..10] == "{}"
  {
  }

  lemma FencedReplyBody(t: string)
    requires t == "```json\n{}\n```"
    ensures FencedBody(t) == Some(t[8..10])
  {
    FencedReplyStart();
    FencedReplyEnd();
    FenceBodyAt(t, 0, 8, 10);
  }

  /**
   * A reply made of a `json`-tagged fence: when the whole reply does not decode, the fenced payload is what is returned.
   */
  lemma FencedPayloadExample<J>(parse: string -> Option<J>, v: J)
    requires parse("```json\n{}\n```") == None && parse("{}") == Some(v)
    ensures ExtractJson("```json\n{}\n```", parse) == Ok(v)
  {
    Parser.NormalizedKeepsAscii("```json\n{}\n```");
    FencedReplyBody("```json\n{}\n```");
    FencedReplyPayload();
  }

}

/** The prompt both pipelines send: a fixed instruction text, the context
    passages joined by a blank line, the question, and a fixed closing
    instruction, rendered by one f-string. */
module Prompts {
  import opened Text

  /** Blank line placed between two context passages. */
  const PassageSeparator := "\n\n"

  /** Placed between the context and the question in both templates. */
  const QuestionHeader := "\n\nQuestion:\n"

  /** The fixed text of an f-string prompt around its two holes. */
  datatype Template = Template(preamble: string, closing: string)

  /** `f"""{preamble}{context}\n\nQuestion:\n{query}{closing}"""`: the
      context sits right after the preamble, the question after the context
      and the question header, and the closing text comes last. */
  function Render(t: Template, context: string, query: string): (p: string)
    ensures var c0 := |t.preamble|;
            var q0 := c0 + |context| + |QuestionHeader|;
            && |p| == q0 + |query| + |t.closing|
            && p[..c0] == t.preamble
            && p[c0..c0 + |context|] == context
            && p[c0 + |context|..q0] == QuestionHeader
            && p[q0..q0 + |query|] == query
            && p[q0 + |query|..] == t.closing
  {
    t.preamble + context + QuestionHeader + query + t.closing
  }

  /** The context passages joined by a blank line. */
  function JoinPassages(passages: seq<string>): string
  {
    Join(passages, PassageSeparator)
  }
}

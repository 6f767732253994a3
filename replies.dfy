/**
 * What a turn agent receives from one model call, after the text has been
 * through `extract_json` and the record's schema.
 */
module Replies {
  import opened Wrappers
  import Parser
  import Gateway

  /**
   * `Parsed` carries the validated record; `Invalid` is a `ValueError` (no
   * JSON could be extracted, or the schema rejected it); `Raised` is any other
   * exception, named by its type.
   */
  datatype Reply<T> = Parsed(value: T) | Invalid | Raised(exceptionName: string)

  /**
   * One agent call: generate, extract the JSON value with `parse`, then build
   * the record with `decode`. A gateway failure surfaces as a `RuntimeError`.
   */
  function Receive<J, T>(g: Gateway.Generation, parse: string -> Option<J>, decode: J -> Reply<T>): (r: Reply<T>)
    ensures g.GenerationFailed? ==> r == Raised(Gateway.GENERATION_EXCEPTION)
    ensures g.Generated? && Parser.ExtractJson(g.text, parse).Ok? ==> r == decode(Parser.ExtractJson(g.text, parse).value)
    ensures r.Parsed? ==> g.Generated? && Parser.ExtractJson(g.text, parse).Ok?
                          && decode(Parser.ExtractJson(g.text, parse).value) == r
    ensures g.Generated? && Parser.ExtractJson(g.text, parse).Err? ==> r == Invalid
  {
    match g
    case GenerationFailed => Raised(Gateway.GENERATION_EXCEPTION)
    case Generated(text) =>
      match Parser.ExtractJson(text, parse)
      case Err(_) => Invalid
      case Ok(j) => decode(j)
  }
}

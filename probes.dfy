/** What the network probes of one check cycle produced. The HTTP requests
    themselves are not modelled: their results are inputs. */
module Probes {

  /** The HEAD request answered with a status code, or raised (timeout, DNS
      failure, refused connection, ...). */
  datatype StatusOutcome = Responded(code: int) | StatusRaised

  /** The streamed GET delivered its decoded chunks in order, or raised at
      some point (any chunks read before that are discarded). */
  datatype ContentOutcome = Streamed(chunks: seq<string>) | ContentRaised

  /** A status code the checkers count as "up". */
  predicate IsUp(code: int)
  {
    200 <= code < 400
  }
}

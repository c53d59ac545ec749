/** The counters that travel from the agent loop up to the run envelope. */
module Metrics {

  /** Tokens are unbounded integers; cost is exact. */
  datatype Usage = Usage(tokensIn: int, tokensOut: int, costUSD: real)
  {
    function Plus(u: Usage): Usage {
      Usage(tokensIn + u.tokensIn, tokensOut + u.tokensOut, costUSD + u.costUSD)
    }
  }

  datatype Counts = Counts(llmCalls: int, toolCalls: int, reflectCalls: int)
  {
    function Plus(c: Counts): Counts {
      Counts(llmCalls + c.llmCalls, toolCalls + c.toolCalls, reflectCalls + c.reflectCalls)
    }
  }

  datatype Metrics = Metrics(usage: Usage, counts: Counts)
  {
    function Plus(m: Metrics): Metrics {
      Metrics(usage.Plus(m.usage), counts.Plus(m.counts))
    }
  }

  const NO_USAGE := Usage(0, 0, 0.0)

  const ZERO := Metrics(NO_USAGE, Counts(0, 0, 0))

  function Sum(ms: seq<Metrics>): Metrics {
    if ms == [] then ZERO else Sum(ms[..|ms| - 1]).Plus(ms[|ms| - 1])
  }

  lemma PlusZero(m: Metrics)
    ensures m.Plus(ZERO) == m
  {
  }
}

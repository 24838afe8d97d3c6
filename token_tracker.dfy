/** The token-usage ledger (src/utils/token_tracker.py): a running total and
    one history entry per `log_usage` call. Dollar costs and timestamps are
    not part of this model. */
module TokenTracking {

  /** The part of a history entry this model keeps: `model` and `tokens_used`. */
  datatype UsageEntry = UsageEntry(model: string, tokens: int)

  /** What `get_summary` reports. */
  datatype Summary = Summary(totalTokens: int, history: seq<UsageEntry>)

  /** The model name `log_usage` records when the caller does not pass one. */
  const DefaultModel := "llama3-70b-8192"

  /** The sum of `tokens_used` over a history. */
  function TokensSum(h: seq<UsageEntry>): int {
    if h == [] then 0 else TokensSum(h[..|h| - 1]) + h[|h| - 1].tokens
  }

  /** Appending one entry adds its tokens to the sum. */
  lemma TokensSumAppend(h: seq<UsageEntry>, e: UsageEntry)
    ensures TokensSum(h + [e]) == TokensSum(h) + e.tokens
  {
    assert (h + [e])[..|h + [e]| - 1] == h;
  }

  /** Summing two histories one after the other. */
  lemma {:induction false} TokensSumConcat(h: seq<UsageEntry>, g: seq<UsageEntry>)
    ensures TokensSum(h + g) == TokensSum(h) + TokensSum(g)
    decreases |g|
  {
    if g == [] {
      assert h + g == h;
    } else {
      var init, last := g[..|g| - 1], g[|g| - 1];
      assert h + g == (h + init) + [last];
      assert g == init + [last];
      TokensSumAppend(h + init, last);
      TokensSumAppend(init, last);
      TokensSumConcat(h, init);
    }
  }

  class TokenTracker {
    var totalTokens: int
    var history: seq<UsageEntry>

    /** The running total is the sum of the history. */
    ghost predicate Valid()
      reads this
    {
      totalTokens == TokensSum(history)
    }

    /** `__init__`: nothing logged yet. */
    constructor ()
      ensures Valid() && totalTokens == 0 && history == []
    {
      totalTokens, history := 0, [];
    }

    /** `log_usage(tokens, model=model)`: the total grows by exactly `tokens`
        and one entry is appended. */
    method LogUsage(tokens: int, model: string)
      requires Valid()
      modifies this
      ensures Valid()
      ensures totalTokens == old(totalTokens) + tokens
      ensures history == old(history) + [UsageEntry(model, tokens)]
    {
      TokensSumAppend(history, UsageEntry(model, tokens));
      totalTokens := totalTokens + tokens;
      history := history + [UsageEntry(model, tokens)];
    }

    /** `get_summary`: the reported total is the sum of the reported history. */
    method GetSummary() returns (s: Summary)
      requires Valid()
      ensures s.history == history && s.totalTokens == totalTokens
      ensures s.totalTokens == TokensSum(s.history)
    {
      s := Summary(totalTokens, history);
    }

    /** `reset` */
    method Reset()
      modifies this
      ensures Valid() && totalTokens == 0 && history == []
    {
      totalTokens, history := 0, [];
    }
  }
}

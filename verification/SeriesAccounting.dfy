/** What each single series of the metrics store counts, over any number of concurrent requests
    (internal/server/server.go:169-290). */
module SeriesAccounting {
  import opened Wrappers
  import opened Seqs
  import opened Text
  import opened Pipeline
  import opened Metrics
  import opened Accounting

  // ---------- Series and their keys ----------

  /** The labels the handler gives a metric. */
  predicate Regular(m: Metric, labels: seq<string>) {
    match m
    case Requests => ByModel(labels)
    case ToolCalls => ByModel(labels)
    case Fusions => ByModel(labels)
    case Degradations => ByReason(labels)
    case Failures => ByReason(labels)
    case _ => ByModelAndDecision(labels)
  }

  predicate ByModel(labels: seq<string>) { |labels| == 2 && labels[0] == "model" }

  predicate ByReason(labels: seq<string>) { |labels| == 2 && labels[0] == "reason" }

  predicate ByModelAndDecision(labels: seq<string>) {
    |labels| == 4 && labels[0] == "model" && labels[2] == "decision"
  }

  predicate Short(labels: seq<string>) { ByModel(labels) || ByReason(labels) }

  lemma PairsOfShort(labels: seq<string>)
    requires Short(labels)
    ensures LabelPairs(labels) == [(labels[0], labels[1])] && PlainNames(LabelPairs(labels))
  {
    assert labels[2..] == [];
    WordsArePlain(labels[0]);
  }

  lemma PairsOfLong(labels: seq<string>)
    requires ByModelAndDecision(labels)
    ensures LabelPairs(labels) == [("model", labels[1]), ("decision", labels[3])] && PlainNames(LabelPairs(labels))
  {
    var rest := labels[2..];
    assert rest[2..] == [] && LabelPairs(rest) == [(rest[0], rest[1])];
    WordsArePlain("model");
    WordsArePlain("decision");
  }

  lemma WordsArePlain(s: string)
    requires s == "model" || s == "reason" || s == "decision"
    ensures PlainName(s)
  {
  }

  lemma OnePairTells(a: Label, b: Label)
    requires multiset([a]) == multiset([b])
    ensures a == b
  {
    assert a in multiset([b]);
  }

  lemma TwoPairsTell(a: Label, b: Label, c: Label, d: Label)
    requires multiset([a, b]) == multiset([c, d]) && a.0 == c.0 && b.0 == d.0 && a.0 != b.0
    ensures a == c && b == d
  {
    assert a in multiset([c, d]) && b in multiset([c, d]);
  }

  /** One metric's regular series have different keys. */
  lemma LabelsTell(quote: Quote, m: Metric, a: seq<string>, b: seq<string>)
    requires SelfDelimiting(quote) && Regular(m, a) && Regular(m, b)
    requires SeriesKey(quote, NameOf(m), a) == SeriesKey(quote, NameOf(m), b)
    ensures a == b
  {
    NamesAreBare(m);
    if Short(a) && Short(b) {
      ShortLabelsTell(quote, NameOf(m), a, b);
    } else {
      LongLabelsTell(quote, NameOf(m), a, b);
    }
  }

  lemma ShortLabelsTell(quote: Quote, name: string, a: seq<string>, b: seq<string>)
    requires SelfDelimiting(quote) && Without(name, '{') && Short(a) && Short(b)
    requires SeriesKey(quote, name, a) == SeriesKey(quote, name, b)
    ensures a == b
  {
    PairsOfShort(a);
    PairsOfShort(b);
    SeriesKeysAreCanonical(quote, name, a, name, b);
    OnePairTells((a[0], a[1]), (b[0], b[1]));
  }

  lemma LongLabelsTell(quote: Quote, name: string, a: seq<string>, b: seq<string>)
    requires SelfDelimiting(quote) && Without(name, '{') && ByModelAndDecision(a) && ByModelAndDecision(b)
    requires SeriesKey(quote, name, a) == SeriesKey(quote, name, b)
    ensures a == b
  {
    PairsOfLong(a);
    PairsOfLong(b);
    SeriesKeysAreCanonical(quote, name, a, name, b);
    assert "model"[0] != "decision"[0];
    TwoPairsTell(("model", a[1]), ("decision", a[3]), ("model", b[1]), ("decision", b[3]));
  }

  lemma MetricsTell(quote: Quote, m: Metric, a: seq<string>, n: Metric, b: seq<string>)
    requires SeriesKey(quote, NameOf(m), a) == SeriesKey(quote, NameOf(n), b)
    ensures m == n
  {
    NamesAreBare(m);
    NamesAreBare(n);
    KeySplits(quote, NameOf(m), LabelPairs(a));
    KeySplits(quote, NameOf(n), LabelPairs(b));
    NamesDiffer(m, n);
  }

  /** What the metrics are called. */
  lemma MetricNames()
    ensures NameOf(Requests) == "fuse_requests_total" && NameOf(ToolCalls) == "fuse_tool_call_total"
    ensures NameOf(Fusions) == "fuse_fusion_total" && NameOf(Degradations) == "fuse_degraded_total"
    ensures NameOf(Failures) == "fuse_failed_total"
    ensures NameOf(InputTokens) == "fuse_input_tokens_total" && NameOf(OutputTokens) == "fuse_output_tokens_total"
    ensures NameOf(CacheReadTokens) == "fuse_cache_read_tokens_total"
    ensures NameOf(CacheCreationTokens) == "fuse_cache_creation_tokens_total"
  {
  }

  // ---------- What a series holds ----------

  function Value(c: Counters, key: string): int { if key in c then c[key] else 0 }

  lemma IncrementMoves(quote: Quote, c: Counters, inc: Increment, m: Metric, labels: seq<string>)
    requires SelfDelimiting(quote) && Regular(inc.metric, inc.labels) && Regular(m, labels)
    ensures var key := SeriesKey(quote, NameOf(m), labels);
            Value(Incremented(quote, c, inc), key)
            == Value(c, key) + (if inc.metric == m && inc.labels == labels then inc.n else 0)
  {
    if SeriesKey(quote, NameOf(inc.metric), inc.labels) == SeriesKey(quote, NameOf(m), labels) {
      MetricsTell(quote, inc.metric, inc.labels, m, labels);
      LabelsTell(quote, m, inc.labels, labels);
    }
  }

  /** The model a request has asked for, once it was let in. */
  function ModelOf(p: Phase): string
    requires !p.Arrived? && !p.Rejected?
  {
    p.model
  }

  /** What one request has counted in one series by the time it stands at p: a request under its model
      once it is let in; a turn under its model, or under its reason, once its handler is through; a
      failed run under its reason as soon as it has returned; and tokens under model and decision. */
  function Tally(m: Metric, labels: seq<string>, p: Phase): int {
    match m
    case Requests => One(!p.Arrived? && !p.Rejected? && labels == ["model", ModelOf(p)])
    case ToolCalls => One(p.CountedOut? && p.dec.kind == DecisionToolCall && labels == ["model", p.model])
    case Fusions => One(p.CountedOut? && p.dec.kind == DecisionFusion && labels == ["model", p.model])
    case Degradations =>
      One(p.CountedOut? && p.dec.kind == DecisionDegraded && labels == ["reason", p.dec.fallbackReason])
    case Failures => One((p.FailureCounted? || p.FailureDone?) && labels == ["reason", p.reason])
    case InputTokens => if LabelledSo(p, labels) then InputUsed(p) else 0
    case OutputTokens => if LabelledSo(p, labels) then OutputUsed(p) else 0
    case CacheReadTokens => if LabelledSo(p, labels) then CacheRead(p) else 0
    case CacheCreationTokens => if LabelledSo(p, labels) then CacheCreated(p) else 0
  }

  predicate LabelledSo(p: Phase, labels: seq<string>) {
    && (p.Pushed? || p.CountedOut?)
    && |labels| == 4 && labels[0] == "model" && labels[1] == p.model && labels[2] == "decision"
    && Named(p.dec.kind, labels[3])
  }

  /** How a decision is called. */
  predicate Named(k: DecisionKind, word: string) {
    match k
    case DecisionToolCall => word == "tool_call"
    case DecisionFusion => word == "fusion"
    case DecisionDegraded => word == "degraded"
    case DecisionFailed => word == "failed"
  }

  lemma LabelledByKind(p: Phase, labels: seq<string>)
    requires p.Pushed? || p.CountedOut?
    ensures LabelledSo(p, labels) <==> labels == ["model", p.model, "decision", KindText(p.dec.kind)]
  {
    assert Named(p.dec.kind, KindText(p.dec.kind));
  }

  predicate Counts(inc: Option<Increment>, m: Metric, labels: seq<string>) {
    inc.Some? && inc.value.metric == m && inc.value.labels == labels
  }

  /** Every step counts in regular series only, and there just what the tally says. */
  lemma MovesAreTallied(id: nat, p: Phase, input: Input, m: Metric, labels: seq<string>)
    requires MoveOf(id, p, input).Some? && Truthful(p)
    ensures var move := MoveOf(id, p, input).value;
            && (move.counts.Some? ==> Regular(move.counts.value.metric, move.counts.value.labels))
            && Tally(m, labels, move.to)
               == Tally(m, labels, p) + (if Counts(move.counts, m, labels) then move.counts.value.n else 0)
  {
    var to := MoveOf(id, p, input).value.to;
    if p.Pushed? || p.CountedOut? {
      LabelledByKind(p, labels);
    }
    if to.Pushed? || to.CountedOut? {
      LabelledByKind(to, labels);
    }
  }

  function TallyIn(m: Metric, labels: seq<string>): Phase -> int { p => Tally(m, labels, p) }

  /** For any number of concurrent requests in any interleaving: each series of each metric is the sum of
      what the requests have counted in just that series. */
  lemma {:induction false} SeriesAddUp(quote: Quote, s: State, actions: seq<Action>, m: Metric, labels: seq<string>)
    requires SelfDelimiting(quote) && Reached(quote, s, actions) && Regular(m, labels)
    ensures Value(s.counters, SeriesKey(quote, NameOf(m), labels)) == SumBy(TallyIn(m, labels), s.phases)
    decreases |actions|
  {
    if actions != [] {
      var n := |actions| - 1;
      var before :| Reached(quote, before, actions[..n]) && Enabled(before, actions[n])
                    && s == After(quote, before, actions[n]);
      SeriesAddUp(quote, before, actions[..n], m, labels);
      LedgerHolds(quote, before, actions[..n]);
      match actions[n]
      case Arrive => SumByAppend(TallyIn(m, labels), before.phases, Arrived);
      case Step(i, input) => StepAddsUp(quote, before, i, input, m, labels);
    }
  }

  lemma StepAddsUp(quote: Quote, s: State, i: nat, input: Input, m: Metric, labels: seq<string>)
    requires SelfDelimiting(quote) && Regular(m, labels)
    requires i < |s.phases| && Truthful(s.phases[i]) && MoveOf(i, s.phases[i], input).Some?
    requires Value(s.counters, SeriesKey(quote, NameOf(m), labels)) == SumBy(TallyIn(m, labels), s.phases)
    ensures var t := Moved(quote, s, i, MoveOf(i, s.phases[i], input).value);
            Value(t.counters, SeriesKey(quote, NameOf(m), labels)) == SumBy(TallyIn(m, labels), t.phases)
  {
    var move := MoveOf(i, s.phases[i], input).value;
    MovesAreTallied(i, s.phases[i], input, m, labels);
    SumByUpdate(TallyIn(m, labels), s.phases, i, move.to);
    if move.counts.Some? {
      IncrementMoves(quote, s.counters, move.counts.value, m, labels);
    }
  }
}

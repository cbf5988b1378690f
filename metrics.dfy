/**
 * The state reducers of the console's Metrics panel: per-processor rolling
 * histories of time-to-first-byte samples, cumulative token counters, and
 * the hue derived from a processor's name.
 */
module Metrics {
  import opened Wrappers

  /** The number of samples a processor's history keeps. */
  const MaxHistory: nat := 100

  datatype MetricData = MetricData(timestamp: string, value: real)
  datatype ProcessingMetric = ProcessingMetric(processor: string, value: real)

  /** One entry of `data.tokens`; a field that is missing or falsy is None. */
  datatype TokenData = TokenData(completionTokens: Option<int>, promptTokens: Option<int>, totalTokens: Option<int>)

  /** A metrics event: `processing` is None unless it is an array, likewise `tokens`. */
  datatype MetricsEvent = MetricsEvent(processing: Option<seq<ProcessingMetric>>, tokens: Option<seq<TokenData>>)

  datatype TokenField = Completion | Prompt | Total

  /**
   * A token counter as JavaScript holds it: undefined before the first reset
   * (the state starts as `{}`), NaN once something was added to undefined, or
   * a number.
   */
  datatype Tally = Undefined | NaN | Count(n: int)

  datatype TokenMetrics = TokenMetrics(completionTokens: Tally, promptTokens: Tally, totalTokens: Tally) {
    function Get(f: TokenField): Tally {
      match f
      case Completion => completionTokens
      case Prompt => promptTokens
      case Total => totalTokens
    }
  }

  /** The `no…Tokens` properties of the panel. */
  datatype TokenFlags = TokenFlags(noPromptTokens: bool, noCompletionTokens: bool, noTotalTokens: bool) {
    predicate Suppresses(f: TokenField) {
      match f
      case Completion => noCompletionTokens
      case Prompt => noPromptTokens
      case Total => noTotalTokens
    }
  }

  /** `.slice(-100)`: the last `MaxHistory` samples. */
  function KeepLast(s: seq<MetricData>): seq<MetricData> {
    if |s| <= MaxHistory then s else s[|s| - MaxHistory..]
  }

  /** The kept samples are the most recent ones, in their original order, and at most 100 of them. */
  lemma KeepLastIsRecentSuffix(s: seq<MetricData>)
    ensures |KeepLast(s)| == if |s| <= MaxHistory then |s| else MaxHistory
    ensures KeepLast(s) == s[|s| - |KeepLast(s)|..]
  {
  }

  function History(m: map<string, seq<MetricData>>, p: string): seq<MetricData> {
    if p in m then m[p] else []
  }

  /** The body of the `forEach` callback for one item. */
  function AddSample(m: map<string, seq<MetricData>>, item: ProcessingMetric, timestamp: string, ignore: seq<string>)
    : map<string, seq<MetricData>>
  {
    if item.processor in ignore then m
    else m[item.processor := KeepLast(History(m, item.processor) + [MetricData(timestamp, item.value)])]
  }

  /** The `setMetrics` updater: every item of one event, in item order. */
  function ApplyProcessing(m: map<string, seq<MetricData>>, items: seq<ProcessingMetric>, timestamp: string, ignore: seq<string>)
    : map<string, seq<MetricData>>
  {
    if items == [] then m
    else AddSample(ApplyProcessing(m, items[..|items| - 1], timestamp, ignore), items[|items| - 1], timestamp, ignore)
  }

  /** The samples one event brings for processor `p`, in item order, all with the event's timestamp. */
  function NewSamples(items: seq<ProcessingMetric>, p: string, timestamp: string): (r: seq<MetricData>)
    ensures forall k :: 0 <= k < |r| ==> r[k].timestamp == timestamp
  {
    if items == [] then []
    else
      NewSamples(items[..|items| - 1], p, timestamp)
      + (if items[|items| - 1].processor == p then [MetricData(timestamp, items[|items| - 1].value)] else [])
  }

  predicate Mentions(items: seq<ProcessingMetric>, p: string) {
    exists i :: 0 <= i < |items| && items[i].processor == p
  }

  lemma KeepLastAppend(s: seq<MetricData>, x: MetricData)
    ensures KeepLast(KeepLast(s) + [x]) == KeepLast(s + [x])
  {
    if |s| > MaxHistory {
      assert KeepLast(s) + [x] == s[|s| - MaxHistory..] + [x];
      assert (s[|s| - MaxHistory..] + [x])[1..] == (s + [x])[|s| + 1 - MaxHistory..];
    }
  }

  /** The effect of one item on processor `p`'s history. */
  lemma AddSampleEffect(m: map<string, seq<MetricData>>, item: ProcessingMetric, timestamp: string, ignore: seq<string>, p: string)
    ensures var r := AddSample(m, item, timestamp, ignore);
      && (item.processor == p && p !in ignore ==>
           p in r && r[p] == KeepLast(History(m, p) + [MetricData(timestamp, item.value)]))
      && (item.processor != p || p in ignore ==> (p in r <==> p in m) && History(r, p) == History(m, p))
  {
  }

  lemma MentionsSplit(items: seq<ProcessingMetric>, p: string)
    requires items != []
    ensures Mentions(items, p) <==> Mentions(items[..|items| - 1], p) || items[|items| - 1].processor == p
  {
    var init := items[..|items| - 1];
    if Mentions(items, p) {
      var i :| 0 <= i < |items| && items[i].processor == p;
      if i < |items| - 1 { assert init[i] == items[i]; }
    }
    if Mentions(init, p) {
      var i :| 0 <= i < |init| && init[i].processor == p;
      assert items[i] == init[i];
    }
  }

  lemma {:induction false} NoMentionNoSamples(items: seq<ProcessingMetric>, p: string, timestamp: string)
    requires !Mentions(items, p)
    ensures NewSamples(items, p, timestamp) == []
  {
    if items != [] {
      MentionsSplit(items, p);
      NoMentionNoSamples(items[..|items| - 1], p, timestamp);
    }
  }

  lemma HistoryStep(
    before: map<string, seq<MetricData>>, after: map<string, seq<MetricData>>,
    h: seq<MetricData>, earlier: seq<MetricData>, x: MetricData, p: string)
    requires p in before && before[p] == KeepLast(h + earlier)
    requires p in after && after[p] == KeepLast(History(before, p) + [x])
    ensures after[p] == KeepLast(h + (earlier + [x]))
  {
    KeepLastAppend(h + earlier, x);
    assert h + earlier + [x] == h + (earlier + [x]);
  }

  /** A processor that is ignored, or that the event does not mention, keeps its history (or its absence). */
  lemma {:induction false} ApplyProcessingKeepsOthers(
    m: map<string, seq<MetricData>>, items: seq<ProcessingMetric>, timestamp: string, ignore: seq<string>, p: string)
    requires p in ignore || !Mentions(items, p)
    ensures var r := ApplyProcessing(m, items, timestamp, ignore);
      (p in r <==> p in m) && History(r, p) == History(m, p)
    decreases |items|
  {
    if items != [] {
      var init := items[..|items| - 1];
      var last := items[|items| - 1];
      MentionsSplit(items, p);
      ApplyProcessingKeepsOthers(m, init, timestamp, ignore, p);
      AddSampleEffect(ApplyProcessing(m, init, timestamp, ignore), last, timestamp, ignore, p);
    }
  }

  /**
   * A processor that is not ignored and that the event mentions ends with the
   * last 100 of its old history followed by the event's samples for it, in
   * item order.
   */
  lemma {:induction false} ApplyProcessingHistory(
    m: map<string, seq<MetricData>>, items: seq<ProcessingMetric>, timestamp: string, ignore: seq<string>, p: string)
    requires p !in ignore && Mentions(items, p)
    ensures var r := ApplyProcessing(m, items, timestamp, ignore);
      p in r && r[p] == KeepLast(History(m, p) + NewSamples(items, p, timestamp))
    decreases |items|
  {
    var init := items[..|items| - 1];
    var last := items[|items| - 1];
    MentionsSplit(items, p);
    NewSamplesStep(items, p, timestamp);
    if last.processor == p && Mentions(init, p) {
      ApplyProcessingHistory(m, init, timestamp, ignore, p);
      LastMentionedStep(m, items, timestamp, ignore, p);
    } else if last.processor == p {
      ApplyProcessingKeepsOthers(m, init, timestamp, ignore, p);
      NoMentionNoSamples(init, p, timestamp);
      FirstMentionStep(m, items, timestamp, ignore, p);
    } else {
      ApplyProcessingHistory(m, init, timestamp, ignore, p);
      UnmentionedStep(m, items, timestamp, ignore, p);
    }
  }

  /** The step of `ApplyProcessingHistory` where the last item is for `p` and an earlier one was too. */
  lemma LastMentionedStep(
    m: map<string, seq<MetricData>>, items: seq<ProcessingMetric>, timestamp: string, ignore: seq<string>, p: string)
    requires items != [] && p !in ignore && items[|items| - 1].processor == p
    requires var before := ApplyProcessing(m, items[..|items| - 1], timestamp, ignore);
      p in before && before[p] == KeepLast(History(m, p) + NewSamples(items[..|items| - 1], p, timestamp))
    ensures var r := ApplyProcessing(m, items, timestamp, ignore);
      p in r && r[p] == KeepLast(History(m, p) + NewSamples(items, p, timestamp))
  {
    var init := items[..|items| - 1];
    var last := items[|items| - 1];
    var before := ApplyProcessing(m, init, timestamp, ignore);
    var x := MetricData(timestamp, last.value);
    AddSampleEffect(before, last, timestamp, ignore, p);
    HistoryStep(before, ApplyProcessing(m, items, timestamp, ignore), History(m, p), NewSamples(init, p, timestamp), x, p);
  }

  /** The step of `ApplyProcessingHistory` where the last item is the first one for `p`. */
  lemma FirstMentionStep(
    m: map<string, seq<MetricData>>, items: seq<ProcessingMetric>, timestamp: string, ignore: seq<string>, p: string)
    requires items != [] && p !in ignore && items[|items| - 1].processor == p
    requires NewSamples(items[..|items| - 1], p, timestamp) == []
    requires History(ApplyProcessing(m, items[..|items| - 1], timestamp, ignore), p) == History(m, p)
    ensures var r := ApplyProcessing(m, items, timestamp, ignore);
      p in r && r[p] == KeepLast(History(m, p) + NewSamples(items, p, timestamp))
  {
    var init := items[..|items| - 1];
    var last := items[|items| - 1];
    var before := ApplyProcessing(m, init, timestamp, ignore);
    assert ApplyProcessing(m, items, timestamp, ignore) == AddSample(before, last, timestamp, ignore);
    NewSamplesStep(items, p, timestamp);
    assert NewSamples(items, p, timestamp) == [MetricData(timestamp, last.value)];
    FirstSampleEffect(before, History(m, p), last, timestamp, ignore, p);
  }

  lemma FirstSampleEffect(
    before: map<string, seq<MetricData>>, h: seq<MetricData>, last: ProcessingMetric, timestamp: string,
    ignore: seq<string>, p: string)
    requires last.processor == p && p !in ignore && History(before, p) == h
    ensures var r := AddSample(before, last, timestamp, ignore);
      p in r && r[p] == KeepLast(h + [MetricData(timestamp, last.value)])
  {
  }

  /** The step of `ApplyProcessingHistory` where the last item is for another processor. */
  lemma UnmentionedStep(
    m: map<string, seq<MetricData>>, items: seq<ProcessingMetric>, timestamp: string, ignore: seq<string>, p: string)
    requires items != [] && items[|items| - 1].processor != p
    requires NewSamples(items, p, timestamp) == NewSamples(items[..|items| - 1], p, timestamp)
    requires var before := ApplyProcessing(m, items[..|items| - 1], timestamp, ignore);
      p in before && before[p] == KeepLast(History(m, p) + NewSamples(items[..|items| - 1], p, timestamp))
    ensures var r := ApplyProcessing(m, items, timestamp, ignore);
      p in r && r[p] == KeepLast(History(m, p) + NewSamples(items, p, timestamp))
  {
    var before := ApplyProcessing(m, items[..|items| - 1], timestamp, ignore);
    AddSampleEffect(before, items[|items| - 1], timestamp, ignore, p);
  }

  /** One more item adds at most one sample, and only for its own processor. */
  lemma NewSamplesStep(items: seq<ProcessingMetric>, p: string, timestamp: string)
    requires items != []
    ensures var last := items[|items| - 1];
      NewSamples(items, p, timestamp) == NewSamples(items[..|items| - 1], p, timestamp)
        + (if last.processor == p then [MetricData(timestamp, last.value)] else [])
    ensures items[|items| - 1].processor != p ==>
      NewSamples(items, p, timestamp) == NewSamples(items[..|items| - 1], p, timestamp)
  {
    assert NewSamples(items[..|items| - 1], p, timestamp) + [] == NewSamples(items[..|items| - 1], p, timestamp);
  }

  class MetricsPanel {
    const ignoreProcessorNames: seq<string>
    const flags: TokenFlags
    var metrics: map<string, seq<MetricData>>
    var tokenMetrics: TokenMetrics

    constructor (ignoreProcessorNames: seq<string>, flags: TokenFlags)
      ensures this.ignoreProcessorNames == ignoreProcessorNames && this.flags == flags
      ensures metrics == map[] && tokenMetrics == TokenMetrics(Undefined, Undefined, Undefined)
    {
      this.ignoreProcessorNames := ignoreProcessorNames;
      this.flags := flags;
      metrics := map[];
      tokenMetrics := TokenMetrics(Undefined, Undefined, Undefined);
    }

    /** The `Connected` handler: no histories, every token counter at zero. */
    method OnConnected()
      modifies this`metrics, this`tokenMetrics
      ensures metrics == map[]
      ensures forall f :: tokenMetrics.Get(f) == Count(0)
    {
      metrics := map[];
      tokenMetrics := TokenMetrics(Count(0), Count(0), Count(0));
    }

    /** The `Metrics` handler; `timestamp` is the clock reading taken once per event. */
    method OnMetrics(data: MetricsEvent, timestamp: string)
      modifies this`metrics, this`tokenMetrics
      ensures metrics == if data.processing.Some?
        then ApplyProcessing(old(metrics), data.processing.value, timestamp, ignoreProcessorNames)
        else old(metrics)
      ensures tokenMetrics == UpdateTokens(old(tokenMetrics), data.tokens, flags)
    {
      if data.processing.Some? {
        var items := data.processing.value;
        var newMetrics := metrics;
        var i := 0;
        while i < |items|
          invariant 0 <= i <= |items|
          invariant newMetrics == ApplyProcessing(metrics, items[..i], timestamp, ignoreProcessorNames)
        {
          assert items[..i + 1][..i] == items[..i];
          var item := items[i];
          assert ApplyProcessing(metrics, items[..i + 1], timestamp, ignoreProcessorNames)
            == AddSample(newMetrics, item, timestamp, ignoreProcessorNames);
          if item.processor !in ignoreProcessorNames {
            var history := if item.processor in newMetrics then newMetrics[item.processor] else [];
            newMetrics := newMetrics[item.processor := KeepLast(history + [MetricData(timestamp, item.value)])];
          }
          i := i + 1;
        }
        assert items[..i] == items;
        metrics := newMetrics;
      }
      tokenMetrics := UpdateTokens(tokenMetrics, data.tokens, flags);
    }
  }

  /** After any event, a history that was within the cap stays within it. */
  lemma HistoriesStayBounded(m: map<string, seq<MetricData>>, items: seq<ProcessingMetric>, timestamp: string, ignore: seq<string>)
    requires forall p :: p in m ==> |m[p]| <= MaxHistory
    ensures var r := ApplyProcessing(m, items, timestamp, ignore);
      forall p :: p in r ==> |r[p]| <= MaxHistory
  {
    var r := ApplyProcessing(m, items, timestamp, ignore);
    forall p | p in r
      ensures |r[p]| <= MaxHistory
    {
      if p !in ignore && Mentions(items, p) {
        ApplyProcessingHistory(m, items, timestamp, ignore, p);
      } else {
        ApplyProcessingKeepsOthers(m, items, timestamp, ignore, p);
      }
    }
  }

  /** The last item of an event becomes the last sample of its processor's history. */
  lemma LatestSampleIsLast(m: map<string, seq<MetricData>>, items: seq<ProcessingMetric>, timestamp: string, ignore: seq<string>)
    requires items != [] && items[|items| - 1].processor !in ignore
    ensures var r := ApplyProcessing(m, items, timestamp, ignore);
      var p := items[|items| - 1].processor;
      p in r && r[p] != [] && r[p][|r[p]| - 1] == MetricData(timestamp, items[|items| - 1].value)
  {
  }

  /** The amount `tokens[0]` adds to one counter: its field, or 0 when missing, falsy or suppressed. */
  function Addend(t: TokenData, f: TokenField, flags: TokenFlags): int {
    if flags.Suppresses(f) then 0
    else
      var field := match f
        case Completion => t.completionTokens
        case Prompt => t.promptTokens
        case Total => t.totalTokens;
      match field
      case Some(n) => n
      case None => 0
  }

  /** JavaScript `+` on a counter: anything added to undefined or NaN is NaN. */
  function Plus(t: Tally, x: int): Tally {
    match t
    case Count(n) => Count(n + x)
    case _ => NaN
  }

  /** The `setTokenMetrics` updater: only `tokens[0]` is read, and nothing changes without it. */
  function UpdateTokens(prev: TokenMetrics, tokens: Option<seq<TokenData>>, flags: TokenFlags): (r: TokenMetrics)
    ensures (tokens.None? || tokens.value == []) ==> r == prev
    ensures tokens.Some? && tokens.value != [] ==>
      forall f :: r.Get(f) == Plus(prev.Get(f), Addend(tokens.value[0], f, flags))
  {
    if tokens.None? || tokens.value == [] then prev
    else
      var t := tokens.value[0];
      TokenMetrics(
        Plus(prev.completionTokens, Addend(t, Completion, flags)),
        Plus(prev.promptTokens, Addend(t, Prompt, flags)),
        Plus(prev.totalTokens, Addend(t, Total, flags)))
  }

  /** The counters after a run of events. */
  function RunTokens(prev: TokenMetrics, events: seq<MetricsEvent>, flags: TokenFlags): TokenMetrics
    decreases |events|
  {
    if events == [] then prev else RunTokens(UpdateTokens(prev, events[0].tokens, flags), events[1..], flags)
  }

  /** The sum of what a run of events adds to one counter. */
  function AddedBy(events: seq<MetricsEvent>, f: TokenField, flags: TokenFlags): int {
    if events == [] then 0
    else
      var tokens := events[0].tokens;
      (if tokens.Some? && tokens.value != [] then Addend(tokens.value[0], f, flags) else 0)
        + AddedBy(events[1..], f, flags)
  }

  /** From a numeric counter, each counter accumulates exactly what the events add to it. */
  lemma {:induction false} CountersAccumulate(prev: TokenMetrics, events: seq<MetricsEvent>, flags: TokenFlags, f: TokenField)
    requires prev.Get(f).Count?
    ensures RunTokens(prev, events, flags).Get(f) == Count(prev.Get(f).n + AddedBy(events, f, flags))
    decreases |events|
  {
    if events != [] {
      CountersAccumulate(UpdateTokens(prev, events[0].tokens, flags), events[1..], flags, f);
    }
  }

  /** A counter that is not a number never becomes one again until the next reset. */
  lemma {:induction false} NaNPersists(prev: TokenMetrics, events: seq<MetricsEvent>, flags: TokenFlags, f: TokenField)
    requires !prev.Get(f).Count?
    ensures !RunTokens(prev, events, flags).Get(f).Count?
    decreases |events|
  {
    if events != [] {
      NaNPersists(UpdateTokens(prev, events[0].tokens, flags), events[1..], flags, f);
    }
  }

  /** A UTF-16 code unit, as `charCodeAt` returns it. */
  type CodeUnit = x: int | 0 <= x < 0x1_0000

  /** JavaScript's ToInt32: wrap to a signed 32-bit integer. */
  function ToInt32(x: int): (r: int)
    ensures -0x8000_0000 <= r < 0x8000_0000
    ensures (x - r) % 0x1_0000_0000 == 0
  {
    var m := x % 0x1_0000_0000;
    if m >= 0x8000_0000 then m - 0x1_0000_0000 else m
  }

  /** One step of the `reduce`: `char + ((acc << 5) - acc)`, with `<<` on 32 bits and the rest exact. */
  function HashStep(acc: int, c: CodeUnit): int {
    c + (ToInt32(ToInt32(acc) * 32) - acc)
  }

  /** The hash of a processor name, folded from the left starting at 0. */
  function Hash(name: seq<CodeUnit>): int {
    if name == [] then 0 else HashStep(Hash(name[..|name| - 1]), name[|name| - 1])
  }

  function Abs(x: int): nat {
    if x < 0 then -x else x
  }

  /** The hue of a processor's colour: `Math.abs(hash) % 360`. */
  function Hue(name: seq<CodeUnit>): (h: int)
    ensures 0 <= h < 360
  {
    Abs(Hash(name)) % 360
  }

  /** Each step adds at most 2^31 + 65535 to the magnitude of the hash. */
  lemma {:induction false} HashBound(name: seq<CodeUnit>)
    ensures Abs(Hash(name)) <= |name| * (0x8000_0000 + 0xFFFF)
  {
    if name != [] {
      HashBound(name[..|name| - 1]);
    }
  }

  /**
   * For names shorter than four million code units the hash stays below
   * 2^53, so the double arithmetic of JavaScript computes it exactly and the
   * integer model above is faithful.
   */
  lemma HashIsExactInDoubles(name: seq<CodeUnit>)
    requires |name| <= 4_000_000
    ensures Abs(Hash(name)) < 0x20_0000_0000_0000
  {
    HashBound(name);
  }
}

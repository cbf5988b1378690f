/**
 * The Strands agent bridge of strands_agent.py. A request frame is handed to
 * the agent and replaced by one frame speaking the agent's answer; while the
 * agent runs, its callback handler queues the assistant's intermediate texts,
 * and a long-lived drain loop turns each queued text into a
 * "specialist-thinking" server message frame, first in first out.
 *
 * The agent is a function from the request text to its result. The callback
 * handler and the drain loop are methods the environment calls in any order.
 */
module StrandsBridge {
  import opened Wrappers
  import opened JsonValues
  import opened Frames

  /** The agent's result: only `result.message` is read. */
  datatype AgentResult = AgentResult(message: Json)

  /**
   * `result.message["content"][0]["text"]`, or None when one of the lookups
   * raises (no content, empty content, a first item without text).
   */
  function FinalText(r: AgentResult): (t: Option<string>)
    ensures t.Some? ==>
      && HasKey(r.message, "content") && r.message.fields["content"].JList?
      && |r.message.fields["content"].items| > 0
      && HasKey(r.message.fields["content"].items[0], "text")
      && r.message.fields["content"].items[0].fields["text"] == JStr(t.value)
    ensures
      && HasKey(r.message, "content") && r.message.fields["content"].JList?
      && |r.message.fields["content"].items| > 0
      && HasKey(r.message.fields["content"].items[0], "text")
      && r.message.fields["content"].items[0].fields["text"].JStr?
      ==> t == Some(r.message.fields["content"].items[0].fields["text"].s)
  {
    if HasKey(r.message, "content") && r.message.fields["content"].JList? then
      var items := r.message.fields["content"].items;
      if |items| > 0 && HasKey(items[0], "text") && items[0].fields["text"].JStr? then
        Some(items[0].fields["text"].s)
      else None
    else None
  }

  /** The callback's keyword arguments report the end of the agent's turn. */
  predicate EndsTurn(kwargs: map<string, Json>) {
    && "event" in kwargs
    && var event := kwargs["event"];
    && Truthy(event) && HasKey(event, "messageStop")
    && var stop := event.fields["messageStop"];
    && Truthy(stop) && HasKey(stop, "stopReason")
    && stop.fields["stopReason"] == JStr("end_turn")
  }

  /** The `text` of one content item, when the item is a dictionary that has one. */
  function ItemText(item: Json): seq<Json> {
    if HasKey(item, "text") then [item.fields["text"]] else []
  }

  /** The texts of the content items, in content order. */
  function ItemTexts(items: seq<Json>): seq<Json> {
    if items == [] then [] else ItemTexts(items[..|items| - 1]) + ItemText(items[|items| - 1])
  }

  /** What one callback would queue if the turn had not ended yet. */
  function MessageTexts(kwargs: map<string, Json>): seq<Json> {
    if "event" in kwargs || "message" !in kwargs then []
    else
      var message := kwargs["message"];
      if Truthy(message) && HasKey(message, "content") && HasKey(message, "role")
        && message.fields["role"] == JStr("assistant") && message.fields["content"].JList?
      then ItemTexts(message.fields["content"].items)
      else []
  }

  /** The server message frame that reports one intermediate text. */
  function ThinkingFrame(message: Json): Frame {
    RTVIServerMessageFrame(JDict(map["type" := JStr("specialist-thinking"), "message" := message]))
  }

  /** What the drain loop pushes for the queued texts, one frame each, in queue order. */
  function ThinkingPushes(queue: seq<Json>): (r: seq<Push>)
    ensures |r| == |queue|
    ensures forall k :: 0 <= k < |queue| ==> r[k] == Push(ThinkingFrame(queue[k]), Downstream)
  {
    if queue == [] then [] else [Push(ThinkingFrame(queue[0]), Downstream)] + ThinkingPushes(queue[1..])
  }

  lemma DrainStep(pushed: seq<Push>, queue: seq<Json>)
    requires queue != []
    ensures (pushed + [Push(ThinkingFrame(queue[0]), Downstream)]) + ThinkingPushes(queue[1..])
      == pushed + ThinkingPushes(queue)
  {
    assert ThinkingPushes(queue) == [Push(ThinkingFrame(queue[0]), Downstream)] + ThinkingPushes(queue[1..]);
  }

  class StrandsAgentProcessor {
    const agent: string -> AgentResult
    var nextMessageIsLast: bool
    var queue: seq<Json>
    var pushed: seq<Push>

    constructor (agent: string -> AgentResult)
      ensures this.agent == agent && !nextMessageIsLast && queue == [] && pushed == []
    {
      this.agent := agent;
      nextMessageIsLast := false;
      queue := [];
      pushed := [];
    }

    /**
     * Handles one frame. A request is consumed and answered downstream with
     * the agent's text; `raised` reports the lookup of that text failing, in
     * which case nothing is pushed. Every other frame is forwarded.
     */
    method ProcessFrame(frame: Frame, direction: Direction) returns (raised: bool)
      modifies this`pushed
      ensures frame.StrandsAgentRequestFrame? ==>
        var answer := FinalText(agent(frame.text));
        && raised == answer.None?
        && pushed == old(pushed) + (if raised then [] else [Push(TTSSpeakFrame(answer.value), Downstream)])
      ensures !frame.StrandsAgentRequestFrame? ==> !raised && pushed == old(pushed) + [Push(frame, direction)]
    {
      raised := false;
      if frame.StrandsAgentRequestFrame? {
        var result := agent(frame.text);
        var text := FinalText(result);
        if text.None? {
          return true;
        }
        pushed := pushed + [Push(TTSSpeakFrame(text.value), Downstream)];
      } else {
        pushed := pushed + [Push(frame, direction)];
      }
    }

    /** The agent's callback: records the end of the turn, or queues the assistant's texts. */
    method StrandsCallbackHandler(kwargs: map<string, Json>)
      modifies this`nextMessageIsLast, this`queue
      ensures nextMessageIsLast == (old(nextMessageIsLast) || EndsTurn(kwargs))
      ensures queue == old(queue) + (if old(nextMessageIsLast) then [] else MessageTexts(kwargs))
    {
      if "event" in kwargs {
        var eventObj := kwargs["event"];
        if Truthy(eventObj) && HasKey(eventObj, "messageStop") {
          var messageStop := eventObj.fields["messageStop"];
          if Truthy(messageStop) && HasKey(messageStop, "stopReason") {
            var stopReason := messageStop.fields["stopReason"];
            if stopReason == JStr("end_turn") {
              nextMessageIsLast := true;
            }
          }
        }
      } else if "message" in kwargs {
        var messageObj := kwargs["message"];
        if Truthy(messageObj) && HasKey(messageObj, "content") && HasKey(messageObj, "role") {
          var role := messageObj.fields["role"];
          var content := messageObj.fields["content"];
          if role == JStr("assistant") && content.JList? {
            var i := 0;
            while i < |content.items|
              invariant 0 <= i <= |content.items|
              invariant nextMessageIsLast == old(nextMessageIsLast)
              invariant queue == old(queue) + (if nextMessageIsLast then [] else ItemTexts(content.items[..i]))
            {
              var contentObj := content.items[i];
              assert content.items[..i + 1][..i] == content.items[..i];
              assert ItemTexts(content.items[..i + 1]) == ItemTexts(content.items[..i]) + ItemText(contentObj);
              if HasKey(contentObj, "text") {
                var message := contentObj.fields["text"];
                if !nextMessageIsLast {
                  queue := queue + [message];
                }
              }
              i := i + 1;
            }
            assert content.items[..i] == content.items;
          }
        }
      }
    }

    /** The drain loop, run until the queue is empty: one thinking frame per queued text. */
    method ProcessStrandsMessages()
      modifies this`queue, this`pushed
      ensures queue == []
      ensures pushed == old(pushed) + ThinkingPushes(old(queue))
    {
      while queue != []
        invariant pushed + ThinkingPushes(queue) == old(pushed) + ThinkingPushes(old(queue))
        decreases |queue|
      {
        var message := queue[0];
        DrainStep(pushed, queue);
        queue := queue[1..];
        pushed := pushed + [Push(ThinkingFrame(message), Downstream)];
      }
    }
  }

  /** The queued texts can be read back from the drained frames: nothing is lost, reordered or duplicated. */
  function ThinkingMessages(ps: seq<Push>): seq<Json> {
    if ps == [] then []
    else
      var f := ps[0].frame;
      var here :=
        if f.RTVIServerMessageFrame? && HasKey(f.data, "type") && HasKey(f.data, "message")
          && f.data.fields["type"] == JStr("specialist-thinking")
        then [f.data.fields["message"]] else [];
      here + ThinkingMessages(ps[1..])
  }

  lemma {:induction false} DrainRoundTrip(queue: seq<Json>)
    ensures ThinkingMessages(ThinkingPushes(queue)) == queue
  {
    if queue != [] {
      DrainRoundTrip(queue[1..]);
      assert ThinkingPushes(queue)[1..] == ThinkingPushes(queue[1..]);
    }
  }

  lemma {:induction false} ItemTextsConcat(a: seq<Json>, b: seq<Json>)
    ensures ItemTexts(a + b) == ItemTexts(a) + ItemTexts(b)
    decreases |b|
  {
    if b != [] {
      assert (a + b)[..|a + b| - 1] == a + b[..|b| - 1];
      ItemTextsConcat(a, b[..|b| - 1]);
    } else {
      assert a + b == a;
    }
  }

  /** When every item carries a text, every text is queued, in content order. */
  lemma {:induction false} ItemTextsAllText(items: seq<Json>)
    requires forall i :: 0 <= i < |items| ==> HasKey(items[i], "text")
    ensures |ItemTexts(items)| == |items|
    ensures forall i :: 0 <= i < |items| ==>
      HasKey(items[i], "text") && ItemTexts(items)[i] == items[i].fields["text"]
  {
    if items != [] {
      ItemTextsAllText(items[..|items| - 1]);
    }
  }

  /** What a sequence of callbacks queues, starting from the given flag. */
  function Enqueued(last: bool, calls: seq<map<string, Json>>): seq<Json>
    decreases |calls|
  {
    if calls == [] then []
    else (if last then [] else MessageTexts(calls[0])) + Enqueued(last || EndsTurn(calls[0]), calls[1..])
  }

  /** Every text the given callbacks carry, flag or no flag. */
  function AllTexts(calls: seq<map<string, Json>>): seq<Json> {
    if calls == [] then [] else MessageTexts(calls[0]) + AllTexts(calls[1..])
  }

  /** The flag is never reset: after an end of turn no callback queues anything. */
  lemma {:induction false} NothingQueuedAfterEndTurn(calls: seq<map<string, Json>>)
    ensures Enqueued(true, calls) == []
  {
    if calls != [] {
      NothingQueuedAfterEndTurn(calls[1..]);
    }
  }

  /**
   * Over a run of callbacks, exactly the texts carried before the first end
   * of turn are queued, in order.
   */
  lemma {:induction false} QueuedBeforeFirstEndTurn(calls: seq<map<string, Json>>, k: nat)
    requires k <= |calls|
    requires forall i :: 0 <= i < k ==> !EndsTurn(calls[i])
    requires k < |calls| ==> EndsTurn(calls[k])
    ensures Enqueued(false, calls) == AllTexts(calls[..k])
  {
    if calls == [] {
    } else if k == 0 {
      NothingQueuedAfterEndTurn(calls[1..]);
    } else {
      QueuedBeforeFirstEndTurn(calls[1..], k - 1);
      assert calls[..k][1..] == calls[1..][..k - 1];
    }
  }
}

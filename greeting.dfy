/**
 * The one-shot greeting gate of utils.py: the first conversation-context
 * frame travelling downstream is swallowed and replaced by a frame that
 * speaks a configured greeting; afterwards the processor is transparent.
 */
module Greeting {
  import opened Wrappers
  import opened Frames

  /** The outcome of handling one frame: the new `_greeted` flag and what was pushed. */
  datatype Step = Step(greeted: bool, pushed: seq<Push>)

  predicate IsContextFrame(f: Frame) {
    f.OpenAILLMContextFrame?
  }

  /** The rule of `process_frame` for one frame, as a function of the flag. */
  function GreetStep(greeted: bool, greeting: string, p: Push): Step {
    if p.direction != Downstream then Step(greeted, [p])
    else if greeted then Step(greeted, [p])
    else if IsContextFrame(p.frame) then Step(true, [Push(TTSSpeakFrame(greeting), p.direction)])
    else Step(greeted, [p])
  }

  class GreetingProcessor {
    const greeting: string
    var greeted: bool
    /** Every frame pushed so far, in order. */
    var pushed: seq<Push>

    constructor (greeting: string)
      ensures this.greeting == greeting && !greeted && pushed == []
    {
      this.greeting := greeting;
      greeted := false;
      pushed := [];
    }

    method ProcessFrame(frame: Frame, direction: Direction)
      modifies this`greeted, this`pushed
      ensures var s := GreetStep(old(greeted), greeting, Push(frame, direction));
        greeted == s.greeted && pushed == old(pushed) + s.pushed
      ensures old(greeted) ==> greeted
      ensures direction == Upstream ==> greeted == old(greeted) && pushed == old(pushed) + [Push(frame, direction)]
    {
      if direction != Downstream {
        pushed := pushed + [Push(frame, direction)];
        return;
      }
      if greeted {
        pushed := pushed + [Push(frame, direction)];
      } else {
        if frame.OpenAILLMContextFrame? {
          greeted := true;
          var speak := TTSSpeakFrame(greeting);
          pushed := pushed + [Push(speak, direction)];
        } else {
          pushed := pushed + [Push(frame, direction)];
        }
      }
    }
  }

  /** Handling a whole stream of frames, one after the other. */
  function GreetRun(greeted: bool, greeting: string, input: seq<Push>): Step
    decreases |input|
  {
    if input == [] then Step(greeted, [])
    else
      var first := GreetStep(greeted, greeting, input[0]);
      var rest := GreetRun(first.greeted, greeting, input[1..]);
      Step(rest.greeted, first.pushed + rest.pushed)
  }

  predicate IsMarker(p: Push) {
    p.direction == Downstream && IsContextFrame(p.frame)
  }

  /** The position of the first downstream context frame, if there is one. */
  function FirstMarker(input: seq<Push>): (r: Option<nat>)
    ensures r.None? ==> forall i :: 0 <= i < |input| ==> !IsMarker(input[i])
    ensures r.Some? ==>
      && r.value < |input| && IsMarker(input[r.value])
      && forall i :: 0 <= i < r.value ==> !IsMarker(input[i])
  {
    if input == [] then None
    else if IsMarker(input[0]) then Some(0)
    else match FirstMarker(input[1..])
      case None => None
      case Some(k) => Some(k + 1)
  }

  /** Once greeted, the gate forwards every frame unchanged, context frames included. */
  lemma {:induction false} GreetedIsTransparent(greeting: string, input: seq<Push>)
    ensures GreetRun(true, greeting, input) == Step(true, input)
  {
    if input != [] {
      GreetedIsTransparent(greeting, input[1..]);
      assert [input[0]] + input[1..] == input;
    }
  }

  /** Before the first context frame arrives downstream, the gate forwards everything unchanged. */
  lemma {:induction false} NoMarkerIsTransparent(greeting: string, input: seq<Push>)
    requires FirstMarker(input).None?
    ensures GreetRun(false, greeting, input) == Step(false, input)
  {
    if input != [] {
      NoMarkerIsTransparent(greeting, input[1..]);
      assert [input[0]] + input[1..] == input;
    }
  }

  /**
   * Over any stream the ungreeted gate emits exactly the input, except that
   * the first downstream context frame (if any) is replaced by one greeting
   * frame, and it ends greeted exactly when there was such a frame.
   */
  lemma {:induction false} GreetRunReplacesFirstMarker(greeting: string, input: seq<Push>)
    ensures FirstMarker(input).None? ==> GreetRun(false, greeting, input) == Step(false, input)
    ensures FirstMarker(input).Some? ==>
      var k := FirstMarker(input).value;
      GreetRun(false, greeting, input)
        == Step(true, input[..k] + [Push(TTSSpeakFrame(greeting), Downstream)] + input[k + 1..])
  {
    if FirstMarker(input).None? {
      NoMarkerIsTransparent(greeting, input);
    } else if IsMarker(input[0]) {
      GreetedIsTransparent(greeting, input[1..]);
    } else {
      GreetRunReplacesFirstMarker(greeting, input[1..]);
      var k := FirstMarker(input).value;
      assert FirstMarker(input[1..]) == Some(k - 1);
      assert input[1..][..k - 1] == input[1..k];
      assert input[1..][k..] == input[k + 1..];
      assert [input[0]] + input[1..k] == input[..k];
    }
  }

  /**
   * Whatever the state, the gate pushes exactly one frame per frame it
   * handles, and `_greeted` never returns to false.
   */
  lemma {:induction false} GreetRunOneForOne(greeted: bool, greeting: string, input: seq<Push>)
    ensures |GreetRun(greeted, greeting, input).pushed| == |input|
    ensures greeted ==> GreetRun(greeted, greeting, input).greeted
    decreases |input|
  {
    if input != [] {
      GreetRunOneForOne(GreetStep(greeted, greeting, input[0]).greeted, greeting, input[1..]);
    }
  }
}

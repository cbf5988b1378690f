/**
 * Two parallel branches sharing one TTS lock, as bot-advanced.py wires them:
 * each branch runs acquire processor -> TTS -> release processor, and the
 * scheduler interleaves the steps of the four processors arbitrarily. A step
 * of an acquire processor that waits for the lock makes no progress.
 *
 * The responses that the TTS stage speaks are delimited by the markers the
 * LLM service emits, which are pipecat's classes. `marker` is the class the
 * lock processors recognise.
 */
module LockScheduling {
  import opened Frames
  import opened TtsLock

  datatype BranchId = Main | Specialist

  /**
   * One branch. `pending` waits at the acquire processor, `inFlight` has
   * passed it and not yet passed the release processor, `output` has left the
   * branch. `releaseOpen` says that the release processor has seen a response
   * start whose end it has not seen yet.
   */
  datatype Branch = Branch(pending: seq<Frame>, inFlight: seq<Frame>, output: seq<Frame>, releaseOpen: bool)

  datatype System = System(locked: bool, main: Branch, specialist: Branch)

  /** The scheduler lets one processor of one branch handle its next frame. */
  datatype Event = AcquireStep(branch: BranchId) | ReleaseStep(branch: BranchId)

  predicate OpensResponse(f: Frame) { f == LLMFullResponseStartFrame(Pipecat) }
  predicate ClosesResponse(f: Frame) { f == LLMFullResponseEndFrame(Pipecat) }

  /** Response starts and ends alternate in `fs`, beginning in state `open`. */
  predicate WellBracketed(fs: seq<Frame>, open: bool)
    decreases |fs|
  {
    if fs == [] then true
    else if OpensResponse(fs[0]) then !open && WellBracketed(fs[1..], true)
    else if ClosesResponse(fs[0]) then open && WellBracketed(fs[1..], false)
    else WellBracketed(fs[1..], open)
  }

  function StartCount(fs: seq<Frame>): nat {
    if fs == [] then 0 else (if OpensResponse(fs[0]) then 1 else 0) + StartCount(fs[1..])
  }

  lemma {:induction false} StartCountAppend(fs: seq<Frame>, f: Frame)
    ensures StartCount(fs + [f]) == StartCount(fs) + (if OpensResponse(f) then 1 else 0)
  {
    if fs != [] {
      assert (fs + [f])[1..] == fs[1..] + [f];
      StartCountAppend(fs[1..], f);
    }
  }

  /**
   * The branch is between a granted acquire and its matching release: a
   * response start has passed its acquire processor and the matching end has
   * not yet passed its release processor.
   */
  predicate Holding(b: Branch) {
    b.releaseOpen || StartCount(b.inFlight) > 0
  }

  predicate MutualExclusion(s: System) {
    !(Holding(s.main) && Holding(s.specialist))
  }

  /** Everything the branch has been given, in order. */
  function Stream(b: Branch): seq<Frame> {
    b.output + b.inFlight + b.pending
  }

  function Get(s: System, id: BranchId): Branch {
    match id
    case Main => s.main
    case Specialist => s.specialist
  }

  function Put(s: System, id: BranchId, b: Branch): System {
    match id
    case Main => s.(main := b)
    case Specialist => s.(specialist := b)
  }

  /** The acquire processor of a branch handles its next frame, or waits. */
  function AcquireNext(marker: Origin, locked: bool, b: Branch): (bool, Branch) {
    if b.pending == [] || !AcquireEnabled(marker, locked, b.pending[0]) then (locked, b)
    else
      var f := b.pending[0];
      (LockAfterAcquire(marker, locked, f), b.(pending := b.pending[1..], inFlight := b.inFlight + [f]))
  }

  /** The release processor of a branch handles its next frame. */
  function ReleaseNext(marker: Origin, locked: bool, b: Branch): (bool, Branch) {
    if b.inFlight == [] then (locked, b)
    else
      var f := b.inFlight[0];
      var open := if OpensResponse(f) then true else if ClosesResponse(f) then false else b.releaseOpen;
      (LockAfterRelease(marker, locked, f),
       b.(inFlight := b.inFlight[1..], output := b.output + [f], releaseOpen := open))
  }

  function Next(marker: Origin, s: System, e: Event): System {
    var (locked, b) :=
      match e
      case AcquireStep(id) => AcquireNext(marker, s.locked, Get(s, e.branch))
      case ReleaseStep(id) => ReleaseNext(marker, s.locked, Get(s, e.branch));
    Put(s.(locked := locked), e.branch, b)
  }

  function Run(marker: Origin, s: System, schedule: seq<Event>): System
    decreases |schedule|
  {
    if schedule == [] then s else Run(marker, Next(marker, s, schedule[0]), schedule[1..])
  }

  /** Both branches at the start: nothing handled yet, lock free. */
  function Init(mainStream: seq<Frame>, specialistStream: seq<Frame>): System {
    System(false, Branch(mainStream, [], [], false), Branch(specialistStream, [], [], false))
  }

  predicate BranchInv(b: Branch) {
    && WellBracketed(b.inFlight + b.pending, b.releaseOpen)
    && StartCount(b.inFlight) + (if b.releaseOpen then 1 else 0) <= 1
  }

  /** The lock is held exactly when one branch holds it, and never by both. */
  predicate Inv(s: System) {
    && BranchInv(s.main) && BranchInv(s.specialist)
    && (s.locked <==> Holding(s.main) || Holding(s.specialist))
    && MutualExclusion(s)
  }

  lemma InitInv(mainStream: seq<Frame>, specialistStream: seq<Frame>)
    requires WellBracketed(mainStream, false) && WellBracketed(specialistStream, false)
    ensures Inv(Init(mainStream, specialistStream))
  {
    InitBranchInv(mainStream);
    InitBranchInv(specialistStream);
  }

  lemma InitBranchInv(stream: seq<Frame>)
    requires WellBracketed(stream, false)
    ensures BranchInv(Branch(stream, [], [], false)) && !Holding(Branch(stream, [], [], false))
  {
    assert [] + stream == stream;
    assert StartCount([]) == 0;
  }

  lemma AcquireNextKeepsBranchInv(locked: bool, b: Branch, other: Branch)
    requires BranchInv(b) && BranchInv(other)
    requires locked <==> Holding(b) || Holding(other)
    requires !(Holding(b) && Holding(other))
    ensures var (l, b') := AcquireNext(Pipecat, locked, b);
      && BranchInv(b')
      && (l <==> Holding(b') || Holding(other))
      && !(Holding(b') && Holding(other))
  {
    if b.pending != [] && AcquireEnabled(Pipecat, locked, b.pending[0]) {
      var f := b.pending[0];
      var b' := AcquireNext(Pipecat, locked, b).1;
      assert b'.inFlight + b'.pending == b.inFlight + b.pending by {
        assert b.pending == [f] + b.pending[1..];
      }
      StartCountAppend(b.inFlight, f);
    }
  }

  lemma ReleaseNextKeepsBranchInv(locked: bool, b: Branch, other: Branch)
    requires BranchInv(b) && BranchInv(other)
    requires locked <==> Holding(b) || Holding(other)
    requires !(Holding(b) && Holding(other))
    ensures var (l, b') := ReleaseNext(Pipecat, locked, b);
      && BranchInv(b')
      && (l <==> Holding(b') || Holding(other))
      && !(Holding(b') && Holding(other))
  {
    if b.inFlight != [] {
      var f := b.inFlight[0];
      var b' := ReleaseNext(Pipecat, locked, b).1;
      assert (b.inFlight + b.pending)[0] == f;
      assert (b.inFlight + b.pending)[1..] == b'.inFlight + b'.pending;
      assert StartCount(b.inFlight) == (if OpensResponse(f) then 1 else 0) + StartCount(b'.inFlight);
    }
  }

  lemma NextKeepsInv(s: System, e: Event)
    requires Inv(s)
    ensures Inv(Next(Pipecat, s, e))
  {
    match e {
      case AcquireStep(Main) => AcquireNextKeepsBranchInv(s.locked, s.main, s.specialist);
      case AcquireStep(Specialist) => AcquireNextKeepsBranchInv(s.locked, s.specialist, s.main);
      case ReleaseStep(Main) => ReleaseNextKeepsBranchInv(s.locked, s.main, s.specialist);
      case ReleaseStep(Specialist) => ReleaseNextKeepsBranchInv(s.locked, s.specialist, s.main);
    }
  }

  /**
   * With processors that recognise the markers the LLM emits, no schedule
   * ever lets both branches be between a granted acquire and the matching
   * release, provided each branch's response starts and ends alternate.
   */
  lemma {:induction false} MutualExclusionHolds(mainStream: seq<Frame>, specialistStream: seq<Frame>, schedule: seq<Event>)
    requires WellBracketed(mainStream, false) && WellBracketed(specialistStream, false)
    ensures MutualExclusion(Run(Pipecat, Init(mainStream, specialistStream), schedule))
  {
    InitInv(mainStream, specialistStream);
    RunKeepsInv(Init(mainStream, specialistStream), schedule);
  }

  lemma {:induction false} RunKeepsInv(s: System, schedule: seq<Event>)
    requires Inv(s)
    ensures Inv(Run(Pipecat, s, schedule))
    decreases |schedule|
  {
    if schedule != [] {
      NextKeepsInv(s, schedule[0]);
      RunKeepsInv(Next(Pipecat, s, schedule[0]), schedule[1..]);
    }
  }

  /**
   * Whatever the markers and the schedule, each branch forwards every frame
   * it is given exactly once and in order: its stream is only ever split
   * differently between the three places.
   */
  lemma {:induction false} RunKeepsStreams(marker: Origin, s: System, schedule: seq<Event>)
    ensures Stream(Run(marker, s, schedule).main) == Stream(s.main)
    ensures Stream(Run(marker, s, schedule).specialist) == Stream(s.specialist)
    decreases |schedule|
  {
    if schedule != [] {
      NextKeepsStreams(marker, s, schedule[0]);
      RunKeepsStreams(marker, Next(marker, s, schedule[0]), schedule[1..]);
    }
  }

  lemma NextKeepsStreams(marker: Origin, s: System, e: Event)
    ensures Stream(Next(marker, s, e).main) == Stream(s.main)
    ensures Stream(Next(marker, s, e).specialist) == Stream(s.specialist)
  {
    var b := Get(s, e.branch);
    if e.AcquireStep? {
      AcquireNextKeepsStream(marker, s.locked, b);
    } else {
      ReleaseNextKeepsStream(marker, s.locked, b);
    }
  }

  lemma AcquireNextKeepsStream(marker: Origin, locked: bool, b: Branch)
    ensures Stream(AcquireNext(marker, locked, b).1) == Stream(b)
  {
    if b.pending != [] {
      assert b.pending == [b.pending[0]] + b.pending[1..];
    }
  }

  lemma ReleaseNextKeepsStream(marker: Origin, locked: bool, b: Branch)
    ensures Stream(ReleaseNext(marker, locked, b).1) == Stream(b)
  {
    if b.inFlight != [] {
      assert b.inFlight == [b.inFlight[0]] + b.inFlight[1..];
    }
  }

  /**
   * The processors of utils.py recognise only the marker classes that file
   * declares, which no LLM service emits: both branches start speaking a
   * response at once and the lock is never taken.
   */
  lemma LocalMarkersDoNotExclude()
    ensures var stream := [LLMFullResponseStartFrame(Pipecat), TextFrame("hi"), LLMFullResponseEndFrame(Pipecat)];
      && WellBracketed(stream, false)
      && var s := Run(Local, Init(stream, stream), [AcquireStep(Main), AcquireStep(Specialist)]);
         !MutualExclusion(s) && !s.locked
  {
    var stream := [LLMFullResponseStartFrame(Pipecat), TextFrame("hi"), LLMFullResponseEndFrame(Pipecat)];
    assert WellBracketed(stream[2..], true);
    assert WellBracketed(stream[1..], true);
    var s1 := Next(Local, Init(stream, stream), AcquireStep(Main));
    assert s1.main.inFlight == [stream[0]];
    var s2 := Next(Local, s1, AcquireStep(Specialist));
    assert s2.specialist.inFlight == [stream[0]];
    assert StartCount(s2.main.inFlight) > 0;
    assert StartCount(s2.specialist.inFlight) > 0;
  }

  /**
   * The specialist branch speaks what the Strands processor pushes, which
   * carries no response markers: even processors that recognise pipecat's
   * markers let that speech through while the main branch holds the lock.
   * Mutual exclusion covers marker-bracketed responses only.
   */
  lemma UnmarkedSpeechBypassesLock()
    ensures var main := [LLMFullResponseStartFrame(Pipecat), TextFrame("hi"), LLMFullResponseEndFrame(Pipecat)];
      var specialist := [TTSSpeakFrame("bye")];
      && WellBracketed(main, false) && WellBracketed(specialist, false)
      && var s := Run(Pipecat, Init(main, specialist), [AcquireStep(Main), AcquireStep(Specialist)]);
         && s.locked && Holding(s.main) && s.specialist.inFlight == specialist && MutualExclusion(s)
  {
    var main := [LLMFullResponseStartFrame(Pipecat), TextFrame("hi"), LLMFullResponseEndFrame(Pipecat)];
    var specialist := [TTSSpeakFrame("bye")];
    assert WellBracketed(main[2..], true);
    assert WellBracketed(main[1..], true);
    assert WellBracketed(specialist[1..], false);
    var s1 := Next(Pipecat, Init(main, specialist), AcquireStep(Main));
    assert s1.main.inFlight == [main[0]] && s1.locked;
    var s2 := Next(Pipecat, s1, AcquireStep(Specialist));
    assert s2.specialist.inFlight == specialist;
    assert StartCount(s2.main.inFlight) > 0;
    assert StartCount(s2.specialist.inFlight) == 0;
  }
}

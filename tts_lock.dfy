/**
 * The TTS lock acquire/release processors (utils.py and its archived copy).
 * One lock object is shared by reference between the processors of every
 * branch; the acquire processor takes it on a response-start marker and the
 * release processor frees it on a response-end marker. Which marker class is
 * recognised is the processor's `marker`: utils.py tests against the classes
 * it declares itself, the archived copy against pipecat's.
 */
module TtsLock {
  import opened Frames

  /** An `asyncio.Lock`: only whether it is held matters here. */
  class Lock {
    var locked: bool

    constructor ()
      ensures !locked
    {
      locked := false;
    }
  }

  predicate IsStart(marker: Origin, f: Frame) {
    f == LLMFullResponseStartFrame(marker)
  }

  predicate IsEnd(marker: Origin, f: Frame) {
    f == LLMFullResponseEndFrame(marker)
  }

  /**
   * Whether the acquire processor can finish handling `f` now: only a start
   * marker meeting a held lock makes it wait.
   */
  predicate AcquireEnabled(marker: Origin, locked: bool, f: Frame) {
    !(IsStart(marker, f) && locked)
  }

  /** The lock after the acquire processor has handled `f`. */
  function LockAfterAcquire(marker: Origin, locked: bool, f: Frame): (r: bool)
    requires AcquireEnabled(marker, locked, f)
    ensures IsStart(marker, f) ==> r && !locked
    ensures !IsStart(marker, f) ==> r == locked
  {
    locked || IsStart(marker, f)
  }

  /** The lock after the release processor has handled `f`; releasing a free lock is a no-op. */
  function LockAfterRelease(marker: Origin, locked: bool, f: Frame): (r: bool)
    ensures IsEnd(marker, f) ==> !r
    ensures !IsEnd(marker, f) ==> r == locked
    ensures !locked ==> !r
  {
    if IsEnd(marker, f) && locked then false else locked
  }

  class TTSLockAcquireProcessor {
    const lock: Lock
    const marker: Origin
    var pushed: seq<Push>

    /** The processor of utils.py, which recognises its own marker classes. */
    constructor (lock: Lock)
      ensures this.lock == lock && marker == Local && pushed == []
    {
      this.lock := lock;
      marker := Local;
      pushed := [];
    }

    /** The processor of the archived utils.py, which recognises pipecat's marker classes. */
    constructor WithPipecatMarkers(lock: Lock)
      ensures this.lock == lock && marker == Pipecat && pushed == []
    {
      this.lock := lock;
      marker := Pipecat;
      pushed := [];
    }

    /**
     * Handles one frame. `forwarded` is false while the processor waits for
     * the lock: nothing has changed and the same frame is handled again later.
     */
    method ProcessFrame(frame: Frame, direction: Direction) returns (forwarded: bool)
      modifies this`pushed, lock`locked
      ensures forwarded == AcquireEnabled(marker, old(lock.locked), frame)
      ensures forwarded ==> lock.locked == LockAfterAcquire(marker, old(lock.locked), frame)
      ensures forwarded ==> pushed == old(pushed) + [Push(frame, direction)]
      ensures !forwarded ==> lock.locked && pushed == old(pushed)
      ensures forwarded && IsStart(marker, frame) ==> lock.locked
    {
      if frame == LLMFullResponseStartFrame(marker) {
        if lock.locked {
          return false;
        }
        lock.locked := true;
      }
      pushed := pushed + [Push(frame, direction)];
      forwarded := true;
    }
  }

  class TTSLockReleaseProcessor {
    const lock: Lock
    const marker: Origin
    var pushed: seq<Push>

    /** The processor of utils.py, which recognises its own marker classes. */
    constructor (lock: Lock)
      ensures this.lock == lock && marker == Local && pushed == []
    {
      this.lock := lock;
      marker := Local;
      pushed := [];
    }

    /** The processor of the archived utils.py, which recognises pipecat's marker classes. */
    constructor WithPipecatMarkers(lock: Lock)
      ensures this.lock == lock && marker == Pipecat && pushed == []
    {
      this.lock := lock;
      marker := Pipecat;
      pushed := [];
    }

    /** Handles one frame: it is always forwarded, and an end marker leaves the lock free. */
    method ProcessFrame(frame: Frame, direction: Direction)
      modifies this`pushed, lock`locked
      ensures lock.locked == LockAfterRelease(marker, old(lock.locked), frame)
      ensures pushed == old(pushed) + [Push(frame, direction)]
    {
      if frame == LLMFullResponseEndFrame(marker) {
        if lock.locked {
          lock.locked := false;
        }
      }
      pushed := pushed + [Push(frame, direction)];
    }
  }
}

/**
 * The LOCKIN app server object: the two payloads read at construction, the
 * timer handle its transcription handler and timer callback update in place,
 * and the parts of the environment they act on (the timers the event loop
 * holds and the commands sent to the glasses). `OnSession`, `OnTranscription`
 * and `Fire` are proved to take the object from one state to the next
 * exactly as `LockinSpec.Step` does for their event, so the lemmas of
 * `LockinSpec` hold of any sequence of calls to them.
 */
module LockinServer {
  import opened LockinSpec

  class Lockin {
    var imageBase64: string
    var emptyImageBase64: string
    var clearBitmapTimer: Option<TimerId>

    // the event loop's timers, the id it hands out next, and the display
    var pendingTimers: map<TimerId, nat>
    var nextTimer: TimerId
    var sent: seq<Command>

    /** The two payloads, as values. */
    function Payloads(): Assets
      reads this
    {
      Assets(imageBase64, emptyImageBase64)
    }

    /** The handle, the event loop's timers and the display, as a value. */
    function Current(): State
      reads this
    {
      State(clearBitmapTimer, pendingTimers, nextTimer, sent)
    }

    /**
     * Timer ids are handed out fresh, and with the active image the handle
     * names exactly the live timers.
     */
    ghost predicate Valid()
      reads this
    {
      && IdsIssued(Current())
      && (imageBase64 != "" ==> SingleTimer(Current()))
    }

    /**
     * Reads the active bitmap, then the empty one; a failure of either read
     * lands in the catch branch, which blanks both payloads.
     */
    constructor (active: ReadOutcome, empty: ReadOutcome)
      ensures Payloads() == LoadAssets(active, empty)
      ensures Current() == Init
      ensures Valid()
    {
      clearBitmapTimer := None;
      pendingTimers := map[];
      nextTimer := 0;
      sent := [];
      match active {
        case ReadFailed =>
          imageBase64 := "";
          emptyImageBase64 := "";
        case Encoded(image) =>
          imageBase64 := image;
          match empty {
            case ReadFailed =>
              imageBase64 := "";
              emptyImageBase64 := "";
            case Encoded(emptyImage) =>
              emptyImageBase64 := emptyImage;
          }
      }
    }

    /** The event loop schedules a timer and returns a handle not in use. */
    method SetTimeout(delayMs: nat) returns (t: TimerId)
      requires forall k :: k in pendingTimers ==> k < nextTimer
      modifies this`pendingTimers, this`nextTimer
      ensures t !in old(pendingTimers)
      ensures t == old(nextTimer) && nextTimer == t + 1
      ensures forall k :: k in pendingTimers ==> k < nextTimer
      ensures pendingTimers == old(pendingTimers)[t := delayMs]
    {
      t := nextTimer;
      pendingTimers := pendingTimers[t := delayMs];
      nextTimer := nextTimer + 1;
    }

    /** The event loop forgets a timer; one that already ran is left alone. */
    method ClearTimeout(t: TimerId)
      modifies this`pendingTimers
      ensures pendingTimers == old(pendingTimers) - {t}
    {
      pendingTimers := pendingTimers - {t};
    }

    /** Session start: the welcome text; the handler is registered from here on. */
    method OnSession()
      requires Valid()
      modifies this`sent
      ensures Valid()
      ensures Current() == Step(Payloads(), old(Current()), SessionStart)
      ensures sent == old(sent) + [ShowTextWall(WelcomeText, None)]
    {
      sent := sent + [ShowTextWall(WelcomeText, None)];
    }

    /** The transcription handler. */
    method OnTranscription(isFinal: bool)
      requires Valid()
      modifies this`clearBitmapTimer, this`pendingTimers, this`nextTimer, this`sent
      ensures Valid()
      ensures Payloads() == old(Payloads())
      ensures Current() == Step(Payloads(), old(Current()), Transcription(isFinal))
    {
      if imageBase64 != "" {
        sent := sent + [ShowBitmapView(imageBase64)];
        if clearBitmapTimer.Some? {
          ClearTimeout(clearBitmapTimer.value);
          clearBitmapTimer := None;
        }
      }
      if isFinal {
        var t := SetTimeout(ClearDelayMs);
        clearBitmapTimer := Some(t);
      }
      StepKeepsIdsIssued(Payloads(), old(Current()), Transcription(isFinal));
    }

    /** The callback of the timer `id`, run by the event loop. */
    method Fire(id: TimerId)
      requires Valid()
      requires id in pendingTimers
      modifies this`clearBitmapTimer, this`pendingTimers, this`sent
      ensures Valid()
      ensures Payloads() == old(Payloads())
      ensures Current() == Step(Payloads(), old(Current()), TimerFired(id))
    {
      pendingTimers := pendingTimers - {id};
      if emptyImageBase64 != "" {
        sent := sent + [ShowBitmapView(emptyImageBase64)];
      } else {
        sent := sent + [ShowTextWall("", Some(FallbackDurationMs))];
      }
      clearBitmapTimer := None;
    }
  }
}

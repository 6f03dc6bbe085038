# LOCKIN display controller in Dafny

LOCKIN is a small app for smart glasses. Its server object listens to the live
transcription stream of a session. When the active bitmap loaded, it shows
that bitmap on every transcription. Each final transcription also schedules a
10-second timer whose callback clears the display, and the next transcription
of either kind cancels that timer. So after a final transcription followed by
an interim one, no timer is left and the bitmap stays until another final
transcription arrives. When the bitmap did not load, no bitmap is shown and no
timer is ever cancelled, so the display is cleared 10 seconds after every
final transcription. This project models that controller:

- the constructor, which reads two bitmap payloads and falls back to empty
  strings when reading fails;
- the session start, which sends a welcome text;
- the transcription handler;
- the inactivity-timer callback.

The model has two layers.

- `LockinSpec` (lockin_spec.dfy) describes the controller on values. A
  `State` holds four things:
  - the handle the controller keeps (`clearBitmapTimer`);
  - the timers the event loop still holds, as a map from timer id to delay;
  - the next timer id;
  - the log of display commands sent.

  `Step` applies one event: session start, an interim or final
  transcription, or the firing of timer `id`. `Run` applies a sequence of
  events in delivery order. The lemmas about `Run` state the controller's
  properties over any sequence of events.
- `LockinServer.Lockin` (lockin_server.dfy) is the server object as a class.
  It has the source's three fields and the environment they act on. Its
  handler and callback update the fields in place. `OnSession`,
  `OnTranscription` and `Fire` are each proved to move the object exactly as
  `Step` does for their event, so every lemma about `Run` holds of any
  sequence of calls to them. They also keep the class invariant `Valid`:
  timer ids are handed out fresh, and with the active image the handle names
  exactly the live timers. `SetTimeout` and `ClearTimeout` stand for the
  event loop; they are specified directly, not through `Step`.

The clock is not modelled. Scheduling a timer hands out a fresh id, and
cancelling a timer removes its id from the live set. "Timer `id` runs its
callback" is an explicit event. A cancelled or already fired timer never runs
its callback.

Cancelling the held timer is nested inside the check that the active image is
loaded (index.ts:40-50). Scheduling a new timer on a final transcription is
not (index.ts:53-58). The model follows the code as written:

- `RunKeepsSingleTimer` proves that at most one timer is live, and that it is
  the one the handle holds, only when the active image is non-empty.
- `InterimAfterFinalLeavesNoTimer` proves that, with the image, an interim
  transcription after a final one leaves no timer to clear the bitmap.
- `FinalsPileUpWithoutImage` and `TwoLiveTimersWithoutImage` prove that
  without the image every final transcription adds a live timer and none is
  ever cancelled.
- `StaleFireDropsHandle` proves that an older timer firing sets the handle to
  null while a newer timer is still live.

The controller's behaviour follows index.ts. The handler there has no
voice-command lock-in toggle and no "bitmap displayed" flag. It shows the
bitmap on every transcription, and the timer handle is a single field shared
by all sessions of the server. The model has exactly that behaviour.

## Model

| member | source | states |
|---|---|---|
| LockinSpec.LoadAssets | index.ts:14-29 | if either read fails, both payloads are ""; an active image read successfully is still dropped when only the empty image fails; if both reads succeed, both encodings are kept |
| LockinServer.Lockin.constructor | index.ts:10-30 | the object's payloads are `LoadAssets` of the two read outcomes; no timer is held or live, nothing has been sent, and the class invariant holds |
| LockinSpec.OnTranscription | index.ts:38-58 | with the image: exactly one `showBitmapView(image)`, and the held timer is cancelled before anything is scheduled; without it: nothing is sent or cancelled, and an interim event changes nothing; an interim event never schedules; a final event schedules one 10000 ms timer and holds its handle; the new live set is stated whole in every case |
| LockinSpec.OnFire | index.ts:58-71 | a live timer's callback sends exactly one command: `showBitmapView(emptyImage)` if that payload is non-empty, else `showTextWall("", {durationMs: 100})`; the handle becomes null and that timer is no longer live |
| LockinSpec.Step | index.ts:32-73 | every event sends at most one command and only appends to what was sent |
| LockinSpec.Run | index.ts:38-73 | over any sequence of events the log only grows, by at most one command per event |
| LockinSpec.WelcomeFirst | index.ts:34 | after session start, the first command sent is `showTextWall("Example Captions App Ready!")`, whatever events follow |
| LockinSpec.StepKeepsIdsIssued | index.ts:53-58 | one event keeps every live or held timer id below the next id, which never decreases |
| LockinSpec.RunKeepsIdsIssued | index.ts:53-58 | timer ids are never reused: every live or held timer id stays below the next id over any run |
| LockinSpec.StepKeepsSingleTimer | index.ts:40-58 | with the image, one event keeps the live timers equal to the one the handle holds |
| LockinSpec.RunKeepsSingleTimer | index.ts:40-71 | with the image, after any sequence of events at most one timer is live, and it is the one the handle holds |
| LockinSpec.InterimAfterFinalLeavesNoTimer | index.ts:40-58 | with the image, a final transcription followed by an interim one leaves no live timer and a null handle, so nothing clears the bitmap until the next final transcription |
| LockinSpec.InterimsIdleWithoutImage | index.ts:40-53 | without the image, any number of interim transcriptions leave the whole state unchanged and send nothing |
| LockinSpec.EveryTranscriptionShowsImage | index.ts:40-42 | with the image, n transcriptions, interim or final, send exactly n `showBitmapView(image)` commands; a bitmap already on screen is sent again |
| LockinSpec.FinalWithoutImage | index.ts:40-58 | without the image, one final transcription adds one timer not live before and cancels none |
| LockinSpec.FinalsPileUpWithoutImage | index.ts:40-58 | without the image, n final transcriptions cancel nothing: the n new timers join every live one, and the live count grows by n |
| LockinSpec.FinalsHoldLastWithoutImage | index.ts:53-58 | without the image, after n final transcriptions the handle holds only the last timer scheduled |
| LockinSpec.TwoLiveTimersWithoutImage | index.ts:40-58 | without the image, two final transcriptions leave two live timers, so the one-timer property fails |
| LockinSpec.StaleFireDropsHandle | index.ts:58-70 | without the image, the older of two timers firing nulls the handle although the newer timer is still live |
| LockinServer.Lockin.OnSession | index.ts:32-34 | session start moves the object as `Step` does: it sends the welcome text and changes nothing else; the class invariant is kept |
| LockinServer.Lockin.OnTranscription | index.ts:38-58 | the handler moves the object exactly as `Step` does for the transcription, leaves both payloads unchanged, and keeps the class invariant (fresh ids; one timer, the held one, when the image is there) |
| LockinServer.Lockin.Fire | index.ts:58-71 | the callback of a live timer moves the object exactly as `Step` does for its firing, leaves both payloads unchanged, and keeps the class invariant |
| LockinServer.Lockin.SetTimeout | index.ts:58 | when every live id is below the next id, scheduling returns an id that is not live, adds a timer with the given delay under it, and keeps that bound |
| LockinServer.Lockin.ClearTimeout | index.ts:47 | cancelling removes the timer from the live set; a timer that already ran is left alone |

## Left out

- Reading the bitmap files and base64-encoding them (index.ts:15-23) are file I/O. Each read is an input `ReadOutcome`: an encoded string, or a failure.
- Real time, `setTimeout`/`clearTimeout` and the event loop are replaced by explicit timer ids and a "timer fired" event. The delay is recorded but not enforced.
- The transcription text is only written to the console, so events carry only the final flag.
- Console logging and error logging are not modelled (index.ts:18, 24, 26, 41, 46, 54-55, 59, 63, 79-81).
- The phone-notification and battery subscriptions do nothing (index.ts:75-77), so they are not modelled.
- The server SDK, the server bootstrap and configuration (index.ts:89-99) and the registration of cleanup handlers (index.ts:85) are outside the controller.
- All sessions share one timer handle and one controller state, and the model has a single command log. It does not record which session a command is sent to.
- The Python scripts that draw and convert the bitmaps are offline tools around an image library, not part of the controller.

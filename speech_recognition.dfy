/**
 * The result collection of `speech_to_text_long`, common to the three
 * speech-to-text variants. The recogniser's callbacks are modelled as the
 * sequence of events it delivers: each final result appends its text, and
 * a cancellation or the end of the session sets `done`, after which the
 * collected list is returned.
 */
module SpeechRecognition {

  /** An event the recogniser delivers to the connected callbacks. */
  datatype Event =
    | Recognized(text: string)   // `recognized`: `handle_final_result`
    | Canceled                   // `canceled`: `handle_recognition_error`, whatever the reason
    | SessionStopped             // `session_stopped`: `done.set()`

  /** Whether the event sets `done`. */
  predicate EndsSession(e: Event) {
    e.Canceled? || e.SessionStopped?
  }

  /** The events delivered before `done` is set. */
  function UntilDone(events: seq<Event>): (prefix: seq<Event>)
    ensures prefix <= events
    ensures forall k :: 0 <= k < |prefix| ==> !EndsSession(prefix[k])
    ensures prefix == events || EndsSession(events[|prefix|])
  {
    if events == [] || EndsSession(events[0]) then []
    else [events[0]] + UntilDone(events[1..])
  }

  /** The texts of the final results among `events`, in order. */
  function Texts(events: seq<Event>): seq<string> {
    if events == [] then []
    else Texts(events[..|events| - 1]) + (if events[|events| - 1].Recognized? then [events[|events| - 1].text] else [])
  }

  lemma TextsStep(events: seq<Event>, e: Event)
    ensures Texts(events + [e]) == Texts(events) + (if e.Recognized? then [e.text] else [])
  {
    assert (events + [e])[..|events|] == events;
  }

  /** A session that ends without final results yields no text; every text comes from a final result, in order. */
  lemma {:induction false} TextsAreRecognized(events: seq<Event>)
    ensures |Texts(events)| <= |events|
    ensures (forall k :: 0 <= k < |events| ==> !events[k].Recognized?) ==> Texts(events) == []
  {
    if events != [] {
      TextsAreRecognized(events[..|events| - 1]);
    }
  }

  /** Before `done` is set, the next event either ends the delivered prefix or extends it. */
  lemma UntilDoneStep(events: seq<Event>, k: nat)
    requires k < |events| && events[..k] <= UntilDone(events)
    ensures EndsSession(events[k]) ==> UntilDone(events) == events[..k]
    ensures !EndsSession(events[k]) ==> events[..k + 1] <= UntilDone(events)
  {
    var prefix := UntilDone(events);
    if |prefix| > k {
      assert prefix[k] == events[k];
    }
  }

  /**
   * The callbacks of `speech_to_text_long` run over the delivered events
   * until `done` is set: `all_results` ends up holding the texts of the
   * final results that came before the first cancellation or session stop.
   */
  method CollectResults(events: seq<Event>) returns (allResults: seq<string>)
    ensures allResults == Texts(UntilDone(events))
  {
    allResults := [];
    var done := false;
    var k := 0;
    while k < |events| && !done
      invariant 0 <= k <= |events|
      invariant !done ==> events[..k] <= UntilDone(events) && allResults == Texts(events[..k])
      invariant done ==> allResults == Texts(UntilDone(events))
    {
      var e := events[k];
      UntilDoneStep(events, k);
      match e {
        case Recognized(text) =>
          assert events[..k + 1] == events[..k] + [e];
          TextsStep(events[..k], e);
          allResults := allResults + [text];
        case Canceled =>
          done := true;
        case SessionStopped =>
          done := true;
      }
      k := k + 1;
    }
    if !done {
      assert events[..k] == events;
      var prefix := UntilDone(events);
      assert |prefix| == |events| && prefix == events[..|prefix|];
    }
  }
}

/**
 * The speech-recognition wrapper (services/speechRecognition.ts): an
 * `isListening` flag guarding `start` and `stop` of the browser recogniser,
 * and the three recogniser events forwarded to the owner's callbacks.
 */
module SpeechRecognition {

  /** The message reported when the browser has no speech recogniser. */
  const UnsupportedMessage := "المتصفح لا يدعم التعرف على الكلام. يرجى استخدام متصفح كروم."

  /**
   * A call of one of the owner's three callbacks, with the value of
   * `isListening` at the moment of the call (what the owner would see if it
   * asked, or acted on, the service from inside the callback).
   */
  datatype Notice = Heard(text: string, listening: bool) | Ended(listening: bool) | Failed(message: string, listening: bool)

  /** The browser recogniser: its settings and how often `start` and `stop` took effect. */
  class Recognizer {
    var lang: string
    var continuous: bool
    var interimResults: bool
    var starts: nat
    var stops: nat

    constructor ()
      ensures lang == "" && !continuous && !interimResults && starts == 0 && stops == 0
    {
      lang := "";
      continuous := false;
      interimResults := false;
      starts := 0;
      stops := 0;
    }
  }

  /** One alternative of a recognition result. */
  datatype Alternative = Alternative(transcript: string)

  class SpeechRecognitionService {
    var recognition: Recognizer?
    var isListening: bool
    /** The owner's callbacks, in the order they were called. */
    var notices: seq<Notice>

    /** The recogniser, when there is one, is configured for Arabic (Saudi Arabia), one utterance, final results only. */
    ghost predicate Configured()
      reads this, recognition
    {
      recognition != null ==>
        recognition.lang == "ar-SA" && !recognition.continuous && !recognition.interimResults
    }

    ghost predicate Valid()
      reads this, recognition
    {
      Configured() && (isListening ==> recognition != null)
    }

    /**
     * With a browser recogniser (`supported`) a new one is created and
     * configured; without one the owner is told the browser is unsupported
     * and none is created.
     */
    constructor (supported: bool)
      ensures Valid() && !isListening
      ensures supported ==> fresh(recognition) && recognition.starts == 0 && recognition.stops == 0 && notices == []
      ensures !supported ==> recognition == null && notices == [Failed(UnsupportedMessage, false)]
    {
      isListening := false;
      notices := [];
      if !supported {
        recognition := null;
        notices := notices + [Failed(UnsupportedMessage, false)];
      } else {
        var r := new Recognizer();
        r.lang := "ar-SA";
        r.continuous := false;
        r.interimResults := false;
        recognition := r;
      }
    }

    /**
     * `start`: a no-op while listening. Otherwise the recogniser is started
     * and the flag set, unless starting throws (`startThrows`, or no
     * recogniser at all); the exception is logged (`logged`) and the flag stays false.
     */
    method Start(startThrows: bool) returns (logged: bool)
      requires Valid()
      modifies this, recognition
      ensures Valid() && recognition == old(recognition) && notices == old(notices)
      ensures old(isListening) ==> isListening && !logged
      ensures !old(isListening) ==> (isListening <==> recognition != null && !startThrows)
      ensures !old(isListening) ==> (logged <==> !isListening)
      ensures recognition != null ==> recognition.stops == old(recognition.stops)
      ensures recognition != null ==> recognition.starts == old(recognition.starts) + (if isListening && !old(isListening) then 1 else 0)
      ensures recognition != null ==> unchanged(recognition`lang, recognition`continuous, recognition`interimResults)
    {
      logged := false;
      if isListening {
        return;
      }
      if recognition == null || startThrows {
        logged := true;
        return;
      }
      recognition.starts := recognition.starts + 1;
      isListening := true;
    }

    /** `stop`: a no-op while not listening; otherwise the recogniser is stopped and the flag cleared. */
    method Stop()
      requires Valid()
      modifies this, recognition
      ensures Valid() && !isListening && recognition == old(recognition) && notices == old(notices)
      ensures recognition != null ==> recognition.starts == old(recognition.starts)
      ensures recognition != null ==> recognition.stops == old(recognition.stops) + (if old(isListening) then 1 else 0)
      ensures recognition != null ==> unchanged(recognition`lang, recognition`continuous, recognition`interimResults)
    {
      if !isListening {
        return;
      }
      recognition.stops := recognition.stops + 1;
      isListening := false;
    }

    /**
     * The recogniser's `result` event: the first alternative of the first
     * result goes to the owner. An event without one makes the handler throw
     * before the callback, so nothing is forwarded.
     */
    method OnResult(results: seq<seq<Alternative>>) returns (forwarded: bool)
      requires Valid() && recognition != null
      modifies this
      ensures Valid() && recognition == old(recognition) && isListening == old(isListening)
      ensures forwarded <==> |results| > 0 && |results[0]| > 0
      ensures notices == if forwarded then old(notices) + [Heard(results[0][0].transcript, isListening)] else old(notices)
    {
      forwarded := |results| > 0 && |results[0]| > 0;
      if forwarded {
        notices := notices + [Heard(results[0][0].transcript, isListening)];
      }
    }

    /** The recogniser's `end` event: the flag is cleared, then the owner told, so it is told while not listening. */
    method OnEnd()
      requires Valid() && recognition != null
      modifies this
      ensures Valid() && !isListening && recognition == old(recognition)
      ensures notices == old(notices) + [Ended(false)]
    {
      isListening := false;
      notices := notices + [Ended(isListening)];
    }

    /** The recogniser's `error` event: the flag is cleared, then the owner gets `event.error` while not listening. */
    method OnError(error: string)
      requires Valid() && recognition != null
      modifies this
      ensures Valid() && !isListening && recognition == old(recognition)
      ensures notices == old(notices) + [Failed(error, false)]
    {
      isListening := false;
      notices := notices + [Failed(error, isListening)];
    }
  }

  /** Starting twice starts the recogniser once; stopping twice stops it once. */
  method StartStopIdempotent(service: SpeechRecognitionService)
    requires service.Valid() && service.recognition != null && !service.isListening
    modifies service, service.recognition
    ensures service.recognition == old(service.recognition) && !service.isListening
    ensures service.recognition.starts == old(service.recognition.starts) + 1
    ensures service.recognition.stops == old(service.recognition.stops) + 1
  {
    var _ := service.Start(false);
    var _ := service.Start(false);
    service.Stop();
    service.Stop();
  }

  /** Without a browser recogniser, `start` logs the failure and never sets the flag. */
  method UnsupportedNeverListens(startThrows: bool) returns (service: SpeechRecognitionService)
    ensures service.notices == [Failed(UnsupportedMessage, false)] && !service.isListening
  {
    service := new SpeechRecognitionService(false);
    var logged := service.Start(startThrows);
    assert logged;
  }

  /**
   * An owner whose end callback calls `start` again restarts recognition:
   * because the flag is cleared before the callback, that `start` is not
   * swallowed by the listening guard.
   */
  method RestartFromOnEnd(service: SpeechRecognitionService)
    requires service.Valid() && service.recognition != null && service.isListening
    modifies service, service.recognition
    ensures service.isListening && service.recognition == old(service.recognition)
    ensures service.notices == old(service.notices) + [Ended(false)]
    ensures service.recognition.starts == old(service.recognition.starts) + 1
  {
    service.OnEnd();
    var logged := service.Start(false);
  }
}

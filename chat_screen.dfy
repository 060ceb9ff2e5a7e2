/**
 * The chat screen (screens/ChatScreen.tsx): how a failed connection is turned
 * into one of four user messages, which panel is shown, and the screen's
 * state updates, with the `mounted` flag that silences them after teardown.
 */
module ChatScreen {
  import opened Wrappers
  import opened JsErrors
  import opened LiveSession

  // ---------------------------------------------------------------------
  // Substring search (String.prototype.includes).

  /** `pat` occurs in `text` at index `i`. */
  predicate At(text: string, pat: string, i: nat)
  {
    i + |pat| <= |text| && text[i..i + |pat|] == pat
  }

  /** Whether `pat` occurs anywhere in `text`, found by trying each start index in turn. */
  function Includes(text: string, pat: string): (r: bool)
    ensures r <==> exists i: nat :: At(text, pat, i)
    decreases |text|
  {
    if |pat| <= |text| && text[..|pat|] == pat then
      assert At(text, pat, 0);
      true
    else if |text| <= |pat| then
      false
    else
      var r := Includes(text[1..], pat);
      assert r ==> exists i: nat :: At(text, pat, i) by {
        if r {
          var j: nat :| At(text[1..], pat, j);
          assert text[1..][j..j + |pat|] == text[j + 1..j + 1 + |pat|];
          assert At(text, pat, j + 1);
        }
      }
      assert (exists i: nat :: At(text, pat, i)) ==> r by {
        if exists i: nat :: At(text, pat, i) {
          var i: nat :| At(text, pat, i);
          assert i != 0 by { assert text[..|pat|] == text[0..0 + |pat|]; }
          assert text[1..][i - 1..i - 1 + |pat|] == text[i..i + |pat|];
          assert At(text[1..], pat, i - 1);
        }
      }
      r
  }

  /** A character of `pat` that `text` lacks shows that `pat` does not occur in `text`. */
  lemma MissingChar(text: string, pat: string, c: char)
    requires c in pat && c !in text
    ensures !Includes(text, pat)
  {
  }

  // ---------------------------------------------------------------------
  // Error classification (the catch block of `initSession`).

  const GenericMessage := "فشل الاتصال. تأكد من إعداد مفتاح API والسماح باستخدام الميكروفون."
  const DeviceNotFoundMessage := "لم يتم العثور على ميكروفون. يرجى التأكد من توصيل الميكروفون والسماح للمتصفح باستخدامه."
  const PermissionDeniedMessage := "تم رفض إذن الوصول للميكروفون. يرجى السماح بالتسجيل الصوتي من إعدادات المتصفح."
  const ApiKeyMessage := "مفتاح API مفقود. يرجى التأكد من إضافة GEMINI_API_KEY في ملف .env"

  /** The message shown to the user and whether the error was one of the recognised kinds. */
  datatype Classification = Classification(message: string, known: bool)

  predicate DeviceMarker(text: string)
  {
    Includes(text, "Requested device not found") || Includes(text, "NotFoundError")
  }

  predicate PermissionMarker(text: string)
  {
    Includes(text, "Permission denied") || Includes(text, "NotAllowedError")
  }

  predicate ApiKeyMarker(text: string)
  {
    Includes(text, "API Key Missing")
  }

  /** The text an error is classified by: `err.toString() || err.message || ""`. */
  function ErrorText(e: JsError): (r: string)
    ensures r == ToString(e)
  {
    var s := ToString(e);
    if s != "" then s else if e.message != "" then e.message else ""
  }

  /**
   * The ordered checks: device markers first, then permission markers, then
   * the API-key marker; the first that matches decides, and none matching
   * leaves the generic message.
   */
  function Classify(text: string): (c: Classification)
    ensures DeviceMarker(text) ==> c == Classification(DeviceNotFoundMessage, true)
    ensures !DeviceMarker(text) && PermissionMarker(text) ==> c == Classification(PermissionDeniedMessage, true)
    ensures !DeviceMarker(text) && !PermissionMarker(text) && ApiKeyMarker(text) ==> c == Classification(ApiKeyMessage, true)
    ensures c.known <==> DeviceMarker(text) || PermissionMarker(text) || ApiKeyMarker(text)
    ensures !c.known ==> c.message == GenericMessage
  {
    if DeviceMarker(text) then Classification(DeviceNotFoundMessage, true)
    else if PermissionMarker(text) then Classification(PermissionDeniedMessage, true)
    else if ApiKeyMarker(text) then Classification(ApiKeyMessage, true)
    else Classification(GenericMessage, false)
  }


  lemma PrefixAt(a: string, b: string)
    ensures At(a + b, a, 0)
  {
    assert (a + b)[0..|a|] == a;
  }

  lemma SuffixAt(a: string, b: string)
    ensures At(a + b, b, |a|)
  {
    assert (a + b)[|a|..|a| + |b|] == b;
  }

  /** A text with the API-key marker and without 'R', 'N' and 'm' passes only the API-key check. */
  lemma ApiKeyOnly(text: string)
    requires 'R' !in text && 'N' !in text && 'm' !in text && ApiKeyMarker(text)
    ensures Classify(text) == Classification(ApiKeyMessage, true)
  {
    MissingChar(text, "Requested device not found", 'R');
    MissingChar(text, "NotFoundError", 'N');
    MissingChar(text, "Permission denied", 'm');
    MissingChar(text, "NotAllowedError", 'N');
  }

  /** A text containing "NotAllowedError" and without 'R' and 'F' passes the permission check first. */
  lemma PermissionOnly(text: string)
    requires 'R' !in text && 'F' !in text && Includes(text, "NotAllowedError")
    ensures Classify(text) == Classification(PermissionDeniedMessage, true)
  {
    MissingChar(text, "Requested device not found", 'R');
    MissingChar(text, "NotFoundError", 'F');
  }

  lemma ApiKeyMissingText(name: string, message: string)
    requires name == "Error" && message == "API Key Missing"
    ensures var text := name + ": " + message;
      'R' !in text && 'N' !in text && 'm' !in text && ApiKeyMarker(text)
  {
    SuffixAt(name + ": ", message);
  }

  /** The error thrown for a missing API key is reported with the API-key message, as a known error. */
  lemma ApiKeyMissingClassified()
    ensures Classify(ErrorText(ApiKeyMissing)) == Classification(ApiKeyMessage, true)
  {
    ApiKeyMissingText(ApiKeyMissing.name, ApiKeyMissing.message);
    ApiKeyOnly(ErrorText(ApiKeyMissing));
  }

  lemma PermissionRefusedText(name: string, message: string)
    requires name == "NotAllowedError" && message == "Permission denied"
    ensures var text := name + ": " + message;
      'R' !in text && 'F' !in text && Includes(text, "NotAllowedError")
  {
    PrefixAt(name, ": " + message);
    assert name + ": " + message == name + (": " + message);
  }

  /** A refused microphone, a DOMException named NotAllowedError with message "Permission denied", gets the permission message. */
  lemma PermissionRefusedClassified(name: string, message: string)
    requires name == "NotAllowedError" && message == "Permission denied"
    ensures Classify(ErrorText(JsError(name, message))) == Classification(PermissionDeniedMessage, true)
  {
    PermissionRefusedText(name, message);
    PermissionOnly(name + ": " + message);
  }

  /** A missing microphone, a DOMException named NotFoundError, gets the device message whatever its message says. */
  lemma DeviceMissingClassified(message: string)
    ensures Classify(ErrorText(JsError("NotFoundError", message))).message == DeviceNotFoundMessage
  {
    var name := "NotFoundError";
    if message == "" {
      PrefixAt(name, "");
    } else {
      PrefixAt(name, ": " + message);
      assert name + ": " + message == name + (": " + message);
    }
  }

  /** An error carrying both a device and an API-key marker is reported as a device error: the first match wins. */
  lemma FirstMatchWins(text: string)
    requires Includes(text, "NotFoundError") && Includes(text, "API Key Missing")
    ensures Classify(text).message == DeviceNotFoundMessage && Classify(text).known
  {
  }

  // ---------------------------------------------------------------------
  // The status panel.

  datatype Panel = ErrorPanel(message: string) | Connecting | Visualizer(volume: real)

  /** The error if one is set, otherwise "connecting" until connected, otherwise the visualizer. */
  function PanelFor(error: Option<string>, isConnected: bool, volume: real): (p: Panel)
    ensures p.ErrorPanel? <==> error.Some?
    ensures p.ErrorPanel? ==> p.message == error.value
    ensures p.Connecting? <==> error.None? && !isConnected
    ensures p.Visualizer? <==> error.None? && isConnected
    ensures p.Visualizer? ==> p.volume == volume
  {
    if error.Some? then ErrorPanel(error.value)
    else if !isConnected then Connecting
    else Visualizer(volume)
  }

  // ---------------------------------------------------------------------
  // The component.

  /**
   * The chat screen's state, its `sessionRef`, the effect's `mounted` flag
   * and `logged`, the errors passed to `console.error`. The effect runs once
   * per mount: its dependencies, the character and the behavior, do not
   * change while the chat screen is shown.
   */
  class ChatScreen {
    var isConnected: bool
    var error: Option<string>
    var volume: real
    var isMicMuted: bool
    var manager: LiveSessionManager?
    var mounted: bool
    var logged: seq<JsError>

    ghost predicate Valid()
      reads this, manager
    {
      manager != null ==> manager.Valid()
    }

    /**
     * Mounting, and the effect up to its first await: with no API key the
     * error is raised and caught before any manager exists; otherwise a fresh
     * manager is stored (its `connect` is then driven through the manager).
     */
    constructor (apiKeyPresent: bool)
      ensures Valid() && mounted && !isConnected && volume == 0.0 && !isMicMuted
      ensures apiKeyPresent ==> fresh(manager) && manager.State() == Initial && error.None? && logged == []
      ensures !apiKeyPresent ==> manager == null && error == Some(ApiKeyMessage) && logged == []
    {
      isConnected := false;
      volume := 0.0;
      isMicMuted := false;
      mounted := true;
      logged := [];
      if !apiKeyPresent {
        manager := null;

        ApiKeyMissingClassified();
        var c := Classify(ErrorText(ApiKeyMissing));
        error := Some(c.message);
      } else {
        error := None;
        manager := new LiveSessionManager();
      }
    }

    /** `connect` resolved. */
    method ConnectResolved()
      requires Valid()
      modifies this
      ensures Valid()
      ensures old(mounted) ==> isConnected
      ensures !old(mounted) ==> isConnected == old(isConnected)
      ensures error == old(error) && volume == old(volume) && isMicMuted == old(isMicMuted)
      ensures manager == old(manager) && mounted == old(mounted) && logged == old(logged)
    {
      if mounted {
        isConnected := true;
      }
    }

    /** `connect` rejected with `err`: the catch block. Unknown errors are logged even after teardown. */
    method ConnectRejected(err: JsError) returns (classified: Classification)
      requires Valid()
      modifies this
      ensures Valid()
      ensures classified == Classify(ErrorText(err))
      ensures logged == if classified.known then old(logged) else old(logged) + [err]
      ensures old(mounted) ==> error == Some(classified.message)
      ensures !old(mounted) ==> error == old(error)
      ensures isConnected == old(isConnected) && volume == old(volume) && isMicMuted == old(isMicMuted)
      ensures manager == old(manager) && mounted == old(mounted)
    {
      var errorText := ErrorText(err);
      classified := Classify(errorText);
      if !classified.known {
        logged := logged + [err];
      }
      if mounted {
        error := Some(classified.message);
      }
    }

    /** The volume callback handed to the manager. */
    method VolumeChanged(vol: real)
      requires Valid()
      modifies this
      ensures Valid()
      ensures volume == if old(mounted) then vol else old(volume)
      ensures isConnected == old(isConnected) && error == old(error) && isMicMuted == old(isMicMuted)
      ensures manager == old(manager) && mounted == old(mounted) && logged == old(logged)
    {
      if mounted {
        volume := vol;
      }
    }

    /** The effect's cleanup: silences later updates and disconnects the manager if one was created. */
    method Cleanup() returns (disconnected: bool)
      requires Valid()
      modifies this, manager
      ensures Valid() && !mounted && manager == old(manager)
      ensures disconnected <==> manager != null
      ensures manager != null ==> manager.State() == DisconnectStep(old(manager.State())).after
      ensures isConnected == old(isConnected) && error == old(error) && volume == old(volume)
      ensures isMicMuted == old(isMicMuted) && logged == old(logged)
    {
      mounted := false;
      disconnected := false;
      if manager != null {
        var released, stopped := manager.Disconnect();
        disconnected := true;
      }
    }

    /** `toggleMic` flips the (visual) mute flag only. */
    method ToggleMic()
      requires Valid()
      modifies this
      ensures Valid()
      ensures isMicMuted == !old(isMicMuted)
      ensures isConnected == old(isConnected) && error == old(error) && volume == old(volume)
      ensures manager == old(manager) && mounted == old(mounted) && logged == old(logged)
    {
      isMicMuted := !isMicMuted;
    }

    /** The status panel now shown. */
    function Panel(): (p: Panel)
      reads this
    {
      PanelFor(error, isConnected, volume)
    }

    /** The mic button is disabled exactly while not connected. */
    function MicButtonDisabled(): (disabled: bool)
      reads this
    {
      !isConnected
    }
  }

  /** After cleanup, a late connection result or volume report changes nothing the screen shows. */
  method AfterCleanup(screen: ChatScreen, err: JsError, vol: real)
    requires screen.Valid()
    modifies screen, screen.manager
    ensures !screen.mounted && screen.Panel() == old(screen.Panel()) && screen.isMicMuted == old(screen.isMicMuted)
  {
    var _ := screen.Cleanup();
    var shown := screen.Panel();
    screen.ConnectResolved();
    var _ := screen.ConnectRejected(err);
    screen.VolumeChanged(vol);
    assert screen.Panel() == shown;
  }

  /**
   * A successful connection as the child sees it: "connecting" with the mic
   * button disabled until `connect` resolves, then the visualizer at the
   * reported volume with the button enabled.
   */
  method ConnectingThenLive(vol: real) returns (before: Panel, beforeDisabled: bool, after: Panel, afterDisabled: bool)
    ensures before == Connecting && beforeDisabled
    ensures after == Visualizer(vol) && !afterDisabled
  {
    var screen := new ChatScreen(true);
    before := screen.Panel();
    beforeDisabled := screen.MicButtonDisabled();
    screen.ConnectResolved();
    screen.VolumeChanged(vol);
    after := screen.Panel();
    afterDisabled := screen.MicButtonDisabled();
  }

  /** Without an API key the API-key message is shown at once and the mic button stays disabled. */
  method MissingKeyShown() returns (shown: Panel, disabled: bool)
    ensures shown == ErrorPanel(ApiKeyMessage) && disabled
  {
    var screen := new ChatScreen(false);
    shown := screen.Panel();
    disabled := screen.MicButtonDisabled();
  }

  /** A refused microphone shows the permission message, keeps the mic button disabled, and logs nothing. */
  method RefusedShown() returns (shown: Panel, disabled: bool, logged: seq<JsError>)
    ensures shown == ErrorPanel(PermissionDeniedMessage) && disabled && logged == []
  {
    var screen := new ChatScreen(true);
    PermissionRefusedClassified("NotAllowedError", "Permission denied");
    var _ := screen.ConnectRejected(JsError("NotAllowedError", "Permission denied"));
    shown := screen.Panel();
    disabled := screen.MicButtonDisabled();
    logged := screen.logged;
  }

  /**
   * The refusal chain end to end: `connect` starts, the microphone is refused,
   * the manager rethrows, and the screen's catch block shows the permission
   * message with the mic button disabled and nothing logged.
   */
  method RefusalChain(devices: Devices) returns (shown: Panel, disabled: bool, logged: seq<JsError>)
    ensures shown == ErrorPanel(PermissionDeniedMessage) && disabled && logged == []
  {
    var screen := new ChatScreen(true);
    var manager := screen.manager;
    var thrown := manager.Connect(true);
    var refusal := JsError("NotAllowedError", "Permission denied");
    var outcome := manager.MicResolved(Rejected(refusal), devices);
    assert outcome == Threw(refusal);
    PermissionRefusedClassified("NotAllowedError", "Permission denied");
    var _ := screen.ConnectRejected(outcome.error);
    shown := screen.Panel();
    disabled := screen.MicButtonDisabled();
    logged := screen.logged;
  }
}

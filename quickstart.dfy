/** The quick-start workout screen: a running seconds counter shown as
    clock text, and two confirmation dialogs (finish and abandon) whose
    "Oui" leaves the screen without saving anything. */
module QuickStart {
  import opened Common

  /** `formatTime`: minutes `floor(sec / 60)` padded to at least two
      characters, a colon, then `sec % 60` (JavaScript's remainder) padded
      to two. */
  function FormatTime(sec: int): (r: string)
    ensures sec >= 0 ==> |r| >= 5 && r[|r| - 3] == ':'
  {
    var text := PadZeros(IntToString(sec / 60), 2) + ":" + PadZeros(IntToString(JsRem(sec, 60)), 2);
    assert sec >= 0 ==> |PadZeros(IntToString(JsRem(sec, 60)), 2)| == 2 by {
      if sec >= 0 { SmallNatLength(sec % 60); }
    }
    text
  }

  /** The timer text reads back as the elapsed seconds: a minutes field of
      two or more digits and a seconds field 00..59. */
  lemma FormatTimeRoundTrip(sec: nat)
    ensures ReadClock(FormatTime(sec), 2) == Some(sec)
  {
    ClockRoundTrip(sec / 60, sec % 60, 2);
  }

  /** Distinct elapsed times are shown as distinct texts. */
  lemma FormatTimeInjective(a: nat, b: nat)
    ensures FormatTime(a) == FormatTime(b) <==> a == b
  {
    FormatTimeRoundTrip(a);
    FormatTimeRoundTrip(b);
  }

  /** The screen's state. `closeRequests` counts the calls of the `onClose`
      callback the screen was given; the screen holds no database and
      saves nothing. */
  class QuickStartSession {
    var seconds: nat
    var confirmFinishVisible: bool
    var confirmAbandonVisible: bool
    var closeRequests: nat

    /** Mounting: the counter starts at zero and both dialogs are hidden. */
    constructor ()
      ensures seconds == 0 && closeRequests == 0
      ensures !confirmFinishVisible && !confirmAbandonVisible
    {
      seconds := 0;
      confirmFinishVisible := false;
      confirmAbandonVisible := false;
      closeRequests := 0;
    }

    /** The timer text shown on screen. */
    function Display(): (r: string)
      reads this
      ensures ReadClock(r, 2) == Some(seconds)
    {
      FormatTimeRoundTrip(seconds);
      FormatTime(seconds)
    }

    /** One interval tick: the counter grows by exactly one second. */
    method Tick()
      modifies this`seconds
      ensures seconds == old(seconds) + 1
    {
      seconds := seconds + 1;
    }

    /** "Terminer" opens the finish dialog. */
    method AskFinish()
      modifies this`confirmFinishVisible
      ensures confirmFinishVisible
    {
      confirmFinishVisible := true;
    }

    /** "Abandonner" opens the abandon dialog. */
    method AskAbandon()
      modifies this`confirmAbandonVisible
      ensures confirmAbandonVisible
    {
      confirmAbandonVisible := true;
    }

    /** "Oui" in the finish dialog: the dialog closes and `onClose` is
        called once; nothing else changes. */
    method ConfirmFinish()
      modifies this`confirmFinishVisible, this`closeRequests
      ensures !confirmFinishVisible
      ensures closeRequests == old(closeRequests) + 1
    {
      confirmFinishVisible := false;
      closeRequests := closeRequests + 1;
    }

    /** "Oui" in the abandon dialog: the same effect as confirming finish,
        on the other dialog's flag. */
    method ConfirmAbandon()
      modifies this`confirmAbandonVisible, this`closeRequests
      ensures !confirmAbandonVisible
      ensures closeRequests == old(closeRequests) + 1
    {
      confirmAbandonVisible := false;
      closeRequests := closeRequests + 1;
    }

    /** "Non" (or the system back action) in the finish dialog only closes
        it. */
    method DeclineFinish()
      modifies this`confirmFinishVisible
      ensures !confirmFinishVisible
    {
      confirmFinishVisible := false;
    }

    /** "Non" (or the system back action) in the abandon dialog only closes
        it. */
    method DeclineAbandon()
      modifies this`confirmAbandonVisible
      ensures !confirmAbandonVisible
    {
      confirmAbandonVisible := false;
    }
  }

  /** Finishing and abandoning end the same way: from the same state, either
      confirmation leaves both dialogs closed, the counter as it was and
      exactly one `onClose` call. */
  method FinishAndAbandonAgree(finishing: QuickStartSession, abandoning: QuickStartSession)
    requires finishing != abandoning
    requires finishing.seconds == abandoning.seconds
    requires finishing.closeRequests == abandoning.closeRequests
    requires !finishing.confirmAbandonVisible && !abandoning.confirmFinishVisible
    modifies finishing, abandoning
    ensures finishing.seconds == abandoning.seconds
    ensures finishing.closeRequests == abandoning.closeRequests == old(finishing.closeRequests) + 1
    ensures !finishing.confirmFinishVisible && !finishing.confirmAbandonVisible
    ensures !abandoning.confirmFinishVisible && !abandoning.confirmAbandonVisible
  {
    finishing.ConfirmFinish();
    abandoning.ConfirmAbandon();
  }
}

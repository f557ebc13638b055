/** The review page's controller as the script runs it: module-level
    counters and DOM properties that the event handlers update in place.
    Every handler is proved to leave the page exactly as the matching
    function of module Escalation describes, and to keep it consistent. */
module ReviewUi {
  import opened Escalation

  class Controller {
    var noClickCount: nat
    var yesClickCount: nat
    var modalMessage: string      // textContent of the dialog's message
    var modalOpen: bool           // the confirmation dialog is open
    var noShrinking: bool         // class `shrinking` on the No button
    var yesGrowing: bool          // class `growing` on the Yes button
    var successTitle: string      // textContent of the overlay's title
    var successMessage: string    // textContent of the overlay's message
    var successIcon: string       // textContent of the overlay's icon
    var overlayActive: bool       // class `active` on the success overlay
    var overlayAriaHidden: string // attribute `aria-hidden` of the overlay

    /** The page state held by this controller. */
    function View(): Page
      reads this
    {
      Page(noClickCount, yesClickCount, modalMessage, modalOpen, noShrinking, yesGrowing,
           Payload(successTitle, successMessage, successIcon), overlayActive, overlayAriaHidden)
    }

    ghost predicate Valid()
      reads this
    {
      Consistent(View())
    }

    /** The page as loaded, with the dialog and overlay texts of the markup. */
    constructor (modalText: string, successText: Payload)
      ensures View() == Loaded(modalText, successText)
      ensures Valid()
    {
      noClickCount, yesClickCount := 0, 0;
      modalMessage, modalOpen := modalText, false;
      noShrinking, yesGrowing := false, false;
      successTitle, successMessage, successIcon := successText.title, successText.message, successText.icon;
      overlayActive, overlayAriaHidden := false, "true";
    }

    /** showSuccessOverlay */
    method ShowSuccessOverlay()
      modifies this
      ensures overlayActive && overlayAriaHidden == "false"
      ensures View() == OverlayShown(old(View()))
    {
      overlayAriaHidden := "false";
      overlayActive := true;
    }

    /** hideSuccessOverlay, the close button's click handler */
    method HideSuccessOverlay()
      modifies this
      ensures !overlayActive && overlayAriaHidden == "true"
      ensures View() == OverlayHidden(old(View()))
      ensures old(Valid()) ==> Valid()
    {
      overlayAriaHidden := "true";
      overlayActive := false;
    }

    /** applyEscalatingBehavior */
    method ApplyEscalatingBehavior()
      modifies this
      ensures noShrinking <==> old(noShrinking) || noClickCount >= ShrinkAt
      ensures yesGrowing <==> old(yesGrowing) || noClickCount >= GrowAt
      ensures View() == Escalated(old(View()))
    {
      if noClickCount >= ShrinkAt {
        noShrinking := true;
      }
      if noClickCount >= GrowAt {
        yesGrowing := true;
      }
    }

    /** handleYesClick, the main Yes button's click handler */
    method HandleYesClick()
      modifies this
      ensures yesClickCount == old(yesClickCount) + 1 && noClickCount == old(noClickCount)
      ensures Payload(successTitle, successMessage, successIcon)
              == SuccessMessages[old(yesClickCount) % |SuccessMessages|]
      ensures overlayActive
      ensures View() == YesClicked(old(View()))
      ensures old(Valid()) ==> Valid()
    {
      var msgIndex := yesClickCount % |SuccessMessages|;
      var msg := SuccessMessages[msgIndex];
      yesClickCount := yesClickCount + 1;

      successTitle := msg.title;
      successMessage := msg.message;
      successIcon := msg.icon;

      ShowSuccessOverlay();
    }

    /** handleNoClick, the main No button's click handler */
    method HandleNoClick()
      modifies this
      ensures noClickCount == old(noClickCount) + 1 && yesClickCount == old(yesClickCount)
      ensures modalOpen
      ensures modalMessage == EscalatingMessages[old(noClickCount) % |EscalatingMessages|]
      ensures View() == NoClicked(old(View()))
      ensures old(Valid()) ==> Valid()
    {
      noClickCount := noClickCount + 1;

      var messageIndex := (noClickCount - 1) % |EscalatingMessages|;
      modalMessage := EscalatingMessages[messageIndex];
      modalOpen := true;

      ApplyEscalatingBehavior();
    }

    /** handleModalYes, the dialog's Yes button: close, then as the main Yes. */
    method HandleModalYes()
      modifies this
      ensures !modalOpen
      ensures yesClickCount == old(yesClickCount) + 1 && noClickCount == old(noClickCount)
      ensures View() == ModalYesClicked(old(View()))
      ensures old(Valid()) ==> Valid()
    {
      modalOpen := false;
      HandleYesClick();
    }

    /** handleModalNo, the dialog's No button */
    method HandleModalNo()
      modifies this
      ensures noClickCount == old(noClickCount) + 1 && yesClickCount == old(yesClickCount)
      ensures modalOpen == old(modalOpen)
      ensures modalMessage == EscalatingMessages[old(noClickCount) % |EscalatingMessages|]
      ensures View() == ModalNoClicked(old(View()))
      ensures old(Valid()) ==> Valid()
    {
      noClickCount := noClickCount + 1;
      ApplyEscalatingBehavior();

      var messageIndex := (noClickCount - 1) % |EscalatingMessages|;
      modalMessage := EscalatingMessages[messageIndex];
    }

    /** The dialog's `cancel` listener: the default (closing) is prevented and
        nothing else happens. */
    method HandleDialogCancel()
      ensures View() == Step(old(View()), DialogCancel)
    {
    }

    /** The listeners `init` installs: each user event reaches its handler. */
    method Dispatch(e: Event)
      modifies this
      ensures View() == Step(old(View()), e)
      ensures old(Valid()) ==> Valid()
    {
      match e
      case YesButton => HandleYesClick();
      case NoButton => HandleNoClick();
      case DialogYes => HandleModalYes();
      case DialogNo => HandleModalNo();
      case DialogCancel => HandleDialogCancel();
      case OverlayClose => HideSuccessOverlay();
    }
  }
}

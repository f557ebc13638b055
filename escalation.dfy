/** The escalation controller of the review page, as values.

    The page's state is the two click counters of script.js together with the
    pieces of the DOM that the handlers write: the dialog's message and
    open flag, the `shrinking` class of the No button, the `growing` class of
    the Yes button, the three texts of the success overlay and the overlay's
    `active` class and `aria-hidden` attribute. Each DOM handler is a function
    from the page before the event to the page after it; `Run` replays a
    sequence of user events. The class in module ReviewUi performs the same
    updates in place and is proved against these functions.
 */
module Escalation {

  /** One entry of the success catalogue: the overlay's title, message and icon. */
  datatype Payload = Payload(title: string, message: string, icon: string)

  /** The success catalogue, shown in turn on every Yes and reused cyclically. */
  const SuccessMessages: seq<Payload> := [
    Payload("Correct Answer!", "You have excellent judgment. Roy appreciates you.", "\U{1F389}"),
    Payload("Exactly Right!", "Roy knew you'd see it his way. Good call.", "\U{2728}"),
    Payload("So Wise!", "Your wisdom has been recorded. Roy is pleased.", "\U{1F31F}"),
    Payload("Perfect Choice!", "The approval meter just smiled. You did it.", "\U{1F44D}"),
    Payload("Roy Approved!", "You're officially on Roy's good list. Welcome.", "\U{1F451}"),
    Payload("Great Minds Think Alike!", "You and Roy agree. As it should be.", "\U{1F91D}"),
    Payload("Another Win!", "Consistency is key. You keep making the right choice.", "\U{1F3C6}"),
    Payload("Couldn't Agree More!", "Roy is nodding approvingly from wherever he is.", "\U{1F60C}"),
    Payload("You Get It!", "Finally, someone who understands. Roy salutes you.", "\U{1F396}\U{FE0F}"),
    Payload("Legendary Choice!", "Future generations will study this moment. Well done.", "\U{1F4DC}")
  ]

  /** The escalating prompts of the confirmation dialog, reused cyclically. */
  const EscalatingMessages: seq<string> := [
    "Are you sure?",
    "Really sure?",
    "Last chance?",
    "This might hurt Roy's feelings...",
    "Roy's mom will be sad.",
    "The approval meter is watching.",
    "Okay but... why though?",
    "We could just pretend you meant Yes?",
    "Roy believes in second chances.",
    "Just... think about it?",
    "We're not mad. Just disappointed.",
    "The No button is tired. Let it rest.",
    "Yes is literally right there. Right. There.",
    "Roy is waiting. Patiently. Maybe too patiently."
  ]

  /** From this many No clicks on, the No button carries `shrinking`. */
  const ShrinkAt: nat := 3
  /** From this many No clicks on, the Yes button carries `growing`. */
  const GrowAt: nat := 5

  /** The controller's state and the DOM state its handlers write. */
  datatype Page = Page(
    noClickCount: nat,
    yesClickCount: nat,
    modalMessage: string,     // textContent of the dialog's message
    modalOpen: bool,          // whether the confirmation dialog is open
    noShrinking: bool,        // the No button has the class `shrinking`
    yesGrowing: bool,         // the Yes button has the class `growing`
    success: Payload,         // title, message and icon texts of the overlay
    overlayActive: bool,      // the overlay has the class `active`
    overlayAriaHidden: string // the overlay's `aria-hidden` attribute
  )

  /** The user events the page listens to. */
  datatype Event =
    | YesButton      // click on the main Yes button
    | NoButton       // click on the main No button
    | DialogYes      // click on Yes inside the confirmation dialog
    | DialogNo       // click on No inside the confirmation dialog
    | DialogCancel   // Escape or backdrop click on the dialog
    | OverlayClose   // click on the overlay's close button

  predicate IsYes(e: Event) { e.YesButton? || e.DialogYes? }
  predicate IsNo(e: Event) { e.NoButton? || e.DialogNo? }

  /** The page as loaded: both counters zero, dialog closed, overlay hidden,
      no escalation class; the two texts are whatever the markup holds. */
  function Loaded(modalText: string, successText: Payload): (p: Page)
    ensures Consistent(p)
    ensures p.noClickCount == 0 && p.yesClickCount == 0
    ensures !p.modalOpen && !p.overlayActive
  {
    Page(0, 0, modalText, false, false, false, successText, false, "true")
  }

  /** The catalogue index a Yes uses, from the count of earlier Yes clicks:
      the residue of that count modulo the catalogue length. */
  function SuccessIndex(yesClickCount: nat): (i: nat)
    ensures i < |SuccessMessages|
    ensures (yesClickCount - i) % |SuccessMessages| == 0
  {
    yesClickCount % |SuccessMessages|
  }

  /** The prompt index a No uses, from the count that already includes this
      No: the residue of the count minus one modulo the catalogue length. */
  function EscalatingIndex(noClickCount: nat): (i: nat)
    requires noClickCount >= 1
    ensures i < |EscalatingMessages|
    ensures (noClickCount - 1 - i) % |EscalatingMessages| == 0
  {
    (noClickCount - 1) % |EscalatingMessages|
  }

  /** What the page shows is determined by the counters: the flags by the
      thresholds, the dialog by the latest No, the overlay texts by the latest
      Yes, and `aria-hidden` by the overlay's `active` class. */
  predicate Consistent(p: Page) {
    (p.noShrinking <==> p.noClickCount >= ShrinkAt) &&
    (p.yesGrowing <==> p.noClickCount >= GrowAt) &&
    p.overlayAriaHidden == (if p.overlayActive then "false" else "true") &&
    (p.noClickCount >= 1 ==> p.modalMessage == EscalatingMessages[EscalatingIndex(p.noClickCount)]) &&
    (p.yesClickCount >= 1 ==> p.success == SuccessMessages[SuccessIndex(p.yesClickCount - 1)])
  }

  /** showSuccessOverlay: the overlay becomes active and visible to assistive
      technology; nothing else changes. */
  function OverlayShown(p: Page): (r: Page)
    ensures r.overlayActive && r.overlayAriaHidden == "false"
    ensures r.(overlayActive := p.overlayActive, overlayAriaHidden := p.overlayAriaHidden) == p
  {
    p.(overlayAriaHidden := "false", overlayActive := true)
  }

  /** hideSuccessOverlay: the overlay becomes inactive and hidden; nothing
      else changes, and a page that is consistent stays so. */
  function OverlayHidden(p: Page): (r: Page)
    ensures !r.overlayActive && r.overlayAriaHidden == "true"
    ensures r.(overlayActive := p.overlayActive, overlayAriaHidden := p.overlayAriaHidden) == p
    ensures Consistent(p) ==> Consistent(r)
  {
    p.(overlayAriaHidden := "true", overlayActive := false)
  }

  /** applyEscalatingBehavior: a class is added once the count has reached its
      threshold and is never removed; only the two classes change. */
  function Escalated(p: Page): (r: Page)
    ensures r.noShrinking <==> p.noShrinking || p.noClickCount >= ShrinkAt
    ensures r.yesGrowing <==> p.yesGrowing || p.noClickCount >= GrowAt
    ensures r.(noShrinking := p.noShrinking, yesGrowing := p.yesGrowing) == p
  {
    p.(noShrinking := p.noShrinking || p.noClickCount >= ShrinkAt,
       yesGrowing := p.yesGrowing || p.noClickCount >= GrowAt)
  }

  /** handleYesClick: the overlay shows the catalogue entry at the number of
      earlier Yes clicks (cyclically), the Yes counter goes up by one, the
      overlay opens; the No side of the page is untouched. */
  function YesClicked(p: Page): (r: Page)
    ensures r.yesClickCount == p.yesClickCount + 1
    ensures r.success == SuccessMessages[p.yesClickCount % |SuccessMessages|]
    ensures r.overlayActive && r.overlayAriaHidden == "false"
    ensures r.noClickCount == p.noClickCount && r.modalMessage == p.modalMessage && r.modalOpen == p.modalOpen
    ensures r.noShrinking == p.noShrinking && r.yesGrowing == p.yesGrowing
    ensures Consistent(p) ==> Consistent(r)
  {
    var msg := SuccessMessages[SuccessIndex(p.yesClickCount)];
    OverlayShown(p.(yesClickCount := p.yesClickCount + 1, success := msg))
  }

  /** handleNoClick: the No counter goes up by one, the dialog opens on the
      prompt at the number of earlier No clicks (cyclically), and the classes
      are brought up to date; the Yes side of the page is untouched. */
  function NoClicked(p: Page): (r: Page)
    ensures r.noClickCount == p.noClickCount + 1
    ensures r.modalOpen
    ensures r.modalMessage == EscalatingMessages[p.noClickCount % |EscalatingMessages|]
    ensures (p.noShrinking ==> r.noShrinking) && (p.yesGrowing ==> r.yesGrowing)
    ensures r.yesClickCount == p.yesClickCount && r.success == p.success
    ensures r.overlayActive == p.overlayActive && r.overlayAriaHidden == p.overlayAriaHidden
    ensures Consistent(p) ==> Consistent(r)
  {
    var counted := p.(noClickCount := p.noClickCount + 1);
    var prompted := counted.(modalMessage := EscalatingMessages[EscalatingIndex(counted.noClickCount)], modalOpen := true);
    Escalated(prompted)
  }

  /** handleModalYes: the dialog closes, and otherwise the effect is exactly
      that of a click on the main Yes button. */
  function ModalYesClicked(p: Page): (r: Page)
    ensures r == YesClicked(p).(modalOpen := false)
    ensures !r.modalOpen
    ensures Consistent(p) ==> Consistent(r)
  {
    YesClicked(p.(modalOpen := false))
  }

  /** handleModalNo: the No counter goes up by one, the classes are brought up
      to date and the dialog moves on to the next prompt; whether the dialog
      is open is not touched, and neither is the Yes side of the page. */
  function ModalNoClicked(p: Page): (r: Page)
    ensures r.noClickCount == p.noClickCount + 1
    ensures r.modalOpen == p.modalOpen
    ensures r.modalMessage == EscalatingMessages[p.noClickCount % |EscalatingMessages|]
    ensures (p.noShrinking ==> r.noShrinking) && (p.yesGrowing ==> r.yesGrowing)
    ensures r.yesClickCount == p.yesClickCount && r.success == p.success
    ensures r.overlayActive == p.overlayActive && r.overlayAriaHidden == p.overlayAriaHidden
    ensures Consistent(p) ==> Consistent(r)
  {
    var counted := Escalated(p.(noClickCount := p.noClickCount + 1));
    counted.(modalMessage := EscalatingMessages[EscalatingIndex(counted.noClickCount)])
  }

  /** One event. The dialog's `cancel` is prevented, so it changes nothing.
      No event lowers a counter or removes a class, a Yes never touches the No
      counter and a No never touches the Yes counter. */
  function Step(p: Page, e: Event): (r: Page)
    ensures e.DialogCancel? ==> r == p
    ensures r.noClickCount == p.noClickCount + (if IsNo(e) then 1 else 0)
    ensures r.yesClickCount == p.yesClickCount + (if IsYes(e) then 1 else 0)
    ensures (p.noShrinking ==> r.noShrinking) && (p.yesGrowing ==> r.yesGrowing)
    ensures Consistent(p) ==> Consistent(r)
  {
    match e
    case YesButton => YesClicked(p)
    case NoButton => NoClicked(p)
    case DialogYes => ModalYesClicked(p)
    case DialogNo => ModalNoClicked(p)
    case DialogCancel => p
    case OverlayClose => OverlayHidden(p)
  }

  /** The page after the events `evs`, in order, starting from `p`. */
  function Run(p: Page, evs: seq<Event>): Page
  {
    if evs == [] then p else Step(Run(p, evs[..|evs| - 1]), evs[|evs| - 1])
  }

  /** The number of No clicks (main or dialog) in `evs`. */
  function NoCount(evs: seq<Event>): nat
  {
    if evs == [] then 0 else NoCount(evs[..|evs| - 1]) + (if IsNo(evs[|evs| - 1]) then 1 else 0)
  }

  /** The number of Yes clicks (main or dialog) in `evs`. */
  function YesCount(evs: seq<Event>): nat
  {
    if evs == [] then 0 else YesCount(evs[..|evs| - 1]) + (if IsYes(evs[|evs| - 1]) then 1 else 0)
  }

  /** Each counter rises by exactly the number of its own clicks. */
  lemma {:induction false} RunCounts(p: Page, evs: seq<Event>)
    ensures Run(p, evs).noClickCount == p.noClickCount + NoCount(evs)
    ensures Run(p, evs).yesClickCount == p.yesClickCount + YesCount(evs)
  {
    if evs != [] {
      RunCounts(p, evs[..|evs| - 1]);
    }
  }

  /** No sequence of events lowers a counter or removes a class. */
  lemma {:induction false} RunMonotone(p: Page, evs: seq<Event>)
    ensures Run(p, evs).noClickCount >= p.noClickCount
    ensures Run(p, evs).yesClickCount >= p.yesClickCount
    ensures p.noShrinking ==> Run(p, evs).noShrinking
    ensures p.yesGrowing ==> Run(p, evs).yesGrowing
  {
    if evs != [] {
      RunMonotone(p, evs[..|evs| - 1]);
    }
  }

  /** Every sequence of events keeps the page consistent. */
  lemma {:induction false} RunConsistent(p: Page, evs: seq<Event>)
    requires Consistent(p)
    ensures Consistent(Run(p, evs))
  {
    if evs != [] {
      RunConsistent(p, evs[..|evs| - 1]);
    }
  }

  /** After n >= 1 No clicks since loading, the dialog shows prompt (n-1) mod 14. */
  lemma MessageAfterDeclines(modalText: string, successText: Payload, evs: seq<Event>)
    requires NoCount(evs) >= 1
    ensures Run(Loaded(modalText, successText), evs).modalMessage
            == EscalatingMessages[(NoCount(evs) - 1) % |EscalatingMessages|]
  {
    var p := Loaded(modalText, successText);
    RunCounts(p, evs);
    RunConsistent(p, evs);
  }

  /** Since loading, `shrinking` is on iff there were at least 3 No clicks and
      `growing` iff there were at least 5; `aria-hidden` always matches the
      overlay's `active` class. */
  lemma FlagsAfterDeclines(modalText: string, successText: Payload, evs: seq<Event>)
    ensures Run(Loaded(modalText, successText), evs).noShrinking <==> NoCount(evs) >= 3
    ensures Run(Loaded(modalText, successText), evs).yesGrowing <==> NoCount(evs) >= 5
    ensures var r := Run(Loaded(modalText, successText), evs);
            r.overlayAriaHidden == if r.overlayActive then "false" else "true"
  {
    var p := Loaded(modalText, successText);
    RunCounts(p, evs);
    RunConsistent(p, evs);
  }

  /** The k-th Yes since loading (counting from 0, main or dialog button)
      shows success entry k mod 10 and opens the overlay. */
  lemma KthYesShowsEntry(modalText: string, successText: Payload, evs: seq<Event>, e: Event)
    requires IsYes(e)
    ensures Run(Loaded(modalText, successText), evs + [e]).success
            == SuccessMessages[YesCount(evs) % |SuccessMessages|]
    ensures Run(Loaded(modalText, successText), evs + [e]).overlayActive
  {
    var p := Loaded(modalText, successText);
    assert (evs + [e])[..|evs + [e]| - 1] == evs;
    RunCounts(p, evs);
  }

  /** Counting one further moves a prompt index to the next one, wrapping
      after the last prompt. */
  lemma IndexSucc(n: nat)
    ensures (n + 1) % |EscalatingMessages| == (n % |EscalatingMessages| + 1) % |EscalatingMessages|
  {
  }

  /** A dialog No on a consistent page moves the dialog to the entry after the
      one it shows, wrapping from the last prompt to the first. */
  lemma DialogNoAdvances(p: Page)
    requires Consistent(p) && p.noClickCount >= 1
    ensures p.modalMessage == EscalatingMessages[EscalatingIndex(p.noClickCount)]
    ensures ModalNoClicked(p).modalMessage
            == EscalatingMessages[(EscalatingIndex(p.noClickCount) + 1) % |EscalatingMessages|]
  {
    IndexSucc(p.noClickCount - 1);
  }

  /** Hiding an already hidden overlay changes nothing. */
  lemma HideIdempotent(p: Page)
    ensures OverlayHidden(OverlayHidden(p)) == OverlayHidden(p)
  {
  }

  /** Four No clicks (one on the page, three in the dialog) and then a Yes in
      the dialog: the last prompt is entry 3, the No button shrinks but the
      Yes button does not grow yet, and the overlay shows success entry 0. */
  lemma DeclineFourThenAccept(modalText: string, successText: Payload)
    ensures var r := Run(Loaded(modalText, successText), [NoButton, DialogNo, DialogNo, DialogNo, DialogYes]);
            r.modalMessage == EscalatingMessages[3] && r.success == SuccessMessages[0] &&
            r.noClickCount == 4 && r.yesClickCount == 1 &&
            r.noShrinking && !r.yesGrowing && !r.modalOpen && r.overlayActive
  {
    var pre := [NoButton, DialogNo, DialogNo, DialogNo];
    var evs := pre + [DialogYes];
    assert evs == [NoButton, DialogNo, DialogNo, DialogNo, DialogYes];
    var e1, e2, e3 := [NoButton], [NoButton, DialogNo], [NoButton, DialogNo, DialogNo];
    assert e1[..0] == [] && e2[..1] == e1 && e3[..2] == e2 && pre[..3] == e3;
    assert NoCount(e1) == 1 && YesCount(e1) == 0;
    assert NoCount(e2) == 2 && YesCount(e2) == 0;
    assert NoCount(e3) == 3 && YesCount(e3) == 0;
    assert NoCount(pre) == 4 && YesCount(pre) == 0;
    assert evs[..|evs| - 1] == pre;
    assert NoCount(evs) == 4 && YesCount(evs) == 1;
    var p := Loaded(modalText, successText);
    MessageAfterDeclines(modalText, successText, pre);
    KthYesShowsEntry(modalText, successText, pre, DialogYes);
    FlagsAfterDeclines(modalText, successText, evs);
    RunCounts(p, evs);
  }
}

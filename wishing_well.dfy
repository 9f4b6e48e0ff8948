/** The wishing-well minigame of the fountain map as a state machine over
    the activity's flags (`activeWish`, `hasCompletedWishingWell`), the wish
    dialog and the delayed completions scheduled by choosing a wish. */
module WishingWell {

  datatype Well = Well(
    activeWish: bool,     // a coin is in the air
    completed: bool,      // `hasCompletedWishingWell`
    dialogOpen: bool,     // the wish dialog is showing
    pending: nat,         // completions scheduled 1500 ms after a choice
    granted: nat)         // "wish completed" dialogs shown so far

  const Initial := Well(false, false, false, 0, 0)

  datatype Event =
    | PressA        // the player asks to interact at the fountain centre
    | ChooseWish    // an item of the wish dialog is picked
    | CancelDialog  // "Cancelar"
    | TimerFires    // a scheduled completion runs

  /** `startWishingWellMinigame` as written: only a completed well refuses.
      While a dialog is showing it swallows every press of A. */
  function StartAsWritten(w: Well): (r: Well)
    ensures w.completed || w.dialogOpen ==> r == w
  {
    if w.completed || w.dialogOpen then w else w.(dialogOpen := true)
  }

  /** The start guard as intended: also refuse while a wish is in flight.
      Specifies `TramoFuente.StartWishingWellMinigame`. */
  function Start(w: Well): (r: Well)
    ensures w.completed || w.activeWish || w.dialogOpen ==> r == w
    ensures r.activeWish == w.activeWish && r.completed == w.completed && r.granted == w.granted
  {
    if w.completed || w.activeWish || w.dialogOpen then w else w.(dialogOpen := true)
  }

  /** The dialog's item handler: the wish becomes active and a completion
      is scheduled. Specifies `TramoFuente.ChooseWish`. */
  function Choose(w: Well): Well {
    if !w.dialogOpen then w
    else w.(dialogOpen := false, activeWish := true, pending := w.pending + 1)
  }

  /** The dialog's cancel button. Specifies `TramoFuente.CancelWishDialog`. */
  function Cancel(w: Well): Well {
    if !w.dialogOpen then w else w.(dialogOpen := false)
  }

  /** `completeMiniGame`: nothing unless a wish is active; otherwise the
      wish is consumed, the well is completed and the result is shown. */
  function CompleteMiniGame(w: Well): (r: Well)
    ensures !w.activeWish ==> r == w
    ensures w.activeWish ==> !r.activeWish && r.completed && r.granted == w.granted + 1
  {
    if !w.activeWish then w
    else w.(activeWish := false, completed := true, granted := w.granted + 1)
  }

  /** A scheduled completion runs: it is consumed and `completeMiniGame`
      applies. Specifies `TramoFuente.CompleteMiniGame`. */
  function TimerFired(w: Well): Well {
    if w.pending == 0 then w else CompleteMiniGame(w.(pending := w.pending - 1))
  }

  function StepAsWritten(w: Well, e: Event): Well {
    match e
    case PressA => StartAsWritten(w)
    case ChooseWish => Choose(w)
    case CancelDialog => Cancel(w)
    case TimerFires => TimerFired(w)
  }

  function Step(w: Well, e: Event): Well {
    match e
    case PressA => Start(w)
    case ChooseWish => Choose(w)
    case CancelDialog => Cancel(w)
    case TimerFires => TimerFired(w)
  }

  function RunAsWritten(w: Well, events: seq<Event>): Well
    decreases |events|
  {
    if events == [] then w else RunAsWritten(StepAsWritten(w, events[0]), events[1..])
  }

  function Run(w: Well, events: seq<Event>): Well
    decreases |events|
  {
    if events == [] then w else Run(Step(w, events[0]), events[1..])
  }

  /** As written, a second press during the 1500 ms after a choice reopens
      the dialog; once the first wish completes, choosing from that dialog
      activates a second wish, which completes as well. */
  lemma AsWrittenGrantsTwice()
    ensures RunAsWritten(Initial, [PressA, ChooseWish, PressA, TimerFires, ChooseWish, TimerFires]).granted == 2
  {
    var w1 := StepAsWritten(Initial, PressA);
    var w2 := StepAsWritten(w1, ChooseWish);
    var w3 := StepAsWritten(w2, PressA);
    var w4 := StepAsWritten(w3, TimerFires);
    var w5 := StepAsWritten(w4, ChooseWish);
    var w6 := StepAsWritten(w5, TimerFires);
    assert w4.granted == 1 && w4.completed && w4.dialogOpen;
    assert w6.granted == 2;
    var events := [PressA, ChooseWish, PressA, TimerFires, ChooseWish, TimerFires];
    assert events[1..] == [ChooseWish, PressA, TimerFires, ChooseWish, TimerFires];
    assert events[1..][1..] == [PressA, TimerFires, ChooseWish, TimerFires];
    assert events[1..][1..][1..] == [TimerFires, ChooseWish, TimerFires];
    assert events[1..][1..][1..][1..] == [ChooseWish, TimerFires];
    assert events[1..][1..][1..][1..][1..] == [TimerFires];
  }

  /** The wish dialog as shipped: it is built with both a message and an
      item list, and AppCompat's `AlertDialog` shows the list only when there
      is no message, so the only choice the player has is to cancel. */
  function StepShipped(w: Well, e: Event): Well {
    match e
    case PressA => StartAsWritten(w)
    case ChooseWish => w
    case CancelDialog => Cancel(w)
    case TimerFires => TimerFired(w)
  }

  function RunShipped(w: Well, events: seq<Event>): Well
    decreases |events|
  {
    if events == [] then w else RunShipped(StepShipped(w, events[0]), events[1..])
  }

  /** As shipped, no wish is ever activated, so nothing is ever granted and
      the well is never completed. */
  lemma {:induction false} ShippedNeverGrants(w: Well, events: seq<Event>)
    requires !w.activeWish && w.pending == 0
    ensures var r := RunShipped(w, events);
      !r.activeWish && r.granted == w.granted && r.completed == w.completed
    decreases |events|
  {
    if events != [] {
      ShippedNeverGrants(StepShipped(w, events[0]), events[1..]);
    }
  }

  /** With the wishes listed, pressing A at the well, choosing one and
      waiting for the coin grants it and completes the well. */
  lemma ListedDialogGrants()
    ensures Run(Initial, [PressA, ChooseWish, TimerFires]).granted == 1
    ensures Run(Initial, [PressA, ChooseWish, TimerFires]).completed
  {
    var events := [PressA, ChooseWish, TimerFires];
    assert events[1..] == [ChooseWish, TimerFires];
    assert events[1..][1..] == [TimerFires];
  }

  /** What the corrected machine keeps: at most one wish is ever granted,
      and exactly when the well is completed; a wish in flight or an open
      dialog means none has been granted yet. */
  ghost predicate Inv(w: Well) {
    && (w.completed <==> w.granted == 1)
    && w.granted <= 1
    && (w.activeWish ==> !w.completed)
    && (w.dialogOpen ==> !w.activeWish && !w.completed)
  }

  lemma InitialInv()
    ensures Inv(Initial)
  {
  }

  lemma StepPreservesInv(w: Well, e: Event)
    requires Inv(w)
    ensures Inv(Step(w, e))
  {
  }

  lemma {:induction false} RunPreservesInv(w: Well, events: seq<Event>)
    requires Inv(w)
    ensures Inv(Run(w, events))
    decreases |events|
  {
    if events != [] {
      StepPreservesInv(w, events[0]);
      RunPreservesInv(Step(w, events[0]), events[1..]);
    }
  }

  /** With the corrected guard the well grants at most one wish, whatever
      the player and the timers do. */
  lemma GrantsAtMostOnce(events: seq<Event>)
    ensures Run(Initial, events).granted <= 1
  {
    RunPreservesInv(Initial, events);
  }

  /** Once completed, the well stays completed and grants nothing more. */
  lemma {:induction false} CompletedIsFinal(w: Well, events: seq<Event>)
    requires Inv(w) && w.completed
    ensures Run(w, events).completed && Run(w, events).granted == w.granted
    decreases |events|
  {
    if events != [] {
      StepPreservesInv(w, events[0]);
      CompletedIsFinal(Step(w, events[0]), events[1..]);
    }
  }

  /** The correction changes nothing for a player who waits for the wish to
      complete: the two guards differ only while a wish is in flight. */
  lemma StartAgreesWhenIdle(w: Well)
    requires !w.activeWish
    ensures Start(w) == StartAsWritten(w)
  {
  }
}

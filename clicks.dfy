/** The click debounce in front of hit and stand. The button listener
    refuses a click that comes within CLICK_DELAY of the last accepted one or
    while a deal is in progress, stamps the time and calls the handler; hit
    and stand then repeat the time check themselves. Times are milliseconds
    as Date.now() reports them; the handler runs within CLICK_DELAY of the
    listener's stamp, since it is called synchronously. */
module Clicks {

  /** CLICK_DELAY. */
  const ClickDelay: int := 500

  /** The listener's test and the time it records for an accepted click. */
  datatype Admission = Refused | Admitted(stamp: int)

  function Listen(now: int, lastClickTime: int, isProcessing: bool): (a: Admission)
    ensures a.Admitted? <==> now - lastClickTime >= ClickDelay && !isProcessing
    ensures a.Admitted? ==> a.stamp == now
  {
    if now - lastClickTime < ClickDelay || isProcessing then Refused else Admitted(now)
  }

  /** The guard at the head of hit and of stand, as written: the round must
      be open, no deal in progress, and CLICK_DELAY must have passed since
      lastClickTime. */
  predicate HandlerGuardAsWritten(now: int, lastClickTime: int, gameOver: bool, isProcessing: bool) {
    !(gameOver || isProcessing || now - lastClickTime < ClickDelay)
  }

  /** A click on Hit or Stand as written: the listener admits it, then the
      handler checks its guard at a time `later` against the stamp the
      listener has just recorded. */
  predicate ClickRunsAsWritten(now: int, later: int, lastClickTime: int, gameOver: bool, isProcessing: bool) {
    var a := Listen(now, lastClickTime, isProcessing);
    a.Admitted? && HandlerGuardAsWritten(later, a.stamp, gameOver, isProcessing)
  }

  /** The stamp the listener records is always younger than CLICK_DELAY
      when the handler looks at it, so no click ever gets past the handler's
      own guard. */
  lemma ClickNeverRunsAsWritten(now: int, later: int, lastClickTime: int, gameOver: bool, isProcessing: bool)
    requires now <= later < now + ClickDelay
    ensures !ClickRunsAsWritten(now, later, lastClickTime, gameOver, isProcessing)
  {
  }

  /** The check the handlers evidently intend: the debounce is left to the
      listener and the handler keeps only the round guards, which is the
      guard the Engine's Hit and Stand carry. */
  predicate HandlerGuard(gameOver: bool, isProcessing: bool) {
    !(gameOver || isProcessing)
  }

  predicate ClickRuns(now: int, lastClickTime: int, gameOver: bool, isProcessing: bool) {
    Listen(now, lastClickTime, isProcessing).Admitted? && HandlerGuard(gameOver, isProcessing)
  }

  /** With the corrected handler a click runs exactly when it comes
      CLICK_DELAY or more after the last accepted one, the round is open and
      no deal is in progress. */
  lemma ClickRunsWhenDue(now: int, lastClickTime: int, gameOver: bool, isProcessing: bool)
    ensures ClickRuns(now, lastClickTime, gameOver, isProcessing)
         <==> now - lastClickTime >= ClickDelay && !gameOver && !isProcessing
  {
  }

  /** CARD_DEAL_DELAY, the wait before hit's draw, updateUI's wait before
      the bust stand, and dealInitialCards' wait before the stand on 21. */
  const CardDealDelay: int := 300
  const HitDelay: int := 100
  const BustStandDelay: int := 800
  const DealtStandDelay: int := 1000

  /** When the bust stand fires: the hit runs HitDelay after its click, and
      its updateUI schedules the stand BustStandDelay later. */
  function BustStandTime(hitStamp: int): int {
    hitStamp + HitDelay + BustStandDelay
  }

  /** When the stand on a dealt 21 fires: the first card is dealt at once,
      the next three CardDealDelay apart, then DealtStandDelay passes. */
  function DealtStandTime(newGameStamp: int): int {
    newGameStamp + 3 * CardDealDelay + DealtStandDelay
  }

  /** The two stands the game schedules itself fire long enough after the
      click that started them that the as-written time check lets them
      through whenever the round guards do. */
  lemma ScheduledStandPasses(stamp: int, gameOver: bool, isProcessing: bool)
    ensures HandlerGuardAsWritten(BustStandTime(stamp), stamp, gameOver, isProcessing)
         <==> HandlerGuard(gameOver, isProcessing)
    ensures HandlerGuardAsWritten(DealtStandTime(stamp), stamp, gameOver, isProcessing)
         <==> HandlerGuard(gameOver, isProcessing)
  {
  }
}

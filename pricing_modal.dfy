/** components/PricingModal.tsx: the paywall dialog. Watching an ad runs a
    chain of one-second timers from 4 down to 0 and then credits 50 coins.
    The close controls are ignored while the ad runs, but the upgrade button
    stays reachable from the keyboard (its panel only blocks the pointer):
    it closes the dialog, the effect's cleanup clears the pending tick, and
    that ad is never credited. */
module PricingModal {
  import opened Common

  const AdSeconds: int := 4
  const AdReward: int := 50

  class Modal {
    /** The isOpen property (the application's showPricing). */
    var isOpen: bool
    var isWatchingAd: bool
    var countdown: int
    /** The argument of the pending `tick` timer, if one is scheduled. */
    var timer: Option<int>
    /** Calls made to the callbacks of the properties. */
    var earned: seq<int>
    var upgrades: nat
    var adsStarted: nat
    /** Ads whose pending tick was cleared by closing the dialog. */
    var cancelled: nat

    /** A pending tick exists only in an open dialog running an ad, and
        while the dialog is open exactly when an ad runs; its argument is one
        less than the count shown. Every ad started is running, credited
        with 50, or cancelled. */
    ghost predicate Valid()
      reads this
    {
      && (timer.Some? ==> isOpen && isWatchingAd)
      && (isOpen ==> (isWatchingAd <==> timer.Some?))
      && (timer.Some? ==> 0 <= timer.value < AdSeconds && countdown == timer.value + 1)
      && 1 <= countdown <= AdSeconds
      && adsStarted == |earned| + cancelled + (if timer.Some? then 1 else 0)
      && (forall i :: 0 <= i < |earned| ==> earned[i] == AdReward)
    }

    /** The ticks still to come before the reward. */
    function TicksLeft(): nat
      reads this
    {
      if timer.Some? && timer.value >= 0 then timer.value + 1 else 0
    }

    constructor(isOpen: bool)
      ensures Valid() && this.isOpen == isOpen
      ensures !isWatchingAd && countdown == AdSeconds && timer.None? && earned == [] && upgrades == 0
    {
      this.isOpen, isWatchingAd, countdown, timer := isOpen, false, AdSeconds, None;
      earned, upgrades, adsStarted, cancelled := [], 0, 0, 0;
    }

    /** The dialog opens: the effect on isOpen resets the ad state. */
    method Open()
      requires Valid() && !isOpen
      modifies this`isOpen, this`isWatchingAd, this`countdown
      ensures Valid() && isOpen && !isWatchingAd && countdown == AdSeconds && timer.None?
    {
      isOpen, isWatchingAd, countdown := true, false, AdSeconds;
    }

    /** handleWatchAd: the button exists only while no ad runs. tick(4)
        runs at once: it shows 4 and schedules tick(3). */
    method WatchAd()
      requires Valid() && isOpen && !isWatchingAd
      modifies this`isWatchingAd, this`countdown, this`timer, this`adsStarted, this`earned
      ensures Valid() && isWatchingAd && countdown == AdSeconds
      ensures TicksLeft() == AdSeconds && earned == old(earned)
    {
      isWatchingAd, countdown, adsStarted := true, AdSeconds, adsStarted + 1;
      Tick(AdSeconds);
    }

    /** `tick(secondsLeft)`: at 0 or below the ad ends and 50 coins are
        credited; otherwise the count is shown and the next tick scheduled. */
    method Tick(secondsLeft: int)
      requires isWatchingAd && isOpen && timer.None? && 1 <= countdown <= AdSeconds && secondsLeft <= AdSeconds
      requires adsStarted == |earned| + cancelled + 1 && forall i :: 0 <= i < |earned| ==> earned[i] == AdReward
      requires secondsLeft > 0 ==> secondsLeft == AdSeconds || secondsLeft == countdown - 1
      modifies this`isWatchingAd, this`countdown, this`timer, this`earned
      ensures Valid()
      ensures secondsLeft <= 0 ==> !isWatchingAd && earned == old(earned) + [AdReward] && countdown == old(countdown)
      ensures secondsLeft > 0 ==>
        && isWatchingAd && countdown == secondsLeft && timer == Some(secondsLeft - 1) && earned == old(earned)
    {
      if secondsLeft <= 0 {
        isWatchingAd, timer, earned := false, None, earned + [AdReward];
        return;
      }
      countdown, timer := secondsLeft, Some(secondsLeft - 1);
    }

    /** The scheduled timer fires. */
    method TimerFires()
      requires Valid() && timer.Some?
      modifies this`isWatchingAd, this`countdown, this`timer, this`earned
      ensures Valid()
      ensures TicksLeft() == old(TicksLeft()) - 1
      ensures old(TicksLeft()) == 1 ==> !isWatchingAd && earned == old(earned) + [AdReward]
      ensures old(TicksLeft()) > 1 ==> isWatchingAd && countdown == old(countdown) - 1 && earned == old(earned)
    {
      var s := timer.value;
      timer := None;
      Tick(s);
    }

    /** handleClose: ignored while an ad runs; otherwise onClose closes the
        dialog and the effect's cleanup clears the timer. */
    method HandleClose()
      requires Valid()
      modifies this`isOpen, this`timer
      ensures Valid()
      ensures old(isWatchingAd) ==> isOpen == old(isOpen) && timer == old(timer)
      ensures !old(isWatchingAd) ==> !isOpen && timer.None?
    {
      if isWatchingAd {
        return;
      }
      isOpen, timer := false, None;
    }

    /** The upgrade button: onUpgrade, then onClose. It is not disabled
        while an ad runs, so it can close the dialog then: the cleanup clears
        the pending tick, the ad is never credited, and isWatchingAd stays
        set until the dialog opens again. */
    method Upgrade()
      requires Valid() && isOpen
      modifies this`upgrades, this`isOpen, this`timer, this`cancelled
      ensures Valid() && upgrades == old(upgrades) + 1 && !isOpen && timer.None?
      ensures isWatchingAd == old(isWatchingAd) && earned == old(earned)
      ensures cancelled == old(cancelled) + (if old(isWatchingAd) then 1 else 0)
      ensures adsStarted == |earned| + cancelled
    {
      if timer.Some? {
        cancelled := cancelled + 1;
      }
      upgrades := upgrades + 1;
      isOpen, timer := false, None;
    }
  }
}

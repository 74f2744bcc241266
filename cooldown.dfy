/**
 * The cooldown timer of util/cooldown.go: a counter and a flag. The counter
 * runs only while the timer is in cooldown, and a check ends the cooldown
 * once the counter has reached the configured length.
 */
module Cooldown {

  class CooldownTimer {
    var Cooldown: int
    var ticker: int
    var InCooldown: bool

    /** The resting invariant: a timer out of cooldown has its counter at zero. */
    ghost predicate Resting()
      reads this
    {
      !InCooldown ==> ticker == 0
    }

    /** NewCooldownTimer */
    constructor (cooldown: int)
      ensures Cooldown == cooldown && ticker == 0 && !InCooldown
      ensures Resting()
    {
      Cooldown := cooldown;
      ticker := 0;
      InCooldown := false;
    }

    method IncrementTicker()
      modifies this
      ensures Cooldown == old(Cooldown) && InCooldown == old(InCooldown)
      ensures ticker == if old(InCooldown) then old(ticker) + 1 else old(ticker)
      ensures old(Resting()) ==> Resting()
    {
      if InCooldown {
        ticker := ticker + 1;
      }
    }

    method CheckCooldown()
      modifies this
      ensures Cooldown == old(Cooldown)
      ensures old(ticker) >= old(Cooldown) ==> ticker == 0 && !InCooldown
      ensures old(ticker) < old(Cooldown) ==> ticker == old(ticker) && InCooldown == old(InCooldown)
      ensures old(Resting()) ==> Resting()
    {
      if ticker >= Cooldown {
        ticker := 0;
        InCooldown := false;
      }
    }

    method StartCooldown()
      modifies this
      ensures InCooldown
      ensures Cooldown == old(Cooldown) && ticker == old(ticker)
      ensures Resting()
    {
      InCooldown := true;
    }

    /** The figure shown to the player: the ticks left, never negative, 0 when ready. */
    function GetDisplay(): (cd: int)
      reads this
      ensures cd >= 0
      ensures !InCooldown ==> cd == 0
      ensures InCooldown && ticker <= Cooldown ==> cd + ticker == Cooldown
      ensures InCooldown && ticker >= Cooldown ==> cd == 0
    {
      if InCooldown then (if Cooldown - ticker > 0 then Cooldown - ticker else 0) else 0
    }
  }
}

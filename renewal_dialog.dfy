/**
 * The renewal dialog: the defaults it fills in when a member is chosen, the
 * preview end date it shows, the price clamp and the triple it confirms.
 */
module RenewalDialog {
  import opened Wrappers
  import opened Types
  import opened Dates
  import App

  /** The duration preselected in the dialog. */
  const DefaultDuration: int := 30

  /**
   * The preview shown under the duration picker: the start date plus the
   * chosen duration, without the days carried over from the current period.
   */
  function PreviewEndDate(startDate: Day, duration: int): (d: Day)
    ensures d - startDate == duration
  {
    CalculateEndDate(startDate, duration)
  }

  /**
   * Confirming the defaults (start today) renews the member to the preview
   * date plus the remaining days the dialog announces: the preview alone
   * falls short by exactly those days.
   */
  lemma {:induction false} ConfirmedEndIsPreviewPlusRemaining(m: Member, duration: int, price: int, today: Day)
    ensures App.Renewed(m, duration, price, today, today).endDate
         == PreviewEndDate(today, duration) + RemainingDays(m.endDate, today)
  {
  }

  /** The state of the renewal dialog. */
  class RenewalDialogState {
    var duration: int
    var price: int
    var startDate: Day
    var remainingDays: int
    var showHistory: bool

    constructor (today: Day)
      ensures duration == DefaultDuration && price == 0 && startDate == today
      ensures remainingDays == 0 && !showHistory
    {
      duration := DefaultDuration;
      price := 0;
      startDate := today;
      remainingDays := 0;
      showHistory := false;
    }

    /**
     * Fills in the defaults for the chosen member: the days left of a running
     * period (0 for an ended one), today as start date, and the member's last
     * price. Without a member nothing changes.
     */
    method OnMemberChange(member: Option<Member>, today: Day)
      modifies this`remainingDays, this`startDate, this`price
      ensures member.None? ==> remainingDays == old(remainingDays) && startDate == old(startDate) && price == old(price)
      ensures member.Some? ==> remainingDays == RemainingDays(member.value.endDate, today)
      ensures member.Some? ==> remainingDays >= 0 && startDate == today && price == member.value.price
    {
      if member.Some? {
        var endDate := member.value.endDate;
        if endDate > today {
          var daysLeft := endDate - today;
          remainingDays := daysLeft;
          startDate := today;
        } else {
          remainingDays := 0;
          startDate := today;
        }
        price := member.value.price;
      }
    }

    /** The (duration, price, start date) handed to `onConfirm`; nothing changes. */
    method HandleSubmit() returns (d: int, p: int, s: Day)
      ensures d == duration && p == price && s == startDate
    {
      d, p, s := duration, price, startDate;
    }

    /** Stores a price, clamped to be non-negative. */
    method HandlePriceChange(value: int)
      modifies this`price
      ensures price == ClampNonNegative(value) && price >= 0
    {
      price := ClampNonNegative(value);
    }

    /** Stores the chosen duration. */
    method HandleDurationChange(value: int)
      modifies this`duration
      ensures duration == value
    {
      duration := value;
    }
  }
}

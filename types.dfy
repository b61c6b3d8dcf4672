/**
 * The records of a gym's member list. Calendar dates are day numbers
 * (consecutive integers for consecutive days); an absent phone number is "".
 */
module Types {

  /** A calendar date as a day number. */
  type Day = int

  /** One renewal, as recorded in a member's history. */
  datatype RenewalRecord = RenewalRecord(
    date: Day,        // the day the renewal was performed
    duration: int,    // the duration chosen at renewal, in days
    price: int,
    startDate: Day,
    endDate: Day)

  /** A subscriber of the gym. */
  datatype Member = Member(
    id: string,
    name: string,
    phoneNumber: string,
    startDate: Day,
    endDate: Day,
    duration: int,
    price: int,
    renewalHistory: seq<RenewalRecord>)

  /** What the add-member form collects: a member without id, end date and history. */
  datatype MemberFormData = MemberFormData(
    name: string,
    phoneNumber: string,
    startDate: Day,
    duration: int,
    price: int)
}

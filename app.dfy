/**
 * The member-collection operations of the application shell: adding,
 * renewing and deleting members, the name search, and the subscription
 * expiry prompt. Each operation builds a new list from the old one and the
 * page installs it wholesale, so the pure list functions below specify the
 * methods of `AppState`, which replace its `members` field.
 */
module App {
  import opened Wrappers
  import opened Types
  import opened Dates
  import opened Seqs

  // ---------------------------------------------------------------------------
  // Periods and ids

  /** A member's end date is its start date plus its duration. */
  predicate PeriodConsistent(m: Member) {
    m.endDate == CalculateEndDate(m.startDate, m.duration)
  }

  /** No two members of the list share an id. */
  predicate UniqueIds(ms: seq<Member>) {
    forall i, j :: 0 <= i < j < |ms| ==> ms[i].id != ms[j].id
  }

  // ---------------------------------------------------------------------------
  // Add

  /** The member built from the form data: a fresh id, a derived end date and an empty history. */
  function NewMember(data: MemberFormData, freshId: string): (m: Member)
    ensures m.id == freshId && m.renewalHistory == []
    ensures m.name == data.name && m.phoneNumber == data.phoneNumber
    ensures m.startDate == data.startDate && m.duration == data.duration && m.price == data.price
    ensures PeriodConsistent(m)
  {
    Member(freshId, data.name, data.phoneNumber, data.startDate,
           CalculateEndDate(data.startDate, data.duration), data.duration, data.price, [])
  }

  // ---------------------------------------------------------------------------
  // Renew

  /**
   * A member renewed for `duration` days at `price` from `startDate`,
   * performed on `today`. The days the current period still has after
   * `startDate` are carried into the new period; the history records only the
   * chosen duration.
   */
  function Renewed(m: Member, duration: int, price: int, startDate: Day, today: Day): (r: Member)
    ensures r.id == m.id && r.name == m.name && r.phoneNumber == m.phoneNumber
    ensures r.startDate == startDate && r.price == price
    ensures r.duration == duration + RemainingDays(m.endDate, startDate)
    ensures PeriodConsistent(r)
    // a still-running period is extended from its current end, an ended one from the start date
    ensures m.endDate > startDate ==> r.endDate == m.endDate + duration
    ensures m.endDate <= startDate ==> r.endDate == startDate + duration
    ensures r.renewalHistory == m.renewalHistory + [RenewalRecord(today, duration, price, startDate, r.endDate)]
  {
    var remainingDays := RemainingDays(m.endDate, startDate);
    var totalDuration := duration + remainingDays;
    var newEndDate := CalculateEndDate(startDate, totalDuration);
    var renewalEntry := RenewalRecord(today, duration, price, startDate, newEndDate);
    m.(startDate := startDate, endDate := newEndDate, duration := totalDuration, price := price,
       renewalHistory := m.renewalHistory + [renewalEntry])
  }

  /** The list with every member whose id is `memberId` renewed and every other member kept. */
  function RenewMatching(ms: seq<Member>, memberId: string, duration: int, price: int, startDate: Day, today: Day)
    : (r: seq<Member>)
    ensures |r| == |ms|
    ensures forall i :: 0 <= i < |ms| ==>
      r[i].id == ms[i].id && r[i].name == ms[i].name && r[i].phoneNumber == ms[i].phoneNumber
    ensures forall i :: 0 <= i < |ms| && ms[i].id != memberId ==> r[i] == ms[i]
    ensures forall i :: 0 <= i < |ms| && ms[i].id == memberId ==> r[i] == Renewed(ms[i], duration, price, startDate, today)
    // history is append-only: every old history is a prefix of the new one, one entry shorter at most
    ensures forall i :: 0 <= i < |ms| ==>
      ms[i].renewalHistory <= r[i].renewalHistory && |r[i].renewalHistory| <= |ms[i].renewalHistory| + 1
  {
    seq(|ms|, i requires 0 <= i < |ms| =>
      if ms[i].id == memberId then Renewed(ms[i], duration, price, startDate, today) else ms[i])
  }

  // ---------------------------------------------------------------------------
  // Delete

  /** The list without the members whose id is `memberId`, in the original order. */
  function Deleted(ms: seq<Member>, memberId: string): (r: seq<Member>)
    ensures forall m :: m in r <==> m in ms && m.id != memberId
    ensures forall m :: multiset(r)[m] == if m.id != memberId then multiset(ms)[m] else 0
    ensures IsSubsequence(r, ms)
  {
    FilterIsSubsequence(ms, (m: Member) => m.id != memberId);
    Filter(ms, (m: Member) => m.id != memberId)
  }

  /** The tail of a list with unique ids has unique ids, none equal to the head's. */
  lemma UniqueIdsTail(ms: seq<Member>)
    requires UniqueIds(ms) && ms != []
    ensures UniqueIds(ms[1..])
    ensures forall x :: x in ms[1..] ==> x.id != ms[0].id
  {
    var rest := ms[1..];
    forall i, j | 0 <= i < j < |rest| ensures rest[i].id != rest[j].id {
      assert rest[i] == ms[i + 1] && rest[j] == ms[j + 1];
    }
    forall x | x in rest ensures x.id != ms[0].id {
      var k :| 0 <= k < |rest| && rest[k] == x;
      assert ms[k + 1] == x;
    }
  }

  /** Deleting from a non-empty list decides the head and deletes from the tail. */
  lemma DeletedCons(ms: seq<Member>, memberId: string)
    requires ms != []
    ensures Deleted(ms, memberId) == (if ms[0].id != memberId then [ms[0]] else []) + Deleted(ms[1..], memberId)
  {
  }

  /** Deleting an id that no member has leaves the list unchanged. */
  lemma DeleteAbsentKeepsAll(ms: seq<Member>, memberId: string)
    requires forall i :: 0 <= i < |ms| ==> ms[i].id != memberId
    ensures Deleted(ms, memberId) == ms
  {
    forall x | x in ms ensures x.id != memberId {
      var k :| 0 <= k < |ms| && ms[k] == x;
    }
    FilterKeepsAll(ms, (m: Member) => m.id != memberId);
  }

  /** With unique ids, deleting an id that is present removes exactly one member. */
  lemma {:induction false} DeleteRemovesOne(ms: seq<Member>, memberId: string, i: nat)
    requires UniqueIds(ms)
    requires i < |ms| && ms[i].id == memberId
    ensures |Deleted(ms, memberId)| == |ms| - 1
  {
    var rest := ms[1..];
    UniqueIdsTail(ms);
    DeletedCons(ms, memberId);
    if i == 0 {
      assert forall k :: 0 <= k < |rest| ==> rest[k] in rest;
      DeleteAbsentKeepsAll(rest, memberId);
    } else {
      DeleteRemovesOne(rest, memberId, i - 1);
    }
  }

  /** Deleting keeps the ids unique. */
  lemma {:induction false} DeletePreservesUniqueIds(ms: seq<Member>, memberId: string)
    requires UniqueIds(ms)
    ensures UniqueIds(Deleted(ms, memberId))
  {
    if ms != [] {
      var rest := ms[1..];
      UniqueIdsTail(ms);
      DeletePreservesUniqueIds(rest, memberId);
      DeletedCons(ms, memberId);
      var tail := Deleted(rest, memberId);
      if ms[0].id != memberId {
        forall k | 0 <= k < |tail| ensures tail[k].id != ms[0].id {
          assert tail[k] in tail;
        }
      }
    }
  }

  // ---------------------------------------------------------------------------
  // Search by name

  /** ASCII lower-casing of one character. */
  function LowerChar(c: char): char {
    if 'A' <= c <= 'Z' then (c as int + 32) as char else c
  }

  /** `s.toLowerCase()`, restricted to ASCII letters. */
  function Lower(s: string): (r: string)
    ensures |r| == |s|
    ensures forall i :: 0 <= i < |s| ==> r[i] == LowerChar(s[i])
  {
    seq(|s|, i requires 0 <= i < |s| => LowerChar(s[i]))
  }

  /** `t` occurs in `s` starting at index `i`. */
  predicate OccursAt(s: string, t: string, i: int) {
    0 <= i && i + |t| <= |s| && s[i..i + |t|] == t
  }

  /** `s.includes(t)`. */
  predicate Includes(s: string, t: string)
    decreases |s|
  {
    if |t| > |s| then false
    else if s[..|t|] == t then true
    else Includes(s[1..], t)
  }

  /** `Includes` holds exactly when `t` occurs somewhere in `s`. */
  lemma {:induction false} IncludesIffOccurs(s: string, t: string)
    ensures Includes(s, t) <==> exists i :: OccursAt(s, t, i)
    decreases |s|
  {
    if |t| > |s| {
    } else if s[..|t|] == t {
      assert OccursAt(s, t, 0);
    } else {
      IncludesIffOccurs(s[1..], t);
      if exists i :: OccursAt(s[1..], t, i) {
        var i :| OccursAt(s[1..], t, i);
        assert s[1..][i..i + |t|] == s[i + 1..i + 1 + |t|];
        assert OccursAt(s, t, i + 1);
      }
      if exists i :: OccursAt(s, t, i) {
        var i :| OccursAt(s, t, i);
        assert i != 0;
        assert s[1..][i - 1..i - 1 + |t|] == s[i..i + |t|];
        assert OccursAt(s[1..], t, i - 1);
      }
    }
  }

  /** The empty string occurs in every string. */
  lemma IncludesEmpty(s: string)
    ensures Includes(s, "")
  {
  }

  /** Whether the search keeps member `m`: its lower-cased name contains the lower-cased term. */
  predicate MatchesSearch(m: Member, searchTerm: string) {
    Includes(Lower(m.name), Lower(searchTerm))
  }

  /** The members whose name contains `searchTerm`, ignoring case, in list order. */
  function SearchByName(ms: seq<Member>, searchTerm: string): (r: seq<Member>)
    ensures forall m :: m in r <==> m in ms && MatchesSearch(m, searchTerm)
    ensures forall m :: multiset(r)[m] == if MatchesSearch(m, searchTerm) then multiset(ms)[m] else 0
    ensures IsSubsequence(r, ms)
  {
    FilterIsSubsequence(ms, (m: Member) => MatchesSearch(m, searchTerm));
    Filter(ms, (m: Member) => MatchesSearch(m, searchTerm))
  }

  /** An empty search term keeps every member. */
  lemma {:induction false} SearchEmptyKeepsAll(ms: seq<Member>)
    ensures SearchByName(ms, "") == ms
  {
    forall m | m in ms ensures MatchesSearch(m, "") {
      IncludesEmpty(Lower(m.name));
    }
    FilterKeepsAll(ms, (m: Member) => MatchesSearch(m, ""));
  }

  /** Lower-casing is idempotent. */
  lemma LowerIdempotent(s: string)
    ensures Lower(Lower(s)) == Lower(s)
  {
  }

  /** The search ignores the case of the term: a term and its lower-cased form keep the same members. */
  lemma {:induction false} SearchIgnoresTermCase(ms: seq<Member>, searchTerm: string)
    ensures SearchByName(ms, Lower(searchTerm)) == SearchByName(ms, searchTerm)
  {
    LowerIdempotent(searchTerm);
    FilterExtensional(ms, (m: Member) => MatchesSearch(m, Lower(searchTerm)), (m: Member) => MatchesSearch(m, searchTerm));
  }

  // ---------------------------------------------------------------------------
  // Subscription expiry prompt

  /** The signed-in account as far as the expiry prompt looks at it. */
  datatype SessionUser = SessionUser(subscriptionStatus: string, subscriptionEndDate: Option<Day>)

  /** Days from `today` to the subscription end; 0 when there is no end date. */
  function CalculateDaysLeft(endDate: Option<Day>, today: Day): (r: int)
    ensures endDate.None? ==> r == 0
    ensures endDate.Some? ==> endDate.value == today + r
  {
    match endDate
    case None => 0
    case Some(end) => DaysRemaining(end, today)
  }

  /** The renewal prompt opens for an active subscription ending within the next seven days. */
  predicate NeedsRenewalPrompt(currentUser: Option<SessionUser>, today: Day) {
    && currentUser.Some?
    && currentUser.value.subscriptionStatus == "active"
    && var daysLeft := CalculateDaysLeft(currentUser.value.subscriptionEndDate, today);
       daysLeft <= 7 && daysLeft > 0
  }

  /** The prompt opens exactly for an active subscription with an end date one to seven days ahead. */
  lemma PromptWindow(currentUser: Option<SessionUser>, today: Day)
    ensures NeedsRenewalPrompt(currentUser, today) <==>
      && currentUser.Some?
      && currentUser.value.subscriptionStatus == "active"
      && currentUser.value.subscriptionEndDate.Some?
      && today < currentUser.value.subscriptionEndDate.value <= today + 7
  {
  }

  // ---------------------------------------------------------------------------
  // The page state

  /** The member list and dialog flags of the page, replaced wholesale by each handler. */
  class AppState {
    var members: seq<Member>
    var isModalOpen: bool
    var isRenewalModalOpen: bool

    ghost predicate Valid()
      reads this
    {
      UniqueIds(members)
    }

    constructor ()
      ensures Valid()
      ensures members == [] && !isModalOpen && !isRenewalModalOpen
    {
      members := [];
      isModalOpen := false;
      isRenewalModalOpen := false;
    }

    /** Adds the member described by `data` under `freshId` and closes the add dialog. */
    method AddMember(data: MemberFormData, freshId: string)
      requires Valid()
      requires forall m :: m in members ==> m.id != freshId
      modifies this`members, this`isModalOpen
      ensures Valid()
      ensures members == old(members) + [NewMember(data, freshId)]
      ensures !isModalOpen
    {
      var newMember := NewMember(data, freshId);
      members := members + [newMember];
      isModalOpen := false;
      assert forall i :: 0 <= i < |members| - 1 ==> members[i] in old(members);
    }

    /** Renews the member with id `memberId`; the others are kept as they are. */
    method RenewMember(memberId: string, duration: int, price: int, startDate: Day, today: Day)
      requires Valid()
      modifies this`members
      ensures Valid()
      ensures members == RenewMatching(old(members), memberId, duration, price, startDate, today)
    {
      members := RenewMatching(members, memberId, duration, price, startDate, today);
    }

    /** Removes the member with id `memberId`. */
    method DeleteMember(memberId: string)
      requires Valid()
      modifies this`members
      ensures Valid()
      ensures members == Deleted(old(members), memberId)
      ensures |members| == |old(members)| - (if exists i :: 0 <= i < |old(members)| && old(members)[i].id == memberId then 1 else 0)
    {
      if exists i :: 0 <= i < |members| && members[i].id == memberId {
        var i :| 0 <= i < |members| && members[i].id == memberId;
        DeleteRemovesOne(members, memberId, i);
      } else {
        DeleteAbsentKeepsAll(members, memberId);
      }
      DeletePreservesUniqueIds(members, memberId);
      members := Deleted(members, memberId);
    }

    /** Opens the renewal prompt when the subscription ends within a week; never closes it. */
    method CheckSubscriptionExpiry(currentUser: Option<SessionUser>, today: Day)
      modifies this`isRenewalModalOpen
      ensures isRenewalModalOpen == (old(isRenewalModalOpen) || NeedsRenewalPrompt(currentUser, today))
    {
      if currentUser.Some? && currentUser.value.subscriptionStatus == "active" {
        var daysLeft := CalculateDaysLeft(currentUser.value.subscriptionEndDate, today);
        if daysLeft <= 7 && daysLeft > 0 {
          isRenewalModalOpen := true;
        }
      }
    }
  }
}

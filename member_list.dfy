/**
 * The member list view: the status filter chosen in the header, the status
 * badge on each card, the clamped days-remaining figure and the avatar colour.
 */
module MemberList {
  import opened Types
  import opened Dates
  import opened Seqs

  /** The filter choices of the list. */
  datatype FilterKind = All | Active | Expired | EndingSoon

  /** Whether a member with `daysLeft` days left passes the filter `kind`. */
  predicate Keeps(kind: FilterKind, daysLeft: int) {
    match kind
    case Active => daysLeft > 0
    case Expired => daysLeft <= 0
    case EndingSoon => daysLeft > 0 && daysLeft <= 7
    case All => true
  }

  /** Days left of member `m` on `today`. */
  function DaysLeft(m: Member, today: Day): int {
    DaysRemaining(m.endDate, today)
  }

  /** The members shown under filter `kind`: those it keeps, in list order. */
  function FilteredMembers(ms: seq<Member>, kind: FilterKind, today: Day): (r: seq<Member>)
    ensures forall m :: m in r <==> m in ms && Keeps(kind, DaysLeft(m, today))
    ensures forall m :: multiset(r)[m] == if Keeps(kind, DaysLeft(m, today)) then multiset(ms)[m] else 0
    ensures IsSubsequence(r, ms)
  {
    FilterIsSubsequence(ms, (m: Member) => Keeps(kind, DaysLeft(m, today)));
    Filter(ms, (m: Member) => Keeps(kind, DaysLeft(m, today)))
  }

  /** The `all` filter shows the list unchanged. */
  lemma {:induction false} AllShowsEveryone(ms: seq<Member>, today: Day)
    ensures FilteredMembers(ms, All, today) == ms
  {
    FilterKeepsAll(ms, (m: Member) => Keeps(All, DaysLeft(m, today)));
  }

  /** The `active` and `expired` filters split the list between them. */
  lemma {:induction false} ActiveExpiredPartition(ms: seq<Member>, today: Day)
    ensures multiset(FilteredMembers(ms, Active, today)) + multiset(FilteredMembers(ms, Expired, today)) == multiset(ms)
    ensures |FilteredMembers(ms, Active, today)| + |FilteredMembers(ms, Expired, today)| == |ms|
  {
    FilterPartition(ms, (m: Member) => Keeps(Active, DaysLeft(m, today)), (m: Member) => Keeps(Expired, DaysLeft(m, today)));
  }

  /** The `ending-soon` members are a subsequence of the `active` ones. */
  lemma {:induction false} EndingSoonWithinActive(ms: seq<Member>, today: Day)
    ensures IsSubsequence(FilteredMembers(ms, EndingSoon, today), FilteredMembers(ms, Active, today))
  {
    FilterMonotone(ms, (m: Member) => Keeps(EndingSoon, DaysLeft(m, today)), (m: Member) => Keeps(Active, DaysLeft(m, today)));
  }

  /** The badge on a member card. */
  datatype Status = ActiveStatus | EndingSoonStatus | ExpiredStatus {
    /** The badge text. */
    function Label(): string {
      match this
      case ActiveStatus => "Active"
      case EndingSoonStatus => "Ending Soon"
      case ExpiredStatus => "Expired"
    }

    /** The badge colour classes. */
    function ColorClass(): string {
      match this
      case ActiveStatus => "bg-green-500/20 text-green-500 border-green-500/50"
      case EndingSoonStatus => "bg-yellow-500/20 text-yellow-500 border-yellow-500/50"
      case ExpiredStatus => "bg-red-500/20 text-red-500 border-red-500/50"
    }
  }

  /** The badge for `daysLeft`: expired up to 0, ending soon for 1 to 7, active beyond. */
  function StatusOf(daysLeft: int): (s: Status)
    ensures s == ExpiredStatus <==> daysLeft <= 0
    ensures s == EndingSoonStatus <==> 1 <= daysLeft <= 7
    ensures s == ActiveStatus <==> daysLeft > 7
  {
    var isActive := daysLeft > 0;
    var isEndingSoon := isActive && daysLeft <= 7;
    if isActive then (if isEndingSoon then EndingSoonStatus else ActiveStatus) else ExpiredStatus
  }

  /**
   * The badge agrees with the `expired` and `ending-soon` filters, while the
   * `active` filter also keeps the members badged "Ending Soon".
   */
  lemma BadgeAgreesWithFilters(daysLeft: int)
    ensures Keeps(Expired, daysLeft) <==> StatusOf(daysLeft) == ExpiredStatus
    ensures Keeps(EndingSoon, daysLeft) <==> StatusOf(daysLeft) == EndingSoonStatus
    ensures Keeps(Active, daysLeft) <==> StatusOf(daysLeft) in {ActiveStatus, EndingSoonStatus}
  {
  }

  /** The days-remaining figure on a card: never negative, 0 once the period is over. */
  function DisplayedDays(daysLeft: int): (r: nat)
    ensures daysLeft > 0 ==> r == daysLeft
    ensures daysLeft <= 0 ==> r == 0
  {
    ClampNonNegative(daysLeft)
  }

  /** The avatar gradients, indexed by a hash of the name. */
  const AvatarColors: seq<string> := [
    "from-blue-500 to-blue-600",
    "from-green-500 to-green-600",
    "from-purple-500 to-purple-600",
    "from-pink-500 to-pink-600",
    "from-indigo-500 to-indigo-600"
  ]

  /** The sum of the character codes of `name`. */
  function CharCodeSum(name: string): nat {
    if name == [] then 0 else name[0] as nat + CharCodeSum(name[1..])
  }

  /** The code sum of a concatenation is the sum of the code sums. */
  lemma {:induction false} CharCodeSumConcat(a: string, b: string)
    ensures CharCodeSum(a + b) == CharCodeSum(a) + CharCodeSum(b)
  {
    if a != [] {
      assert (a + b)[1..] == a[1..] + b;
      CharCodeSumConcat(a[1..], b);
    } else {
      assert a + b == b;
    }
  }

  /** The palette index of `name`: its code sum modulo the palette size. */
  function AvatarColorIndex(name: string): (i: nat)
    ensures i < |AvatarColors|
    ensures name == "" ==> i == 0
  {
    CharCodeSum(name) % |AvatarColors|
  }

  /** The avatar gradient for `name`. */
  function AvatarColor(name: string): (c: string)
    ensures c in AvatarColors
  {
    AvatarColors[AvatarColorIndex(name)]
  }

  /** The index of a concatenation depends only on the indices of its parts, so reordering the parts keeps the colour. */
  lemma {:induction false} AvatarColorIndexConcat(a: string, b: string)
    ensures AvatarColorIndex(a + b) == (AvatarColorIndex(a) + AvatarColorIndex(b)) % |AvatarColors|
    ensures AvatarColor(a + b) == AvatarColor(b + a)
  {
    CharCodeSumConcat(a, b);
    CharCodeSumConcat(b, a);
  }
}

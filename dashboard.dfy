/** The user dashboard: the placeholder statistics each chama card shows,
    decided by the parity of the chama id, and the recent-activity list built
    from the first transactions. Amounts are rendered from the integer model
    of the amount column; the relative time shown is supplied by the caller
    as `ago`. */
module Dashboard {
  import opened Wrappers
  import opened Text
  import opened Seqs
  import opened Schema

  datatype NextContribution = NextContribution(amount: string, dueDate: string, status: string)
  datatype Payout = Payout(amount: string, date: string)
  datatype ChamaStats = ChamaStats(
    balance: string, shares: string, sharesPercentage: string,
    nextContribution: NextContribution, lastPayout: Option<Payout>)
  datatype MeetingSlot = MeetingSlot(date: string, time: string)
  datatype ChamaCard = ChamaCard(chama: Chama, role: string, stats: ChamaStats, nextMeeting: MeetingSlot)

  /** `chama.id % 2 === 0`; JavaScript's remainder of a negative odd id is
      -1, so the test agrees with Dafny's. */
  predicate EvenId(c: Chama) {
    c.id % 2 == 0
  }

  /** One entry of `chamaWithStats`. */
  function CardOf(c: Chama): ChamaCard {
    var even := EvenId(c);
    ChamaCard(
      c,
      if even then "chairperson" else "member",
      ChamaStats(
        if even then "458,200" else "124,500",
        if even then "34" else "12",
        if even then "22%" else "15%",
        NextContribution("2,500", "3 days", if even then "pending" else "paid"),
        if even then Some(Payout("12,000", "Apr 15")) else None),
      MeetingSlot(if even then "Sat, May 5" else "Sun, May 13", if even then "2:00 PM" else "4:00 PM"))
  }

  /** `chamaWithStats`: one card per chama, in order. An even id shows the
      chairperson role, a pending contribution and a last payout; an odd id
      the member role, a paid contribution and no payout. */
  function ChamasWithStats(chamas: seq<Chama>): (cards: seq<ChamaCard>)
    ensures |cards| == |chamas|
    ensures forall i :: 0 <= i < |chamas| ==> cards[i].chama == chamas[i]
    ensures forall i :: 0 <= i < |chamas| ==>
      (EvenId(chamas[i]) <==> cards[i].role == "chairperson") &&
      (EvenId(chamas[i]) <==> cards[i].stats.nextContribution.status == "pending") &&
      (EvenId(chamas[i]) <==> cards[i].stats.lastPayout.Some?) &&
      (!EvenId(chamas[i]) <==> cards[i].role == "member") &&
      (!EvenId(chamas[i]) <==> cards[i].stats.nextContribution.status == "paid")
  {
    if chamas == [] then [] else [CardOf(chamas[0])] + ChamasWithStats(chamas[1..])
  }

  /** Two chamas whose ids have the same parity get the same card apart from
      the chama itself. */
  lemma SameParitySameCard(a: Chama, b: Chama)
    requires EvenId(a) == EvenId(b)
    ensures CardOf(a).(chama := b) == CardOf(b)
  {
  }

  datatype Icon = WalletIcon | LandmarkIcon | AlertIcon

  /** An entry of `activityTypeMap`, or its fallback. */
  datatype TypeInfo = TypeInfo(icon: Icon, iconColor: string, iconBgColor: string, title: string, amountColor: Option<string>)

  datatype Activity = Activity(
    id: int, icon: Icon, iconColor: string, iconBgColor: string, title: string,
    description: string, amount: string, amountColor: Option<string>, timestamp: string)

  /** `activityTypeMap[type]`, which is missing for any other type. */
  function KnownType(kind: string): (r: Option<TypeInfo>)
    ensures r.Some? <==> kind in {"deposit", "withdrawal", "contribution", "late_fee"}
    ensures kind == "deposit" ==> r.value.title == "Deposit"
    ensures kind == "withdrawal" ==> r.value.title == "Withdrawal"
    ensures kind == "contribution" ==> r.value.title == "Contribution Paid"
    ensures kind == "late_fee" ==> r.value.title == "Late Payment Fine"
  {
    if kind == "deposit" then Some(TypeInfo(WalletIcon, "text-success", "bg-success/10", "Deposit", Some("text-success")))
    else if kind == "withdrawal" then Some(TypeInfo(WalletIcon, "text-destructive", "bg-destructive/10", "Withdrawal", Some("text-destructive")))
    else if kind == "contribution" then Some(TypeInfo(LandmarkIcon, "text-success", "bg-success/10", "Contribution Paid", None))
    else if kind == "late_fee" then Some(TypeInfo(AlertIcon, "text-error", "bg-error/10", "Late Payment Fine", Some("text-destructive")))
    else None
  }

  /** The entry used for a type: the table's, or the neutral fallback titled
      with the type itself, first letter upper-cased. */
  function TypeInfoOf(kind: string): (t: TypeInfo)
    ensures KnownType(kind).Some? ==> t == KnownType(kind).value
    ensures KnownType(kind).None? ==>
      t.icon == WalletIcon && t.amountColor.None? && |t.title| == |kind| &&
      (kind != [] ==> t.title[0] == UpperChar(kind[0]) && t.title[1..] == kind[1..])
  {
    match KnownType(kind)
    case Some(t) => t
    case None => TypeInfo(WalletIcon, "text-primary", "bg-primary/10", Capitalize(kind), None)
  }

  /** `"KES " + amount`. */
  function AmountText(amount: int): string {
    "KES " + IntToString(amount)
  }

  /** One entry of `recentActivities`: the transaction's description when it
      is non-empty, otherwise a sentence naming the amount; the amount shown
      as `KES <amount>`. */
  function ActivityOf(t: Transaction, ago: int -> string): (a: Activity)
    ensures a.id == t.id && a.title == TypeInfoOf(t.kind).title
    ensures a.amount == AmountText(t.amount)
    ensures t.description.Some? && t.description.value != [] ==> a.description == t.description.value
    ensures t.description.None? || t.description.value == [] ==>
      a.description == "Transaction of " + AmountText(t.amount)
  {
    var info := TypeInfoOf(t.kind);
    Activity(
      t.id, info.icon, info.iconColor, info.iconBgColor, info.title,
      if t.description.Some? && t.description.value != [] then t.description.value
      else "Transaction of KES " + IntToString(t.amount),
      "KES " + IntToString(t.amount), info.amountColor, ago(t.createdAt))
  }

  /** `recentActivities`: the first four transactions at most, in order,
      each mapped by `ActivityOf`. */
  function RecentActivities(txs: seq<Transaction>, ago: int -> string): (r: seq<Activity>)
    ensures |r| == (if |txs| < 4 then |txs| else 4)
    ensures forall i :: 0 <= i < |r| ==> r[i] == ActivityOf(txs[i], ago)
  {
    var first := Take(txs, 4);
    seq(|first|, i requires 0 <= i < |first| => ActivityOf(first[i], ago))
  }
}

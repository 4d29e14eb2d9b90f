/** The in-memory store: one id-keyed table per entity, each with its own
    auto-increment counter. Rows are never deleted, so a table's keys are
    exactly 1 .. counter-1 and a JavaScript `Map`'s insertion order is the
    order of the ids. */
module Storage {
  import opened Wrappers
  import opened Schema
  import opened Seqs
  import opened Text

  /** The keys of `m` are exactly 1 .. next-1. */
  ghost predicate Dense<T>(m: map<int, T>, next: int) {
    next >= 1 && forall k :: k in m <==> 1 <= k < next
  }

  /** `Array.from(m.values())` for a table whose keys are 1 .. next-1: the
      rows in the order they were inserted, that is, by increasing id. */
  function Rows<T>(m: map<int, T>, next: int): (r: seq<T>)
    requires forall k :: 1 <= k < next ==> k in m
    ensures |r| == if next < 1 then 0 else next - 1
    ensures forall i :: 0 <= i < |r| ==> r[i] == m[i + 1]
    decreases next
  {
    if next <= 1 then [] else Rows(m, next - 1) + [m[next - 1]]
  }

  /** `x` is stored in the table under some key. */
  ghost predicate Stored<T>(m: map<int, T>, x: T) {
    exists k :: k in m && m[k] == x
  }

  /** A table whose rows carry their own keys lists them by increasing id. */
  lemma RowsIncreasing<T>(m: map<int, T>, next: int, id: T -> int)
    requires Dense(m, next) && forall k :: k in m ==> id(m[k]) == k
    ensures IncreasingBy(Rows(m, next), id)
  {
  }

  /** `find` over the rows returns the match with the smallest id. */
  lemma FindInRowsIsFirst<T>(m: map<int, T>, next: int, id: T -> int, p: T -> bool)
    requires Dense(m, next) && forall k :: k in m ==> id(m[k]) == k
    ensures var r := Find(Rows(m, next), p);
      r.Some? ==> forall k :: k in m && p(m[k]) ==> id(r.value) <= k
  {
    var rows := Rows(m, next);
    if Find(rows, p).Some? {
      FindIsFirst(rows, p);
      var j :| 0 <= j < |rows| && rows[j] == Find(rows, p).value && forall i :: 0 <= i < j ==> !p(rows[i]);
      forall k | k in m && p(m[k]) ensures j + 1 <= k {
        assert rows[k - 1] == m[k];
      }
    }
  }

  /** The rows are the stored values of the table, no more and no fewer. */
  lemma RowsAreValues<T>(m: map<int, T>, next: int)
    requires Dense(m, next)
    ensures forall x :: x in Rows(m, next) <==> Stored(m, x)
  {
    var r := Rows(m, next);
    forall x ensures x in r <==> Stored(m, x) {
      if x in r {
        var i :| 0 <= i < |r| && r[i] == x;
        assert m[i + 1] == x;
      }
      if Stored(m, x) {
        var k :| k in m && m[k] == x;
        assert r[k - 1] == x;
      }
    }
  }

  /** Inserting under the next fresh key appends one row at the end. */
  lemma RowsAfterInsert<T>(m: map<int, T>, next: int, x: T)
    requires Dense(m, next)
    ensures Dense(m[next := x], next + 1)
    ensures Rows(m[next := x], next + 1) == Rows(m, next) + [x]
  {
  }

  /** Replacing the row under an existing key keeps its position. */
  lemma RowsAfterUpdate<T>(m: map<int, T>, next: int, k: int, x: T)
    requires Dense(m, next) && k in m
    ensures Dense(m[k := x], next)
    ensures Rows(m[k := x], next) == Rows(m, next)[k - 1 := x]
  {
  }

  /** The first row, by id from `id` on, of member `userId` in chama `chamaId`. */
  function MemberFrom(m: map<int, ChamaMember>, next: int, id: int, chamaId: int, userId: int): Option<ChamaMember>
    requires forall k :: 1 <= k < next ==> k in m
    requires 1 <= id
    decreases next - id
  {
    if id >= next then None
    else if m[id].chamaId == chamaId && m[id].userId == userId then Some(m[id])
    else MemberFrom(m, next, id + 1, chamaId, userId)
  }

  lemma {:induction false} MemberFromFinds(m: map<int, ChamaMember>, next: int, id: int, chamaId: int, userId: int)
    requires Dense(m, next) && 1 <= id
    ensures var r := MemberFrom(m, next, id, chamaId, userId);
      (r.Some? <==> exists k :: id <= k < next && m[k].chamaId == chamaId && m[k].userId == userId) &&
      (r.Some? ==> Stored(m, r.value) && r.value.chamaId == chamaId && r.value.userId == userId)
    decreases next - id
  {
    if id < next {
      assert m[id] == m[id];
      MemberFromFinds(m, next, id + 1, chamaId, userId);
    }
  }

  /** The row the scan returns has the smallest id among the matching rows
      from `id` on. */
  lemma {:induction false} MemberFromIsFirst(m: map<int, ChamaMember>, next: int, id: int, chamaId: int, userId: int)
    requires Dense(m, next) && 1 <= id
    requires forall k :: k in m ==> m[k].id == k
    ensures var r := MemberFrom(m, next, id, chamaId, userId);
      r.Some? ==> forall k :: id <= k < next && m[k].chamaId == chamaId && m[k].userId == userId ==> r.value.id <= k
    decreases next - id
  {
    if id < next && !(m[id].chamaId == chamaId && m[id].userId == userId) {
      MemberFromIsFirst(m, next, id + 1, chamaId, userId);
    }
  }

  function MessageSentAt(m: Message): int { m.sentAt }
  function TransactionCreatedAt(t: Transaction): int { t.createdAt }
  function MeetingScheduledFor(m: Meeting): int { m.scheduledFor }
  function NotificationCreatedAt(n: Notification): int { n.createdAt }
  function ProductCreatedAt(p: Product): int { p.createdAt }

  function UserId(u: User): int { u.id }
  function WalletId(w: Wallet): int { w.id }
  function RuleId(x: ChamaRule): int { x.id }
  function MemberId(m: ChamaMember): int { m.id }
  function ContributionId(c: Contribution): int { c.id }
  function TransactionId(t: Transaction): int { t.id }
  function MeetingId(m: Meeting): int { m.id }
  function MessageId(m: Message): int { m.id }
  function NotificationId(n: Notification): int { n.id }
  function ProductId(p: Product): int { p.id }
  function ProgressId(p: LearningProgress): int { p.id }

  /** The member rows whose chama is stored in `cs`, in their order. */
  function MembersIn(ms: seq<ChamaMember>, cs: map<int, Chama>): (r: seq<ChamaMember>)
    ensures forall m :: m in r <==> m in ms && m.chamaId in cs
    ensures IncreasingBy(ms, MemberId) ==> IncreasingBy(r, MemberId)
  {
    var keep := (m: ChamaMember) => m.chamaId in cs;
    if IncreasingBy(ms, MemberId) then
      FilterKeepsIncreasing(ms, keep, MemberId);
      Filter(ms, keep)
    else Filter(ms, keep)
  }

  /** The `map` of `getChamaMembers`: pairs each member with its user and
      throws, at the first member whose user is missing, the error naming it. */
  function PairWithUsers(members: seq<ChamaMember>, users: map<int, User>): (r: Result<seq<MemberWithUser>, string>)
    ensures r.Ok? <==> forall i :: 0 <= i < |members| ==> members[i].userId in users
    ensures r.Ok? ==>
      |r.value| == |members| &&
      forall i :: 0 <= i < |members| ==> r.value[i] == MemberWithUser(members[i], users[members[i].userId])
    ensures r.Err? ==>
      exists i :: 0 <= i < |members| && members[i].userId !in users &&
                  (forall j :: 0 <= j < i ==> members[j].userId in users) &&
                  r.error == "User not found for member " + IntToString(members[i].id)
  {
    if members == [] then Ok([])
    else if members[0].userId !in users then
      Err("User not found for member " + IntToString(members[0].id))
    else
      match PairWithUsers(members[1..], users)
      case Err(e) => Err(e)
      case Ok(rest) => Ok([MemberWithUser(members[0], users[members[0].userId])] + rest)
  }

  class MemStorage {
    var users: map<int, User>
    var wallets: map<int, Wallet>
    var chamas: map<int, Chama>
    var chamaMembers: map<int, ChamaMember>
    var contributions: map<int, Contribution>
    var transactions: map<int, Transaction>
    var meetings: map<int, Meeting>
    var messages: map<int, Message>
    var chamaRules: map<int, ChamaRule>
    var notifications: map<int, Notification>
    var products: map<int, Product>
    var learningProgress: map<int, LearningProgress>

    // The entries of the source's `currentId` record, one per table.
    var nextUserId: int
    var nextWalletId: int
    var nextChamaId: int
    var nextChamaMemberId: int
    var nextContributionId: int
    var nextTransactionId: int
    var nextMeetingId: int
    var nextMessageId: int
    var nextChamaRuleId: int
    var nextNotificationId: int
    var nextProductId: int
    var nextLearningProgressId: int

    // Each table is dense and every row carries its own key as its id.
    ghost predicate UsersOk() reads this`users, this`nextUserId {
      Dense(users, nextUserId) && forall k :: k in users ==> users[k].id == k
    }
    ghost predicate WalletsOk() reads this`wallets, this`nextWalletId {
      Dense(wallets, nextWalletId) && forall k :: k in wallets ==> wallets[k].id == k
    }
    ghost predicate ChamasOk() reads this`chamas, this`nextChamaId {
      Dense(chamas, nextChamaId) && forall k :: k in chamas ==> chamas[k].id == k
    }
    ghost predicate MembersOk() reads this`chamaMembers, this`nextChamaMemberId {
      Dense(chamaMembers, nextChamaMemberId) && forall k :: k in chamaMembers ==> chamaMembers[k].id == k
    }
    ghost predicate ContributionsOk() reads this`contributions, this`nextContributionId {
      Dense(contributions, nextContributionId) && forall k :: k in contributions ==> contributions[k].id == k
    }
    ghost predicate TransactionsOk() reads this`transactions, this`nextTransactionId {
      Dense(transactions, nextTransactionId) && forall k :: k in transactions ==> transactions[k].id == k
    }
    ghost predicate MeetingsOk() reads this`meetings, this`nextMeetingId {
      Dense(meetings, nextMeetingId) && forall k :: k in meetings ==> meetings[k].id == k
    }
    ghost predicate MessagesOk() reads this`messages, this`nextMessageId {
      Dense(messages, nextMessageId) && forall k :: k in messages ==> messages[k].id == k
    }
    ghost predicate RulesOk() reads this`chamaRules, this`nextChamaRuleId {
      Dense(chamaRules, nextChamaRuleId) && forall k :: k in chamaRules ==> chamaRules[k].id == k
    }
    ghost predicate NotificationsOk() reads this`notifications, this`nextNotificationId {
      Dense(notifications, nextNotificationId) && forall k :: k in notifications ==> notifications[k].id == k
    }
    ghost predicate ProductsOk() reads this`products, this`nextProductId {
      Dense(products, nextProductId) && forall k :: k in products ==> products[k].id == k
    }
    /** Besides density: the upsert keeps at most one row per (user, module). */
    ghost predicate LearningOk() reads this`learningProgress, this`nextLearningProgressId {
      Dense(learningProgress, nextLearningProgressId) &&
      (forall k :: k in learningProgress ==> learningProgress[k].id == k) &&
      forall a, b ::
        (a in learningProgress && b in learningProgress &&
         learningProgress[a].userId == learningProgress[b].userId &&
         learningProgress[a].moduleId == learningProgress[b].moduleId) ==> a == b
    }

    ghost predicate Valid() reads this {
      UsersOk() && WalletsOk() && ChamasOk() && MembersOk() && ContributionsOk() &&
      TransactionsOk() && MeetingsOk() && MessagesOk() && RulesOk() &&
      NotificationsOk() && ProductsOk() && LearningOk()
    }

    /** Every table starts empty with its counter at 1. */
    constructor ()
      ensures Valid()
      ensures users == map[] && wallets == map[] && chamas == map[] && chamaMembers == map[]
      ensures contributions == map[] && transactions == map[] && meetings == map[] && messages == map[]
      ensures chamaRules == map[] && notifications == map[] && products == map[] && learningProgress == map[]
      ensures nextUserId == nextWalletId == nextChamaId == nextChamaMemberId == 1
      ensures nextContributionId == nextTransactionId == nextMeetingId == nextMessageId == 1
      ensures nextChamaRuleId == nextNotificationId == nextProductId == nextLearningProgressId == 1
    {
      users, wallets, chamas, chamaMembers := map[], map[], map[], map[];
      contributions, transactions, meetings, messages := map[], map[], map[], map[];
      chamaRules, notifications, products, learningProgress := map[], map[], map[], map[];
      nextUserId, nextWalletId, nextChamaId, nextChamaMemberId := 1, 1, 1, 1;
      nextContributionId, nextTransactionId, nextMeetingId, nextMessageId := 1, 1, 1, 1;
      nextChamaRuleId, nextNotificationId, nextProductId, nextLearningProgressId := 1, 1, 1, 1;
    }

    // ---------------------------------------------------------------- users

    function GetUser(id: int): (r: Option<User>)
      reads this`users
      ensures r.Some? <==> id in users
      ensures r.Some? ==> r.value == users[id]
    {
      if id in users then Some(users[id]) else None
    }

    function GetUserByUsername(username: string): (r: Option<User>)
      reads this`users, this`nextUserId
      requires UsersOk()
      ensures r.Some? <==> exists u :: Stored(users, u) && u.username == username
      ensures r.Some? ==> Stored(users, r.value) && r.value.username == username
      ensures r.Some? ==> forall k :: k in users && users[k].username == username ==> r.value.id <= k
    {
      RowsAreValues(users, nextUserId);
      var keep := (u: User) => u.username == username;
      FindInRowsIsFirst(users, nextUserId, UserId, keep);
      Find(Rows(users, nextUserId), keep)
    }

    function GetUserByEmail(email: string): (r: Option<User>)
      reads this`users, this`nextUserId
      requires UsersOk()
      ensures r.Some? <==> exists u :: Stored(users, u) && u.email == email
      ensures r.Some? ==> Stored(users, r.value) && r.value.email == email
      ensures r.Some? ==> forall k :: k in users && users[k].email == email ==> r.value.id <= k
    {
      RowsAreValues(users, nextUserId);
      var keep := (u: User) => u.email == email;
      FindInRowsIsFirst(users, nextUserId, UserId, keep);
      Find(Rows(users, nextUserId), keep)
    }

    method CreateUser(u: User, now: int) returns (r: User)
      requires UsersOk()
      modifies this`users, this`nextUserId
      ensures UsersOk()
      ensures r == u.(id := old(nextUserId), createdAt := now)
      ensures forall k :: k in old(users) ==> k < r.id
      ensures users == old(users)[r.id := r] && nextUserId == old(nextUserId) + 1
    {
      var id := nextUserId;
      nextUserId := nextUserId + 1;
      r := u.(id := id, createdAt := now);
      users := users[id := r];
    }

    method UpdateUser(id: int, patch: UserPatch) returns (r: Option<User>)
      requires UsersOk()
      modifies this`users
      ensures UsersOk()
      ensures r.Some? <==> id in old(users)
      ensures r.None? ==> users == old(users)
      ensures r.Some? ==> r.value == ApplyUserPatch(old(users)[id], patch) && users == old(users)[id := r.value]
    {
      if id !in users {
        return None;
      }
      var updated := ApplyUserPatch(users[id], patch);
      users := users[id := updated];
      r := Some(updated);
    }

    // -------------------------------------------------------------- wallets

    function GetWallet(userId: int): (r: Option<Wallet>)
      reads this`wallets, this`nextWalletId
      requires WalletsOk()
      ensures r.Some? <==> exists w :: Stored(wallets, w) && w.userId == userId
      ensures r.Some? ==> Stored(wallets, r.value) && r.value.userId == userId
      ensures r.Some? ==> forall k :: k in wallets && wallets[k].userId == userId ==> r.value.id <= k
    {
      RowsAreValues(wallets, nextWalletId);
      var keep := (w: Wallet) => w.userId == userId;
      FindInRowsIsFirst(wallets, nextWalletId, WalletId, keep);
      Find(Rows(wallets, nextWalletId), keep)
    }

    method CreateWallet(w: Wallet) returns (r: Wallet)
      requires WalletsOk()
      modifies this`wallets, this`nextWalletId
      ensures WalletsOk()
      ensures r == w.(id := old(nextWalletId))
      ensures forall k :: k in old(wallets) ==> k < r.id
      ensures wallets == old(wallets)[r.id := r] && nextWalletId == old(nextWalletId) + 1
    {
      var id := nextWalletId;
      nextWalletId := nextWalletId + 1;
      r := w.(id := id);
      wallets := wallets[id := r];
    }

    /** Adds `amount` to the balance of the user's first wallet. */
    method UpdateWalletBalance(userId: int, amount: int) returns (r: Option<Wallet>)
      requires WalletsOk()
      modifies this`wallets
      ensures WalletsOk()
      ensures r == (var w := old(GetWallet(userId)); if w.Some? then Some(w.value.(balance := w.value.balance + amount)) else None)
      ensures r.None? ==> wallets == old(wallets)
      ensures r.Some? ==> r.value.id in old(wallets) && wallets == old(wallets)[r.value.id := r.value]
    {
      var w := GetWallet(userId);
      if w.None? {
        return None;
      }
      var updated := w.value.(balance := w.value.balance + amount);
      wallets := wallets[updated.id := updated];
      r := Some(updated);
    }

    // --------------------------------------------------------------- chamas

    function GetChama(id: int): (r: Option<Chama>)
      reads this`chamas
      ensures r.Some? <==> id in chamas
      ensures r.Some? ==> r.value == chamas[id]
    {
      if id in chamas then Some(chamas[id]) else None
    }

    /** `ms` is the user's member rows whose chama is stored, by increasing
        id, and `cs` lists the chama of each of them in that order. */
    ghost predicate ChamasOfRows(userId: int, ms: seq<ChamaMember>, cs: seq<Chama>)
      reads this`chamas, this`chamaMembers
    {
      IncreasingBy(ms, MemberId) &&
      (forall m :: m in ms <==> Stored(chamaMembers, m) && m.userId == userId && m.chamaId in chamas) &&
      |cs| == |ms| && forall i :: 0 <= i < |cs| ==> cs[i] == chamas[ms[i].chamaId]
    }

    /** The chamas of the user's member rows, in member order, skipping a
        member whose chama is missing. */
    function GetChamasByUser(userId: int): (r: seq<Chama>)
      reads this`chamas, this`chamaMembers, this`nextChamaMemberId
      requires MembersOk()
      ensures forall c :: c in r <==>
        exists m :: Stored(chamaMembers, m) && m.userId == userId && m.chamaId in chamas && chamas[m.chamaId] == c
      ensures exists ms :: ChamasOfRows(userId, ms, r)
    {
      RowsAreValues(chamaMembers, nextChamaMemberId);
      RowsIncreasing(chamaMembers, nextChamaMemberId, MemberId);
      var keep := (m: ChamaMember) => m.userId == userId;
      FilterKeepsIncreasing(Rows(chamaMembers, nextChamaMemberId), keep, MemberId);
      var mine := Filter(Rows(chamaMembers, nextChamaMemberId), keep);
      var ms := MembersIn(mine, chamas);
      assert forall m :: m in ms <==> Stored(chamaMembers, m) && m.userId == userId && m.chamaId in chamas;
      var r := ChamasOf(mine);
      assert |r| == |ms| && forall i :: 0 <= i < |r| ==> r[i] == chamas[ms[i].chamaId];
      assert ChamasOfRows(userId, ms, r);
      r
    }

    /** One chama per member row whose chama is stored, in member order; a
        chama appears once for each of its rows. */
    function ChamasOf(ms: seq<ChamaMember>): (r: seq<Chama>)
      reads this`chamas
      ensures forall c :: c in r <==> exists m :: m in ms && m.chamaId in chamas && chamas[m.chamaId] == c
      ensures var kept := MembersIn(ms, chamas);
        |r| == |kept| && forall i :: 0 <= i < |r| ==> kept[i] in kept && r[i] == chamas[kept[i].chamaId]
    {
      if ms == [] then []
      else
        var rest := ChamasOf(ms[1..]);
        assert forall m :: m in ms <==> m == ms[0] || m in ms[1..];
        (if ms[0].chamaId in chamas then [chamas[ms[0].chamaId]] else []) + rest
    }

    method CreateChama(c: Chama, now: int) returns (r: Chama)
      requires ChamasOk()
      modifies this`chamas, this`nextChamaId
      ensures ChamasOk()
      ensures r == c.(id := old(nextChamaId), founded := now)
      ensures forall k :: k in old(chamas) ==> k < r.id
      ensures chamas == old(chamas)[r.id := r] && nextChamaId == old(nextChamaId) + 1
    {
      var id := nextChamaId;
      nextChamaId := nextChamaId + 1;
      r := c.(id := id, founded := now);
      chamas := chamas[id := r];
    }

    // ------------------------------------------------------- chama members

    /** Every member row of the chama (in insertion order) joined with its
        user; throws if some member's user is missing. */
    function GetChamaMembers(chamaId: int): Result<seq<MemberWithUser>, string>
      reads this`users, this`chamaMembers, this`nextChamaMemberId
      requires MembersOk()
    {
      PairWithUsers(MembersOf(chamaId), users)
    }

    /** `getChamaMembers` succeeds iff every member row of the chama has its
        user, and then lists exactly those rows, each with its user. */
    lemma ChamaMembersAreRowsWithUsers(chamaId: int)
      requires MembersOk()
      ensures GetChamaMembers(chamaId).Ok? <==>
        forall m :: Stored(chamaMembers, m) && m.chamaId == chamaId ==> m.userId in users
      ensures GetChamaMembers(chamaId).Ok? ==>
        forall p :: p in GetChamaMembers(chamaId).value <==>
          (Stored(chamaMembers, p.member) && p.member.chamaId == chamaId &&
           p.member.userId in users && p.user == users[p.member.userId])
    {
      RowsAreValues(chamaMembers, nextChamaMemberId);
    }

    /** The member rows of one chama, in insertion order. */
    function MembersOf(chamaId: int): (r: seq<ChamaMember>)
      reads this`chamaMembers, this`nextChamaMemberId
      requires MembersOk()
      ensures forall m :: m in r <==> Stored(chamaMembers, m) && m.chamaId == chamaId
      ensures IncreasingBy(r, MemberId)
    {
      RowsAreValues(chamaMembers, nextChamaMemberId);
      RowsIncreasing(chamaMembers, nextChamaMemberId, MemberId);
      var keep := (m: ChamaMember) => m.chamaId == chamaId;
      FilterKeepsIncreasing(Rows(chamaMembers, nextChamaMemberId), keep, MemberId);
      Filter(Rows(chamaMembers, nextChamaMemberId), keep)
    }

    /** `find` over the member rows: the first, by id, of `chamaId` and `userId`. */
    function GetChamaMember(chamaId: int, userId: int): (r: Option<ChamaMember>)
      reads this`chamaMembers, this`nextChamaMemberId
      requires MembersOk()
      ensures r.Some? <==> exists m :: Stored(chamaMembers, m) && m.chamaId == chamaId && m.userId == userId
      ensures r.Some? ==> Stored(chamaMembers, r.value) && r.value.chamaId == chamaId && r.value.userId == userId
      ensures r.Some? ==> forall k :: k in chamaMembers && chamaMembers[k].chamaId == chamaId && chamaMembers[k].userId == userId ==>
        r.value.id <= k
    {
      MemberFromFinds(chamaMembers, nextChamaMemberId, 1, chamaId, userId);
      MemberFromIsFirst(chamaMembers, nextChamaMemberId, 1, chamaId, userId);
      MemberFrom(chamaMembers, nextChamaMemberId, 1, chamaId, userId)
    }

    /** Adds a member row without looking for an existing one. */
    method AddChamaMember(m: ChamaMember, now: int) returns (r: ChamaMember)
      requires MembersOk()
      modifies this`chamaMembers, this`nextChamaMemberId
      ensures MembersOk()
      ensures r == m.(id := old(nextChamaMemberId), joinedAt := now)
      ensures forall k :: k in old(chamaMembers) ==> k < r.id
      ensures chamaMembers == old(chamaMembers)[r.id := r] && nextChamaMemberId == old(nextChamaMemberId) + 1
    {
      var id := nextChamaMemberId;
      nextChamaMemberId := nextChamaMemberId + 1;
      r := m.(id := id, joinedAt := now);
      chamaMembers := chamaMembers[id := r];
    }

    method UpdateChamaMemberRole(chamaId: int, userId: int, role: string) returns (r: Option<ChamaMember>)
      requires MembersOk()
      modifies this`chamaMembers
      ensures MembersOk()
      ensures r == (var m := old(GetChamaMember(chamaId, userId)); if m.Some? then Some(m.value.(role := role)) else None)
      ensures r.None? ==> chamaMembers == old(chamaMembers)
      ensures r.Some? ==> r.value.id in old(chamaMembers) && chamaMembers == old(chamaMembers)[r.value.id := r.value]
    {
      var m := GetChamaMember(chamaId, userId);
      if m.None? {
        return None;
      }
      var updated := m.value.(role := role);
      chamaMembers := chamaMembers[updated.id := updated];
      r := Some(updated);
    }

    // -------------------------------------------------------- contributions

    function GetContributions(chamaId: int): (r: seq<Contribution>)
      reads this`contributions, this`nextContributionId
      requires ContributionsOk()
      ensures forall c :: c in r <==> Stored(contributions, c) && c.chamaId == chamaId
      ensures IncreasingBy(r, ContributionId)
    {
      RowsAreValues(contributions, nextContributionId);
      RowsIncreasing(contributions, nextContributionId, ContributionId);
      var keep := (c: Contribution) => c.chamaId == chamaId;
      FilterKeepsIncreasing(Rows(contributions, nextContributionId), keep, ContributionId);
      Filter(Rows(contributions, nextContributionId), keep)
    }

    function GetUserContributions(userId: int): (r: seq<Contribution>)
      reads this`contributions, this`nextContributionId
      requires ContributionsOk()
      ensures forall c :: c in r <==> Stored(contributions, c) && c.userId == userId
      ensures IncreasingBy(r, ContributionId)
    {
      RowsAreValues(contributions, nextContributionId);
      RowsIncreasing(contributions, nextContributionId, ContributionId);
      var keep := (c: Contribution) => c.userId == userId;
      FilterKeepsIncreasing(Rows(contributions, nextContributionId), keep, ContributionId);
      Filter(Rows(contributions, nextContributionId), keep)
    }

    method CreateContribution(c: Contribution) returns (r: Contribution)
      requires ContributionsOk()
      modifies this`contributions, this`nextContributionId
      ensures ContributionsOk()
      ensures r == c.(id := old(nextContributionId), paidAt := None)
      ensures forall k :: k in old(contributions) ==> k < r.id
      ensures contributions == old(contributions)[r.id := r] && nextContributionId == old(nextContributionId) + 1
    {
      var id := nextContributionId;
      nextContributionId := nextContributionId + 1;
      r := c.(id := id, paidAt := None);
      contributions := contributions[id := r];
    }

    method UpdateContributionStatus(id: int, status: string, paidAt: Option<int>) returns (r: Option<Contribution>)
      requires ContributionsOk()
      modifies this`contributions
      ensures ContributionsOk()
      ensures r.Some? <==> id in old(contributions)
      ensures r.None? ==> contributions == old(contributions)
      ensures r.Some? ==>
        r.value == old(contributions)[id].(status := status, paidAt := paidAt) &&
        contributions == old(contributions)[id := r.value]
    {
      if id !in contributions {
        return None;
      }
      var updated := contributions[id].(status := status, paidAt := paidAt);
      contributions := contributions[id := updated];
      r := Some(updated);
    }

    // --------------------------------------------------------- transactions

    function GetUserTransactions(userId: int): (r: seq<Transaction>)
      reads this`transactions, this`nextTransactionId
      requires TransactionsOk()
      ensures forall t :: t in r <==> Stored(transactions, t) && t.userId == userId
      ensures SortedDescThenBy(r, TransactionCreatedAt, TransactionId)
    {
      RowsAreValues(transactions, nextTransactionId);
      RowsIncreasing(transactions, nextTransactionId, TransactionId);
      var keep := (t: Transaction) => t.userId == userId;
      var mine := Filter(Rows(transactions, nextTransactionId), keep);
      FilterKeepsIncreasing(Rows(transactions, nextTransactionId), keep, TransactionId);
      SortIsStable(mine, TransactionCreatedAt, TransactionId);
      SortKeepsMembers(mine, TransactionCreatedAt);
      SortDescBy(mine, TransactionCreatedAt)
    }

    method CreateTransaction(t: Transaction, now: int) returns (r: Transaction)
      requires TransactionsOk()
      modifies this`transactions, this`nextTransactionId
      ensures TransactionsOk()
      ensures r == t.(id := old(nextTransactionId), createdAt := now)
      ensures forall k :: k in old(transactions) ==> k < r.id
      ensures transactions == old(transactions)[r.id := r] && nextTransactionId == old(nextTransactionId) + 1
    {
      var id := nextTransactionId;
      nextTransactionId := nextTransactionId + 1;
      r := t.(id := id, createdAt := now);
      transactions := transactions[id := r];
    }

    // ------------------------------------------------------------- meetings

    function GetChamaMeetings(chamaId: int): (r: seq<Meeting>)
      reads this`meetings, this`nextMeetingId
      requires MeetingsOk()
      ensures forall m :: m in r <==> Stored(meetings, m) && m.chamaId == chamaId
      ensures SortedDescThenBy(r, MeetingScheduledFor, MeetingId)
    {
      RowsAreValues(meetings, nextMeetingId);
      RowsIncreasing(meetings, nextMeetingId, MeetingId);
      var keep := (m: Meeting) => m.chamaId == chamaId;
      var ofChama := Filter(Rows(meetings, nextMeetingId), keep);
      FilterKeepsIncreasing(Rows(meetings, nextMeetingId), keep, MeetingId);
      SortIsStable(ofChama, MeetingScheduledFor, MeetingId);
      SortKeepsMembers(ofChama, MeetingScheduledFor);
      SortDescBy(ofChama, MeetingScheduledFor)
    }

    method CreateMeeting(m: Meeting) returns (r: Meeting)
      requires MeetingsOk()
      modifies this`meetings, this`nextMeetingId
      ensures MeetingsOk()
      ensures r == m.(id := old(nextMeetingId))
      ensures forall k :: k in old(meetings) ==> k < r.id
      ensures meetings == old(meetings)[r.id := r] && nextMeetingId == old(nextMeetingId) + 1
    {
      var id := nextMeetingId;
      nextMeetingId := nextMeetingId + 1;
      r := m.(id := id);
      meetings := meetings[id := r];
    }

    // ------------------------------------------------------------- messages

    /** The messages the user sent or received directly, newest first. */
    function GetUserMessages(userId: int): (r: seq<Message>)
      reads this`messages, this`nextMessageId
      requires MessagesOk()
      ensures forall m :: m in r <==> Stored(messages, m) && (m.senderId == userId || m.recipientId == Some(userId))
      ensures SortedDescThenBy(r, MessageSentAt, MessageId)
    {
      RowsAreValues(messages, nextMessageId);
      RowsIncreasing(messages, nextMessageId, MessageId);
      var keep := (m: Message) => m.senderId == userId || m.recipientId == Some(userId);
      var mine := Filter(Rows(messages, nextMessageId), keep);
      FilterKeepsIncreasing(Rows(messages, nextMessageId), keep, MessageId);
      SortIsStable(mine, MessageSentAt, MessageId);
      SortKeepsMembers(mine, MessageSentAt);
      SortDescBy(mine, MessageSentAt)
    }

    function GetChamaMessages(chamaId: int): (r: seq<Message>)
      reads this`messages, this`nextMessageId
      requires MessagesOk()
      ensures forall m :: m in r <==> Stored(messages, m) && m.chamaId == Some(chamaId)
      ensures SortedDescThenBy(r, MessageSentAt, MessageId)
    {
      RowsAreValues(messages, nextMessageId);
      RowsIncreasing(messages, nextMessageId, MessageId);
      var keep := (m: Message) => m.chamaId == Some(chamaId);
      var ofChama := Filter(Rows(messages, nextMessageId), keep);
      FilterKeepsIncreasing(Rows(messages, nextMessageId), keep, MessageId);
      SortIsStable(ofChama, MessageSentAt, MessageId);
      SortKeepsMembers(ofChama, MessageSentAt);
      SortDescBy(ofChama, MessageSentAt)
    }

    /** Stores a message as unread under a fresh id. */
    method CreateMessage(m: Message, now: int) returns (r: Message)
      requires MessagesOk()
      modifies this`messages, this`nextMessageId
      ensures MessagesOk()
      ensures r == m.(id := old(nextMessageId), sentAt := now, read := false)
      ensures forall k :: k in old(messages) ==> k < r.id
      ensures messages == old(messages)[r.id := r] && nextMessageId == old(nextMessageId) + 1
    {
      var id := nextMessageId;
      nextMessageId := nextMessageId + 1;
      r := m.(id := id, sentAt := now, read := false);
      messages := messages[id := r];
    }

    method MarkMessageAsRead(id: int) returns (r: Option<Message>)
      requires MessagesOk()
      modifies this`messages
      ensures MessagesOk()
      ensures r.Some? <==> id in old(messages)
      ensures r.None? ==> messages == old(messages)
      ensures r.Some? ==> r.value == old(messages)[id].(read := true) && messages == old(messages)[id := r.value]
    {
      if id !in messages {
        return None;
      }
      var updated := messages[id].(read := true);
      messages := messages[id := updated];
      r := Some(updated);
    }

    // ---------------------------------------------------------- chama rules

    function GetChamaRules(chamaId: int): (r: Option<ChamaRule>)
      reads this`chamaRules, this`nextChamaRuleId
      requires RulesOk()
      ensures r.Some? <==> exists x :: Stored(chamaRules, x) && x.chamaId == chamaId
      ensures r.Some? ==> Stored(chamaRules, r.value) && r.value.chamaId == chamaId
      ensures r.Some? ==> forall k :: k in chamaRules && chamaRules[k].chamaId == chamaId ==> r.value.id <= k
    {
      RowsAreValues(chamaRules, nextChamaRuleId);
      var keep := (x: ChamaRule) => x.chamaId == chamaId;
      FindInRowsIsFirst(chamaRules, nextChamaRuleId, RuleId, keep);
      Find(Rows(chamaRules, nextChamaRuleId), keep)
    }

    method CreateChamaRules(rules: ChamaRule, now: int) returns (r: ChamaRule)
      requires RulesOk()
      modifies this`chamaRules, this`nextChamaRuleId
      ensures RulesOk()
      ensures r == rules.(id := old(nextChamaRuleId), createdAt := now, updatedAt := now)
      ensures forall k :: k in old(chamaRules) ==> k < r.id
      ensures chamaRules == old(chamaRules)[r.id := r] && nextChamaRuleId == old(nextChamaRuleId) + 1
    {
      var id := nextChamaRuleId;
      nextChamaRuleId := nextChamaRuleId + 1;
      r := rules.(id := id, createdAt := now, updatedAt := now);
      chamaRules := chamaRules[id := r];
    }

    method UpdateChamaRules(chamaId: int, patch: RulePatch, now: int) returns (r: Option<ChamaRule>)
      requires RulesOk()
      modifies this`chamaRules
      ensures RulesOk()
      ensures r == (var x := old(GetChamaRules(chamaId)); if x.Some? then Some(ApplyRulePatch(x.value, patch, now)) else None)
      ensures r.None? ==> chamaRules == old(chamaRules)
      ensures r.Some? ==> r.value.id in old(chamaRules) && chamaRules == old(chamaRules)[r.value.id := r.value]
    {
      var x := GetChamaRules(chamaId);
      if x.None? {
        return None;
      }
      var updated := ApplyRulePatch(x.value, patch, now);
      chamaRules := chamaRules[updated.id := updated];
      r := Some(updated);
    }

    // -------------------------------------------------------- notifications

    function GetUserNotifications(userId: int): (r: seq<Notification>)
      reads this`notifications, this`nextNotificationId
      requires NotificationsOk()
      ensures forall n :: n in r <==> Stored(notifications, n) && n.userId == userId
      ensures SortedDescThenBy(r, NotificationCreatedAt, NotificationId)
    {
      RowsAreValues(notifications, nextNotificationId);
      RowsIncreasing(notifications, nextNotificationId, NotificationId);
      var keep := (n: Notification) => n.userId == userId;
      var mine := Filter(Rows(notifications, nextNotificationId), keep);
      FilterKeepsIncreasing(Rows(notifications, nextNotificationId), keep, NotificationId);
      SortIsStable(mine, NotificationCreatedAt, NotificationId);
      SortKeepsMembers(mine, NotificationCreatedAt);
      SortDescBy(mine, NotificationCreatedAt)
    }

    method CreateNotification(n: Notification, now: int) returns (r: Notification)
      requires NotificationsOk()
      modifies this`notifications, this`nextNotificationId
      ensures NotificationsOk()
      ensures r == n.(id := old(nextNotificationId), createdAt := now, read := false)
      ensures forall k :: k in old(notifications) ==> k < r.id
      ensures notifications == old(notifications)[r.id := r] && nextNotificationId == old(nextNotificationId) + 1
    {
      var id := nextNotificationId;
      nextNotificationId := nextNotificationId + 1;
      r := n.(id := id, createdAt := now, read := false);
      notifications := notifications[id := r];
    }

    method MarkNotificationAsRead(id: int) returns (r: Option<Notification>)
      requires NotificationsOk()
      modifies this`notifications
      ensures NotificationsOk()
      ensures r.Some? <==> id in old(notifications)
      ensures r.None? ==> notifications == old(notifications)
      ensures r.Some? ==> r.value == old(notifications)[id].(read := true) && notifications == old(notifications)[id := r.value]
    {
      if id !in notifications {
        return None;
      }
      var updated := notifications[id].(read := true);
      notifications := notifications[id := updated];
      r := Some(updated);
    }

    // ------------------------------------------------------------- products

    /** The products still for sale, newest first. */
    function GetProducts(): (r: seq<Product>)
      reads this`products, this`nextProductId
      requires ProductsOk()
      ensures forall p :: p in r <==> Stored(products, p) && p.status == "available"
      ensures SortedDescThenBy(r, ProductCreatedAt, ProductId)
    {
      RowsAreValues(products, nextProductId);
      RowsIncreasing(products, nextProductId, ProductId);
      var keep := (p: Product) => p.status == "available";
      var available := Filter(Rows(products, nextProductId), keep);
      FilterKeepsIncreasing(Rows(products, nextProductId), keep, ProductId);
      SortIsStable(available, ProductCreatedAt, ProductId);
      SortKeepsMembers(available, ProductCreatedAt);
      SortDescBy(available, ProductCreatedAt)
    }

    function GetUserProducts(userId: int): (r: seq<Product>)
      reads this`products, this`nextProductId
      requires ProductsOk()
      ensures forall p :: p in r <==> Stored(products, p) && p.sellerId == userId
      ensures SortedDescThenBy(r, ProductCreatedAt, ProductId)
    {
      RowsAreValues(products, nextProductId);
      RowsIncreasing(products, nextProductId, ProductId);
      var keep := (p: Product) => p.sellerId == userId;
      var mine := Filter(Rows(products, nextProductId), keep);
      FilterKeepsIncreasing(Rows(products, nextProductId), keep, ProductId);
      SortIsStable(mine, ProductCreatedAt, ProductId);
      SortKeepsMembers(mine, ProductCreatedAt);
      SortDescBy(mine, ProductCreatedAt)
    }

    function GetProduct(id: int): (r: Option<Product>)
      reads this`products
      ensures r.Some? <==> id in products
      ensures r.Some? ==> r.value == products[id]
    {
      if id in products then Some(products[id]) else None
    }

    method CreateProduct(p: Product, now: int) returns (r: Product)
      requires ProductsOk()
      modifies this`products, this`nextProductId
      ensures ProductsOk()
      ensures r == p.(id := old(nextProductId), createdAt := now)
      ensures forall k :: k in old(products) ==> k < r.id
      ensures products == old(products)[r.id := r] && nextProductId == old(nextProductId) + 1
    {
      var id := nextProductId;
      nextProductId := nextProductId + 1;
      r := p.(id := id, createdAt := now);
      products := products[id := r];
    }

    method UpdateProductStatus(id: int, status: string) returns (r: Option<Product>)
      requires ProductsOk()
      modifies this`products
      ensures ProductsOk()
      ensures r.Some? <==> id in old(products)
      ensures r.None? ==> products == old(products)
      ensures r.Some? ==> r.value == old(products)[id].(status := status) && products == old(products)[id := r.value]
    {
      if id !in products {
        return None;
      }
      var updated := products[id].(status := status);
      products := products[id := updated];
      r := Some(updated);
    }

    // ---------------------------------------------------- learning progress

    function GetUserLearningProgress(userId: int): (r: seq<LearningProgress>)
      reads this`learningProgress, this`nextLearningProgressId
      requires LearningOk()
      ensures forall p :: p in r <==> Stored(learningProgress, p) && p.userId == userId
      ensures IncreasingBy(r, ProgressId)
    {
      RowsAreValues(learningProgress, nextLearningProgressId);
      RowsIncreasing(learningProgress, nextLearningProgressId, ProgressId);
      var keep := (p: LearningProgress) => p.userId == userId;
      FilterKeepsIncreasing(Rows(learningProgress, nextLearningProgressId), keep, ProgressId);
      Filter(Rows(learningProgress, nextLearningProgressId), keep)
    }

    ghost predicate HasProgressRow(userId: int, moduleId: string) reads this`learningProgress {
      exists k :: k in learningProgress && learningProgress[k].userId == userId && learningProgress[k].moduleId == moduleId
    }

    /** Upsert: overwrite progress and completion of the user's row for the
        module, keeping its id; otherwise add one row under a fresh id. */
    method UpdateLearningProgress(userId: int, moduleId: string, progress: int, completed: bool, now: int)
      returns (r: LearningProgress)
      requires LearningOk()
      modifies this`learningProgress, this`nextLearningProgressId
      ensures LearningOk()
      ensures r.userId == userId && r.moduleId == moduleId && r.progress == progress &&
        r.completed == completed && r.lastAccessed == now
      ensures learningProgress == old(learningProgress)[r.id := r]
      ensures old(HasProgressRow(userId, moduleId)) ==>
        r.id in old(learningProgress) &&
        r == old(learningProgress)[r.id].(progress := progress, completed := completed, lastAccessed := now) &&
        nextLearningProgressId == old(nextLearningProgressId)
      ensures !old(HasProgressRow(userId, moduleId)) ==>
        r.id == old(nextLearningProgressId) && nextLearningProgressId == old(nextLearningProgressId) + 1
    {
      RowsAreValues(learningProgress, nextLearningProgressId);
      var rows := Rows(learningProgress, nextLearningProgressId);
      var existing := Find(rows, (p: LearningProgress) => p.userId == userId && p.moduleId == moduleId);
      if existing.Some? {
        var k :| k in learningProgress && learningProgress[k] == existing.value;
        assert k == existing.value.id;
        assert HasProgressRow(userId, moduleId);
        r := existing.value.(progress := progress, completed := completed, lastAccessed := now);
        learningProgress := learningProgress[r.id := r];
      } else {
        forall k | k in learningProgress
          ensures learningProgress[k].userId != userId || learningProgress[k].moduleId != moduleId
        {
          assert Stored(learningProgress, learningProgress[k]);
        }
        var id := nextLearningProgressId;
        nextLearningProgressId := nextLearningProgressId + 1;
        r := LearningProgress(id, userId, moduleId, progress, completed, now);
        learningProgress := learningProgress[id := r];
      }
    }
  }
}

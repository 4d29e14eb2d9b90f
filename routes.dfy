/** The decision logic of the HTTP routes: the membership and role guards,
    and the POST handlers that create transactions, chamas, members,
    contributions, meetings and rules, pay a contribution, or answer the
    assistant. Each handler is a method over the in-memory store; a request
    body that fails its schema is `None`, and a path parameter that
    `parseInt` turns into NaN is `None`. */
module Routes {
  import opened Wrappers
  import opened Schema
  import opened Storage
  import opened Seqs
  import opened Text

  /** An HTTP reply: a status with a JSON payload, or a status with a
      `{ message }` body. */
  datatype Outcome<T> = Done(status: int, value: T) | Fail(status: int, message: string)

  datatype Failure = Failure(status: int, message: string)

  const AdminRoles: seq<string> := ["chairperson", "treasurer", "secretary"]

  // ---------------------------------------------------------------- guards

  /** `requireAuth`: a request without a session user is refused with 401. */
  function RequireAuth(caller: Option<User>): (r: Result<User, Failure>)
    ensures r.Ok? <==> caller.Some?
    ensures r.Ok? ==> r.value == caller.value
    ensures r.Err? ==> r.error == Failure(401, "Authentication required")
  {
    if caller.None? then Err(Failure(401, "Authentication required")) else Ok(caller.value)
  }

  /** `verifyChamaMembership`: the member row attached to the request. */
  function VerifyChamaMembership(store: MemStorage, chamaId: Option<int>, callerId: int): (r: Result<ChamaMember, Failure>)
    reads store`chamaMembers, store`nextChamaMemberId
    requires store.MembersOk()
    ensures chamaId.None? ==> r == Err(Failure(400, "Invalid chama ID"))
    ensures r.Ok? <==>
      chamaId.Some? && exists m :: Stored(store.chamaMembers, m) && m.chamaId == chamaId.value && m.userId == callerId
    ensures chamaId.Some? && r.Err? ==> r.error == Failure(403, "Not a member of this chama")
    ensures r.Ok? ==> Stored(store.chamaMembers, r.value) && r.value.chamaId == chamaId.value && r.value.userId == callerId
  {
    if chamaId.None? then Err(Failure(400, "Invalid chama ID"))
    else
      var member := store.GetChamaMember(chamaId.value, callerId);
      if member.None? then Err(Failure(403, "Not a member of this chama")) else Ok(member.value)
  }

  /** `verifyChamaAdmin`, given what the membership guard attached. */
  function VerifyChamaAdmin(member: Option<ChamaMember>): (r: Result<ChamaMember, Failure>)
    ensures r.Ok? <==> member.Some? && member.value.role in AdminRoles
    ensures r.Ok? ==> r.value == member.value
    ensures member.None? ==> r == Err(Failure(500, "Chama membership not verified"))
    ensures member.Some? && r.Err? ==> r.error == Failure(403, "Insufficient permissions")
  {
    if member.None? then Err(Failure(500, "Chama membership not verified"))
    else if member.value.role !in AdminRoles then Err(Failure(403, "Insufficient permissions"))
    else Ok(member.value)
  }

  /** `verifyAppAdmin`. */
  function VerifyAppAdmin(caller: User): (r: Result<User, Failure>)
    ensures r.Ok? <==> caller.role == "admin"
    ensures r.Err? ==> r.error == Failure(403, "Admin access required")
  {
    if caller.role != "admin" then Err(Failure(403, "Admin access required")) else Ok(caller)
  }

  /** `verifyChamaMembership` followed by `verifyChamaAdmin`, as the admin
      routes chain them; the 500 branch of the second cannot be reached. */
  function ChamaAdminGate(store: MemStorage, chamaId: Option<int>, callerId: int): (r: Result<ChamaMember, Failure>)
    reads store`chamaMembers, store`nextChamaMemberId
    requires store.MembersOk()
    ensures r.Ok? <==>
      chamaId.Some? && store.GetChamaMember(chamaId.value, callerId).Some? &&
      store.GetChamaMember(chamaId.value, callerId).value.role in AdminRoles
    ensures r.Ok? ==> r.value == store.GetChamaMember(chamaId.value, callerId).value
    ensures r.Err? ==> r.error.status in {400, 403}
    ensures chamaId.None? ==> r == Err(Failure(400, "Invalid chama ID"))
    ensures chamaId.Some? && store.GetChamaMember(chamaId.value, callerId).None? ==>
      r == Err(Failure(403, "Not a member of this chama"))
    ensures chamaId.Some? && store.GetChamaMember(chamaId.value, callerId).Some? &&
            store.GetChamaMember(chamaId.value, callerId).value.role !in AdminRoles ==>
      r == Err(Failure(403, "Insufficient permissions"))
  {
    var member := VerifyChamaMembership(store, chamaId, callerId);
    if member.Err? then Err(member.error) else VerifyChamaAdmin(Some(member.value))
  }

  // ---------------------------------------------------------- transactions

  /** The balance change a completed transaction of this type makes. */
  function WalletDelta(kind: string, amount: int): (r: int)
    ensures kind == "deposit" ==> r == amount
    ensures kind == "withdrawal" || kind == "transfer" ==> r == -amount
    ensures kind !in {"deposit", "withdrawal", "transfer"} ==> r == 0
  {
    match kind
    case "deposit" => amount
    case "withdrawal" => -amount
    case "transfer" => -amount
    case _ => 0
  }

  /** The wallets table after `POST /api/transactions` stored `t`. */
  ghost function WalletsAfter(store: MemStorage, t: Transaction): map<int, Wallet>
    reads store`wallets, store`nextWalletId
    requires store.WalletsOk()
  {
    var delta := WalletDelta(t.kind, t.amount);
    var w := store.GetWallet(t.userId);
    if t.status == "completed" && delta != 0 && w.Some?
    then store.wallets[w.value.id := w.value.(balance := w.value.balance + delta)]
    else store.wallets
  }

  /** `POST /api/transactions`. */
  method PostTransaction(store: MemStorage, caller: User, body: Option<Transaction>, now: int) returns (r: Outcome<Transaction>)
    requires store.TransactionsOk() && store.WalletsOk()
    modifies store`transactions, store`nextTransactionId, store`wallets
    ensures store.TransactionsOk() && store.WalletsOk()
    ensures body.None? ==> r == Fail(400, "Validation error")
    ensures body.Some? && body.value.userId != caller.id ==> r == Fail(403, "Cannot create transactions for other users")
    ensures r.Fail? ==> store.transactions == old(store.transactions) && store.wallets == old(store.wallets) &&
                        store.nextTransactionId == old(store.nextTransactionId)
    ensures r.Done? <==> body.Some? && body.value.userId == caller.id
    ensures r.Done? ==>
      r == Done(201, body.value.(id := old(store.nextTransactionId), createdAt := now)) &&
      store.transactions == old(store.transactions)[r.value.id := r.value] &&
      store.nextTransactionId == old(store.nextTransactionId) + 1 &&
      store.wallets == old(WalletsAfter(store, r.value))
  {
    if body.None? {
      return Fail(400, "Validation error");
    }
    if body.value.userId != caller.id {
      return Fail(403, "Cannot create transactions for other users");
    }
    var t := store.CreateTransaction(body.value, now);
    if t.status == "completed" {
      var delta := WalletDelta(t.kind, t.amount);
      if delta != 0 {
        var w := store.UpdateWalletBalance(caller.id, delta);
      }
    }
    r := Done(201, t);
  }

  // ---------------------------------------------------------------- chamas

  /** Member rows never repeat a (chama, user) pair and only name chamas
      that have been created. */
  ghost predicate MembershipsConsistent(store: MemStorage)
    reads store`chamaMembers, store`nextChamaId
  {
    (forall k :: k in store.chamaMembers ==> store.chamaMembers[k].chamaId < store.nextChamaId) &&
    (forall k1, k2 :: k1 in store.chamaMembers && k2 in store.chamaMembers && k1 != k2 ==>
      store.chamaMembers[k1].chamaId != store.chamaMembers[k2].chamaId ||
      store.chamaMembers[k1].userId != store.chamaMembers[k2].userId)
  }

  /** No member row and no contribution row belongs to chama 0. The store
      starts empty, and chama ids are handed out from 1. */
  ghost predicate NoChamaZeroRows(store: MemStorage)
    reads store`chamaMembers, store`contributions
  {
    (forall k :: k in store.chamaMembers ==> store.chamaMembers[k].chamaId != 0) &&
    (forall k :: k in store.contributions ==> store.contributions[k].chamaId != 0)
  }

  /** `POST /api/chamas`: the chama, created by the caller, and the caller's
      chairperson row. */
  method PostChama(store: MemStorage, caller: User, body: Option<Chama>, now: int) returns (r: Outcome<Chama>)
    requires store.ChamasOk() && store.MembersOk()
    modifies store`chamas, store`nextChamaId, store`chamaMembers, store`nextChamaMemberId
    ensures store.ChamasOk() && store.MembersOk()
    ensures r.Done? <==> body.Some?
    ensures r.Fail? ==> r == Fail(400, "Validation error") && unchanged(store)
    ensures r.Done? ==>
      var id := old(store.nextChamaId);
      var mid := old(store.nextChamaMemberId);
      r == Done(201, body.value.(createdBy := caller.id, id := id, founded := now)) &&
      store.chamas == old(store.chamas)[id := r.value] && store.nextChamaId == id + 1 &&
      store.chamaMembers == old(store.chamaMembers)[mid := ChamaMember(mid, id, caller.id, "chairperson", now)] &&
      store.nextChamaMemberId == mid + 1
    ensures r.Done? ==> store.GetChamaMember(r.value.id, caller.id).Some?
    ensures r.Done? && old(MembershipsConsistent(store)) ==>
      store.GetChamaMember(r.value.id, caller.id).value.role == "chairperson"
    ensures old(MembershipsConsistent(store)) ==> MembershipsConsistent(store)
    ensures old(NoChamaZeroRows(store)) ==> NoChamaZeroRows(store)
  {
    if body.None? {
      return Fail(400, "Validation error");
    }
    var chama := store.CreateChama(body.value.(createdBy := caller.id), now);
    ghost var before := store.chamaMembers;
    var m := store.AddChamaMember(ChamaMember(0, chama.id, caller.id, "chairperson", 0), now);
    assert store.chamaMembers[m.id] == m;
    assert Stored(store.chamaMembers, m);
    if old(MembershipsConsistent(store)) {
      forall k | k in store.chamaMembers && k != m.id
        ensures store.chamaMembers[k].chamaId < chama.id
      {
        assert k in before;
      }
      var found := store.GetChamaMember(chama.id, caller.id).value;
      var kf :| kf in store.chamaMembers && store.chamaMembers[kf] == found;
      assert kf == m.id;
    }
    r := Done(201, chama);
  }

  /** `POST /api/chamas/:chamaId/members`. */
  method PostMember(store: MemStorage, caller: User, chamaId: Option<int>, body: Option<ChamaMember>, now: int)
    returns (r: Outcome<ChamaMember>)
    requires store.MembersOk()
    modifies store`chamaMembers, store`nextChamaMemberId
    ensures store.MembersOk()
    ensures old(ChamaAdminGate(store, chamaId, caller.id)).Err? ==>
      r == Fail(old(ChamaAdminGate(store, chamaId, caller.id)).error.status, old(ChamaAdminGate(store, chamaId, caller.id)).error.message)
    ensures old(ChamaAdminGate(store, chamaId, caller.id)).Ok? ==>
      (body.None? ==> r == Fail(400, "Validation error")) &&
      (body.Some? && body.value.userId !in store.users ==> r == Fail(404, "User not found")) &&
      (body.Some? && body.value.userId in store.users && old(store.GetChamaMember(chamaId.value, body.value.userId)).Some? ==>
        r == Fail(400, "User is already a member"))
    ensures r.Done? <==>
      old(ChamaAdminGate(store, chamaId, caller.id)).Ok? && body.Some? &&
      body.value.userId in store.users && old(store.GetChamaMember(chamaId.value, body.value.userId)).None?
    ensures r.Fail? ==> unchanged(store)
    ensures r.Done? ==>
      var id := old(store.nextChamaMemberId);
      r == Done(201, body.value.(chamaId := chamaId.value, id := id, joinedAt := now)) &&
      store.chamaMembers == old(store.chamaMembers)[id := r.value] && store.nextChamaMemberId == id + 1
    ensures old(NoChamaZeroRows(store)) ==> NoChamaZeroRows(store)
    ensures old(MembershipsConsistent(store)) ==> MembershipsConsistent(store)
  {
    var gate := ChamaAdminGate(store, chamaId, caller.id);
    if gate.Err? {
      return Fail(gate.error.status, gate.error.message);
    }
    if body.None? {
      return Fail(400, "Validation error");
    }
    var data := body.value.(chamaId := chamaId.value);
    var user := store.GetUser(data.userId);
    if user.None? {
      return Fail(404, "User not found");
    }
    var existing := store.GetChamaMember(chamaId.value, data.userId);
    if existing.Some? {
      return Fail(400, "User is already a member");
    }
    ghost var before := store.chamaMembers;
    var m := store.AddChamaMember(data, now);
    assert Stored(before, gate.value);
    if old(MembershipsConsistent(store)) {
      assert Stored(before, gate.value);
      forall k | k in store.chamaMembers && k != m.id
        ensures store.chamaMembers[k].chamaId != m.chamaId || store.chamaMembers[k].userId != m.userId
      {
        assert Stored(before, before[k]);
      }
    }
    r := Done(201, m);
  }

  // --------------------------------------------------------- contributions

  /** The row created for batch item `d` of chama `cid`. */
  function DueRow(d: Contribution, cid: int, id: int): Contribution {
    d.(chamaId := cid, id := id, paidAt := None)
  }

  /** The `contribution_due` notification sent for the row `c`, before the
      store assigns its id; `localeDate` renders the due date. */
  function DueNotice(c: Contribution, localeDate: int -> string): Notification {
    Notification(0, c.userId, "contribution_due", "New Contribution Due",
                 "You have a new contribution of " + IntToString(c.amount) + " due by " + localeDate(c.dueDate),
                 false, 0, Some(c.id))
  }

  /** A batch item the handler refuses: it failed the schema, or its user is
      not a member of the chama. */
  predicate Rejected(members: map<int, ChamaMember>, next: int, cid: int, item: Option<Contribution>)
    requires Dense(members, next)
  {
    item.None? || MemberFrom(members, next, 1, cid, item.value.userId).None?
  }

  /** None of the first `k` items is refused. */
  predicate AllAccepted(members: map<int, ChamaMember>, next: int, cid: int, items: seq<Option<Contribution>>, k: nat)
    requires Dense(members, next) && k <= |items|
    decreases k
  {
    k == 0 || (AllAccepted(members, next, cid, items, k - 1) && !Rejected(members, next, cid, items[k - 1]))
  }

  lemma {:induction false} AllAcceptedMeans(members: map<int, ChamaMember>, next: int, cid: int, items: seq<Option<Contribution>>, k: nat)
    requires Dense(members, next) && k <= |items|
    ensures AllAccepted(members, next, cid, items, k) <==> forall j :: 0 <= j < k ==> !Rejected(members, next, cid, items[j])
    decreases k
  {
    if k > 0 {
      AllAcceptedMeans(members, next, cid, items, k - 1);
    }
  }

  /** Each of the first `k` items passed the schema. */
  predicate Parsed(items: seq<Option<Contribution>>, k: nat)
    requires k <= |items|
    decreases k
  {
    k == 0 || (Parsed(items, k - 1) && items[k - 1].Some?)
  }

  lemma {:induction false} ParsedMeans(items: seq<Option<Contribution>>, k: nat)
    requires k <= |items|
    ensures Parsed(items, k) <==> forall j :: 0 <= j < k ==> items[j].Some?
    decreases k
  {
    if k > 0 {
      ParsedMeans(items, k - 1);
    }
  }

  /** The position of the first refused item, or the batch length. */
  function BatchStop(members: map<int, ChamaMember>, next: int, cid: int, items: seq<Option<Contribution>>): (k: nat)
    requires Dense(members, next)
    ensures k <= |items| && Parsed(items, k)
    decreases |items|
  {
    if items == [] then 0
    else if Rejected(members, next, cid, items[0]) then 0
    else
      var k := BatchStop(members, next, cid, items[1..]);
      ParsedMeans(items[1..], k);
      assert forall j :: 0 <= j < k + 1 ==> items[j].Some? by {
        forall j | 0 <= j < k + 1 ensures items[j].Some? {
          if j > 0 {
            assert items[j] == items[1..][j - 1];
          }
        }
      }
      ParsedMeans(items, k + 1);
      1 + k
  }

  /** Every item before `BatchStop` is accepted. */
  lemma {:induction false} BatchStopAcceptsBefore(members: map<int, ChamaMember>, next: int, cid: int, items: seq<Option<Contribution>>)
    requires Dense(members, next)
    ensures forall i :: 0 <= i < BatchStop(members, next, cid, items) ==> !Rejected(members, next, cid, items[i])
    decreases |items|
  {
    if items != [] && !Rejected(members, next, cid, items[0]) {
      BatchStopAcceptsBefore(members, next, cid, items[1..]);
      var k := BatchStop(members, next, cid, items);
      forall i | 0 <= i < k ensures !Rejected(members, next, cid, items[i]) {
        if i > 0 {
          assert items[i] == items[1..][i - 1];
        }
      }
    }
  }

  /** The item at `BatchStop`, if there is one, is refused. */
  lemma {:induction false} BatchStopRefusesAt(members: map<int, ChamaMember>, next: int, cid: int, items: seq<Option<Contribution>>)
    requires Dense(members, next)
    ensures BatchStop(members, next, cid, items) < |items| ==> Rejected(members, next, cid, items[BatchStop(members, next, cid, items)])
    decreases |items|
  {
    if items != [] && !Rejected(members, next, cid, items[0]) {
      BatchStopRefusesAt(members, next, cid, items[1..]);
      var k := BatchStop(members, next, cid, items[1..]);
      if k < |items| - 1 {
        assert items[k + 1] == items[1..][k];
      }
    }
  }

  /** The reply to the refused item. */
  function RejectReply(item: Option<Contribution>): Outcome<seq<Contribution>> {
    if item.None? then Fail(400, "Validation error")
    else Fail(400, "User " + IntToString(item.value.userId) + " is not a member of this chama")
  }

  /** `after` keeps every row of `before` and holds `added[j]` under id
      `start + j`. */
  ghost predicate Extends<T>(after: map<int, T>, before: map<int, T>, start: int, added: seq<T>) {
    (forall id :: id in before ==> id in after && after[id] == before[id]) &&
    (forall id :: start <= id < start + |added| ==> id in after && after[id] == added[id - start])
  }

  lemma ExtendsStep<T>(after: map<int, T>, before: map<int, T>, start: int, added: seq<T>, x: T)
    requires Extends(after, before, start, added)
    requires forall id :: id in before ==> id < start
    ensures Extends(after[start + |added| := x], before, start, added + [x])
  {
    var grown, more := after[start + |added| := x], added + [x];
    forall id | start <= id < start + |more|
      ensures id in grown && grown[id] == more[id - start]
    {
      if id < start + |added| {
        assert more[id - start] == added[id - start];
      }
    }
  }

  /** `m` with `rows` stored under the consecutive ids `start`, `start + 1`, ... */
  function Append<T>(m: map<int, T>, start: int, rows: seq<T>): map<int, T>
    decreases |rows|
  {
    if rows == [] then m
    else Append(m, start, rows[..|rows| - 1])[start + |rows| - 1 := rows[|rows| - 1]]
  }

  lemma {:induction false} AppendExtends<T>(m: map<int, T>, start: int, rows: seq<T>)
    requires forall id :: id in m ==> id < start
    ensures Extends(Append(m, start, rows), m, start, rows)
    decreases |rows|
  {
    if rows != [] {
      var init := rows[..|rows| - 1];
      AppendExtends(m, start, init);
      ExtendsStep(Append(m, start, init), m, start, init, rows[|rows| - 1]);
      assert init + [rows[|rows| - 1]] == rows;
    }
  }

  /** The rows a batch creates for its first `k` items. */
  function DueRows(items: seq<Option<Contribution>>, k: nat, cid: int, c0: int): (rows: seq<Contribution>)
    requires k <= |items| && Parsed(items, k)
    ensures |rows| == k
    decreases k
  {
    if k == 0 then [] else DueRows(items, k - 1, cid, c0) + [DueRow(items[k - 1].value, cid, c0 + k - 1)]
  }

  /** One more accepted item adds its row at the end. */
  lemma DueRowsStep(items: seq<Option<Contribution>>, i: nat, cid: int, c0: int)
    requires i < |items| && Parsed(items, i + 1)
    ensures DueRows(items, i + 1, cid, c0) == DueRows(items, i, cid, c0) + [DueRow(items[i].value, cid, c0 + i)]
  {
  }

  /** The contributions table after the first `k` items of a batch, the
      store's counter having stood at `c0`. */
  function BatchRows(before: map<int, Contribution>, items: seq<Option<Contribution>>, k: nat, cid: int, c0: int): map<int, Contribution>
    requires k <= |items| && Parsed(items, k)
    decreases k
  {
    if k == 0 then before
    else BatchRows(before, items, k - 1, cid, c0)[c0 + k - 1 := DueRow(items[k - 1].value, cid, c0 + k - 1)]
  }

  /** The due notice of row `c` as stored under id `nid` at time `now`. */
  function StoredDueNotice(c: Contribution, nid: int, now: int, localeDate: int -> string): Notification {
    DueNotice(c, localeDate).(id := nid, createdAt := now)
  }

  /** The notifications table after the first `k` items of a batch. */
  function BatchNotices(before: map<int, Notification>, items: seq<Option<Contribution>>, k: nat, cid: int, c0: int, n0: int,
                        now: int, localeDate: int -> string): map<int, Notification>
    requires k <= |items| && Parsed(items, k)
    decreases k
  {
    if k == 0 then before
    else BatchNotices(before, items, k - 1, cid, c0, n0, now, localeDate)[n0 + k - 1 := StoredDueNotice(DueRow(items[k - 1].value, cid, c0 + k - 1), n0 + k - 1, now, localeDate)]
  }

  /** The `j`-th created row is the `j`-th item, stored in chama `cid` under
      id `c0 + j`. */
  lemma {:induction false} DueRowsAreItems(items: seq<Option<Contribution>>, k: nat, cid: int, c0: int)
    requires k <= |items| && Parsed(items, k)
    ensures forall j :: 0 <= j < k ==> items[j].Some? && DueRows(items, k, cid, c0)[j] == DueRow(items[j].value, cid, c0 + j)
    decreases k
  {
    if k > 0 {
      DueRowsAreItems(items, k - 1, cid, c0);
    }
  }

  /** The batch keeps every earlier contribution and stores the created rows,
      in order, under the ids from `c0` on. */
  lemma {:induction false} BatchRowsExtend(before: map<int, Contribution>, items: seq<Option<Contribution>>, k: nat, cid: int, c0: int)
    requires k <= |items| && Parsed(items, k)
    requires forall id :: id in before ==> id < c0
    ensures Extends(BatchRows(before, items, k, cid, c0), before, c0, DueRows(items, k, cid, c0))
    decreases k
  {
    if k > 0 {
      BatchRowsExtend(before, items, k - 1, cid, c0);
      ExtendsStep(BatchRows(before, items, k - 1, cid, c0), before, c0, DueRows(items, k - 1, cid, c0),
                  DueRow(items[k - 1].value, cid, c0 + k - 1));
    }
  }

  /** Every row of the batch's table is an earlier row or belongs to chama `cid`. */
  lemma {:induction false} BatchRowsOfChama(before: map<int, Contribution>, items: seq<Option<Contribution>>, k: nat, cid: int, c0: int)
    requires k <= |items| && Parsed(items, k)
    ensures var after := BatchRows(before, items, k, cid, c0);
      forall id :: id in after ==> (id in before && after[id] == before[id]) || after[id].chamaId == cid
    decreases k
  {
    if k > 0 {
      BatchRowsOfChama(before, items, k - 1, cid, c0);
    }
  }

  /** The batch keeps every earlier notification. */
  lemma {:induction false} BatchNoticesKeepEarlier(before: map<int, Notification>, items: seq<Option<Contribution>>, k: nat,
                                                   cid: int, c0: int, n0: int, now: int, localeDate: int -> string, id: int)
    requires k <= |items| && Parsed(items, k)
    requires id in before && forall id' :: id' in before ==> id' < n0
    ensures var after := BatchNotices(before, items, k, cid, c0, n0, now, localeDate);
      id in after && after[id] == before[id]
    decreases k
  {
    if k > 0 {
      BatchNoticesKeepEarlier(before, items, k - 1, cid, c0, n0, now, localeDate, id);
    }
  }

  /** The batch stores, under id `n0 + j`, the due notice of its `j`-th
      created row. */
  lemma {:induction false} BatchNoticeOfItem(before: map<int, Notification>, items: seq<Option<Contribution>>, k: nat,
                                             cid: int, c0: int, n0: int, now: int, localeDate: int -> string, j: nat)
    requires k <= |items| && Parsed(items, k)
    requires j < k
    ensures var after := BatchNotices(before, items, k, cid, c0, n0, now, localeDate);
      items[j].Some? && n0 + j in after &&
      after[n0 + j] == StoredDueNotice(DueRow(items[j].value, cid, c0 + j), n0 + j, now, localeDate)
    decreases k
  {
    if j < k - 1 {
      BatchNoticeOfItem(before, items, k - 1, cid, c0, n0, now, localeDate, j);
      assert n0 + j != n0 + k - 1;
    }
  }

  /** One iteration of the batch loop, on the accepted item `i`: its row,
      then its notification. */
  method CreateDue(store: MemStorage, items: seq<Option<Contribution>>, i: nat, cid: int, now: int, localeDate: int -> string,
                   ghost c0: int, ghost n0: int, ghost oldC: map<int, Contribution>, ghost oldN: map<int, Notification>)
    returns (c: Contribution)
    requires i < |items| && Parsed(items, i + 1)
    requires store.ContributionsOk() && store.NotificationsOk()
    requires store.nextContributionId == c0 + i && store.nextNotificationId == n0 + i
    requires store.contributions == BatchRows(oldC, items, i, cid, c0)
    requires store.notifications == BatchNotices(oldN, items, i, cid, c0, n0, now, localeDate)
    modifies store`contributions, store`nextContributionId, store`notifications, store`nextNotificationId
    ensures store.ContributionsOk() && store.NotificationsOk()
    ensures store.nextContributionId == c0 + i + 1 && store.nextNotificationId == n0 + i + 1
    ensures c == DueRow(items[i].value, cid, c0 + i)
    ensures store.contributions == BatchRows(oldC, items, i + 1, cid, c0)
    ensures store.notifications == BatchNotices(oldN, items, i + 1, cid, c0, n0, now, localeDate)
  {
    c := store.CreateContribution(items[i].value.(chamaId := cid));
    var n := store.CreateNotification(DueNotice(c, localeDate), now);
  }

  /** `BatchStop` is the first refused position. */
  lemma {:induction false} BatchStopIs(members: map<int, ChamaMember>, next: int, cid: int, items: seq<Option<Contribution>>, i: nat)
    requires Dense(members, next)
    requires i <= |items| && forall j :: 0 <= j < i ==> !Rejected(members, next, cid, items[j])
    requires i < |items| ==> Rejected(members, next, cid, items[i])
    ensures BatchStop(members, next, cid, items) == i
    decreases i
  {
    if i > 0 {
      BatchStopIs(members, next, cid, items[1..], i - 1);
    }
  }

  /** `POST /api/chamas/:chamaId/contributions`: the items are handled in
      order; the first refused item ends the request with 400, and the
      items before it stay created, each with its one notification. */
  method PostContributions(store: MemStorage, caller: User, chamaId: Option<int>, items: seq<Option<Contribution>>,
                           now: int, localeDate: int -> string)
    returns (r: Outcome<seq<Contribution>>)
    requires store.MembersOk() && store.ContributionsOk() && store.NotificationsOk()
    modifies store`contributions, store`nextContributionId, store`notifications, store`nextNotificationId
    ensures store.ContributionsOk() && store.NotificationsOk()
    ensures old(ChamaAdminGate(store, chamaId, caller.id)).Err? ==>
      r == Fail(old(ChamaAdminGate(store, chamaId, caller.id)).error.status, old(ChamaAdminGate(store, chamaId, caller.id)).error.message) &&
      unchanged(store)
    ensures old(ChamaAdminGate(store, chamaId, caller.id)).Ok? ==> BatchEffect(store, chamaId.value, items, now, localeDate, r)
    ensures old(NoChamaZeroRows(store)) ==> NoChamaZeroRows(store)
  {
    var gate := ChamaAdminGate(store, chamaId, caller.id);
    if gate.Err? {
      return Fail(gate.error.status, gate.error.message);
    }
    ghost var before, c0 := store.contributions, store.nextContributionId;
    ghost var k := BatchStop(store.chamaMembers, store.nextChamaMemberId, chamaId.value, items);
    assert Stored(store.chamaMembers, gate.value);
    r := CreateBatch(store, chamaId.value, items, now, localeDate);
    BatchRowsOfChama(before, items, k, chamaId.value, c0);
  }

  /** What a batch for chama `cid` leaves behind, stated on the store after it
      ran: `k` rows with consecutive fresh ids, `k` notifications likewise,
      and the reply. */
  twostate predicate BatchEffect(store: MemStorage, cid: int, items: seq<Option<Contribution>>, now: int,
                                 localeDate: int -> string, new r: Outcome<seq<Contribution>>)
    reads store
    requires store.MembersOk()
  {
    var k := BatchStop(store.chamaMembers, store.nextChamaMemberId, cid, items);
    var c0 := old(store.nextContributionId);
    var n0 := old(store.nextNotificationId);
    store.nextContributionId == c0 + k && store.nextNotificationId == n0 + k &&
    store.contributions == BatchRows(old(store.contributions), items, k, cid, c0) &&
    store.notifications == BatchNotices(old(store.notifications), items, k, cid, c0, n0, now, localeDate) &&
    r == (if k < |items| then RejectReply(items[k]) else Done(201, DueRows(items, k, cid, c0)))
  }

  /** The loop of the contributions route, after the guards. */
  method CreateBatch(store: MemStorage, cid: int, items: seq<Option<Contribution>>, now: int, localeDate: int -> string)
    returns (r: Outcome<seq<Contribution>>)
    requires store.MembersOk() && store.ContributionsOk() && store.NotificationsOk()
    modifies store`contributions, store`nextContributionId, store`notifications, store`nextNotificationId
    ensures store.ContributionsOk() && store.NotificationsOk()
    ensures BatchEffect(store, cid, items, now, localeDate, r)
  {
    ghost var c0, n0 := store.nextContributionId, store.nextNotificationId;
    ghost var oldC, oldN := store.contributions, store.notifications;
    var created: seq<Contribution> := [];
    var i := 0;
    // No step of the loop writes the member rows.
    var members, next := store.chamaMembers, store.nextChamaMemberId;
    while i < |items| && !Rejected(members, next, cid, items[i])
      invariant 0 <= i <= |items|
      invariant AllAccepted(members, next, cid, items, i) && Parsed(items, i)
      invariant store.ContributionsOk() && store.NotificationsOk()
      invariant store.nextContributionId == c0 + i && store.nextNotificationId == n0 + i
      invariant created == DueRows(items, i, cid, c0)
      invariant store.contributions == BatchRows(oldC, items, i, cid, c0)
      invariant store.notifications == BatchNotices(oldN, items, i, cid, c0, n0, now, localeDate)
    {
      var c := CreateDue(store, items, i, cid, now, localeDate, c0, n0, oldC, oldN);
      DueRowsStep(items, i, cid, c0);
      created := created + [c];
      i := i + 1;
    }
    AllAcceptedMeans(members, next, cid, items, i);
    BatchStopIs(members, next, cid, items, i);
    if i < |items| {
      r := RejectReply(items[i]);
    } else {
      r := Done(201, created);
    }
  }

  /** The `meeting_scheduled` notification for one member. */
  function MeetingNotice(userId: int, m: Meeting, localeString: int -> string): Notification {
    Notification(0, userId, "meeting_scheduled", "New Meeting Scheduled",
                 "A new meeting \"" + m.title + "\" has been scheduled for " + localeString(m.scheduledFor),
                 false, 0, Some(m.id))
  }

  /** The stored notifications for the members of a meeting's chama. */
  function MeetingNotices(ms: seq<MemberWithUser>, m: Meeting, n0: int, now: int, localeString: int -> string): (ns: seq<Notification>)
    ensures |ns| == |ms|
    decreases |ms|
  {
    if ms == [] then []
    else
      var k := |ms| - 1;
      MeetingNotices(ms[..k], m, n0, now, localeString) +
      [MeetingNotice(ms[k].member.userId, m, localeString).(id := n0 + k, createdAt := now)]
  }

  /** One notification per member row, in order, each naming the meeting. */
  lemma {:induction false} MeetingNoticesPerMember(ms: seq<MemberWithUser>, m: Meeting, n0: int, now: int, localeString: int -> string)
    ensures var ns := MeetingNotices(ms, m, n0, now, localeString);
      forall j :: 0 <= j < |ms| ==>
        ns[j].userId == ms[j].member.userId && ns[j].relatedId == Some(m.id) && ns[j].id == n0 + j &&
        ns[j].kind == "meeting_scheduled"
    decreases |ms|
  {
    if ms != [] {
      var k := |ms| - 1;
      MeetingNoticesPerMember(ms[..k], m, n0, now, localeString);
      assert forall j :: 0 <= j < k ==> ms[..k][j] == ms[j];
    }
  }

  /** Notifying member `i` adds its notice under `n0 + i`. */
  lemma MeetingNoticesStep(m0: map<int, Notification>, ms: seq<MemberWithUser>, i: int, meeting: Meeting,
                           n0: int, now: int, localeString: int -> string)
    requires 0 <= i < |ms|
    ensures Append(m0, n0, MeetingNotices(ms[..i + 1], meeting, n0, now, localeString)) ==
      Append(m0, n0, MeetingNotices(ms[..i], meeting, n0, now, localeString))[
        n0 + i := MeetingNotice(ms[i].member.userId, meeting, localeString).(id := n0 + i, createdAt := now, read := false)]
  {
    assert ms[..i + 1][..i] == ms[..i];
    var next := MeetingNotices(ms[..i + 1], meeting, n0, now, localeString);
    assert next[..i] == MeetingNotices(ms[..i], meeting, n0, now, localeString);
  }

  /** The notification loop of the meetings route. */
  method NotifyMembers(store: MemStorage, ms: seq<MemberWithUser>, meeting: Meeting, now: int, localeString: int -> string)
    requires store.NotificationsOk()
    modifies store`notifications, store`nextNotificationId
    ensures store.NotificationsOk()
    ensures store.nextNotificationId == old(store.nextNotificationId) + |ms|
    ensures store.notifications ==
      Append(old(store.notifications), old(store.nextNotificationId), MeetingNotices(ms, meeting, old(store.nextNotificationId), now, localeString))
  {
    ghost var n0 := store.nextNotificationId;
    var i := 0;
    while i < |ms|
      invariant 0 <= i <= |ms|
      invariant store.NotificationsOk() && store.nextNotificationId == n0 + i
      invariant store.notifications == Append(old(store.notifications), n0, MeetingNotices(ms[..i], meeting, n0, now, localeString))
    {
      var n := store.CreateNotification(MeetingNotice(ms[i].member.userId, meeting, localeString), now);
      MeetingNoticesStep(old(store.notifications), ms, i, meeting, n0, now, localeString);
      i := i + 1;
    }
    assert ms[..|ms|] == ms;
  }

  /** `POST /api/chamas/:chamaId/meetings`: the meeting, then one
      notification per member row of the chama, in order. When
      `getChamaMembers` throws, the meeting stays created and the reply is
      500. */
  method PostMeeting(store: MemStorage, caller: User, chamaId: Option<int>, body: Option<Meeting>,
                     now: int, localeString: int -> string)
    returns (r: Outcome<Meeting>)
    requires store.MembersOk() && store.MeetingsOk() && store.NotificationsOk()
    modifies store`meetings, store`nextMeetingId, store`notifications, store`nextNotificationId
    ensures store.MeetingsOk() && store.NotificationsOk()
    ensures old(ChamaAdminGate(store, chamaId, caller.id)).Err? || body.None? ==> r.Fail? && unchanged(store)
    ensures old(ChamaAdminGate(store, chamaId, caller.id)).Err? ==>
      r == Fail(old(ChamaAdminGate(store, chamaId, caller.id)).error.status, old(ChamaAdminGate(store, chamaId, caller.id)).error.message)
    ensures old(ChamaAdminGate(store, chamaId, caller.id)).Ok? && body.None? ==> r == Fail(400, "Validation error")
    ensures old(ChamaAdminGate(store, chamaId, caller.id)).Ok? && body.Some? ==>
      var mid := old(store.nextMeetingId);
      var meeting := body.value.(chamaId := chamaId.value, createdBy := caller.id, id := mid);
      var members := old(store.GetChamaMembers(chamaId.value));
      var n0 := old(store.nextNotificationId);
      store.meetings == old(store.meetings)[mid := meeting] && store.nextMeetingId == mid + 1 &&
      (members.Err? ==>
        r == Fail(500, "Server error") && store.notifications == old(store.notifications) &&
        store.nextNotificationId == n0) &&
      (members.Ok? ==>
        r == Done(201, meeting) && store.nextNotificationId == n0 + |members.value| &&
        store.notifications == Append(old(store.notifications), n0, MeetingNotices(members.value, meeting, n0, now, localeString)))
  {
    var gate := ChamaAdminGate(store, chamaId, caller.id);
    if gate.Err? {
      return Fail(gate.error.status, gate.error.message);
    }
    if body.None? {
      return Fail(400, "Validation error");
    }
    r := ScheduleMeeting(store, body.value.(chamaId := chamaId.value, createdBy := caller.id), now, localeString);
  }

  /** The meetings route after its guards. */
  method ScheduleMeeting(store: MemStorage, m: Meeting, now: int, localeString: int -> string) returns (r: Outcome<Meeting>)
    requires store.MembersOk() && store.MeetingsOk() && store.NotificationsOk()
    modifies store`meetings, store`nextMeetingId, store`notifications, store`nextNotificationId
    ensures store.MeetingsOk() && store.NotificationsOk()
    ensures
      var meeting := m.(id := old(store.nextMeetingId));
      var members := old(store.GetChamaMembers(m.chamaId));
      var n0 := old(store.nextNotificationId);
      store.meetings == old(store.meetings)[meeting.id := meeting] && store.nextMeetingId == meeting.id + 1 &&
      (members.Err? ==>
        r == Fail(500, "Server error") && store.notifications == old(store.notifications) &&
        store.nextNotificationId == n0) &&
      (members.Ok? ==>
        r == Done(201, meeting) && store.nextNotificationId == n0 + |members.value| &&
        store.notifications == Append(old(store.notifications), n0, MeetingNotices(members.value, meeting, n0, now, localeString)))
  {
    var meeting := store.CreateMeeting(m);
    var members := store.GetChamaMembers(m.chamaId);
    if members.Err? {
      return Fail(500, "Server error");
    }
    NotifyMembers(store, members.value, meeting, now, localeString);
    r := Done(201, meeting);
  }

  // ------------------------------------------------------- contribution pay

  /** The lookup the pay route performs: only chama 0's contributions are
      searched. */
  function PayLookupAsWritten(store: MemStorage, id: int): (r: Option<Contribution>)
    reads store`contributions, store`nextContributionId
    requires store.ContributionsOk()
    ensures r.Some? <==> exists c :: Stored(store.contributions, c) && c.chamaId == 0 && c.id == id
    ensures r.Some? ==> Stored(store.contributions, r.value) && r.value.id == id
  {
    Find(store.GetContributions(0), (c: Contribution) => c.id == id)
  }

  /** The lookup the comment beside it intends: the whole table. */
  function PayLookup(store: MemStorage, id: int): (r: Option<Contribution>)
    reads store`contributions
    ensures r.Some? <==> id in store.contributions
    ensures r.Some? ==> r.value == store.contributions[id]
  {
    if id in store.contributions then Some(store.contributions[id]) else None
  }

  /** Chama ids start at 1, so while no contribution row names chama 0 the
      lookup as written finds nothing, and every payment is refused with
      404, although the contribution is stored. */
  lemma PayLookupAsWrittenMissesEveryChama(store: MemStorage, id: int)
    requires store.ContributionsOk() && NoChamaZeroRows(store)
    ensures PayLookupAsWritten(store, id).None?
    ensures PayLookup(store, id).Some? <==> id in store.contributions
  {
    forall c | Stored(store.contributions, c)
      ensures c.chamaId != 0
    {
      var k :| k in store.contributions && store.contributions[k] == c;
    }
  }

  /** The whole-table lookup finds exactly the stored row with that id. */
  lemma PayLookupFindsStoredRow(store: MemStorage, id: int)
    requires store.ContributionsOk()
    ensures PayLookup(store, id).Some? <==> exists c :: Stored(store.contributions, c) && c.id == id
    ensures PayLookup(store, id).Some? ==> PayLookup(store, id).value.id == id
  {
    if id in store.contributions {
      assert Stored(store.contributions, store.contributions[id]);
    }
  }

  /** The transaction recorded for a payment. */
  function PaymentRecord(userId: int, c: Contribution): Transaction {
    Transaction(0, userId, "contribution", c.amount, "completed",
                Some("Contribution payment for " + IntToString(c.chamaId)), 0, Some(c.id))
  }

  /** The checks after the lookup, in order, then the settlement: status
      `paid`, one completed `contribution` transaction, no wallet change. */
  method Settle(store: MemStorage, caller: User, found: Option<Contribution>, now: int) returns (r: Outcome<Contribution>)
    requires store.ContributionsOk() && store.TransactionsOk()
    requires found.Some? ==> found.value.id in store.contributions && store.contributions[found.value.id] == found.value
    modifies store`contributions, store`transactions, store`nextTransactionId
    ensures store.ContributionsOk() && store.TransactionsOk()
    ensures found.None? ==> r == Fail(404, "Contribution not found")
    ensures found.Some? && found.value.userId != caller.id ==> r == Fail(403, "Cannot pay another user's contribution")
    ensures found.Some? && found.value.userId == caller.id && found.value.status == "paid" ==>
      r == Fail(400, "Contribution already paid")
    ensures r.Fail? ==> unchanged(store)
    ensures r.Done? <==> found.Some? && found.value.userId == caller.id && found.value.status != "paid"
    ensures r.Done? ==>
      var c := found.value;
      var tid := old(store.nextTransactionId);
      r == Done(200, c.(status := "paid", paidAt := Some(now))) &&
      store.contributions == old(store.contributions)[c.id := r.value] &&
      store.transactions == old(store.transactions)[tid := PaymentRecord(caller.id, c).(id := tid, createdAt := now)] &&
      store.nextTransactionId == tid + 1
  {
    if found.None? {
      return Fail(404, "Contribution not found");
    }
    var c := found.value;
    if c.userId != caller.id {
      return Fail(403, "Cannot pay another user's contribution");
    }
    if c.status == "paid" {
      return Fail(400, "Contribution already paid");
    }
    var updated := store.UpdateContributionStatus(c.id, "paid", Some(now));
    var t := store.CreateTransaction(PaymentRecord(caller.id, c), now);
    r := Done(200, updated.value);
  }

  /** `POST /api/contributions/:contributionId/pay` as written. */
  method PayContributionAsWritten(store: MemStorage, caller: User, contributionId: Option<int>, now: int)
    returns (r: Outcome<Contribution>)
    requires store.ContributionsOk() && store.TransactionsOk()
    modifies store`contributions, store`transactions, store`nextTransactionId
    ensures store.ContributionsOk() && store.TransactionsOk()
    ensures contributionId.None? ==> r == Fail(400, "Invalid contribution ID") && unchanged(store)
    ensures contributionId.Some? && old(PayLookupAsWritten(store, contributionId.value)).None? ==>
      r == Fail(404, "Contribution not found") && unchanged(store)
    ensures r.Done? ==> contributionId.Some? && old(PayLookupAsWritten(store, contributionId.value)).Some?
    ensures r.Fail? ==> unchanged(store)
    ensures contributionId.Some? && old(PayLookupAsWritten(store, contributionId.value)).Some? ==>
      var c := old(PayLookupAsWritten(store, contributionId.value)).value;
      var tid := old(store.nextTransactionId);
      (c.userId != caller.id ==> r == Fail(403, "Cannot pay another user's contribution")) &&
      (c.userId == caller.id && c.status == "paid" ==> r == Fail(400, "Contribution already paid")) &&
      (r.Done? <==> c.userId == caller.id && c.status != "paid") &&
      (r.Done? ==>
        r == Done(200, c.(status := "paid", paidAt := Some(now))) &&
        store.contributions == old(store.contributions)[c.id := r.value] &&
        store.transactions == old(store.transactions)[tid := PaymentRecord(caller.id, c).(id := tid, createdAt := now)] &&
        store.nextTransactionId == tid + 1)
  {
    if contributionId.None? {
      return Fail(400, "Invalid contribution ID");
    }
    var found := PayLookupAsWritten(store, contributionId.value);
    if found.Some? {
      ghost var k :| k in store.contributions && store.contributions[k] == found.value;
    }
    r := Settle(store, caller, found, now);
  }

  /** `POST /api/contributions/:contributionId/pay` with the whole-table
      lookup. */
  method PayContribution(store: MemStorage, caller: User, contributionId: Option<int>, now: int)
    returns (r: Outcome<Contribution>)
    requires store.ContributionsOk() && store.TransactionsOk()
    modifies store`contributions, store`transactions, store`nextTransactionId
    ensures store.ContributionsOk() && store.TransactionsOk()
    ensures contributionId.None? ==> r == Fail(400, "Invalid contribution ID") && unchanged(store)
    ensures contributionId.Some? ==>
      var id := contributionId.value;
      (id !in old(store.contributions) ==> r == Fail(404, "Contribution not found")) &&
      (id in old(store.contributions) && old(store.contributions[id]).userId != caller.id ==>
        r == Fail(403, "Cannot pay another user's contribution")) &&
      (id in old(store.contributions) && old(store.contributions[id]).userId == caller.id &&
       old(store.contributions[id]).status == "paid" ==>
         r == Fail(400, "Contribution already paid")) &&
      (r.Done? <==> id in old(store.contributions) && old(store.contributions[id]).userId == caller.id &&
                    old(store.contributions[id]).status != "paid") &&
      (r.Done? ==>
        var c := old(store.contributions[id]);
        var tid := old(store.nextTransactionId);
        r == Done(200, c.(status := "paid", paidAt := Some(now))) &&
        store.contributions == old(store.contributions)[id := r.value] &&
        store.transactions == old(store.transactions)[tid := PaymentRecord(caller.id, c).(id := tid, createdAt := now)] &&
        store.nextTransactionId == tid + 1)
    ensures r.Fail? ==> unchanged(store)
  {
    if contributionId.None? {
      return Fail(400, "Invalid contribution ID");
    }
    r := Settle(store, caller, PayLookup(store, contributionId.value), now);
  }

  // ----------------------------------------------------------------- rules

  /** No two rule rows belong to the same chama. */
  ghost predicate OneRuleSetPerChama(store: MemStorage)
    reads store`chamaRules
  {
    forall k1, k2 :: k1 in store.chamaRules && k2 in store.chamaRules && k1 != k2 ==>
      store.chamaRules[k1].chamaId != store.chamaRules[k2].chamaId
  }

  /** `POST /api/chamas/:chamaId/rules`: refused when the chama already has
      rules (checked before the body is validated). */
  method PostRules(store: MemStorage, caller: User, chamaId: Option<int>, body: Option<ChamaRule>, now: int)
    returns (r: Outcome<ChamaRule>)
    requires store.MembersOk() && store.RulesOk()
    modifies store`chamaRules, store`nextChamaRuleId
    ensures store.RulesOk()
    ensures r.Fail? ==> unchanged(store)
    ensures old(ChamaAdminGate(store, chamaId, caller.id)).Err? ==>
      r == Fail(old(ChamaAdminGate(store, chamaId, caller.id)).error.status, old(ChamaAdminGate(store, chamaId, caller.id)).error.message)
    ensures old(ChamaAdminGate(store, chamaId, caller.id)).Ok? && old(store.GetChamaRules(chamaId.value)).Some? ==>
      r == Fail(400, "Rules already exist. Use PUT to update")
    ensures old(ChamaAdminGate(store, chamaId, caller.id)).Ok? && old(store.GetChamaRules(chamaId.value)).None? && body.None? ==>
      r == Fail(400, "Validation error")
    ensures r.Done? <==>
      old(ChamaAdminGate(store, chamaId, caller.id)).Ok? &&
      old(store.GetChamaRules(chamaId.value)).None? && body.Some?
    ensures r.Done? ==>
      var id := old(store.nextChamaRuleId);
      r == Done(201, body.value.(chamaId := chamaId.value, id := id, createdAt := now, updatedAt := now)) &&
      store.chamaRules == old(store.chamaRules)[id := r.value] && store.nextChamaRuleId == id + 1
    ensures old(OneRuleSetPerChama(store)) ==> OneRuleSetPerChama(store)
  {
    var gate := ChamaAdminGate(store, chamaId, caller.id);
    if gate.Err? {
      return Fail(gate.error.status, gate.error.message);
    }
    var existing := store.GetChamaRules(chamaId.value);
    if existing.Some? {
      return Fail(400, "Rules already exist. Use PUT to update");
    }
    if body.None? {
      return Fail(400, "Validation error");
    }
    ghost var before := store.chamaRules;
    var rules := store.CreateChamaRules(body.value.(chamaId := chamaId.value), now);
    forall k | k in before
      ensures before[k].chamaId != rules.chamaId
    {
      assert Stored(before, before[k]);
    }
    r := Done(201, rules);
  }

  // ------------------------------------------------------------- assistant

  const DefaultAnswer := "I'm sorry, I don't understand that question."
  const SavingAnswer := "To save effectively, consider setting aside a fixed percentage of your income each month. The 50/30/20 rule suggests 50% for needs, 30% for wants, and 20% for savings and debt repayment."
  const ChamaAnswer := "A chama is a group savings and investment club, popular in Kenya and other parts of Africa. Members contribute regularly and can use the pooled funds for investments, loans, or rotating payouts."
  const InvestmentAnswer := "For investments, diversification is key. Consider a mix of stocks, bonds, real estate, and other vehicles based on your risk tolerance and financial goals."
  const LoanAnswer := "When considering loans, always compare interest rates, terms, and total cost. Borrow only what you can afford to repay, and prioritize paying off high-interest debt first."

  /** `POST /api/assistant/chat`. `message` is `None` when the field is
      missing or is not a string. */
  function AssistantReply(message: Option<string>): (r: Outcome<string>)
    ensures r.Fail? <==> message.None? || message.value == ""
    ensures r.Fail? ==> r == Fail(400, "Message is required")
    ensures r.Done? ==>
      r.status == 200 && r.value in {DefaultAnswer, SavingAnswer, ChamaAnswer, InvestmentAnswer, LoanAnswer}
  {
    if message.None? || message.value == "" then Fail(400, "Message is required")
    else
      var m := Lower(message.value);
      if Includes(m, "how to save") then Done(200, SavingAnswer)
      else if Includes(m, "what is a chama") then Done(200, ChamaAnswer)
      else if Includes(m, "investment") then Done(200, InvestmentAnswer)
      else if Includes(m, "loan") || Includes(m, "borrow") then Done(200, LoanAnswer)
      else Done(200, DefaultAnswer)
  }

  /** The answer is the one of the first keyword, in the handler's order,
      that the lower-cased message contains; with none, the default. */
  lemma AssistantKeywordPrecedence(message: string)
    requires message != ""
    ensures var m := Lower(message);
      var a := AssistantReply(Some(message)).value;
      (Includes(m, "how to save") ==> a == SavingAnswer) &&
      (!Includes(m, "how to save") && Includes(m, "what is a chama") ==> a == ChamaAnswer) &&
      (!Includes(m, "how to save") && !Includes(m, "what is a chama") && Includes(m, "investment") ==>
        a == InvestmentAnswer) &&
      ((!Includes(m, "how to save") && !Includes(m, "what is a chama") && !Includes(m, "investment") &&
        (Includes(m, "loan") || Includes(m, "borrow"))) ==> a == LoanAnswer) &&
      (a == DefaultAnswer <==>
        !Includes(m, "how to save") && !Includes(m, "what is a chama") && !Includes(m, "investment") &&
        !Includes(m, "loan") && !Includes(m, "borrow"))
  {
  }

  /** Case does not matter: a message and its lower-cased form get the same
      answer. */
  lemma {:induction false} AssistantIgnoresCase(message: string)
    ensures AssistantReply(Some(message)) == AssistantReply(Some(Lower(message)))
  {
    LowerIdempotent(message);
    LowerLength(message);
  }

  lemma {:induction false} LowerIdempotent(s: string)
    ensures Lower(Lower(s)) == Lower(s)
  {
    if s != [] {
      LowerIdempotent(s[1..]);
    }
  }
}

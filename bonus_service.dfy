/** The bonus service: the `privilege` table (one row per user, a nullable
    `balance`) and the `privilege_history` table (one row per balance change,
    tagged with the ticket it belongs to). Both tables are sequences in `id`
    order; `nextPrivilegeId` and `nextHistoryId` are the SERIAL sequences.
    Every statement commits on its own, so a request that fails half-way
    keeps the statements that ran before the failure. */
module BonusService {
  import opened Common

  datatype PrivilegeStatus = Bronze | Silver | Gold

  datatype OperationType = FillInBalance | DebitTheAccount

  datatype Privilege = Privilege(id: int, username: string, status: PrivilegeStatus, balance: Option<int>)

  /** A `privilege_history` row; `datetime` is the instant the row was written. */
  datatype HistoryRow = HistoryRow(id: int, privilegeId: int, ticketUid: string, datetime: int,
                                   balanceDiff: int, operationType: OperationType)

  /** An entry of the history list in a response; the date's rendering as
      text is not part of this model. */
  datatype HistoryItem = HistoryItem(date: int, ticketUid: string, balanceDiff: int, operationType: OperationType)

  datatype PrivilegeResponse = PrivilegeResponse(balance: int, status: PrivilegeStatus, history: seq<HistoryItem>)

  datatype PushPrivilegeRequest = PushPrivilegeRequest(operationType: OperationType, price: int, ticketUid: string)

  datatype Tables = Tables(privileges: seq<Privilege>, history: seq<HistoryRow>, nextPrivilegeId: int, nextHistoryId: int)

  // ----- row-level helpers -----

  /** `SELECT ... FROM privilege WHERE username=user`, then `fetchone()`. */
  function FindByUsername(ps: seq<Privilege>, user: string): Option<Privilege> {
    if ps == [] then None
    else if ps[0].username == user then Some(ps[0])
    else FindByUsername(ps[1..], user)
  }

  /** `SELECT ... FROM privilege WHERE id=id`, then `fetchone()`. */
  function FindById(ps: seq<Privilege>, id: int): Option<Privilege> {
    if ps == [] then None
    else if ps[0].id == id then Some(ps[0])
    else FindById(ps[1..], id)
  }

  /** `UPDATE privilege SET balance=b WHERE id=id`. */
  function SetBalance(ps: seq<Privilege>, id: int, b: Option<int>): seq<Privilege> {
    if ps == [] then []
    else [if ps[0].id == id then ps[0].(balance := b) else ps[0]] + SetBalance(ps[1..], id, b)
  }

  /** The rows of one privilege as response items, in table order. */
  function HistoryOf(hs: seq<HistoryRow>, privilegeId: int): seq<HistoryItem> {
    if hs == [] then []
    else
      (if hs[0].privilegeId == privilegeId
       then [HistoryItem(hs[0].datetime, hs[0].ticketUid, hs[0].balanceDiff, hs[0].operationType)]
       else [])
      + HistoryOf(hs[1..], privilegeId)
  }

  lemma HistoryOfStep(hs: seq<HistoryRow>, privilegeId: int, i: nat)
    requires i < |hs|
    ensures HistoryOf(hs[i..], privilegeId) ==
      (if hs[i].privilegeId == privilegeId
       then [HistoryItem(hs[i].datetime, hs[i].ticketUid, hs[i].balanceDiff, hs[i].operationType)]
       else [])
      + HistoryOf(hs[i + 1..], privilegeId)
  {
    assert hs[i..][1..] == hs[i + 1..];
  }

  /** `SELECT ... FROM privilege_history WHERE ticket_uid=uid`, then `fetchone()`. */
  function FirstWithUid(hs: seq<HistoryRow>, uid: string): Option<HistoryRow> {
    if hs == [] then None
    else if hs[0].ticketUid == uid then Some(hs[0])
    else FirstWithUid(hs[1..], uid)
  }

  /** `DELETE FROM privilege_history WHERE ticket_uid=uid`. */
  function WithoutUid(hs: seq<HistoryRow>, uid: string): seq<HistoryRow> {
    if hs == [] then []
    else (if hs[0].ticketUid == uid then [] else [hs[0]]) + WithoutUid(hs[1..], uid)
  }

  predicate HasUid(hs: seq<HistoryRow>, uid: string) {
    exists i :: 0 <= i < |hs| && hs[i].ticketUid == uid
  }

  ghost predicate IdsIncrease(ps: seq<Privilege>) {
    forall i, j :: 0 <= i < j < |ps| ==> ps[i].id < ps[j].id
  }

  ghost predicate HistoryIdsIncrease(hs: seq<HistoryRow>) {
    forall i, j :: 0 <= i < j < |hs| ==> hs[i].id < hs[j].id
  }

  /** The tables' constraints: SERIAL ids increase and stay below their
      sequence, usernames are UNIQUE, stored balances fit the `INT` column, and
      every history row references an existing privilege. */
  ghost predicate Valid(t: Tables) {
    && IdsIncrease(t.privileges)
    && (forall i :: 0 <= i < |t.privileges| && t.privileges[i].balance.Some? ==> InInt32(t.privileges[i].balance.value))
    && (forall i :: 0 <= i < |t.privileges| ==> t.privileges[i].id < t.nextPrivilegeId)
    && (forall i, j :: 0 <= i < j < |t.privileges| ==> t.privileges[i].username != t.privileges[j].username)
    && HistoryIdsIncrease(t.history)
    && (forall i :: 0 <= i < |t.history| ==> t.history[i].id < t.nextHistoryId)
    && (forall i :: 0 <= i < |t.history| ==> FindById(t.privileges, t.history[i].privilegeId).Some?)
  }

  // ----- the three endpoints as functions of the tables -----

  function Respond(hs: seq<HistoryRow>, p: Privilege): PrivilegeResponse {
    PrivilegeResponse(p.balance.GetOr(0), p.status, HistoryOf(hs, p.id))
  }

  /** `GET /privilege`: an unknown user first gets a row with balance 0 and
      the default status; a NULL balance is reported as 0. A name the
      `VARCHAR(80)` column cannot hold fails the INSERT while it is planned
      (a 500, no id drawn); a name it holds is stored cut to 80 characters,
      and when that stored name is already taken the UNIQUE constraint fails
      the INSERT after the id was drawn (a 500). */
  function GetSpec(t: Tables, user: string): (Result<PrivilegeResponse, int>, Tables) {
    match FindByUsername(t.privileges, user)
    case Some(p) => (Ok(Respond(t.history, p)), t)
    case None =>
      if !FitsVarchar(user, 80) then (Err(500), t)
      else
        var name := Clip(user, 80);
        var t1 := t.(nextPrivilegeId := t.nextPrivilegeId + 1);
        if FindByUsername(t.privileges, name).Some? then (Err(500), t1)
        else
          var p := Privilege(t.nextPrivilegeId, name, Bronze, Some(0));
          (Ok(Respond(t.history, p)), t1.(privileges := t.privileges + [p]))
  }

  /** The bonus a purchase earns: `int(price * 0.1)`, a tenth of the price
      truncated toward zero. */
  function FillDiff(price: int): (d: int)
    ensures price >= 0 ==> 0 <= d && 10 * d <= price < 10 * d + 10
    ensures price <= 0 ==> d <= 0 && 10 * d >= price > 10 * d - 10
  {
    TruncDiv(price, 10)
  }

  /** The change a payment from the balance makes: it takes at most the whole
      price and at most the whole balance. */
  function DebitDiff(balance: int, price: int): (d: int)
    ensures d == -price || d == -balance
    ensures -d <= price && -d <= balance
  {
    -Min(balance, price)
  }

  /** `POST /privilege`: 500 for an unknown user (unpacking `None`) and for a
      debit against a NULL balance (`min` of `None`), both before any write.
      Otherwise one history row, then the balance update. A diff outside
      `INT` fails the INSERT while it is planned, before a history id is
      drawn; a new balance outside `INT` fails the UPDATE, and the history row
      stays. `NULL + diff` stays NULL. `now` is `CURRENT_TIMESTAMP`. */
  function PushSpec(t: Tables, body: PushPrivilegeRequest, user: string, now: int): (Result<(), int>, Tables) {
    match FindByUsername(t.privileges, user)
    case None => (Err(500), t)
    case Some(p) =>
      var diff := match body.operationType
        case FillInBalance => Some(FillDiff(body.price))
        case DebitTheAccount => if p.balance.None? then None else Some(DebitDiff(p.balance.value, body.price));
      match diff
      case None => (Err(500), t)
      case Some(d) =>
        if !InInt32(d) then (Err(500), t)
        else
          var t1 := t.(nextHistoryId := t.nextHistoryId + 1);
          var row := HistoryRow(t.nextHistoryId, p.id, body.ticketUid, now, d, body.operationType);
          var t2 := t1.(history := t.history + [row]);
          match p.balance
          case None => (Ok(()), t2)
          case Some(b) =>
            if !InInt32(b + d) then (Err(500), t2)
            else (Ok(()), t2.(privileges := SetBalance(t.privileges, p.id, Some(b + d))))
  }

  /** `DELETE /privilege/{ticketUid}`: 404 when no history row has the uid.
      Otherwise it takes the first such row, deletes every row with the uid,
      and lowers the balance by `min(balance, diff)`; a NULL balance fails (500)
      after the delete, as does a result outside `INT`. */
  function DropSpec(t: Tables, uid: string): (Result<(), int>, Tables) {
    match FirstWithUid(t.history, uid)
    case None => (Err(404), t)
    case Some(h) =>
      match FindById(t.privileges, h.privilegeId)
      case None => (Err(500), t)
      case Some(p) =>
        var t1 := t.(history := WithoutUid(t.history, uid));
        match p.balance
        case None => (Err(500), t1)
        case Some(b) =>
          var nb := b - Min(b, h.balanceDiff);
          if !InInt32(nb) then (Err(500), t1)
          else (Ok(()), t1.(privileges := SetBalance(t.privileges, p.id, Some(nb))))
  }

  // ----- lemmas about the helpers -----

  lemma {:induction false} FindByUsernameExact(ps: seq<Privilege>, user: string)
    ensures FindByUsername(ps, user).None? <==> forall q :: q in ps ==> q.username != user
    ensures FindByUsername(ps, user).Some? ==>
      FindByUsername(ps, user).value in ps && FindByUsername(ps, user).value.username == user
  {
    if ps != [] {
      FindByUsernameExact(ps[1..], user);
      assert ps == [ps[0]] + ps[1..];
    }
  }

  lemma {:induction false} FindByIdExact(ps: seq<Privilege>, id: int)
    ensures FindById(ps, id).None? <==> forall q :: q in ps ==> q.id != id
    ensures FindById(ps, id).Some? ==> FindById(ps, id).value in ps && FindById(ps, id).value.id == id
  {
    if ps != [] {
      FindByIdExact(ps[1..], id);
      assert ps == [ps[0]] + ps[1..];
    }
  }

  /** With increasing ids, the row found by id is the one row carrying it. */
  lemma {:induction false} FindByIdUnique(ps: seq<Privilege>, q: Privilege)
    requires IdsIncrease(ps)
    requires q in ps
    ensures FindById(ps, q.id) == Some(q)
  {
    if ps[0] != q {
      assert q in ps[1..];
      var k :| 0 <= k < |ps[1..]| && ps[1..][k] == q;
      assert ps[k + 1] == q;
      FindByIdUnique(ps[1..], q);
    }
  }

  /** With UNIQUE usernames, the row found by name is the one row carrying it. */
  lemma {:induction false} FindByUsernameUnique(ps: seq<Privilege>, q: Privilege)
    requires forall i, j :: 0 <= i < j < |ps| ==> ps[i].username != ps[j].username
    requires q in ps
    ensures FindByUsername(ps, q.username) == Some(q)
  {
    if ps[0] != q {
      assert q in ps[1..];
      var k :| 0 <= k < |ps[1..]| && ps[1..][k] == q;
      assert ps[k + 1] == q;
      FindByUsernameUnique(ps[1..], q);
    }
  }

  /** The update touches the balance of the rows with the id and nothing else. */
  lemma {:induction false} SetBalanceShape(ps: seq<Privilege>, id: int, b: Option<int>)
    ensures |SetBalance(ps, id, b)| == |ps|
    ensures forall i :: 0 <= i < |ps| ==>
      SetBalance(ps, id, b)[i] == (if ps[i].id == id then ps[i].(balance := b) else ps[i])
  {
    if ps != [] {
      SetBalanceShape(ps[1..], id, b);
      forall i | 0 < i < |ps| ensures SetBalance(ps, id, b)[i] == SetBalance(ps[1..], id, b)[i - 1] {
      }
    }
  }

  /** Writing a balance twice leaves the second value; writing back the value
      a unique row already holds leaves the table as it was. */
  lemma SetBalanceTwice(ps: seq<Privilege>, id: int, x: Option<int>, y: Option<int>)
    ensures SetBalance(SetBalance(ps, id, x), id, y) == SetBalance(ps, id, y)
  {
    SetBalanceShape(ps, id, x);
    SetBalanceShape(SetBalance(ps, id, x), id, y);
    SetBalanceShape(ps, id, y);
  }

  lemma SetBalanceSame(ps: seq<Privilege>, q: Privilege)
    requires IdsIncrease(ps)
    requires q in ps
    ensures SetBalance(ps, q.id, q.balance) == ps
  {
    SetBalanceShape(ps, q.id, q.balance);
    forall i | 0 <= i < |ps| && ps[i].id == q.id ensures ps[i] == q {
      FindByIdUnique(ps, ps[i]);
      FindByIdUnique(ps, q);
    }
  }

  lemma SetBalanceKeepsKeys(ps: seq<Privilege>, id: int, b: Option<int>)
    ensures forall x :: FindById(SetBalance(ps, id, b), x).Some? <==> FindById(ps, x).Some?
    ensures |SetBalance(ps, id, b)| == |ps|
    ensures IdsIncrease(ps) ==> IdsIncrease(SetBalance(ps, id, b))
    ensures forall i :: 0 <= i < |ps| ==> SetBalance(ps, id, b)[i].username == ps[i].username
  {
    SetBalanceShape(ps, id, b);
    var ps' := SetBalance(ps, id, b);
    forall x ensures FindById(ps', x).Some? <==> FindById(ps, x).Some? {
      FindByIdExact(ps, x);
      FindByIdExact(ps', x);
      if FindById(ps, x).Some? {
        var k :| 0 <= k < |ps| && ps[k] == FindById(ps, x).value;
        assert ps'[k] in ps';
      }
      if FindById(ps', x).Some? {
        var k :| 0 <= k < |ps'| && ps'[k] == FindById(ps', x).value;
        assert ps[k] in ps;
      }
    }
  }

  lemma {:induction false} FindByIdAppend(ps: seq<Privilege>, q: Privilege, x: int)
    ensures FindById(ps + [q], x) == if FindById(ps, x).Some? then FindById(ps, x) else if q.id == x then Some(q) else None
  {
    if ps != [] {
      assert (ps + [q])[1..] == ps[1..] + [q];
      FindByIdAppend(ps[1..], q, x);
    }
  }

  lemma {:induction false} FindByUsernameAppend(ps: seq<Privilege>, q: Privilege, user: string)
    ensures FindByUsername(ps + [q], user) ==
      if FindByUsername(ps, user).Some? then FindByUsername(ps, user) else if q.username == user then Some(q) else None
  {
    if ps != [] {
      assert (ps + [q])[1..] == ps[1..] + [q];
      FindByUsernameAppend(ps[1..], q, user);
    }
  }

  /** The history list holds exactly the rows of the privilege, in table order. */
  lemma {:induction false} HistoryOfExact(hs: seq<HistoryRow>, pid: int)
    ensures |HistoryOf(hs, pid)| <= |hs|
    ensures forall h :: h in hs && h.privilegeId == pid ==>
      HistoryItem(h.datetime, h.ticketUid, h.balanceDiff, h.operationType) in HistoryOf(hs, pid)
    ensures forall it :: it in HistoryOf(hs, pid) ==> exists h :: (h in hs && h.privilegeId == pid
      && it == HistoryItem(h.datetime, h.ticketUid, h.balanceDiff, h.operationType))
  {
    if hs != [] {
      HistoryOfExact(hs[1..], pid);
      assert hs == [hs[0]] + hs[1..];
    }
  }

  lemma {:induction false} HistoryOfNone(hs: seq<HistoryRow>, pid: int)
    requires forall h :: h in hs ==> h.privilegeId != pid
    ensures HistoryOf(hs, pid) == []
  {
    if hs != [] {
      assert hs[0] in hs;
      assert forall h :: h in hs[1..] ==> h in hs;
      HistoryOfNone(hs[1..], pid);
    }
  }

  lemma {:induction false} HistoryOfAppend(hs: seq<HistoryRow>, h: HistoryRow, pid: int)
    ensures HistoryOf(hs + [h], pid) == HistoryOf(hs, pid) + HistoryOf([h], pid)
  {
    if hs != [] {
      assert (hs + [h])[1..] == hs[1..] + [h];
      HistoryOfAppend(hs[1..], h, pid);
    }
  }

  lemma {:induction false} FirstWithUidExact(hs: seq<HistoryRow>, uid: string)
    ensures FirstWithUid(hs, uid).Some? <==> HasUid(hs, uid)
    ensures FirstWithUid(hs, uid).Some? ==> FirstWithUid(hs, uid).value in hs && FirstWithUid(hs, uid).value.ticketUid == uid
  {
    if hs != [] {
      FirstWithUidExact(hs[1..], uid);
      if hs[0].ticketUid != uid && HasUid(hs, uid) {
        var i :| 0 <= i < |hs| && hs[i].ticketUid == uid;
        assert hs[1..][i - 1] == hs[i];
      }
      if HasUid(hs[1..], uid) {
        var i :| 0 <= i < |hs[1..]| && hs[1..][i].ticketUid == uid;
        assert hs[i + 1].ticketUid == uid;
      }
    }
  }

  /** The delete removes exactly the rows with the uid. */
  lemma {:induction false} WithoutUidExact(hs: seq<HistoryRow>, uid: string)
    ensures forall h :: h in WithoutUid(hs, uid) <==> h in hs && h.ticketUid != uid
  {
    if hs != [] {
      WithoutUidExact(hs[1..], uid);
      assert hs == [hs[0]] + hs[1..];
    }
  }

  /** The rows the delete keeps stay in id order. */
  lemma {:induction false} WithoutUidOrdered(hs: seq<HistoryRow>, uid: string)
    requires HistoryIdsIncrease(hs)
    ensures HistoryIdsIncrease(WithoutUid(hs, uid))
  {
    if hs != [] {
      var tail := hs[1..];
      assert HistoryIdsIncrease(tail) by {
        forall i, j | 0 <= i < j < |tail| ensures tail[i].id < tail[j].id {
          assert tail[i] == hs[i + 1] && tail[j] == hs[j + 1];
        }
      }
      WithoutUidOrdered(tail, uid);
      WithoutUidExact(tail, uid);
      var rest := WithoutUid(tail, uid);
      forall h | h in rest ensures hs[0].id < h.id {
        var k :| 0 <= k < |tail| && tail[k] == h;
        assert tail[k] == hs[k + 1];
      }
      if hs[0].ticketUid != uid {
        var r := WithoutUid(hs, uid);
        assert r == [hs[0]] + rest;
        forall i, j | 0 <= i < j < |r| ensures r[i].id < r[j].id {
          assert r[j] == rest[j - 1];
          if i > 0 {
            assert r[i] == rest[i - 1];
          } else {
            assert rest[j - 1] in rest;
          }
        }
      }
    }
  }

  /** A delete of a uid no row carries changes nothing. */
  lemma {:induction false} WithoutAbsentUid(hs: seq<HistoryRow>, uid: string)
    requires !HasUid(hs, uid)
    ensures WithoutUid(hs, uid) == hs
  {
    if hs != [] {
      var tail := hs[1..];
      assert !HasUid(tail, uid) by {
        forall i | 0 <= i < |tail| ensures tail[i].ticketUid != uid {
          assert tail[i] == hs[i + 1];
        }
      }
      WithoutAbsentUid(tail, uid);
      assert hs[0].ticketUid != uid;
      assert hs == [hs[0]] + tail;
    }
  }

  lemma WithoutUidAppend(hs: seq<HistoryRow>, h: HistoryRow, uid: string)
    requires !HasUid(hs, uid) && h.ticketUid == uid
    ensures WithoutUid(hs + [h], uid) == hs
  {
    WithoutAbsentUid(hs, uid);
    WithoutUidConcat(hs, [h], uid);
  }

  lemma {:induction false} WithoutUidConcat(xs: seq<HistoryRow>, ys: seq<HistoryRow>, uid: string)
    ensures WithoutUid(xs + ys, uid) == WithoutUid(xs, uid) + WithoutUid(ys, uid)
  {
    if xs == [] {
      assert xs + ys == ys;
    } else {
      assert (xs + ys)[0] == xs[0];
      assert (xs + ys)[1..] == xs[1..] + ys;
      WithoutUidConcat(xs[1..], ys, uid);
      var head := if xs[0].ticketUid == uid then [] else [xs[0]];
      assert WithoutUid(xs + ys, uid) == head + WithoutUid(xs[1..] + ys, uid);
      assert WithoutUid(xs, uid) == head + WithoutUid(xs[1..], uid);
    }
  }

  lemma {:induction false} FindByIdSetBalance(ps: seq<Privilege>, id: int, b: Option<int>, x: int)
    ensures FindById(SetBalance(ps, id, b), x) ==
      if x == id && FindById(ps, x).Some? then Some(FindById(ps, x).value.(balance := b)) else FindById(ps, x)
  {
    if ps != [] {
      FindByIdSetBalance(ps[1..], id, b, x);
    }
  }

  lemma {:induction false} FirstWithUidAppend(hs: seq<HistoryRow>, h: HistoryRow, uid: string)
    requires !HasUid(hs, uid) && h.ticketUid == uid
    ensures FirstWithUid(hs + [h], uid) == Some(h)
  {
    if hs != [] {
      assert (hs + [h])[1..] == hs[1..] + [h];
      assert hs[0].ticketUid != uid;
      assert !HasUid(hs[1..], uid) by {
        forall i | 0 <= i < |hs[1..]| ensures hs[1..][i].ticketUid != uid {
          assert hs[1..][i] == hs[i + 1];
        }
      }
      FirstWithUidAppend(hs[1..], h, uid);
    }
  }

  // ----- GET /privilege -----

  /** A known user's request changes nothing and reports that user's row: a
      NULL balance as 0, and exactly the history rows of the row. */
  lemma GetReportsUserRow(t: Tables, p: Privilege)
    requires Valid(t)
    requires p in t.privileges
    ensures GetSpec(t, p.username).1 == t
    ensures GetSpec(t, p.username).0.Ok?
    ensures
      var r := GetSpec(t, p.username).0.value;
      && r.balance == (if p.balance.None? then 0 else p.balance.value)
      && r.status == p.status
      && r.history == HistoryOf(t.history, p.id)
  {
    FindByUsernameUnique(t.privileges, p);
  }

  /** An unknown user gets a fresh row with balance 0 and status BRONZE, and an
      empty history; nothing else changes. */
  lemma GetCreatesUnknownUser(t: Tables, user: string)
    requires Valid(t)
    requires forall q :: q in t.privileges ==> q.username != user
    requires |user| <= 80
    ensures GetSpec(t, user) == (Ok(PrivilegeResponse(0, Bronze, [])),
      t.(privileges := t.privileges + [Privilege(t.nextPrivilegeId, user, Bronze, Some(0))],
         nextPrivilegeId := t.nextPrivilegeId + 1))
  {
    FindByUsernameExact(t.privileges, user);
    forall h | h in t.history ensures h.privilegeId != t.nextPrivilegeId {
      var k :| 0 <= k < |t.history| && t.history[k] == h;
      FindByIdExact(t.privileges, h.privilegeId);
      var q := FindById(t.privileges, h.privilegeId).value;
      var j :| 0 <= j < |t.privileges| && t.privileges[j] == q;
    }
    HistoryOfNone(t.history, t.nextPrivilegeId);
  }

  lemma GetKeepsValid(t: Tables, user: string)
    requires Valid(t)
    ensures Valid(GetSpec(t, user).1)
  {
    var name := Clip(user, 80);
    FindByUsernameExact(t.privileges, name);
    if FindByUsername(t.privileges, user).None? && FitsVarchar(user, 80) && FindByUsername(t.privileges, name).None? {
      var q := Privilege(t.nextPrivilegeId, name, Bronze, Some(0));
      var ps := t.privileges + [q];
      forall x | FindById(t.privileges, x).Some? ensures FindById(ps, x).Some? {
        FindByIdAppend(t.privileges, q, x);
      }
      forall i, j | 0 <= i < j < |ps| ensures ps[i].username != ps[j].username {
        if j == |ps| - 1 {
          assert ps[i] in t.privileges;
        }
      }
    }
  }

  /** Reading twice is reading once for a name the column stores unchanged:
      the second request finds the row the first one created and gives the
      same answer. */
  lemma GetTwiceIsGetOnce(t: Tables, user: string)
    requires Valid(t)
    requires GetSpec(t, user).0.Ok? && |user| <= 80
    ensures GetSpec(GetSpec(t, user).1, user) == GetSpec(t, user)
  {
    if FindByUsername(t.privileges, user).None? {
      var q := Privilege(t.nextPrivilegeId, user, Bronze, Some(0));
      FindByUsernameAppend(t.privileges, q, user);
    }
  }

  /** A name longer than 80 characters that ends in spaces is stored cut, so
      the second request does not find the row the first one created by the
      full name, and its INSERT of the cut name then breaks the UNIQUE
      constraint: 500. */
  lemma GetPaddedNameTwiceFails(t: Tables, user: string)
    requires Valid(t)
    requires FindByUsername(t.privileges, user).None? && GetSpec(t, user).0.Ok? && |user| > 80
    ensures GetSpec(GetSpec(t, user).1, user).0 == Err(500)
  {
    var name := Clip(user, 80);
    var q := Privilege(t.nextPrivilegeId, name, Bronze, Some(0));
    FindByUsernameAppend(t.privileges, q, user);
    FindByUsernameAppend(t.privileges, q, name);
  }

  // ----- POST /privilege -----

  /** A request for a user without a row fails and writes nothing. */
  lemma PushUnknownUserFails(t: Tables, body: PushPrivilegeRequest, user: string, now: int)
    requires forall q :: q in t.privileges ==> q.username != user
    ensures PushSpec(t, body, user, now) == (Err(500), t)
  {
    FindByUsernameExact(t.privileges, user);
  }

  /** A purchase paid in money credits a tenth of the price, truncated, and
      logs one history row carrying that diff; other rows keep their balances. */
  lemma PushFillAddsTenth(t: Tables, p: Privilege, price: int, uid: string, now: int)
    requires Valid(t)
    requires p in t.privileges && p.balance.Some?
    requires InInt32(p.balance.value + FillDiff(price))
    requires 0 <= price < 0x8000_0000
    ensures
      var (r, t') := PushSpec(t, PushPrivilegeRequest(FillInBalance, price, uid), p.username, now);
      && r.Ok?
      && t'.history == t.history + [HistoryRow(t.nextHistoryId, p.id, uid, now, FillDiff(price), FillInBalance)]
      && t'.nextHistoryId == t.nextHistoryId + 1
      && forall x :: FindById(t'.privileges, x) ==
           if x == p.id then Some(p.(balance := Some(p.balance.value + FillDiff(price)))) else FindById(t.privileges, x)
  {
    FindByUsernameUnique(t.privileges, p);
    FindByIdUnique(t.privileges, p);
    forall x {
      FindByIdSetBalance(t.privileges, p.id, Some(p.balance.value + FillDiff(price)), x);
    }
  }

  /** A purchase paid from the balance takes `min(balance, price)`: a
      non-negative balance becomes `max(0, balance - price)`, never negative. */
  lemma PushDebitNeverOverdraws(t: Tables, p: Privilege, price: int, uid: string, now: int)
    requires Valid(t)
    requires p in t.privileges && p.balance.Some? && p.balance.value >= 0
    requires price >= 0
    ensures
      var (r, t') := PushSpec(t, PushPrivilegeRequest(DebitTheAccount, price, uid), p.username, now);
      && r.Ok?
      && t'.history == t.history + [HistoryRow(t.nextHistoryId, p.id, uid, now, -Min(p.balance.value, price), DebitTheAccount)]
      && FindById(t'.privileges, p.id) == Some(p.(balance := Some(Max(0, p.balance.value - price))))
      && Max(0, p.balance.value - price) >= 0
  {
    FindByUsernameUnique(t.privileges, p);
    FindByIdUnique(t.privileges, p);
    var k :| 0 <= k < |t.privileges| && t.privileges[k] == p;
    assert InInt32(p.balance.value);
    FindByIdSetBalance(t.privileges, p.id, Some(p.balance.value + DebitDiff(p.balance.value, price)), p.id);
  }

  lemma AppendHistoryKeepsValid(t: Tables, row: HistoryRow)
    requires Valid(t)
    requires row.id == t.nextHistoryId && FindById(t.privileges, row.privilegeId).Some?
    ensures Valid(t.(history := t.history + [row], nextHistoryId := t.nextHistoryId + 1))
  {
  }

  lemma SetBalanceKeepsValid(t: Tables, id: int, b: int)
    requires Valid(t) && InInt32(b)
    ensures Valid(t.(privileges := SetBalance(t.privileges, id, Some(b))))
  {
    SetBalanceKeepsKeys(t.privileges, id, Some(b));
    SetBalanceShape(t.privileges, id, Some(b));
  }

  lemma PushKeepsValid(t: Tables, body: PushPrivilegeRequest, user: string, now: int)
    requires Valid(t)
    ensures Valid(PushSpec(t, body, user, now).1)
  {
    var r := PushSpec(t, body, user, now).1;
    match FindByUsername(t.privileges, user)
    case None =>
      assert r == t;
    case Some(p) =>
      assert p in t.privileges by {
        FindByUsernameExact(t.privileges, user);
      }
      var diff := match body.operationType
        case FillInBalance => Some(FillDiff(body.price))
        case DebitTheAccount => if p.balance.None? then None else Some(DebitDiff(p.balance.value, body.price));
      if diff.None? {
        assert r == t;
      } else {
        var d := diff.value;
        if !InInt32(d) {
          assert r == t;
        } else {
          var row := HistoryRow(t.nextHistoryId, p.id, body.ticketUid, now, d, body.operationType);
          var t2 := t.(history := t.history + [row], nextHistoryId := t.nextHistoryId + 1);
          PushRowKeepsValid(t, p, row);
          if p.balance.Some? && InInt32(p.balance.value + d) {
            assert r == t2.(privileges := SetBalance(t.privileges, p.id, Some(p.balance.value + d)));
          } else {
            assert r == t2;
          }
        }
      }
  }

  /** Appending a history row of an existing privilege, then optionally
      setting that privilege's balance to a value the column holds, keeps the
      tables' constraints. */
  lemma PushRowKeepsValid(t: Tables, p: Privilege, row: HistoryRow)
    requires Valid(t) && p in t.privileges
    requires row.id == t.nextHistoryId && row.privilegeId == p.id
    ensures var t2 := t.(history := t.history + [row], nextHistoryId := t.nextHistoryId + 1);
      && Valid(t2)
      && forall b :: InInt32(b) ==> Valid(t2.(privileges := SetBalance(t.privileges, p.id, Some(b))))
  {
    var t2 := t.(history := t.history + [row], nextHistoryId := t.nextHistoryId + 1);
    assert Valid(t2) by {
      FindByIdUnique(t.privileges, p);
      AppendHistoryKeepsValid(t, row);
    }
    forall b | InInt32(b) ensures Valid(t2.(privileges := SetBalance(t.privileges, p.id, Some(b)))) {
      SetBalanceKeepsValid(t2, p.id, b);
    }
  }

  /** The tables after a successful request for a row with a balance. */
  lemma PushOkShape(t: Tables, p: Privilege, body: PushPrivilegeRequest, now: int)
    requires Valid(t)
    requires p in t.privileges && p.balance.Some?
    requires PushSpec(t, body, p.username, now).0.Ok?
    ensures
      var b := p.balance.value;
      var d := if body.operationType == FillInBalance then FillDiff(body.price) else DebitDiff(b, body.price);
      PushSpec(t, body, p.username, now).1 ==
        Tables(SetBalance(t.privileges, p.id, Some(b + d)),
               t.history + [HistoryRow(t.nextHistoryId, p.id, body.ticketUid, now, d, body.operationType)],
               t.nextPrivilegeId, t.nextHistoryId + 1)
  {
    FindByUsernameUnique(t.privileges, p);
  }

  // ----- DELETE /privilege/{ticketUid} -----

  /** A uid without history rows gets 404 and writes nothing. */
  lemma DropUnknownUidFails(t: Tables, uid: string)
    requires !HasUid(t.history, uid)
    ensures DropSpec(t, uid) == (Err(404), t)
  {
    FirstWithUidExact(t.history, uid);
  }

  /** Dropping deletes every history row of the uid, so dropping it again is a 404. */
  lemma DropRemovesEveryRow(t: Tables, uid: string)
    requires Valid(t)
    requires HasUid(t.history, uid)
    ensures !HasUid(DropSpec(t, uid).1.history, uid)
    ensures DropSpec(DropSpec(t, uid).1, uid) == (Err(404), DropSpec(t, uid).1)
  {
    FirstWithUidExact(t.history, uid);
    var h := FirstWithUid(t.history, uid).value;
    var k :| 0 <= k < |t.history| && t.history[k] == h;
    assert FindById(t.privileges, h.privilegeId).Some?;
    var hs := WithoutUid(t.history, uid);
    WithoutUidExact(t.history, uid);
    assert !HasUid(hs, uid) by {
      forall i | 0 <= i < |hs| ensures hs[i].ticketUid != uid {
        assert hs[i] in hs;
      }
    }
    DropUnknownUidFails(DropSpec(t, uid).1, uid);
  }

  /** The compensation round trip: for a non-negative balance, a purchase
      logged under a new uid and then dropped leaves both tables exactly as
      they were (only the history id sequence has advanced). */
  lemma PushThenDropRestores(t: Tables, p: Privilege, body: PushPrivilegeRequest, now: int)
    requires Valid(t)
    requires p in t.privileges && p.balance.Some? && p.balance.value >= 0
    requires body.price >= 0
    requires !HasUid(t.history, body.ticketUid)
    requires PushSpec(t, body, p.username, now).0.Ok?
    ensures
      var t2 := PushSpec(t, body, p.username, now).1;
      DropSpec(t2, body.ticketUid) == (Ok(()), t.(nextHistoryId := t.nextHistoryId + 1))
  {
    var b := p.balance.value;
    var d := if body.operationType == FillInBalance then FillDiff(body.price) else DebitDiff(b, body.price);
    var row := HistoryRow(t.nextHistoryId, p.id, body.ticketUid, now, d, body.operationType);
    PushOkShape(t, p, body, now);
    DiffUndone(b, d, body.operationType == FillInBalance, body.price);
    DropUndoesRow(t, p, row, b + d);
  }

  /** Dropping the one row of a new uid undoes it when the drop restores the
      privilege's balance. */
  lemma DropUndoesRow(t: Tables, p: Privilege, row: HistoryRow, x: int)
    requires Valid(t)
    requires p in t.privileges && p.balance.Some? && row.privilegeId == p.id
    requires !HasUid(t.history, row.ticketUid)
    requires x - Min(x, row.balanceDiff) == p.balance.value
    ensures
      DropSpec(Tables(SetBalance(t.privileges, p.id, Some(x)), t.history + [row], t.nextPrivilegeId, t.nextHistoryId + 1), row.ticketUid) ==
        (Ok(()), t.(nextHistoryId := t.nextHistoryId + 1))
  {
    var t2 := t.(privileges := SetBalance(t.privileges, p.id, Some(x)), history := t.history + [row], nextHistoryId := t.nextHistoryId + 1);
    assert Tables(SetBalance(t.privileges, p.id, Some(x)), t.history + [row], t.nextPrivilegeId, t.nextHistoryId + 1) == t2;
    assert InInt32(p.balance.value) by {
      var k :| 0 <= k < |t.privileges| && t.privileges[k] == p;
    }
    assert DropSpec(t2, row.ticketUid) ==
      (Ok(()), t.(privileges := SetBalance(t.privileges, p.id, p.balance), nextHistoryId := t.nextHistoryId + 1)) by {
      DropFreshRow(t, p, row, x);
    }
    assert SetBalance(t.privileges, p.id, p.balance) == t.privileges by {
      SetBalanceSame(t.privileges, p);
    }
  }

  /** Dropping a diff earned or spent against a non-negative balance gives the balance back. */
  lemma DiffUndone(b: int, d: int, fill: bool, price: int)
    requires b >= 0 && price >= 0
    requires d == if fill then FillDiff(price) else DebitDiff(b, price)
    ensures b + d - Min(b + d, d) == b
  {
  }

  /** Dropping the one row of a new uid whose privilege now holds `x`. */
  lemma DropFreshRow(t: Tables, p: Privilege, row: HistoryRow, x: int)
    requires Valid(t)
    requires p in t.privileges && row.privilegeId == p.id
    requires !HasUid(t.history, row.ticketUid)
    requires InInt32(x - Min(x, row.balanceDiff))
    ensures
      var t2 := t.(privileges := SetBalance(t.privileges, p.id, Some(x)), history := t.history + [row], nextHistoryId := t.nextHistoryId + 1);
      DropSpec(t2, row.ticketUid) ==
        (Ok(()), t.(privileges := SetBalance(t.privileges, p.id, Some(x - Min(x, row.balanceDiff))), nextHistoryId := t.nextHistoryId + 1))
  {
    var ps2 := SetBalance(t.privileges, p.id, Some(x));
    FirstWithUidAppend(t.history, row, row.ticketUid);
    WithoutUidAppend(t.history, row, row.ticketUid);
    FindByIdUnique(t.privileges, p);
    FindByIdSetBalance(t.privileges, p.id, Some(x), p.id);
    assert FindById(ps2, p.id) == Some(p.(balance := Some(x)));
    SetBalanceTwice(t.privileges, p.id, Some(x), Some(x - Min(x, row.balanceDiff)));
  }

  lemma DropKeepsValid(t: Tables, uid: string)
    requires Valid(t)
    ensures Valid(DropSpec(t, uid).1)
  {
    var hs := WithoutUid(t.history, uid);
    assert Valid(t.(history := hs)) by {
      WithoutUidExact(t.history, uid);
      WithoutUidOrdered(t.history, uid);
      forall i | 0 <= i < |hs| ensures hs[i].id < t.nextHistoryId && FindById(t.privileges, hs[i].privilegeId).Some? {
        assert hs[i] in t.history;
        var k :| 0 <= k < |t.history| && t.history[k] == hs[i];
      }
    }
    match FirstWithUid(t.history, uid)
    case None =>
    case Some(h) =>
      match FindById(t.privileges, h.privilegeId)
      case None =>
      case Some(p) =>
        if p.balance.Some? {
          var nb := p.balance.value - Min(p.balance.value, h.balanceDiff);
          if InInt32(nb) {
            SetBalanceKeepsValid(t.(history := hs), p.id, nb);
          }
        }
  }

  // ----- the service over its tables -----

  class Ledger {
    var privileges: seq<Privilege>
    var history: seq<HistoryRow>
    var nextPrivilegeId: int
    var nextHistoryId: int

    ghost function Model(): Tables
      reads this
    {
      Tables(privileges, history, nextPrivilegeId, nextHistoryId)
    }

    constructor ()
      ensures Model() == Tables([], [], 1, 1) && Valid(Model())
    {
      privileges, history := [], [];
      nextPrivilegeId, nextHistoryId := 1, 1;
    }

    /** `GET /privilege`; the history list is built row by row. */
    method GetUserPrivilege(userName: string) returns (r: Result<PrivilegeResponse, int>)
      requires Valid(Model())
      modifies this
      ensures (r, Model()) == GetSpec(old(Model()), userName)
      ensures Valid(Model())
    {
      GetKeepsValid(Model(), userName);
      var p: Privilege;
      match FindByUsername(privileges, userName) {
        case Some(q) =>
          p := q;
        case None =>
          if !FitsVarchar(userName, 80) {
            return Err(500);
          }
          var name := Clip(userName, 80);
          var id := nextPrivilegeId;
          nextPrivilegeId := nextPrivilegeId + 1;
          if FindByUsername(privileges, name).Some? {
            return Err(500);
          }
          p := Privilege(id, name, Bronze, Some(0));
          privileges := privileges + [p];
      }
      var balance := if p.balance.None? then 0 else p.balance.value;
      var items := HistoryFor(p.id);
      assert balance == p.balance.GetOr(0);
      r := Ok(PrivilegeResponse(balance, p.status, items));
      assert r == Ok(Respond(history, p));
    }

    /** The loop of `get_user_privilege` over the privilege's history rows. */
    method HistoryFor(privilegeId: int) returns (items: seq<HistoryItem>)
      ensures items == HistoryOf(history, privilegeId)
    {
      items := [];
      var i := 0;
      while i < |history|
        invariant 0 <= i <= |history|
        invariant items + HistoryOf(history[i..], privilegeId) == HistoryOf(history, privilegeId)
      {
        HistoryOfStep(history, privilegeId, i);
        var h := history[i];
        if h.privilegeId == privilegeId {
          var item := HistoryItem(h.datetime, h.ticketUid, h.balanceDiff, h.operationType);
          assert items + [item] + HistoryOf(history[i + 1..], privilegeId) == items + ([item] + HistoryOf(history[i + 1..], privilegeId));
          items := items + [item];
        } else {
          assert [] + HistoryOf(history[i + 1..], privilegeId) == HistoryOf(history[i + 1..], privilegeId);
        }
        i := i + 1;
      }
      assert history[i..] == [];
      assert items + [] == items;
    }

    /** `POST /privilege`; `now` is the database's `CURRENT_TIMESTAMP`. */
    method PushPrivilege(body: PushPrivilegeRequest, userName: string, now: int) returns (r: Result<(), int>)
      requires Valid(Model())
      modifies this
      ensures (r, Model()) == PushSpec(old(Model()), body, userName, now)
      ensures Valid(Model())
    {
      PushKeepsValid(Model(), body, userName, now);
      var found := FindByUsername(privileges, userName);
      if found.None? {
        return Err(500);
      }
      var p := found.value;
      var diff: int;
      if body.operationType == FillInBalance {
        diff := FillDiff(body.price);
      } else {
        if p.balance.None? {
          return Err(500);
        }
        diff := DebitDiff(p.balance.value, body.price);
      }
      if !InInt32(diff) {
        return Err(500);
      }
      var historyId := nextHistoryId;
      nextHistoryId := nextHistoryId + 1;
      history := history + [HistoryRow(historyId, p.id, body.ticketUid, now, diff, body.operationType)];
      if p.balance.Some? {
        if !InInt32(p.balance.value + diff) {
          return Err(500);
        }
        privileges := SetBalance(privileges, p.id, Some(p.balance.value + diff));
      }
      return Ok(());
    }

    /** `DELETE /privilege/{ticketUid}`. */
    method DropPrivilege(ticketUid: string) returns (r: Result<(), int>)
      requires Valid(Model())
      modifies this
      ensures (r, Model()) == DropSpec(old(Model()), ticketUid)
      ensures Valid(Model())
    {
      DropKeepsValid(Model(), ticketUid);
      var found := FirstWithUid(history, ticketUid);
      if found.None? {
        return Err(404);
      }
      var h := found.value;
      var owner := FindById(privileges, h.privilegeId);
      if owner.None? {
        return Err(500);
      }
      var p := owner.value;
      history := WithoutUid(history, ticketUid);
      if p.balance.None? {
        return Err(500);
      }
      var balance := p.balance.value;
      if !InInt32(balance - Min(balance, h.balanceDiff)) {
        return Err(500);
      }
      privileges := SetBalance(privileges, p.id, Some(balance - Min(balance, h.balanceDiff)));
      return Ok(());
    }
  }
}

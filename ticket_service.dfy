/** The ticket service: one `ticket` table, kept in `id` order (`id` is a
    SERIAL primary key, so rows are appended with increasing ids). A ticket's
    status column only admits PAID and CANCELED, which `TicketStatus` encodes. */
module TicketService {
  import opened Common

  datatype TicketStatus = Paid | Canceled

  datatype Ticket = Ticket(ticketId: int, ticketUid: string, username: string, flightNumber: string, price: int, status: TicketStatus)

  /** The body of `POST /ticket`. */
  datatype TicketCreation = TicketCreation(flightNumber: string, price: int, paidFromBalance: bool)

  datatype CreationResponse = CreationResponse(ticketUid: string, flightNumber: string, status: TicketStatus, price: int)

  /** The table's constraints: ids increase along the table and stay below the
      sequence's next value, and `ticket_uid` is UNIQUE. */
  ghost predicate WellFormed(rows: seq<Ticket>, nextId: int) {
    && (forall i, j :: 0 <= i < j < |rows| ==> rows[i].ticketId < rows[j].ticketId)
    && (forall i :: 0 <= i < |rows| ==> rows[i].ticketId < nextId)
    && (forall i, j :: 0 <= i < j < |rows| ==> rows[i].ticketUid != rows[j].ticketUid)
  }

  predicate UidTaken(rows: seq<Ticket>, uid: string) {
    exists i :: 0 <= i < |rows| && rows[i].ticketUid == uid
  }

  /** The column types `VARCHAR(80)`, `VARCHAR(20)` and the 32-bit `INT`: a
      longer string with anything but spaces past the limit, or an
      out-of-range price, makes the INSERT fail. */
  predicate FitsColumns(userName: string, flightNumber: string, price: int) {
    FitsVarchar(userName, 80) && FitsVarchar(flightNumber, 20) && InInt32(price)
  }

  /** `UPDATE ticket SET status='CANCELED' WHERE ticket_uid=uid`. */
  function Revoke(rows: seq<Ticket>, uid: string): seq<Ticket> {
    if rows == [] then []
    else [if rows[0].ticketUid == uid then rows[0].(status := Canceled) else rows[0]] + Revoke(rows[1..], uid)
  }

  /** `SELECT ... WHERE username=user ORDER BY id`: the user's rows in table order. */
  function UserTickets(rows: seq<Ticket>, user: string): seq<Ticket> {
    if rows == [] then []
    else (if rows[0].username == user then [rows[0]] else []) + UserTickets(rows[1..], user)
  }

  lemma UserTicketsStep(rows: seq<Ticket>, user: string, i: nat)
    requires i < |rows|
    ensures UserTickets(rows[i..], user) == (if rows[i].username == user then [rows[i]] else []) + UserTickets(rows[i + 1..], user)
  {
    assert rows[i..][1..] == rows[i + 1..];
  }

  /** `SELECT ... WHERE ticket_uid=uid ORDER BY id` then `fetchone()`: the first row with that uid. */
  function FirstWithUid(rows: seq<Ticket>, uid: string): Option<Ticket> {
    if rows == [] then None
    else if rows[0].ticketUid == uid then Some(rows[0])
    else FirstWithUid(rows[1..], uid)
  }

  /** Revoking cancels exactly the rows carrying `uid` and changes nothing else:
      every other field of those rows, and every other row, stays as it was. */
  lemma {:induction false} RevokeCancelsOnlyUid(rows: seq<Ticket>, uid: string)
    ensures |Revoke(rows, uid)| == |rows|
    ensures forall i :: 0 <= i < |rows| ==>
      Revoke(rows, uid)[i] == (if rows[i].ticketUid == uid then rows[i].(status := Canceled) else rows[i])
  {
    if rows != [] {
      RevokeCancelsOnlyUid(rows[1..], uid);
      forall i | 0 <= i < |rows|
        ensures Revoke(rows, uid)[i] == (if rows[i].ticketUid == uid then rows[i].(status := Canceled) else rows[i])
      {
        if i > 0 {
          assert Revoke(rows, uid)[i] == Revoke(rows[1..], uid)[i - 1];
        }
      }
    }
  }

  /** Revoking twice leaves the same table as revoking once. */
  lemma {:induction false} RevokeIdempotent(rows: seq<Ticket>, uid: string)
    ensures Revoke(Revoke(rows, uid), uid) == Revoke(rows, uid)
  {
    if rows != [] {
      RevokeIdempotent(rows[1..], uid);
      var head := if rows[0].ticketUid == uid then rows[0].(status := Canceled) else rows[0];
      assert Revoke(rows, uid) == [head] + Revoke(rows[1..], uid);
      assert Revoke(rows, uid)[1..] == Revoke(rows[1..], uid);
    }
  }

  /** Revoking keeps the table's constraints. */
  lemma RevokeKeepsWellFormed(rows: seq<Ticket>, uid: string, nextId: int)
    requires WellFormed(rows, nextId)
    ensures WellFormed(Revoke(rows, uid), nextId)
  {
    RevokeCancelsOnlyUid(rows, uid);
  }

  /** The listing holds exactly the user's tickets, in increasing id order. */
  lemma UserTicketsExact(rows: seq<Ticket>, user: string, nextId: int)
    requires WellFormed(rows, nextId)
    ensures forall t :: t in UserTickets(rows, user) <==> t in rows && t.username == user
    ensures forall i, j :: 0 <= i < j < |UserTickets(rows, user)| ==>
      UserTickets(rows, user)[i].ticketId < UserTickets(rows, user)[j].ticketId
  {
    UserTicketsMembers(rows, user);
    UserTicketsOrdered(rows, user, nextId);
  }

  lemma {:induction false} UserTicketsMembers(rows: seq<Ticket>, user: string)
    ensures forall t :: t in UserTickets(rows, user) <==> t in rows && t.username == user
  {
    if rows != [] {
      UserTicketsMembers(rows[1..], user);
      assert rows == [rows[0]] + rows[1..];
    }
  }

  lemma {:induction false} UserTicketsOrdered(rows: seq<Ticket>, user: string, nextId: int)
    requires WellFormed(rows, nextId)
    ensures forall i, j :: 0 <= i < j < |UserTickets(rows, user)| ==>
      UserTickets(rows, user)[i].ticketId < UserTickets(rows, user)[j].ticketId
  {
    if rows != [] {
      var tail := rows[1..];
      WellFormedTail(rows, nextId);
      UserTicketsOrdered(tail, user, nextId);
      UserTicketsMembers(tail, user);
      var rest := UserTickets(tail, user);
      forall t | t in rest ensures rows[0].ticketId < t.ticketId {
        var k :| 0 <= k < |tail| && tail[k] == t;
        assert tail[k] == rows[k + 1];
      }
    }
  }

  lemma WellFormedTail(rows: seq<Ticket>, nextId: int)
    requires rows != [] && WellFormed(rows, nextId)
    ensures WellFormed(rows[1..], nextId)
  {
    var tail := rows[1..];
    forall i, j | 0 <= i < j < |tail| ensures tail[i].ticketId < tail[j].ticketId && tail[i].ticketUid != tail[j].ticketUid {
      assert tail[i] == rows[i + 1] && tail[j] == rows[j + 1];
    }
  }

  /** `fetchone()` finds a row exactly when the uid is in the table, and the row carries that uid. */
  lemma {:induction false} FirstWithUidFinds(rows: seq<Ticket>, uid: string)
    ensures FirstWithUid(rows, uid).Some? <==> UidTaken(rows, uid)
    ensures FirstWithUid(rows, uid).Some? ==>
      FirstWithUid(rows, uid).value in rows && FirstWithUid(rows, uid).value.ticketUid == uid
  {
    if rows != [] {
      FirstWithUidFinds(rows[1..], uid);
      if rows[0].ticketUid != uid && UidTaken(rows, uid) {
        var i :| 0 <= i < |rows| && rows[i].ticketUid == uid;
        assert rows[1..][i - 1] == rows[i];
      }
      if UidTaken(rows[1..], uid) {
        var i :| 0 <= i < |rows[1..]| && rows[1..][i].ticketUid == uid;
        assert rows[i + 1].ticketUid == uid;
      }
    }
  }

  class TicketTable {
    var rows: seq<Ticket>
    /** The next value of the `id` SERIAL sequence. */
    var nextId: int

    ghost predicate Valid()
      reads this
    {
      WellFormed(rows, nextId)
    }

    constructor ()
      ensures Valid() && rows == [] && nextId == 1
    {
      rows := [];
      nextId := 1;
    }

    /** `POST /ticket`: `uid` is the value `uuid4()` drew. A value that does not
        fit its column fails while the INSERT is planned, before an id is drawn;
        a uid already in the table fails on the UNIQUE constraint after the id
        was drawn. Either failure surfaces as a 500. The strings are stored cut
        to their column widths, while the response echoes the request. */
    method PostTicket(body: TicketCreation, userName: string, uid: string) returns (r: Result<CreationResponse, int>)
      requires Valid()
      modifies this
      ensures Valid()
      ensures r.Ok? <==> FitsColumns(userName, body.flightNumber, body.price) && !UidTaken(old(rows), uid)
      ensures r.Ok? ==>
        && rows == old(rows) + [Ticket(old(nextId), uid, Clip(userName, 80), Clip(body.flightNumber, 20), body.price, Paid)]
        && nextId == old(nextId) + 1
        && r.value == CreationResponse(uid, body.flightNumber, Paid, body.price)
      ensures r.Err? ==> r.error == 500 && rows == old(rows)
      ensures !FitsColumns(userName, body.flightNumber, body.price) ==> nextId == old(nextId)
      ensures FitsColumns(userName, body.flightNumber, body.price) ==> nextId == old(nextId) + 1
    {
      if !FitsColumns(userName, body.flightNumber, body.price) {
        return Err(500);
      }
      var id := nextId;
      nextId := nextId + 1;
      if UidTaken(rows, uid) {
        return Err(500);
      }
      rows := rows + [Ticket(id, uid, Clip(userName, 80), Clip(body.flightNumber, 20), body.price, Paid)];
      return Ok(CreationResponse(uid, body.flightNumber, Paid, body.price));
    }

    /** `DELETE /tickets/{ticketUid}`: answers `{}` whether or not the uid exists. */
    method RevokeTicketByUid(uid: string) returns (response: map<string, string>)
      requires Valid()
      modifies this
      ensures Valid()
      ensures rows == Revoke(old(rows), uid) && nextId == old(nextId)
      ensures response == map[]
    {
      RevokeKeepsWellFormed(rows, uid, nextId);
      rows := Revoke(rows, uid);
      return map[];
    }

    /** `GET /tickets`: the caller's tickets, appended row by row in id order. */
    method GetTickets(userName: string) returns (ret: seq<Ticket>)
      requires Valid()
      ensures ret == UserTickets(rows, userName)
      ensures forall t :: t in ret <==> t in rows && t.username == userName
      ensures forall i, j :: 0 <= i < j < |ret| ==> ret[i].ticketId < ret[j].ticketId
    {
      ret := [];
      var i := 0;
      while i < |rows|
        invariant 0 <= i <= |rows|
        invariant ret + UserTickets(rows[i..], userName) == UserTickets(rows, userName)
      {
        UserTicketsStep(rows, userName, i);
        if rows[i].username == userName {
          assert ret + [rows[i]] + UserTickets(rows[i + 1..], userName) == ret + ([rows[i]] + UserTickets(rows[i + 1..], userName));
          ret := ret + [rows[i]];
        } else {
          assert [] + UserTickets(rows[i + 1..], userName) == UserTickets(rows[i + 1..], userName);
        }
        i := i + 1;
      }
      assert rows[i..] == [];
      assert ret + [] == ret;
      UserTicketsExact(rows, userName, nextId);
    }

    /** `GET /tickets/{ticketUid}`: unpacking the `None` of an unknown uid raises, a 500. */
    method GetTicketByUid(uid: string) returns (r: Result<Ticket, int>)
      requires Valid()
      ensures r.Ok? <==> UidTaken(rows, uid)
      ensures r.Ok? ==> r.value in rows && r.value.ticketUid == uid
      ensures r.Err? ==> r.error == 500
    {
      FirstWithUidFinds(rows, uid);
      match FirstWithUid(rows, uid)
      case None => return Err(500);
      case Some(t) => return Ok(t);
    }
  }
}

/** The API gateway's request handlers: every backend request runs inside a
    `with cb.guard(service):` block of the one global circuit breaker, failed
    compensations are queued on the global `retry_coros` list, and the ticket
    purchase is a fixed sequence of guarded requests.

    Backends are oracles: each guarded request is given as an `Exchange` (the
    clock reading at the guard, the seconds the block lasts, and what the
    backend answered). The gateway's state is a `World`: the breaker's store,
    the queued retries, and a log of the guard entries in order. The handlers
    are defined as functions on a `World`; the `Gateway` class below runs them
    on its fields and is proved to agree with them. */
module Gateway {
  import opened Common
  import opened PyValues
  import opened CircuitBreakers

  // ---------------------------------------------------------------------------
  // Backends, faults and the gateway's state
  // ---------------------------------------------------------------------------

  /** What one request got back: nothing (the connection failed), or a status
      and a body that did or did not decode as JSON. */
  datatype Reply = Unreachable | Answered(status: int, body: Option<Value>)

  /** One guarded request as the gateway lives it: the whole-second clock
      reading when the guard is entered, the whole seconds the guarded block
      lasts, and the reply. */
  datatype Exchange = Exchange(now: int, elapsed: nat, reply: Reply)

  /** The backend requests the gateway sends (paths relative to each
      service's base URL). */
  datatype Call =
    | FlightByNumber(number: Value)                // GET  flight /flight/{number}
    | FlightList(url: string)                      // GET  flight {url}
    | TicketList(user: string)                     // GET  ticket /tickets
    | TicketCreate(user: string, order: seq<(string, Value)>)  // POST ticket /ticket
    | TicketDelete(uid: Value)                     // DELETE ticket /ticket/{uid}
    | PrivilegeRead(user: string)                  // GET  bonus /privilege
    | PrivilegePush(user: string, operation: string, price: Value, ticketUid: Value)  // POST bonus /privilege
    | PrivilegeDrop(uid: Value)                    // DELETE bonus /privilege/{uid}

  /** One guard entry: the request it guards and whether the circuit let it through. */
  datatype Attempt = Attempt(call: Call, admitted: bool)

  /** An exception leaving a handler; aiohttp answers each with a 500. */
  datatype Fault =
    | Unavailable(service: string)  // the guard's error for an open circuit
    | InternalServerError           // raised by the purchase on a bonus-post status of 500 or more
    | TransportError                // the request itself failed
    | DecodeError                   // `resp.json()` on a body that is not JSON
    | Python(exc: PyException)

  /** A handler's answer: a response with a status and an optional JSON body, or an exception. */
  datatype Outcome = Respond(status: int, body: Option<Value>) | Raised(fault: Fault)

  /** A task on `retry_coros`: after its delay it calls the same revocation with the same uid. */
  datatype RetryTask = RetryRevokeBonus(uid: Value) | RetryRevokeTicket(uid: Value)

  datatype World = World(store: Store, retries: seq<RetryTask>, log: seq<Attempt>)

  /** How the code inside a guarded block ends: normally with a value, or by raising. */
  datatype Inner<T> = Done(value: T) | Threw(fault: Fault)

  /** The two halves of the breaker's guard: `__enter__` (whether the call may
      run, and the store `get_state` leaves) and `__exit__` (the observation of
      the elapsed seconds and of whether the block raised). */
  datatype Breaker = Breaker(enter: (Store, string, int) -> (bool, Store), exit: (Store, string, nat, bool) -> Store)

  /** The gateway's breaker: `CircuitBreaker` with configuration `cfg`. */
  function BreakerOf(cfg: Config): Breaker {
    Breaker((st: Store, s: string, now: int) => EnterSpec(cfg, st, s, now),
            (st: Store, s: string, elapsed: nat, ok: bool) => ObserveSpec(st, s, elapsed, ok))
  }

  /** A whole `with cb.guard(service):` block around `call`, whose body raises
      when `raised`: whether the circuit admitted the call, and the new world.
      A refused call is logged too, as not admitted. */
  function Guarded(b: Breaker, w: World, service: string, call: Call, ex: Exchange, raised: bool): (r: (bool, World))
    ensures r.0 == b.enter(w.store, service, ex.now).0
    ensures r.1.log == w.log + [Attempt(call, r.0)] && r.1.retries == w.retries
    ensures r.1.store == if r.0 then b.exit(b.enter(w.store, service, ex.now).1, service, ex.elapsed, !raised)
                         else b.enter(w.store, service, ex.now).1
  {
    var (admitted, st) := b.enter(w.store, service, ex.now);
    var st' := if admitted then b.exit(st, service, ex.elapsed, !raised) else st;
    (admitted, World(st', w.retries, w.log + [Attempt(call, admitted)]))
  }

  /** `await resp.json()` on the reply. */
  function Json(reply: Reply): Inner<Value> {
    match reply
    case Unreachable => Threw(TransportError)
    case Answered(_, None) => Threw(DecodeError)
    case Answered(_, Some(v)) => Done(v)
  }

  // ---------------------------------------------------------------------------
  // Reading fields of decoded bodies
  // ---------------------------------------------------------------------------

  /** A dict display whose values are read as `src[key]`, in order: entry `i`
      is `fields[i].0` mapped to `fields[i].1[fields[i].2]`. The first read
      that fails raises its exception. */
  function Gather(fields: seq<(string, Value, string)>): (r: Result<seq<(string, Value)>, PyException>)
    ensures r.Ok? <==> forall i :: 0 <= i < |fields| ==> Index(fields[i].1, fields[i].2).Ok?
    ensures r.Ok? ==> (|r.value| == |fields| &&
      forall i :: 0 <= i < |fields| ==> r.value[i] == (fields[i].0, Index(fields[i].1, fields[i].2).value))
    ensures r.Err? ==>
      exists i :: 0 <= i < |fields| && Index(fields[i].1, fields[i].2) == Err(r.error) &&
        (forall j :: 0 <= j < i ==> Index(fields[j].1, fields[j].2).Ok?)
  {
    if fields == [] then Ok([])
    else
      match Index(fields[0].1, fields[0].2)
      case Err(e) => Err(e)
      case Ok(x) =>
        match Gather(fields[1..])
        case Err(e) =>
          assert forall i :: 0 < i < |fields| ==> fields[i] == fields[1..][i - 1];
          Err(e)
        case Ok(rest) =>
          assert forall i :: 0 < i < |fields| ==> fields[i] == fields[1..][i - 1];
          Ok([(fields[0].0, x)] + rest)
  }

  // ---------------------------------------------------------------------------
  // raw_revoke_bonus, raw_revoke_ticket, retry_foo, revoke_ticket
  // ---------------------------------------------------------------------------

  /** The body of `raw_revoke_bonus`'s guarded block: a status of 400 or more
      returns at once; any other answer must decode as JSON. */
  function RevokeBonusBlock(reply: Reply): Inner<()> {
    match reply
    case Unreachable => Threw(TransportError)
    case Answered(status, body) =>
      if status >= 400 then Done(())
      else if body.None? then Threw(DecodeError)
      else Done(())
  }

  /** `raw_revoke_bonus(uid)`: any exception, the open circuit's included,
      queues one retry of the same revocation. */
  function RawRevokeBonusSpec(b: Breaker, w: World, uid: Value, ex: Exchange): World {
    var inner := RevokeBonusBlock(ex.reply);
    var (admitted, w1) := Guarded(b, w, "bonus", PrivilegeDrop(uid), ex, inner.Threw?);
    if admitted && inner.Done? then w1 else w1.(retries := w1.retries + [RetryRevokeBonus(uid)])
  }

  /** `raw_revoke_ticket(uid)`: the status is never looked at; any exception
      queues one retry. */
  function RawRevokeTicketSpec(b: Breaker, w: World, uid: Value, ex: Exchange): World {
    var inner := Json(ex.reply);
    var (admitted, w1) := Guarded(b, w, "ticket", TicketDelete(uid), ex, inner.Threw?);
    if admitted && inner.Done? then w1 else w1.(retries := w1.retries + [RetryRevokeTicket(uid)])
  }

  /** Whether a bonus revocation fails: the circuit refuses it, the request
      fails, or an answer below 400 does not decode. */
  predicate RevokeBonusFails(b: Breaker, st: Store, ex: Exchange) {
    !b.enter(st, "bonus", ex.now).0 ||
    ex.reply.Unreachable? || (ex.reply.status < 400 && ex.reply.body.None?)
  }

  /** `raw_revoke_bonus` logs one guard entry, queues exactly one retry for the
      same uid when it fails and none otherwise, and in particular never
      retries once the bonus service answered 400 or more. */
  lemma RawRevokeBonusRetriesOnFailure(b: Breaker, w: World, uid: Value, ex: Exchange)
    ensures var w' := RawRevokeBonusSpec(b, w, uid, ex);
      && w'.log == w.log + [Attempt(PrivilegeDrop(uid), b.enter(w.store, "bonus", ex.now).0)]
      && w'.retries == (if RevokeBonusFails(b, w.store, ex) then w.retries + [RetryRevokeBonus(uid)] else w.retries)
    ensures b.enter(w.store, "bonus", ex.now).0 && ex.reply.Answered? && ex.reply.status >= 400 ==>
      RawRevokeBonusSpec(b, w, uid, ex).retries == w.retries
  {
  }

  /** `raw_revoke_ticket` logs one guard entry and queues exactly one retry for
      the same uid when the circuit refuses it, the request fails or the body
      does not decode. */
  lemma RawRevokeTicketRetriesOnFailure(b: Breaker, w: World, uid: Value, ex: Exchange)
    ensures var w' := RawRevokeTicketSpec(b, w, uid, ex);
      var failed := !b.enter(w.store, "ticket", ex.now).0 || Json(ex.reply).Threw?;
      && w'.log == w.log + [Attempt(TicketDelete(uid), b.enter(w.store, "ticket", ex.now).0)]
      && w'.retries == (if failed then w.retries + [RetryRevokeTicket(uid)] else w.retries)
  {
  }

  /** `raw_revoke_ticket` never inspects the status: two answers with the same
      body have the same effect. */
  lemma RawRevokeTicketIgnoresStatus(b: Breaker, w: World, uid: Value, now: int, elapsed: nat, s1: int, s2: int, body: Option<Value>)
    ensures RawRevokeTicketSpec(b, w, uid, Exchange(now, elapsed, Answered(s1, body))) ==
            RawRevokeTicketSpec(b, w, uid, Exchange(now, elapsed, Answered(s2, body)))
  {
    assert Json(Answered(s1, body)) == Json(Answered(s2, body));
  }

  /** The call a retry task makes. */
  function RetryCall(task: RetryTask): Call {
    match task
    case RetryRevokeBonus(uid) => PrivilegeDrop(uid)
    case RetryRevokeTicket(uid) => TicketDelete(uid)
  }

  /** A queued task running after its delay (`retry_foo`): the same revocation
      with the same uid. It makes one guarded request and either finishes or
      queues itself once more. */
  function RunRetry(b: Breaker, w: World, task: RetryTask, ex: Exchange): (r: World)
    ensures |r.log| == |w.log| + 1 && r.log[..|w.log|] == w.log && r.log[|w.log|].call == RetryCall(task)
    ensures r.retries == w.retries || r.retries == w.retries + [task]
  {
    match task
    case RetryRevokeBonus(uid) =>
      RawRevokeBonusRetriesOnFailure(b, w, uid, ex);
      assert (w.log + [Attempt(PrivilegeDrop(uid), b.enter(w.store, "bonus", ex.now).0)])[..|w.log|] == w.log;
      RawRevokeBonusSpec(b, w, uid, ex)
    case RetryRevokeTicket(uid) =>
      RawRevokeTicketRetriesOnFailure(b, w, uid, ex);
      assert (w.log + [Attempt(TicketDelete(uid), b.enter(w.store, "ticket", ex.now).0)])[..|w.log|] == w.log;
      RawRevokeTicketSpec(b, w, uid, ex)
  }

  /** A task and the tasks it queues in turn, run against the given exchanges one after another. */
  function RetryChain(b: Breaker, w: World, task: RetryTask, exs: seq<Exchange>): World
    decreases |exs|
  {
    if exs == [] then w else RetryChain(b, RunRetry(b, w, task, exs[0]), task, exs[1..])
  }

  /** Retries are unbounded: while the backend stays unreachable, every run
      queues the same task again, so after `n` runs `n` more copies are queued. */
  lemma {:induction false} UnreachableRetriesForever(b: Breaker, w: World, task: RetryTask, exs: seq<Exchange>)
    requires forall i :: 0 <= i < |exs| ==> exs[i].reply == Unreachable
    ensures RetryChain(b, w, task, exs).retries == w.retries + seq(|exs|, _ => task)
    decreases |exs|
  {
    if exs != [] {
      var w1 := RunRetry(b, w, task, exs[0]);
      match task {
        case RetryRevokeBonus(uid) => RawRevokeBonusRetriesOnFailure(b, w, uid, exs[0]);
        case RetryRevokeTicket(uid) => RawRevokeTicketRetriesOnFailure(b, w, uid, exs[0]);
      }
      assert w1.retries == w.retries + [task];
      UnreachableRetriesForever(b, w1, task, exs[1..]);
      assert w.retries + [task] + seq(|exs| - 1, _ => task) == w.retries + seq(|exs|, _ => task);
    }
  }

  /** `DELETE /tickets/{ticketUid}`: the bonus revocation, then the ticket
      revocation, then 204 whatever happened (the route always supplies the uid). */
  function RevokeTicketSpec(b: Breaker, w: World, uid: Value, bonusEx: Exchange, ticketEx: Exchange): (Outcome, World) {
    (Respond(204, None), RawRevokeTicketSpec(b, RawRevokeBonusSpec(b, w, uid, bonusEx), uid, ticketEx))
  }

  /** Revoking a ticket always answers 204, tries the bonus service before the
      ticket service, and queues at most one retry for each. */
  lemma RevokeTicketAlwaysAccepted(b: Breaker, w: World, uid: Value, bonusEx: Exchange, ticketEx: Exchange)
    ensures var (o, w') := RevokeTicketSpec(b, w, uid, bonusEx, ticketEx);
      && o == Respond(204, None)
      && |w'.log| == |w.log| + 2 && w'.log[..|w.log|] == w.log
      && w'.log[|w.log|].call == PrivilegeDrop(uid) && w'.log[|w.log| + 1].call == TicketDelete(uid)
      && w'.retries in {w.retries, w.retries + [RetryRevokeBonus(uid)], w.retries + [RetryRevokeTicket(uid)],
                        w.retries + [RetryRevokeBonus(uid), RetryRevokeTicket(uid)]}
  {
    var w1 := RawRevokeBonusSpec(b, w, uid, bonusEx);
    RawRevokeBonusRetriesOnFailure(b, w, uid, bonusEx);
    RawRevokeTicketRetriesOnFailure(b, w1, uid, ticketEx);
    var w2 := RawRevokeTicketSpec(b, w1, uid, ticketEx);
    assert w2.log == w.log + [w1.log[|w.log|], w2.log[|w.log| + 1]];
    if w1.retries == w.retries {
      assert w2.retries == w.retries || w2.retries == w.retries + [RetryRevokeTicket(uid)];
    } else {
      assert w1.retries == w.retries + [RetryRevokeBonus(uid)];
      assert w2.retries == w1.retries || w2.retries == w.retries + [RetryRevokeBonus(uid), RetryRevokeTicket(uid)];
    }
  }

  // ---------------------------------------------------------------------------
  // The payment split of post_ticket
  // ---------------------------------------------------------------------------

  const FillInBalance := "FILL_IN_BALANCE"
  const DebitTheAccount := "DEBIT_THE_ACCOUNT"

  /** The numbers of Python (bools are ints); floats are taken as reals. */
  predicate Numeric(v: Value) {
    v.Int? || v.Bool? || v.Float?
  }

  function NumValue(v: Value): real
    requires Numeric(v)
  {
    if v.Float? then v.f else IntValue(v) as real
  }

  /** `a - b` on two numbers: an int unless a float is involved. */
  function Minus(a: Value, b: Value): (r: Value)
    requires Numeric(a) && Numeric(b)
    ensures Numeric(r) && NumValue(r) == NumValue(a) - NumValue(b)
  {
    if a.Float? || b.Float? then Float(NumValue(a) - NumValue(b)) else Int(IntValue(a) - IntValue(b))
  }

  /** What the purchase charges: money, bonuses, and the bonus operation to post. */
  datatype Payment = Payment(paidMoney: Value, paidBonuses: Value, operation: string, operationPrice: Value)

  /** The payment split of `post_ticket`: without `paidFromBalance` the whole price is money and
      the bonus account is filled; with it, `min(balance, price)` (the object
      `min` returns: the price only when it is strictly smaller) is paid in
      bonuses and debited. Arithmetic on anything but numbers raises `TypeError`. */
  function SplitPayment(balance: Value, price: Value, fromBalance: Value): (r: Result<Payment, PyException>)
    ensures !Truthy(fromBalance) ==> r == Ok(Payment(price, Int(0), FillInBalance, price))
    ensures Truthy(fromBalance) ==> (r.Ok? <==> Numeric(balance) && Numeric(price))
    ensures r.Err? ==> r.error == TypeError
    ensures r.Ok? && Truthy(fromBalance) ==>
      && r.value.operation == DebitTheAccount && r.value.operationPrice == r.value.paidBonuses
      && r.value.paidBonuses in {balance, price}
      && NumValue(r.value.paidBonuses) <= NumValue(balance) && NumValue(r.value.paidBonuses) <= NumValue(price)
      && (NumValue(r.value.paidBonuses) == NumValue(balance) || NumValue(r.value.paidBonuses) == NumValue(price))
    ensures r.Ok? && Numeric(price) ==>
      (Numeric(r.value.paidMoney) && Numeric(r.value.paidBonuses) &&
       NumValue(r.value.paidMoney) + NumValue(r.value.paidBonuses) == NumValue(price))
  {
    if !Truthy(fromBalance) then Ok(Payment(price, Int(0), FillInBalance, price))
    else if Numeric(balance) && Numeric(price) then
      var bonuses := if NumValue(price) < NumValue(balance) then price else balance;
      Ok(Payment(Minus(price, bonuses), bonuses, DebitTheAccount, bonuses))
    else Err(TypeError)
  }

  /** For a non-negative balance and price the bonuses lie between 0 and
      both, and the money part is non-negative. */
  lemma SplitWithinBalance(balance: Value, price: Value, fromBalance: Value)
    requires Numeric(balance) && Numeric(price) && NumValue(balance) >= 0.0 && NumValue(price) >= 0.0
    ensures var r := SplitPayment(balance, price, fromBalance);
      && r.Ok?
      && 0.0 <= NumValue(r.value.paidBonuses) <= NumValue(balance)
      && NumValue(r.value.paidBonuses) <= NumValue(price)
      && NumValue(r.value.paidMoney) >= 0.0
  {
  }

  // ---------------------------------------------------------------------------
  // post_ticket
  // ---------------------------------------------------------------------------

  /** Everything the purchase keeps from its request: the user, the JSON body
      and the three fields read from it. */
  datatype Order = Order(user: string, body: seq<(string, Value)>, flightNumber: Value, price: Value, paidFromBalance: Value)

  /** The seven guarded requests a purchase may make, in order. */
  datatype SagaExchanges = SagaExchanges(
    flight: Exchange, ticket: Exchange, balance: Exchange, post: Exchange, reread: Exchange,
    revokeTicket: Exchange, revokeBonus: Exchange)

  /** How the flight lookup's block ends: an early return with a non-200 status, or the flight. */
  datatype FlightStep = NotOk(status: int) | FlightInfo(info: Value)

  function FlightBlock(reply: Reply): Inner<FlightStep> {
    match reply
    case Unreachable => Threw(TransportError)
    case Answered(status, body) =>
      if status != 200 then Done(NotOk(status))
      else if body.None? then Threw(DecodeError)
      else Done(FlightInfo(body.value))
  }

  /** The bonus post's block: a status of 500 or more raises. */
  function PostBlock(reply: Reply): Inner<()> {
    match reply
    case Unreachable => Threw(TransportError)
    case Answered(status, _) => if status >= 500 then Threw(InternalServerError) else Done(())
  }

  /** `POST /tickets`. */
  function PurchaseSpec(b: Breaker, w: World, user: Option<string>, body: Option<Value>, exs: SagaExchanges): (Outcome, World) {
    if user.None? then (Respond(400, None), w)
    else if body.None? then (Raised(DecodeError), w)
    else if !body.value.Dict? then (Raised(Python(AttributeError)), w)
    else
      var dat := body.value.entries;
      if Lookup(dat, "flightNumber").None? || Lookup(dat, "price").None? || Lookup(dat, "paidFromBalance").None? then
        (Respond(400, None), w)
      else
        var o := Order(user.value, dat, Lookup(dat, "flightNumber").value, Lookup(dat, "price").value,
                       Lookup(dat, "paidFromBalance").value);
        FlightStage(b, w, o, exs)
  }

  /** The first step of `post_ticket`, the flight lookup; a non-200 answer is returned as is
      (and, returning normally, counts as a success for the breaker). */
  function FlightStage(b: Breaker, w: World, o: Order, exs: SagaExchanges): (Outcome, World) {
    var inner := FlightBlock(exs.flight.reply);
    var (admitted, w1) := Guarded(b, w, "flight", FlightByNumber(o.flightNumber), exs.flight, inner.Threw?);
    if !admitted then (Raised(Unavailable("flight")), w1)
    else
      match inner
      case Threw(f) => (Raised(f), w1)
      case Done(NotOk(status)) => (Respond(status, None), w1)
      case Done(FlightInfo(info)) => TicketStage(b, w1, o, info, exs)
  }

  /** The ticket-creation step of `post_ticket`: the ticket is created; its uid is read outside the guard. */
  function TicketStage(b: Breaker, w: World, o: Order, info: Value, exs: SagaExchanges): (Outcome, World) {
    var inner := Json(exs.ticket.reply);
    var (admitted, w1) := Guarded(b, w, "ticket", TicketCreate(o.user, o.body), exs.ticket, inner.Threw?);
    if !admitted then (Raised(Unavailable("ticket")), w1)
    else
      match inner
      case Threw(f) => (Raised(f), w1)
      case Done(ticket) =>
        match Index(ticket, "ticketUid")
        case Err(e) => (Raised(Python(e)), w1)
        case Ok(uid) => BalanceStage(b, w1, o, info, uid, exs)
  }

  /** The balance step of `post_ticket`: the balance is read and the payment split. */
  function BalanceStage(b: Breaker, w: World, o: Order, info: Value, uid: Value, exs: SagaExchanges): (Outcome, World) {
    var inner := Json(exs.balance.reply);
    var (admitted, w1) := Guarded(b, w, "bonus", PrivilegeRead(o.user), exs.balance, inner.Threw?);
    if !admitted then (Raised(Unavailable("bonus")), w1)
    else
      match inner
      case Threw(f) => (Raised(f), w1)
      case Done(privilege) =>
        match Index(privilege, "balance")
        case Err(e) => (Raised(Python(e)), w1)
        case Ok(balance) =>
          match SplitPayment(balance, o.price, o.paidFromBalance)
          case Err(e) => (Raised(Python(e)), w1)
          case Ok(pay) => PostStage(b, w1, o, info, uid, pay, exs)
  }

  /** The bonus step of `post_ticket`: the bonus operation is posted. */
  function PostStage(b: Breaker, w: World, o: Order, info: Value, uid: Value, pay: Payment, exs: SagaExchanges): (Outcome, World) {
    var inner := PostBlock(exs.post.reply);
    var (admitted, w1) := Guarded(b, w, "bonus", PrivilegePush(o.user, pay.operation, pay.operationPrice, uid), exs.post, inner.Threw?);
    if !admitted then (Raised(Unavailable("bonus")), w1)
    else if inner.Threw? then (Raised(inner.fault), w1)
    else RereadStage(b, w1, o, info, uid, pay, exs)
  }

  /** The compensation in `post_ticket`'s `except` branch: the ticket revocation, then the bonus revocation. */
  function Compensate(b: Breaker, w: World, uid: Value, exs: SagaExchanges): World {
    RawRevokeBonusSpec(b, RawRevokeTicketSpec(b, w, uid, exs.revokeTicket), uid, exs.revokeBonus)
  }

  /** The re-read step of `post_ticket`: the balance is read again; if that raises, both
      revocations run and the same exception is raised again. */
  function RereadStage(b: Breaker, w: World, o: Order, info: Value, uid: Value, pay: Payment, exs: SagaExchanges): (Outcome, World) {
    var inner := Json(exs.reread.reply);
    var (admitted, w1) := Guarded(b, w, "bonus", PrivilegeRead(o.user), exs.reread, inner.Threw?);
    if !admitted then (Raised(Unavailable("bonus")), Compensate(b, w1, uid, exs))
    else
      match inner
      case Threw(f) => (Raised(f), Compensate(b, w1, uid, exs))
      case Done(privilege) => (Receipt(o, info, uid, pay, privilege), w1)
  }

  /** The purchase's answer, the dict `post_ticket` returns. */
  function Receipt(o: Order, info: Value, uid: Value, pay: Payment, privilege: Value): Outcome {
    match Gather([("flightNumber", info, "flightNumber"), ("fromAirport", info, "fromAirport"),
                  ("toAirport", info, "toAirport"), ("date", info, "date")])
    case Err(e) => Raised(Python(e))
    case Ok(flight) =>
      match Gather([("balance", privilege, "balance"), ("status", privilege, "status")])
      case Err(e) => Raised(Python(e))
      case Ok(summary) =>
        Respond(200, Some(Dict([("ticketUid", uid)] + flight +
          [("price", o.price), ("paidByMoney", pay.paidMoney), ("paidByBonuses", pay.paidBonuses),
           ("status", Str("PAID")), ("privilege", Dict(summary))])))
  }

  /** A non-200 flight answer is returned before any ticket or bonus request:
      the log gains only the flight lookup, which the breaker records as a success. */
  lemma NonOkFlightStopsEarly(b: Breaker, w: World, user: string, dat: seq<(string, Value)>, exs: SagaExchanges)
    requires Lookup(dat, "flightNumber").Some? && Lookup(dat, "price").Some? && Lookup(dat, "paidFromBalance").Some?
    requires b.enter(w.store, "flight", exs.flight.now).0
    requires exs.flight.reply.Answered? && exs.flight.reply.status != 200
    ensures var (o, w') := PurchaseSpec(b, w, Some(user), Some(Dict(dat)), exs);
      && o == Respond(exs.flight.reply.status, None)
      && w'.log == w.log + [Attempt(FlightByNumber(Lookup(dat, "flightNumber").value), true)]
      && w'.retries == w.retries
      && w'.store == b.exit(b.enter(w.store, "flight", exs.flight.now).1, "flight", exs.flight.elapsed, true)
  {
  }

  /** A bonus post answered with 500 or more raises with nothing compensated:
      no revocation is attempted and no retry queued. */
  lemma FailedPostNotCompensated(b: Breaker, w: World, o: Order, info: Value, uid: Value, pay: Payment, exs: SagaExchanges)
    requires exs.post.reply.Unreachable? || exs.post.reply.status >= 500
    ensures var (out, w') := PostStage(b, w, o, info, uid, pay, exs);
      var admitted := b.enter(w.store, "bonus", exs.post.now).0;
      && out == Raised(if !admitted then Unavailable("bonus") else if exs.post.reply.Unreachable? then TransportError else InternalServerError)
      && w'.log == w.log + [Attempt(PrivilegePush(o.user, pay.operation, pay.operationPrice, uid), admitted)]
      && w'.retries == w.retries
  {
  }

  /** Whether a log holds a revocation request. */
  ghost predicate HasRevocation(log: seq<Attempt>) {
    exists i :: 0 <= i < |log| && (log[i].call.TicketDelete? || log[i].call.PrivilegeDrop?)
  }

  /** The request made by the stage `n` guarded requests before the re-read. */
  ghost predicate StageCall(n: nat, c: Call, user: string) {
    if n == 4 then c.FlightByNumber?
    else if n == 3 then c.TicketCreate?
    else if n == 2 then c == PrivilegeRead(user)
    else if n == 1 then c.PrivilegePush?
    else true
  }

  /** The shape of a purchase's effect seen from a stage `k` guarded requests
      before the re-read: the log only grows; revocations or queued retries
      occur only after the `k` stages' requests all went through and the
      re-read failed; and a failed re-read always leads to both revocations,
      ticket first, for the uid the bonus post carried, and to the re-read's
      exception being raised again. */
  ghost predicate CompensationShape(w: World, out: Outcome, w': World, k: nat, user: string, exs: SagaExchanges) {
    |w'.log| >= |w.log| && w'.log[..|w.log|] == w.log &&
    AddedShape(w'.log[|w.log|..], w'.retries != w.retries, out, k, user, exs)
  }

  /** The part of the shape about the entries a purchase appended to the log;
      `queued` says whether a retry was queued. */
  ghost predicate AddedShape(added: seq<Attempt>, queued: bool, out: Outcome, k: nat, user: string, exs: SagaExchanges) {
    && ((HasRevocation(added) || queued) ==>
         && |added| == k + 3
         && (forall i :: 0 <= i < k ==> added[i].admitted && StageCall(k - i, added[i].call, user))
         && added[k].call == PrivilegeRead(user)
         && (!added[k].admitted || Json(exs.reread.reply).Threw?))
    && ((|added| > k && (!added[k].admitted || Json(exs.reread.reply).Threw?)) ==>
         && |added| == k + 3
         && added[k + 1].call.TicketDelete? && added[k + 2].call.PrivilegeDrop?
         && added[k + 1].call.uid == added[k + 2].call.uid
         && (k >= 1 ==> added[k - 1].call.PrivilegePush? && added[k - 1].call.ticketUid == added[k + 1].call.uid)
         && out == Raised(if !added[k].admitted then Unavailable("bonus") else Json(exs.reread.reply).fault))
  }

  /** Putting an admitted stage request in front of entries with the shape at
      `k` gives the shape at `k + 1`. */
  lemma AddedShapeCons(a: Attempt, rest: seq<Attempt>, queued: bool, out: Outcome, k: nat, user: string, exs: SagaExchanges)
    requires a.admitted && StageCall(k + 1, a.call, user) && !a.call.TicketDelete? && !a.call.PrivilegeDrop?
    requires AddedShape(rest, queued, out, k, user, exs)
    requires k == 0 && |rest| > 1 && rest[1].call.TicketDelete? ==> a.call.ticketUid == rest[1].call.uid
    ensures AddedShape([a] + rest, queued, out, k + 1, user, exs)
  {
    var added := [a] + rest;
    assert forall i :: 1 <= i < |added| ==> added[i] == rest[i - 1];
    if HasRevocation(added) {
      var i :| 0 <= i < |added| && (added[i].call.TicketDelete? || added[i].call.PrivilegeDrop?);
      assert HasRevocation(rest) by {
        assert i >= 1 && rest[i - 1] == added[i];
      }
    }
  }

  /** The re-read stage has the shape with `k = 0`. */
  lemma RereadShape(b: Breaker, w: World, o: Order, info: Value, uid: Value, pay: Payment, exs: SagaExchanges)
    ensures var (out, w') := RereadStage(b, w, o, info, uid, pay, exs);
      && CompensationShape(w, out, w', 0, o.user, exs)
      && (|w'.log| > |w.log| + 1 ==> w'.log[|w.log| + 1].call == TicketDelete(uid))
  {
    var (out, w') := RereadStage(b, w, o, info, uid, pay, exs);
    var inner := Json(exs.reread.reply);
    var (admitted, w1) := Guarded(b, w, "bonus", PrivilegeRead(o.user), exs.reread, inner.Threw?);
    var added := w'.log[|w.log|..];
    if !admitted || inner.Threw? {
      var w2 := RawRevokeTicketSpec(b, w1, uid, exs.revokeTicket);
      RawRevokeTicketRetriesOnFailure(b, w1, uid, exs.revokeTicket);
      RawRevokeBonusRetriesOnFailure(b, w2, uid, exs.revokeBonus);
      assert w' == RawRevokeBonusSpec(b, w2, uid, exs.revokeBonus);
      assert w'.log == w.log + [Attempt(PrivilegeRead(o.user), admitted), w2.log[|w.log| + 1], w'.log[|w.log| + 2]];
      assert added == [Attempt(PrivilegeRead(o.user), admitted), w2.log[|w.log| + 1], w'.log[|w.log| + 2]];
    } else {
      assert w' == w1;
      assert added == [Attempt(PrivilegeRead(o.user), true)];
      assert !HasRevocation(added);
    }
  }

  /** A stage that either ends with its own guard entry alone, or continues
      after an admitted entry into a later stage with the shape, has the
      shape one step further back. */
  lemma ShapeStep(w: World, w1: World, out: Outcome, w': World, k: nat, user: string, exs: SagaExchanges, a: Attempt)
    requires w1.log == w.log + [a] && w1.retries == w.retries
    requires StageCall(k + 1, a.call, user) && !a.call.TicketDelete? && !a.call.PrivilegeDrop?
    requires w' == w1 || (a.admitted && CompensationShape(w1, out, w', k, user, exs))
    requires k == 0 && w' != w1 && |w'.log| > |w1.log| + 1 && w'.log[|w1.log| + 1].call.TicketDelete? ==>
      a.call.ticketUid == w'.log[|w1.log| + 1].call.uid
    ensures CompensationShape(w, out, w', k + 1, user, exs)
  {
    var added := w'.log[|w.log|..];
    if w' == w1 {
      assert added == [a];
      assert !HasRevocation(added);
    } else {
      var rest := w'.log[|w1.log|..];
      assert w'.log[..|w.log|] == w'.log[..|w1.log|][..|w.log|];
      assert added == [a] + rest;
      AddedShapeCons(a, rest, w'.retries != w.retries, out, k, user, exs);
    }
  }

  /** Compensation happens exactly when the final re-read fails: revocations
      and queued retries appear only after the flight lookup, the ticket
      creation, the balance read and the bonus post all went through and the
      re-read then raised (or was refused); such a purchase makes seven guarded
      requests, the ticket revocation before the bonus revocation, and raises
      the re-read's exception again. A failed bonus post or any earlier failure
      leaves no trace of compensation. */
  lemma CompensationOnlyAfterReread(b: Breaker, w: World, user: Option<string>, body: Option<Value>, exs: SagaExchanges)
    ensures var (out, w') := PurchaseSpec(b, w, user, body, exs);
      |w'.log| >= |w.log| && w'.log[..|w.log|] == w.log &&
      (var added := w'.log[|w.log|..];
        && ((HasRevocation(added) || w'.retries != w.retries) ==>
              && user.Some? && |added| == 7
              && added[0].admitted && added[0].call.FlightByNumber?
              && added[1].admitted && added[1].call.TicketCreate?
              && added[2].admitted && added[2].call == PrivilegeRead(user.value)
              && added[3].admitted && added[3].call.PrivilegePush?
              && added[4].call == PrivilegeRead(user.value)
              && (!added[4].admitted || Json(exs.reread.reply).Threw?))
        && ((|added| > 4 && (!added[4].admitted || Json(exs.reread.reply).Threw?)) ==>
              && |added| == 7
              && added[5].call.TicketDelete? && added[6].call.PrivilegeDrop? && added[5].call.uid == added[6].call.uid
              && added[3].call.ticketUid == added[5].call.uid
              && out == Raised(if !added[4].admitted then Unavailable("bonus") else Json(exs.reread.reply).fault)))
  {
    var (out, w') := PurchaseSpec(b, w, user, body, exs);
    if user.None? || body.None? || !body.value.Dict? || Lookup(body.value.entries, "flightNumber").None?
      || Lookup(body.value.entries, "price").None? || Lookup(body.value.entries, "paidFromBalance").None? {
      assert w' == w;
      assert w'.log[|w.log|..] == [];
      assert !HasRevocation(w'.log[|w.log|..]);
    } else {
      var dat := body.value.entries;
      var o := Order(user.value, dat, Lookup(dat, "flightNumber").value, Lookup(dat, "price").value,
                     Lookup(dat, "paidFromBalance").value);
      assert (out, w') == FlightStage(b, w, o, exs);
      SagaShape(b, w, o, exs);
      var added := w'.log[|w.log|..];
      if HasRevocation(added) || w'.retries != w.retries {
        assert StageCall(4, added[0].call, o.user) && StageCall(3, added[1].call, o.user)
          && StageCall(2, added[2].call, o.user) && StageCall(1, added[3].call, o.user);
      }
    }
  }

  /** The whole saga from the flight lookup on has the shape with `k = 4`. */
  lemma SagaShape(b: Breaker, w: World, o: Order, exs: SagaExchanges)
    ensures var (out, w') := FlightStage(b, w, o, exs);
      CompensationShape(w, out, w', 4, o.user, exs)
  {
    var inner := FlightBlock(exs.flight.reply);
    var (a1, w1) := Guarded(b, w, "flight", FlightByNumber(o.flightNumber), exs.flight, inner.Threw?);
    var (out, w') := FlightStage(b, w, o, exs);
    if a1 && inner.Done? && inner.value.FlightInfo? {
      TicketShape(b, w1, o, inner.value.info, exs);
    }
    ShapeStep(w, w1, out, w', 3, o.user, exs, Attempt(FlightByNumber(o.flightNumber), a1));
  }

  lemma TicketShape(b: Breaker, w: World, o: Order, info: Value, exs: SagaExchanges)
    ensures var (out, w') := TicketStage(b, w, o, info, exs);
      CompensationShape(w, out, w', 3, o.user, exs)
  {
    var inner := Json(exs.ticket.reply);
    var (a1, w1) := Guarded(b, w, "ticket", TicketCreate(o.user, o.body), exs.ticket, inner.Threw?);
    var (out, w') := TicketStage(b, w, o, info, exs);
    if a1 && inner.Done? && Index(inner.value, "ticketUid").Ok? {
      BalanceShape(b, w1, o, info, Index(inner.value, "ticketUid").value, exs);
    }
    ShapeStep(w, w1, out, w', 2, o.user, exs, Attempt(TicketCreate(o.user, o.body), a1));
  }

  lemma BalanceShape(b: Breaker, w: World, o: Order, info: Value, uid: Value, exs: SagaExchanges)
    ensures var (out, w') := BalanceStage(b, w, o, info, uid, exs);
      CompensationShape(w, out, w', 2, o.user, exs)
  {
    var inner := Json(exs.balance.reply);
    var (a1, w1) := Guarded(b, w, "bonus", PrivilegeRead(o.user), exs.balance, inner.Threw?);
    var (out, w') := BalanceStage(b, w, o, info, uid, exs);
    if a1 && inner.Done? && Index(inner.value, "balance").Ok? {
      var pay := SplitPayment(Index(inner.value, "balance").value, o.price, o.paidFromBalance);
      if pay.Ok? {
        PostShape(b, w1, o, info, uid, pay.value, exs);
      }
    }
    ShapeStep(w, w1, out, w', 1, o.user, exs, Attempt(PrivilegeRead(o.user), a1));
  }

  lemma PostShape(b: Breaker, w: World, o: Order, info: Value, uid: Value, pay: Payment, exs: SagaExchanges)
    ensures var (out, w') := PostStage(b, w, o, info, uid, pay, exs);
      CompensationShape(w, out, w', 1, o.user, exs)
  {
    var inner := PostBlock(exs.post.reply);
    var call := PrivilegePush(o.user, pay.operation, pay.operationPrice, uid);
    var (a1, w1) := Guarded(b, w, "bonus", call, exs.post, inner.Threw?);
    var (out, w') := PostStage(b, w, o, info, uid, pay, exs);
    if a1 && inner.Done? {
      RereadShape(b, w1, o, info, uid, pay, exs);
    }
    ShapeStep(w, w1, out, w', 0, o.user, exs, Attempt(call, a1));
  }

  // ---------------------------------------------------------------------------
  // get_flight_by_number and get_me
  // ---------------------------------------------------------------------------

  /** `get_flight_by_number(number)`: the decoded body, whatever the status. */
  function FetchFlightSpec(b: Breaker, w: World, number: Value, ex: Exchange): (Result<Value, Fault>, World) {
    var inner := Json(ex.reply);
    var (admitted, w1) := Guarded(b, w, "flight", FlightByNumber(number), ex, inner.Threw?);
    if !admitted then (Err(Unavailable("flight")), w1)
    else
      match inner
      case Threw(f) => (Err(f), w1)
      case Done(v) => (Ok(v), w1)
  }

  /** The fields of one entry of the `/me` ticket list: where each is read from, in order. */
  function MeFields(t: Value, flight: Value): seq<(string, Value, string)> {
    [("ticketUid", t, "ticket_uid"), ("flightNumber", t, "flight_number"),
     ("fromAirport", flight, "fromAirport"), ("toAirport", flight, "toAirport"), ("date", flight, "date"),
     ("price", t, "price"), ("status", t, "status")]
  }

  const MeKeys := ["ticketUid", "flightNumber", "fromAirport", "toAirport", "date", "price", "status"]

  /** One turn of `get_me`'s loop over the tickets: the ticket's flight is looked up
      (outside any `try`), then the entry is built. */
  function MeItem(b: Breaker, w: World, t: Value, ex: Exchange): (Result<Value, Fault>, World) {
    match Index(t, "flight_number")
    case Err(e) => (Err(Python(e)), w)
    case Ok(number) =>
      var (fetched, w1) := FetchFlightSpec(b, w, number, ex);
      match fetched
      case Err(f) => (Err(f), w1)
      case Ok(flight) =>
        match Gather(MeFields(t, flight))
        case Err(e) => (Err(Python(e)), w1)
        case Ok(entries) => (Ok(Dict(entries)), w1)
  }

  /** `get_me`'s loop over the tickets `ts`; the flight of ticket
      `k + i` is looked up with the exchange `flights(k + i)`. */
  function MeItems(b: Breaker, w: World, ts: seq<Value>, flights: nat -> Exchange, k: nat): (Result<seq<Value>, Fault>, World)
    decreases |ts|
  {
    if ts == [] then (Ok([]), w)
    else
      var (r, w1) := MeItem(b, w, ts[0], flights(k));
      match r
      case Err(f) => (Err(f), w1)
      case Ok(item) =>
        var (rest, w2) := MeItems(b, w1, ts[1..], flights, k + 1);
        match rest
        case Err(f) => (Err(f), w2)
        case Ok(items) => (Ok([item] + items), w2)
  }

  /** `get_me`'s privilege block: the privilege summary is built inside the
      guard, so a body without `balance` or `status` counts as a failed call. */
  function PrivilegeBlock(reply: Reply): Inner<Value> {
    match Json(reply)
    case Threw(f) => Threw(f)
    case Done(dat) =>
      match Gather([("balance", dat, "balance"), ("status", dat, "status")])
      case Err(e) => Threw(Python(e))
      case Ok(entries) => Done(Dict(entries))
  }

  /** `GET /me`: both fetches are wrapped in a bare `except`, so a failed
      ticket fetch gives an empty list and a failed privilege fetch `None`. */
  function GetMeSpec(b: Breaker, w: World, user: Option<string>, ticketsEx: Exchange, bonusEx: Exchange, flights: nat -> Exchange): (Outcome, World) {
    if user.None? then (Respond(400, None), w)
    else
      var ti := Json(ticketsEx.reply);
      var (a1, w1) := Guarded(b, w, "ticket", TicketList(user.value), ticketsEx, ti.Threw?);
      var tickets := if a1 && ti.Done? then ti.value else List([]);
      var bi := PrivilegeBlock(bonusEx.reply);
      var (a2, w2) := Guarded(b, w1, "bonus", PrivilegeRead(user.value), bonusEx, bi.Threw?);
      var privilege := if a2 && bi.Done? then bi.value else Null;
      match Iterate(tickets)
      case Err(e) => (Raised(Python(e)), w2)
      case Ok(ts) =>
        var (items, w3) := MeItems(b, w2, ts, flights, 0);
        match items
        case Err(f) => (Raised(f), w3)
        case Ok(xs) => (Respond(200, Some(Dict([("tickets", List(xs)), ("privilege", privilege)]))), w3)
  }

  /** The flight number a ticket names, or `None` when it has none. */
  function FlightNumberOf(t: Value): Value {
    match Index(t, "flight_number")
    case Ok(n) => n
    case Err(_) => Null
  }

  /** One admitted flight lookup per ticket, in order. */
  function FlightLookups(ts: seq<Value>): seq<Attempt> {
    if ts == [] then [] else [Attempt(FlightByNumber(FlightNumberOf(ts[0])), true)] + FlightLookups(ts[1..])
  }

  /** The ticket loop makes one admitted flight lookup per ticket, in order,
      when it completes, and it never queues a retry. */
  lemma {:induction false} MeItemsLookups(b: Breaker, w: World, ts: seq<Value>, flights: nat -> Exchange, k: nat)
    ensures var (r, w') := MeItems(b, w, ts, flights, k);
      && w'.retries == w.retries
      && (r.Ok? ==> w'.log == w.log + FlightLookups(ts))
    decreases |ts|
  {
    if ts != [] {
      var p := MeItem(b, w, ts[0], flights(k));
      MeItemShape(b, w, ts[0], flights(k));
      var tail := MeItems(b, p.1, ts[1..], flights, k + 1);
      if p.0.Ok? {
        assert MeItems(b, w, ts, flights, k) == Extend([p.0.value], tail);
        MeItemsLookups(b, p.1, ts[1..], flights, k + 1);
        if tail.0.Ok? {
          assert FlightLookups(ts) == [Attempt(FlightByNumber(FlightNumberOf(ts[0])), true)] + FlightLookups(ts[1..]);
          assert tail.1.log == w.log + FlightLookups(ts);
        }
      } else {
        assert MeItems(b, w, ts, flights, k) == (Err(p.0.error), p.1);
      }
    }
  }

  /** When the ticket loop completes it yields one seven-field entry per
      ticket, and every ticket had a flight number. */
  lemma {:induction false} MeItemsOnePerTicket(b: Breaker, w: World, ts: seq<Value>, flights: nat -> Exchange, k: nat)
    ensures var r := MeItems(b, w, ts, flights, k).0;
      r.Ok? ==>
        && |r.value| == |ts|
        && forall i :: 0 <= i < |ts| ==>
             Index(ts[i], "flight_number").Ok? && r.value[i].Dict? && Keys(r.value[i].entries) == MeKeys
    decreases |ts|
  {
    if ts != [] {
      MeItemShape(b, w, ts[0], flights(k));
      var (r1, w1) := MeItem(b, w, ts[0], flights(k));
      if r1.Ok? {
        MeItemsOnePerTicket(b, w1, ts[1..], flights, k + 1);
        forall i | 0 < i < |ts| ensures ts[i] == ts[1..][i - 1] {
        }
      }
    }
  }

  /** One ticket's entry: one admitted flight lookup when it succeeds, and a seven-field entry. */
  lemma MeItemShape(b: Breaker, w: World, t: Value, ex: Exchange)
    ensures var (r, w1) := MeItem(b, w, t, ex);
      && w1.retries == w.retries
      && (r.Ok? ==>
            && Index(t, "flight_number").Ok?
            && w1.log == w.log + [Attempt(FlightByNumber(FlightNumberOf(t)), true)]
            && r.value.Dict? && Keys(r.value.entries) == MeKeys)
  {
    var (r, w1) := MeItem(b, w, t, ex);
    if r.Ok? {
      var number := Index(t, "flight_number").value;
      var g := Gather(MeFields(t, FetchFlightSpec(b, w, number, ex).0.value));
      assert r.value == Dict(g.value);
      assert Keys(r.value.entries) == MeKeys;
    }
  }

  /** `/me` with a failed or refused ticket fetch still answers 200, with an
      empty ticket list and no flight lookup. */
  lemma GetMeWithoutTickets(b: Breaker, w: World, user: string, ticketsEx: Exchange, bonusEx: Exchange, flights: nat -> Exchange)
    requires !b.enter(w.store, "ticket", ticketsEx.now).0 || Json(ticketsEx.reply).Threw?
    ensures var (o, w') := GetMeSpec(b, w, Some(user), ticketsEx, bonusEx, flights);
      && o.Respond? && o.status == 200 && o.body.Some? && o.body.value.Dict?
      && Lookup(o.body.value.entries, "tickets") == Some(List([]))
      && |w'.log| == |w.log| + 2
      && w'.log[|w.log|].call == TicketList(user) && w'.log[|w.log| + 1].call == PrivilegeRead(user)
      && w'.retries == w.retries
  {
  }

  /** `/me` never fails because of its two fetches: it raises only when the
      ticket list was fetched and then its loop raised. When it answers, the
      body holds `tickets` and `privilege`, and a failed or refused privilege
      fetch shows as `null`. */
  lemma GetMeDegrades(b: Breaker, w: World, user: string, ticketsEx: Exchange, bonusEx: Exchange, flights: nat -> Exchange)
    ensures var (o, w') := GetMeSpec(b, w, Some(user), ticketsEx, bonusEx, flights);
      var w1 := Guarded(b, w, "ticket", TicketList(user), ticketsEx, Json(ticketsEx.reply).Threw?).1;
      && (o.Raised? ==> b.enter(w.store, "ticket", ticketsEx.now).0 && Json(ticketsEx.reply).Done?)
      && (o.Respond? ==> o.status == 200 && o.body.Some? && o.body.value.Dict? &&
                         Keys(o.body.value.entries) == ["tickets", "privilege"])
      && (o.Respond? && (!b.enter(w1.store, "bonus", bonusEx.now).0 || PrivilegeBlock(bonusEx.reply).Threw?) ==>
            Lookup(o.body.value.entries, "privilege") == Some(Null))
  {
  }

  // ---------------------------------------------------------------------------
  // get_flights
  // ---------------------------------------------------------------------------

  /** A query parameter as `int()` sees it: absent, an integer numeral, or other text. */
  datatype QueryParam = Absent | Numeral(n: int) | Malformed

  /** `int(query.get(name))`: `int(None)` raises `TypeError`, text that is not
      an integer numeral `ValueError`. */
  function ParseQuery(q: QueryParam): Result<int, PyException> {
    match q
    case Absent => Err(TypeError)
    case Malformed => Err(ValueError)
    case Numeral(n) => Ok(n)
  }

  function DigitChar(d: nat): char
    requires d < 10
  {
    (('0' as int) + d) as char
  }

  /** `str(n)` for a natural number: its decimal digits, without leading zeros. */
  function NatToString(n: nat): (s: string)
    ensures |s| >= 1 && forall i :: 0 <= i < |s| ==> '0' <= s[i] <= '9'
    decreases n
  {
    if n < 10 then [DigitChar(n)] else NatToString(n / 10) + [DigitChar(n % 10)]
  }

  /** `str(n)`: a minus sign before the digits of a negative number. */
  function IntToString(n: int): (s: string)
    ensures |s| >= 1 && (s[0] == '-' <==> n < 0)
  {
    if n < 0 then "-" + NatToString(-n) else NatToString(n)
  }

  /** The number a string of decimal digits denotes. */
  function DigitsValue(s: string): int {
    if s == [] then 0 else DigitsValue(s[..|s| - 1]) * 10 + (s[|s| - 1] as int - '0' as int)
  }

  /** The number an optionally signed decimal numeral denotes. */
  function NumeralValue(s: string): int {
    if |s| > 0 && s[0] == '-' then -DigitsValue(s[1..]) else DigitsValue(s)
  }

  lemma {:induction false} NatToStringRoundTrip(n: nat)
    ensures DigitsValue(NatToString(n)) == n
    decreases n
  {
    if n >= 10 {
      NatToStringRoundTrip(n / 10);
      var s := NatToString(n);
      assert s[..|s| - 1] == NatToString(n / 10);
    }
  }

  /** The decimal text of a number reads back as that number. */
  lemma IntToStringRoundTrip(n: int)
    ensures NumeralValue(IntToString(n)) == n
  {
    if n < 0 {
      NatToStringRoundTrip(-n);
      assert IntToString(n)[1..] == NatToString(-n);
    } else {
      NatToStringRoundTrip(n);
    }
  }

  /** The listing URL `get_flights` builds, each parameter added only when it is not `None`. */
  function FlightsUrl(page: Option<int>, size: Option<int>): string {
    var u := "/flights";
    var u1 := if page.Some? || size.Some? then u + "?" else u;
    var u2 := if page.Some? then u1 + "page=" + IntToString(page.value - 1) + (if size.Some? then "&" else "") else u1;
    if size.Some? then u2 + "size=" + IntToString(size.value) else u2
  }

  /** The five fields each listed flight keeps. */
  function FlightFields(f: Value): seq<(string, Value, string)> {
    [("flightNumber", f, "flightNumber"), ("fromAirport", f, "fromAirport"), ("toAirport", f, "toAirport"),
     ("date", f, "date"), ("price", f, "price")]
  }

  const FlightKeys := ["flightNumber", "fromAirport", "toAirport", "date", "price"]

  /** `get_flights`'s five-key projection of one flight. */
  function ProjectFlight(f: Value): (r: Result<Value, PyException>)
    ensures r.Ok? ==> r.value.Dict? && Keys(r.value.entries) == FlightKeys
    ensures r.Ok? ==> f.Dict? && forall i :: 0 <= i < 5 ==> Lookup(f.entries, FlightKeys[i]) == Some(r.value.entries[i].1)
  {
    match Gather(FlightFields(f))
    case Err(e) => Err(e)
    case Ok(entries) =>
      assert Index(f, "flightNumber").Ok?;
      assert Keys(entries) == FlightKeys;
      Ok(Dict(entries))
  }

  /** `get_flights`'s loop over the listed flights. */
  function ProjectFlights(fs: seq<Value>): (r: Result<seq<Value>, PyException>)
    ensures r.Ok? <==> forall i :: 0 <= i < |fs| ==> ProjectFlight(fs[i]).Ok?
    ensures r.Ok? ==> |r.value| == |fs| && forall i :: 0 <= i < |fs| ==> ProjectFlight(fs[i]) == Ok(r.value[i])
  {
    if fs == [] then Ok([])
    else
      match ProjectFlight(fs[0])
      case Err(e) => Err(e)
      case Ok(p) =>
        assert forall i :: 0 < i < |fs| ==> fs[i] == fs[1..][i - 1];
        match ProjectFlights(fs[1..])
        case Err(e) => Err(e)
        case Ok(ps) => Ok([p] + ps)
  }

  /** `get_flights`'s reshaping: a copy of the page whose `items` are replaced by their
      five-field projections. `.copy()` exists on dicts and lists only, and a
      list copy cannot take the string key `items`. */
  function Reshape(flights: Value): Result<Value, PyException> {
    match flights
    case List(_) => Err(TypeError)
    case Null | Bool(_) | Int(_) | Float(_) | Str(_) => Err(AttributeError)
    case Dict(es) =>
      match Index(flights, "items")
      case Err(e) => Err(e)
      case Ok(items) =>
        match Iterate(items)
        case Err(e) => Err(e)
        case Ok(fs) =>
          match ProjectFlights(fs)
          case Err(e) => Err(e)
          case Ok(ps) => Ok(Dict(DictSet(es, "items", List(ps))))
  }

  /** The reshaped page keeps every key of the backend's page in place and
      every value but `items`, which holds one five-field entry per listed flight. */
  lemma ReshapeKeepsPage(flights: Value)
    ensures var r := Reshape(flights);
      r.Ok? ==>
        && flights.Dict? && r.value.Dict?
        && Keys(r.value.entries) == Keys(flights.entries)
        && (forall k :: k != "items" ==> Lookup(r.value.entries, k) == Lookup(flights.entries, k))
        && Lookup(r.value.entries, "items").Some? && Lookup(r.value.entries, "items").value.List?
        && var ps := Lookup(r.value.entries, "items").value.items;
           |ps| == |Iterate(Lookup(flights.entries, "items").value).value| &&
           forall i :: 0 <= i < |ps| ==> ps[i].Dict? && Keys(ps[i].entries) == FlightKeys
  {
    if Reshape(flights).Ok? {
      var es := flights.entries;
      var fs := Iterate(Index(flights, "items").value).value;
      var ps := ProjectFlights(fs).value;
      DictSetKeys(es, "items", List(ps));
      DictSetLookup(es, "items", List(ps));
    }
  }

  /** `GET /flights`: page and size go through `int()` before the guard. */
  function GetFlightsSpec(b: Breaker, w: World, page: QueryParam, size: QueryParam, ex: Exchange): (Outcome, World) {
    match ParseQuery(page)
    case Err(e) => (Raised(Python(e)), w)
    case Ok(p) =>
      match ParseQuery(size)
      case Err(e) => (Raised(Python(e)), w)
      case Ok(s) =>
        var inner := Json(ex.reply);
        var (admitted, w1) := Guarded(b, w, "flight", FlightList(FlightsUrl(Some(p), Some(s))), ex, inner.Threw?);
        if !admitted then (Raised(Unavailable("flight")), w1)
        else
          match inner
          case Threw(f) => (Raised(f), w1)
          case Done(flights) =>
            match Reshape(flights)
            case Err(e) => (Raised(Python(e)), w1)
            case Ok(dat) => (Respond(200, Some(dat)), w1)
  }

  /** Since `int()` never yields `None`, every listing request carries both
      parameters, `page` shifted down by one; a missing or malformed parameter
      raises before any request. */
  lemma GetFlightsRequestsBothParameters(b: Breaker, w: World, page: QueryParam, size: QueryParam, ex: Exchange)
    ensures var (o, w') := GetFlightsSpec(b, w, page, size, ex);
      && (page.Numeral? && size.Numeral? ==>
           && w'.log == w.log + [Attempt(FlightList("/flights?page=" + IntToString(page.n - 1) + "&size=" + IntToString(size.n)),
                                         b.enter(w.store, "flight", ex.now).0)]
           && NumeralValue(IntToString(page.n - 1)) == page.n - 1 && NumeralValue(IntToString(size.n)) == size.n)
      && (!page.Numeral? || !size.Numeral? ==>
           w' == w && o == Raised(Python(if !page.Numeral? then ParseQuery(page).error else ParseQuery(size).error)))
  {
    if page.Numeral? && size.Numeral? {
      IntToStringRoundTrip(page.n - 1);
      IntToStringRoundTrip(size.n);
      FlightsUrlBoth(page.n, size.n);
    }
  }

  lemma FlightsUrlBoth(page: int, size: int)
    ensures FlightsUrl(Some(page), Some(size)) == "/flights?page=" + IntToString(page - 1) + "&size=" + IntToString(size)
  {
    var p, q := IntToString(page - 1), IntToString(size);
    assert FlightsUrl(Some(page), Some(size)) == "/flights" + "?" + "page=" + p + "&" + "size=" + q;
    assert "/flights" + "?" + "page=" == "/flights?page=";
    assert "&" + "size=" == "&size=";
  }

  // ---------------------------------------------------------------------------
  // The gateway process
  // ---------------------------------------------------------------------------

  /** The gateway's module-level state: the breaker `cb` and the list
      `retry_coros`, with a ghost log of the guard entries. Each handler is
      proved to act on this state as its specification function does on a
      `World`. */
  class Gateway {
    const cb: CircuitBreaker
    var retryCoros: seq<RetryTask>
    ghost var log: seq<Attempt>

    ghost function Model(): World
      reads this, cb
    {
      World(cb.Model(), retryCoros, log)
    }

    /** The guard `cb` provides. */
    function Guards(): Breaker {
      BreakerOf(cb.Cfg())
    }

    /** The module's start-up: a breaker with the default thresholds and no queued retries. */
    constructor ()
      ensures cb.Cfg() == DefaultConfig
      ensures Model() == World(EmptyStore, [], [])
    {
      cb := new CircuitBreaker();
      retryCoros := [];
      log := [];
    }

    /** `with cb.guard(service):` around `call`, whose body raised when `raised`. */
    method Guard(service: string, call: Call, ex: Exchange, raised: bool) returns (admitted: bool)
      modifies this, cb
      ensures (admitted, Model()) == Guarded(Guards(), old(Model()), service, call, ex, raised)
    {
      admitted := cb.Enter(service, ex.now);
      log := log + [Attempt(call, admitted)];
      if admitted {
        cb.Exit(service, ex.elapsed, !raised);
      }
    }

    /** `raw_revoke_bonus(uid)`. */
    method RawRevokeBonus(uid: Value, ex: Exchange)
      modifies this, cb
      ensures Model() == RawRevokeBonusSpec(Guards(), old(Model()), uid, ex)
    {
      var inner := RevokeBonusBlock(ex.reply);
      var admitted := Guard("bonus", PrivilegeDrop(uid), ex, inner.Threw?);
      if !admitted || inner.Threw? {
        retryCoros := retryCoros + [RetryRevokeBonus(uid)];
      }
    }

    /** `raw_revoke_ticket(uid)`. */
    method RawRevokeTicket(uid: Value, ex: Exchange)
      modifies this, cb
      ensures Model() == RawRevokeTicketSpec(Guards(), old(Model()), uid, ex)
    {
      var inner := Json(ex.reply);
      var admitted := Guard("ticket", TicketDelete(uid), ex, inner.Threw?);
      if !admitted || inner.Threw? {
        retryCoros := retryCoros + [RetryRevokeTicket(uid)];
      }
    }

    /** `retry_foo`: a queued task runs its revocation again after its delay. */
    method RunQueuedRetry(task: RetryTask, ex: Exchange)
      modifies this, cb
      ensures Model() == RunRetry(Guards(), old(Model()), task, ex)
    {
      match task
      case RetryRevokeBonus(uid) => RawRevokeBonus(uid, ex);
      case RetryRevokeTicket(uid) => RawRevokeTicket(uid, ex);
    }

    /** `DELETE /tickets/{ticketUid}`. */
    method RevokeTicket(uid: Value, bonusEx: Exchange, ticketEx: Exchange) returns (o: Outcome)
      modifies this, cb
      ensures (o, Model()) == RevokeTicketSpec(Guards(), old(Model()), uid, bonusEx, ticketEx)
    {
      RawRevokeBonus(uid, bonusEx);
      RawRevokeTicket(uid, ticketEx);
      return Respond(204, None);
    }

    /** The two revocations of the purchase's compensation. */
    method Compensation(uid: Value, exs: SagaExchanges)
      modifies this, cb
      ensures Model() == Compensate(Guards(), old(Model()), uid, exs)
    {
      RawRevokeTicket(uid, exs.revokeTicket);
      RawRevokeBonus(uid, exs.revokeBonus);
    }

    /** `POST /tickets`: the purchase saga. */
    method PostTicket(user: Option<string>, body: Option<Value>, exs: SagaExchanges) returns (o: Outcome)
      modifies this, cb
      ensures (o, Model()) == PurchaseSpec(Guards(), old(Model()), user, body, exs)
    {
      if user.None? {
        return Respond(400, None);
      }
      if body.None? {
        return Raised(DecodeError);
      }
      if !body.value.Dict? {
        return Raised(Python(AttributeError));
      }
      var dat := body.value.entries;
      if Lookup(dat, "flightNumber").None? || Lookup(dat, "price").None? || Lookup(dat, "paidFromBalance").None? {
        return Respond(400, None);
      }
      var order := Order(user.value, dat, Lookup(dat, "flightNumber").value, Lookup(dat, "price").value,
                         Lookup(dat, "paidFromBalance").value);
      ghost var spec := PurchaseSpec(Guards(), old(Model()), user, body, exs);
      assert spec == FlightStage(Guards(), Model(), order, exs);

      var flight := FlightBlock(exs.flight.reply);
      var admitted := Guard("flight", FlightByNumber(order.flightNumber), exs.flight, flight.Threw?);
      if !admitted {
        return Raised(Unavailable("flight"));
      }
      if flight.Threw? {
        return Raised(flight.fault);
      }
      if flight.value.NotOk? {
        return Respond(flight.value.status, None);
      }
      var info := flight.value.info;
      assert spec == TicketStage(Guards(), Model(), order, info, exs);

      var ticket := Json(exs.ticket.reply);
      admitted := Guard("ticket", TicketCreate(order.user, order.body), exs.ticket, ticket.Threw?);
      if !admitted {
        return Raised(Unavailable("ticket"));
      }
      if ticket.Threw? {
        return Raised(ticket.fault);
      }
      var uid := Index(ticket.value, "ticketUid");
      if uid.Err? {
        return Raised(Python(uid.error));
      }
      assert spec == BalanceStage(Guards(), Model(), order, info, uid.value, exs);

      var privilege := Json(exs.balance.reply);
      admitted := Guard("bonus", PrivilegeRead(order.user), exs.balance, privilege.Threw?);
      if !admitted {
        return Raised(Unavailable("bonus"));
      }
      if privilege.Threw? {
        return Raised(privilege.fault);
      }
      var balance := Index(privilege.value, "balance");
      if balance.Err? {
        return Raised(Python(balance.error));
      }
      var pay := SplitPayment(balance.value, order.price, order.paidFromBalance);
      if pay.Err? {
        return Raised(Python(pay.error));
      }
      assert spec == PostStage(Guards(), Model(), order, info, uid.value, pay.value, exs);

      var post := PostBlock(exs.post.reply);
      admitted := Guard("bonus", PrivilegePush(order.user, pay.value.operation, pay.value.operationPrice, uid.value),
                        exs.post, post.Threw?);
      if !admitted {
        return Raised(Unavailable("bonus"));
      }
      if post.Threw? {
        return Raised(post.fault);
      }
      assert spec == RereadStage(Guards(), Model(), order, info, uid.value, pay.value, exs);

      var reread := Json(exs.reread.reply);
      admitted := Guard("bonus", PrivilegeRead(order.user), exs.reread, reread.Threw?);
      if !admitted || reread.Threw? {
        var fault := if !admitted then Unavailable("bonus") else reread.fault;
        Compensation(uid.value, exs);
        return Raised(fault);
      }
      return Receipt(order, info, uid.value, pay.value, reread.value);
    }

    /** `get_flight_by_number(number)`. */
    method FetchFlight(number: Value, ex: Exchange) returns (r: Result<Value, Fault>)
      modifies this, cb
      ensures (r, Model()) == FetchFlightSpec(Guards(), old(Model()), number, ex)
    {
      var inner := Json(ex.reply);
      var admitted := Guard("flight", FlightByNumber(number), ex, inner.Threw?);
      if !admitted {
        return Err(Unavailable("flight"));
      }
      if inner.Threw? {
        return Err(inner.fault);
      }
      return Ok(inner.value);
    }

    /** `GET /me`: the two fetches, then one flight lookup per ticket. */
    method GetMe(user: Option<string>, ticketsEx: Exchange, bonusEx: Exchange, flights: nat -> Exchange) returns (o: Outcome)
      modifies this, cb
      ensures (o, Model()) == GetMeSpec(Guards(), old(Model()), user, ticketsEx, bonusEx, flights)
    {
      if user.None? {
        return Respond(400, None);
      }
      var ti := Json(ticketsEx.reply);
      var admitted := Guard("ticket", TicketList(user.value), ticketsEx, ti.Threw?);
      var tickets := if admitted && ti.Done? then ti.value else List([]);
      var bi := PrivilegeBlock(bonusEx.reply);
      admitted := Guard("bonus", PrivilegeRead(user.value), bonusEx, bi.Threw?);
      var privilege := if admitted && bi.Done? then bi.value else Null;
      var ts := Iterate(tickets);
      if ts.Err? {
        return Raised(Python(ts.error));
      }
      var items := MeLoop(ts.value, flights);
      if items.Err? {
        return Raised(items.error);
      }
      return Respond(200, Some(Dict([("tickets", List(items.value)), ("privilege", privilege)])));
    }

    /** One turn of `/me`'s ticket loop. */
    method MeEntry(t: Value, ex: Exchange) returns (r: Result<Value, Fault>)
      modifies this, cb
      ensures (r, Model()) == MeItem(Guards(), old(Model()), t, ex)
    {
      var number := Index(t, "flight_number");
      if number.Err? {
        return Err(Python(number.error));
      }
      var flight := FetchFlight(number.value, ex);
      if flight.Err? {
        return Err(flight.error);
      }
      var entries := Gather(MeFields(t, flight.value));
      if entries.Err? {
        return Err(Python(entries.error));
      }
      return Ok(Dict(entries.value));
    }

    /** `/me`'s ticket loop; the flight of ticket `i` is looked up with `flights(i)`. */
    method MeLoop(ts: seq<Value>, flights: nat -> Exchange) returns (r: Result<seq<Value>, Fault>)
      modifies this, cb
      ensures (r, Model()) == MeItems(Guards(), old(Model()), ts, flights, 0)
    {
      ghost var spec := MeItems(Guards(), Model(), ts, flights, 0);
      var items: seq<Value> := [];
      var i := 0;
      ExtendEmpty(spec);
      assert ts[0..] == ts;
      while i < |ts|
        invariant 0 <= i <= |ts|
        invariant spec == Extend(items, MeItems(Guards(), Model(), ts[i..], flights, i))
      {
        ghost var before := Model();
        MeItemsUnfold(Guards(), before, ts, flights, i);
        var item := MeEntry(ts[i], flights(i));
        if item.Err? {
          return Err(item.error);
        }
        ExtendStep(items, item.value, MeItems(Guards(), Model(), ts[i + 1..], flights, i + 1));
        items := items + [item.value];
        i := i + 1;
      }
      assert ts[i..] == [];
      assert items + [] == items;
      return Ok(items);
    }

    /** `GET /flights`. */
    method GetFlights(page: QueryParam, size: QueryParam, ex: Exchange) returns (o: Outcome)
      modifies this, cb
      ensures (o, Model()) == GetFlightsSpec(Guards(), old(Model()), page, size, ex)
    {
      var p := ParseQuery(page);
      if p.Err? {
        return Raised(Python(p.error));
      }
      var s := ParseQuery(size);
      if s.Err? {
        return Raised(Python(s.error));
      }
      var inner := Json(ex.reply);
      var admitted := Guard("flight", FlightList(FlightsUrl(Some(p.value), Some(s.value))), ex, inner.Threw?);
      if !admitted {
        return Raised(Unavailable("flight"));
      }
      if inner.Threw? {
        return Raised(inner.fault);
      }
      var flights := inner.value;
      if flights.List? {
        return Raised(Python(TypeError));
      }
      if !flights.Dict? {
        return Raised(Python(AttributeError));
      }
      var listed := Index(flights, "items");
      if listed.Err? {
        return Raised(Python(listed.error));
      }
      var fs := Iterate(listed.value);
      if fs.Err? {
        return Raised(Python(fs.error));
      }
      var items := CollectFlights(fs.value);
      if items.Err? {
        return Raised(Python(items.error));
      }
      return Respond(200, Some(Dict(DictSet(flights.entries, "items", List(items.value)))));
    }
  }

  /** `get_flights`'s loop: each listed flight is projected and appended in turn. */
  method CollectFlights(fs: seq<Value>) returns (r: Result<seq<Value>, PyException>)
    ensures r == ProjectFlights(fs)
  {
    var items: seq<Value> := [];
    var i := 0;
    while i < |fs|
      invariant 0 <= i <= |fs|
      invariant |items| == i && forall j :: 0 <= j < i ==> ProjectFlight(fs[j]) == Ok(items[j])
    {
      var p := ProjectFlight(fs[i]);
      if p.Err? {
        ProjectFlightsFirstError(fs, i);
        return Err(p.error);
      }
      items := items + [p.value];
      i := i + 1;
    }
    assert ProjectFlights(fs).Ok?;
    assert items == ProjectFlights(fs).value;
    return Ok(items);
  }

  /** The projection stops at the first flight that lacks a field, with that flight's error. */
  lemma {:induction false} ProjectFlightsFirstError(fs: seq<Value>, i: nat)
    requires i < |fs| && ProjectFlight(fs[i]).Err?
    requires forall j :: 0 <= j < i ==> ProjectFlight(fs[j]).Ok?
    ensures ProjectFlights(fs) == Err(ProjectFlight(fs[i]).error)
    decreases i
  {
    if i > 0 {
      assert fs[1..][i - 1] == fs[i];
      forall j | 0 <= j < i - 1 ensures ProjectFlight(fs[1..][j]).Ok? {
        assert fs[1..][j] == fs[j + 1];
      }
      ProjectFlightsFirstError(fs[1..], i - 1);
    }
  }

  /** The items gathered so far, in front of what the rest of the loop yields. */
  function Extend(items: seq<Value>, rest: (Result<seq<Value>, Fault>, World)): (Result<seq<Value>, Fault>, World) {
    match rest.0
    case Err(f) => (Err(f), rest.1)
    case Ok(more) => (Ok(items + more), rest.1)
  }

  lemma ExtendEmpty(rest: (Result<seq<Value>, Fault>, World))
    ensures Extend([], rest) == rest
  {
    if rest.0.Ok? {
      assert [] + rest.0.value == rest.0.value;
    }
  }

  lemma ExtendStep(items: seq<Value>, item: Value, rest: (Result<seq<Value>, Fault>, World))
    ensures Extend(items, Extend([item], rest)) == Extend(items + [item], rest)
  {
    if rest.0.Ok? {
      assert items + ([item] + rest.0.value) == items + [item] + rest.0.value;
    }
  }

  lemma MeItemsUnfold(b: Breaker, w: World, ts: seq<Value>, flights: nat -> Exchange, i: nat)
    requires i < |ts|
    ensures var p := MeItem(b, w, ts[i], flights(i));
      && (p.0.Err? ==> MeItems(b, w, ts[i..], flights, i) == (Err(p.0.error), p.1))
      && (p.0.Ok? ==> MeItems(b, w, ts[i..], flights, i) == Extend([p.0.value], MeItems(b, p.1, ts[i + 1..], flights, i + 1)))
  {
    assert ts[i..][0] == ts[i];
    assert ts[i..][1..] == ts[i + 1..];
  }
}

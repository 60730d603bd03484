/** The API gateway's per-service circuit breaker and its call guard.

    For every service name the breaker keeps a history of call latencies (whole
    seconds) and success flags, and an optional time at which it opened the
    circuit. Its three dictionaries are Python `defaultdict`s, so a READ of a
    missing key inserts the default value; the model keeps those insertions
    because the number of keys of the success dictionary decides when histories
    are trimmed.

    The state is kept twice: as the fields of the class `CircuitBreaker`, which
    its methods update in place as the source does, and as a `Store` value on
    which the pure functions below define each operation. Every method is proved
    to move the fields exactly as its function moves the `Store`; the lemmas at
    the end are about the functions. */
module CircuitBreakers {
  import opened Common

  datatype CircuitState = Closed | HalfOpened | Opened

  /** The constructor arguments. `timeThresholdTenths` is `time_threshold_sec`
      in tenths of a second (the default 3.2 s is 32), so that the mean-latency
      test is integer arithmetic. */
  datatype Config = Config(storeLimit: int, errorRate: int, timeThresholdTenths: int, halfOpenThresholdSec: int)

  const DefaultConfig := Config(100, 75, 32, 10)

  /** The three dictionaries: success flags, latencies and opening time per service. */
  datatype Store = Store(reqSuccess: map<string, seq<bool>>, reqTimes: map<string, seq<int>>, closedAt: map<string, Option<int>>)

  const EmptyStore := Store(map[], map[], map[])

  /** The value a `defaultdict` read yields (without the insertion it makes). */
  function Successes(st: Store, s: string): seq<bool> {
    if s in st.reqSuccess then st.reqSuccess[s] else []
  }

  function Times(st: Store, s: string): seq<int> {
    if s in st.reqTimes then st.reqTimes[s] else []
  }

  function ClosedAt(st: Store, s: string): Option<int> {
    if s in st.closedAt then st.closedAt[s] else None
  }

  /** Both histories of every service have the same length. */
  ghost predicate Balanced(st: Store) {
    forall s :: |Successes(st, s)| == |Times(st, s)|
  }

  function Sum(xs: seq<int>): int {
    if xs == [] then 0 else xs[0] + Sum(xs[1..])
  }

  function CountTrue(xs: seq<bool>): nat {
    if xs == [] then 0 else (if xs[0] then 1 else 0) + CountTrue(xs[1..])
  }

  /** `check_req_time_closed` on a history: healthy when it is empty or its mean
      latency is below the threshold (`Sum / len < tenths / 10`, cross-multiplied). */
  predicate LatencyHealthy(cfg: Config, times: seq<int>) {
    |times| == 0 || 10 * Sum(times) < cfg.timeThresholdTenths * |times|
  }

  /** `check_req_success_closed` on a history: healthy when it is empty or the
      success fraction exceeds `errorRate / 100` (cross-multiplied). */
  predicate SuccessHealthy(cfg: Config, succ: seq<bool>) {
    |succ| == 0 || 100 * CountTrue(succ) > cfg.errorRate * |succ|
  }

  predicate IsSuffix<T(==)>(r: seq<T>, xs: seq<T>) {
    |r| <= |xs| && xs[|xs| - |r|..] == r
  }

  /** Python's `xs[-k:]`. For `k > 0` the last `k` entries (all of them when
      there are fewer); `xs[-0:]` is `xs[0:]`, the whole list; for `k < 0` the
      slice starts at `-k` and drops the first `-k` entries. */
  function KeepLast<T(==)>(xs: seq<T>, k: int): (r: seq<T>)
    ensures IsSuffix(r, xs)
    ensures k > 0 ==> |r| == Min(k, |xs|)
    ensures k == 0 ==> |r| == |xs|
    ensures k < 0 ==> |r| == Max(0, |xs| + k)
  {
    if k > 0 then xs[Max(0, |xs| - k)..]
    else if k == 0 then xs
    else xs[Min(-k, |xs|)..]
  }

  /** Whether `get_state` trims: the number of service KEYS of the success
      dictionary, not the length of a history, is compared with the limit. */
  predicate TrimApplies(cfg: Config, st: Store) {
    |st.reqSuccess| >= cfg.storeLimit
  }

  /** The latency history `get_state` judges: trimmed when `TrimApplies`. */
  function TimesWindow(cfg: Config, st: Store, s: string): seq<int> {
    if TrimApplies(cfg, st) then KeepLast(Times(st, s), cfg.storeLimit) else Times(st, s)
  }

  function SuccessWindow(cfg: Config, st: Store, s: string): seq<bool> {
    if TrimApplies(cfg, st) then KeepLast(Successes(st, s), cfg.storeLimit) else Successes(st, s)
  }

  /** The trimming step of `get_state`, first thing after the opening check (both reads insert `s`). */
  function Trim(cfg: Config, st: Store, s: string): (r: Store)
    ensures r.closedAt == st.closedAt
    ensures Times(r, s) == TimesWindow(cfg, st, s) && Successes(r, s) == SuccessWindow(cfg, st, s)
    ensures forall o :: o != s ==> Times(r, o) == Times(st, o) && Successes(r, o) == Successes(st, o)
  {
    if TrimApplies(cfg, st) then
      var succ := KeepLast(Successes(st, s), cfg.storeLimit);
      var times := KeepLast(Times(st, s), cfg.storeLimit);
      SetHistories(st, s, succ, times);
      Store(st.reqSuccess[s := succ], st.reqTimes[s := times], st.closedAt)
    else st
  }

  /** Assigning both histories of `s` leaves every other service's alone. */
  lemma SetHistories(st: Store, s: string, succ: seq<bool>, times: seq<int>)
    ensures var r := Store(st.reqSuccess[s := succ], st.reqTimes[s := times], st.closedAt);
      && Times(r, s) == times && Successes(r, s) == succ
      && forall o :: o != s ==> Times(r, o) == Times(st, o) && Successes(r, o) == Successes(st, o)
  {
  }

  /** `observe`: one latency and one success flag appended for `s`. */
  function ObserveSpec(st: Store, s: string, t: int, ok: bool): (r: Store)
    ensures Successes(r, s) == Successes(st, s) + [ok] && Times(r, s) == Times(st, s) + [t]
    ensures forall o :: o != s ==> Successes(r, o) == Successes(st, o) && Times(r, o) == Times(st, o)
    ensures r.closedAt == st.closedAt
    ensures Balanced(st) ==> Balanced(r)
  {
    st.(reqTimes := st.reqTimes[s := Times(st, s) + [t]],
        reqSuccess := st.reqSuccess[s := Successes(st, s) + [ok]])
  }

  /** A `defaultdict` read of `closed_at_sec[s]`: inserts the key, changes no value. */
  function TouchClosedAt(st: Store, s: string): (r: Store)
    ensures forall o :: ClosedAt(r, o) == ClosedAt(st, o)
    ensures r.reqTimes == st.reqTimes && r.reqSuccess == st.reqSuccess
  {
    st.(closedAt := st.closedAt[s := ClosedAt(st, s)])
  }

  /** A `defaultdict` read of `req_times[s]`. */
  function TouchTimes(st: Store, s: string): (r: Store)
    ensures forall o :: Times(r, o) == Times(st, o)
    ensures r.reqSuccess == st.reqSuccess && r.closedAt == st.closedAt
  {
    st.(reqTimes := st.reqTimes[s := Times(st, s)])
  }

  /** A `defaultdict` read of `req_success[s]`. */
  function TouchSuccess(st: Store, s: string): (r: Store)
    ensures forall o :: Successes(r, o) == Successes(st, o)
    ensures r.reqTimes == st.reqTimes && r.closedAt == st.closedAt
  {
    st.(reqSuccess := st.reqSuccess[s := Successes(st, s)])
  }

  /** `closed_at_sec[s] = t`. */
  function SetClosedAt(st: Store, s: string, t: int): (r: Store)
    ensures ClosedAt(r, s) == Some(t)
    ensures forall o :: o != s ==> ClosedAt(r, o) == ClosedAt(st, o)
    ensures r.reqTimes == st.reqTimes && r.reqSuccess == st.reqSuccess
  {
    st.(closedAt := st.closedAt[s := Some(t)])
  }

  /** The health judgement of `get_state` (trimming, then the latency and success checks), reached when no opening time is recorded. */
  function JudgeSpec(cfg: Config, st: Store, s: string, now: int): (CircuitState, Store) {
    var st3 := TouchTimes(Trim(cfg, st, s), s);
    if !LatencyHealthy(cfg, Times(st3, s)) then
      (Opened, SetClosedAt(st3, s, now))
    else
      var st4 := TouchSuccess(st3, s);
      if !SuccessHealthy(cfg, Successes(st4, s)) then (Opened, SetClosedAt(st4, s, now))
      else (Closed, st4)
  }

  /** `get_state(s)` at clock reading `now`: the state it returns and the store it leaves. */
  function GetStateSpec(cfg: Config, st: Store, s: string, now: int): (CircuitState, Store) {
    var st1 := TouchClosedAt(st, s);
    match ClosedAt(st, s)
    case Some(c) =>
      if now - c >= cfg.halfOpenThresholdSec then
        (HalfOpened, SetClosedAt(st1, s, TruncDiv(now + c, 2)))
      else
        (Opened, st1)
    case None =>
      JudgeSpec(cfg, st1, s, now)
  }

  /** One `get_state` query, as a function of the store and the service name. */
  type StateQuery = (Store, string) -> (CircuitState, Store)

  /** `get_state` at clock reading `now`. */
  function StateStep(cfg: Config, now: int): StateQuery {
    (st: Store, s: string) => GetStateSpec(cfg, st, s, now)
  }

  /** The loop of `get_combo_state` from `names` on, with `acc` the state so far. */
  function ComboFrom(query: StateQuery, st: Store, names: seq<string>, acc: CircuitState): (CircuitState, Store)
    decreases |names|
  {
    if names == [] then (acc, st)
    else
      var (state, st') := query(st, names[0]);
      if state == Opened then (Opened, st')
      else ComboFrom(query, st', names[1..], if state == HalfOpened then HalfOpened else acc)
  }

  /** One step of `ComboFrom` taken at position `i` of `names`. */
  lemma ComboFromUnfold(query: StateQuery, st: Store, names: seq<string>, i: nat, acc: CircuitState)
    requires i < |names|
    ensures var (state, st') := query(st, names[i]);
      ComboFrom(query, st, names[i..], acc) ==
        if state == Opened then (Opened, st')
        else ComboFrom(query, st', names[i + 1..], if state == HalfOpened then HalfOpened else acc)
  {
    assert names[i..][0] == names[i];
    assert names[i..][1..] == names[i + 1..];
  }

  /** `get_combo_state(names)`: every `get_state` call shares the one clock reading `now`. */
  function ComboSpec(cfg: Config, st: Store, names: seq<string>, now: int): (CircuitState, Store) {
    ComboFrom(StateStep(cfg, now), st, names, Closed)
  }

  /** `_CBGuard.__enter__`: whether the call may go ahead, and the store `get_state` leaves. */
  function EnterSpec(cfg: Config, st: Store, s: string, now: int): (bool, Store) {
    var (state, st') := GetStateSpec(cfg, st, s, now);
    (state != Opened, st')
  }

  /** A whole `with cb.guard(s):` block around a call that takes `elapsed`
      seconds and raises when `raised`: whether the call ran, and the new store. */
  function GuardSpec(cfg: Config, st: Store, s: string, now: int, elapsed: int, raised: bool): (bool, Store) {
    var (admitted, st') := EnterSpec(cfg, st, s, now);
    if admitted then (true, ObserveSpec(st', s, elapsed, !raised)) else (false, st')
  }

  // ---------------------------------------------------------------------------
  // Properties of the breaker's operations
  // ---------------------------------------------------------------------------

  /** `get_state` reads and writes only the entries of `s`. */
  lemma GetStateIsLocal(cfg: Config, st: Store, s: string, now: int, o: string)
    requires o != s
    ensures var st' := GetStateSpec(cfg, st, s, now).1;
      Times(st', o) == Times(st, o) && Successes(st', o) == Successes(st, o) && ClosedAt(st', o) == ClosedAt(st, o)
  {
    var st1 := TouchClosedAt(st, s);
    assert Times(st1, o) == Times(st, o) && Successes(st1, o) == Successes(st, o) && ClosedAt(st1, o) == ClosedAt(st, o);
    if ClosedAt(st, s) == None {
      JudgeIsLocal(cfg, st1, s, now, o);
    }
  }

  lemma JudgeIsLocal(cfg: Config, st: Store, s: string, now: int, o: string)
    requires o != s
    ensures var st' := JudgeSpec(cfg, st, s, now).1;
      Times(st', o) == Times(st, o) && Successes(st', o) == Successes(st, o) && ClosedAt(st', o) == ClosedAt(st, o)
  {
    var st3 := TouchTimes(Trim(cfg, st, s), s);
    assert Times(st3, o) == Times(st, o) && Successes(st3, o) == Successes(st, o) && ClosedAt(st3, o) == ClosedAt(st, o);
    var st4 := TouchSuccess(st3, s);
    assert Times(st4, o) == Times(st, o) && Successes(st4, o) == Successes(st, o) && ClosedAt(st4, o) == ClosedAt(st, o);
  }

  /** A service never seen before is CLOSED, and stays unopened. */
  lemma FreshServiceIsClosed(cfg: Config, st: Store, s: string, now: int)
    requires ClosedAt(st, s) == None && Successes(st, s) == [] && Times(st, s) == []
    ensures GetStateSpec(cfg, st, s, now).0 == Closed
    ensures ClosedAt(GetStateSpec(cfg, st, s, now).1, s) == None
  {
  }

  /** With no opening time recorded, `get_state` opens the circuit (and records
      `now`) exactly when the judged history has mean latency at or above the
      threshold or a success fraction at or below `errorRate / 100`; otherwise it
      reports CLOSED and records nothing. The judged histories are what it leaves. */
  lemma OpensExactlyWhenUnhealthy(cfg: Config, st: Store, s: string, now: int)
    requires ClosedAt(st, s) == None
    ensures var (state, st') := GetStateSpec(cfg, st, s, now);
      var times := TimesWindow(cfg, st, s);
      var succ := SuccessWindow(cfg, st, s);
      && (state == Opened <==>
            (|times| > 0 && 10 * Sum(times) >= cfg.timeThresholdTenths * |times|)
            || (|succ| > 0 && 100 * CountTrue(succ) <= cfg.errorRate * |succ|))
      && state != HalfOpened
      && ClosedAt(st', s) == (if state == Opened then Some(now) else None)
      && Times(st', s) == times && Successes(st', s) == succ
  {
    var st1 := TouchClosedAt(st, s);
    assert TimesWindow(cfg, st1, s) == TimesWindow(cfg, st, s);
    assert SuccessWindow(cfg, st1, s) == SuccessWindow(cfg, st, s);
  }

  /** Time is judged first and the judgement short-circuits: when the latency
      test fails, the success dictionary is not read, so a service without a
      success entry (and a store too small to trim) gains no key there. */
  lemma LatencyFailureSkipsSuccessRead(cfg: Config, st: Store, s: string, now: int)
    requires ClosedAt(st, s) == None && !TrimApplies(cfg, st) && s !in st.reqSuccess
    requires !LatencyHealthy(cfg, Times(st, s))
    ensures GetStateSpec(cfg, st, s, now).1.reqSuccess == st.reqSuccess
  {
  }

  /** With an opening time `c` recorded: once `halfOpenThresholdSec` seconds have
      passed the state is HALF_OPENED and the opening time moves halfway to
      `now` (rounded down), leaving `now - c'` the remaining half of the distance;
      before that it is OPENED and nothing changes. Histories are never touched. */
  lemma HalfOpenBackoff(cfg: Config, st: Store, s: string, now: int, c: int)
    requires ClosedAt(st, s) == Some(c) && 0 <= c <= now
    ensures var (state, st') := GetStateSpec(cfg, st, s, now);
      && Times(st', s) == Times(st, s) && Successes(st', s) == Successes(st, s)
      && (now - c >= cfg.halfOpenThresholdSec ==>
            && state == HalfOpened
            && ClosedAt(st', s).Some?
            && c <= ClosedAt(st', s).value <= now
            && now - ClosedAt(st', s).value == (now - c + 1) / 2)
      && (now - c < cfg.halfOpenThresholdSec ==> state == Opened && ClosedAt(st', s) == Some(c))
  {
  }

  /** The worked example: opened at 1000, asked at 1010 with the default
      10-second window, the breaker is HALF_OPENED and re-arms at 1005. */
  lemma HalfOpenExample(st: Store)
    requires ClosedAt(st, "ticket") == Some(1000)
    ensures GetStateSpec(DefaultConfig, st, "ticket", 1010).0 == HalfOpened
    ensures ClosedAt(GetStateSpec(DefaultConfig, st, "ticket", 1010).1, "ticket") == Some(1005)
  {
  }

  /** `get_state` keeps every service's two histories equally long. */
  lemma GetStateKeepsBalanced(cfg: Config, st: Store, s: string, now: int)
    requires Balanced(st)
    ensures Balanced(GetStateSpec(cfg, st, s, now).1)
  {
    var st' := GetStateSpec(cfg, st, s, now).1;
    forall o
      ensures |Successes(st', o)| == |Times(st', o)|
    {
      if o == s {
        assert |Successes(st, s)| == |Times(st, s)|;
        if ClosedAt(st, s) == None {
          OpensExactlyWhenUnhealthy(cfg, st, s, now);
        }
      } else {
        GetStateIsLocal(cfg, st, s, now, o);
      }
    }
  }

  /** The calls the gateway makes on the breaker, in the order they happen. */
  datatype Event = Query(service: string, now: int) | Record(service: string, elapsed: int, ok: bool)

  function Step(cfg: Config, st: Store, e: Event): Store {
    match e
    case Query(s, now) => GetStateSpec(cfg, st, s, now).1
    case Record(s, t, ok) => ObserveSpec(st, s, t, ok)
  }

  /** The store after a whole sequence of calls. */
  function Replay(cfg: Config, st: Store, events: seq<Event>): Store
    decreases |events|
  {
    if events == [] then st
    else Step(cfg, Replay(cfg, st, events[..|events| - 1]), events[|events| - 1])
  }

  /** One call never clears an opening time, and a query of an opened service never answers CLOSED. */
  lemma StepKeepsOpened(cfg: Config, st: Store, e: Event, s: string)
    requires ClosedAt(st, s).Some?
    ensures ClosedAt(Step(cfg, st, e), s).Some?
    ensures e.Query? && e.service == s ==> GetStateSpec(cfg, st, s, e.now).0 != Closed
  {
    if e.Query? && e.service != s {
      GetStateIsLocal(cfg, st, e.service, e.now, s);
    }
  }

  /** `closed_at_sec` is never reset to `None`: once a service has been opened,
      no later sequence of queries and observations brings it back, and every
      later query of it answers OPENED or HALF_OPENED, never CLOSED. */
  lemma {:induction false} OpenedNeverClosesAgain(cfg: Config, st: Store, events: seq<Event>, s: string)
    requires ClosedAt(st, s).Some?
    ensures ClosedAt(Replay(cfg, st, events), s).Some?
    ensures forall i :: 0 <= i < |events| && events[i].Query? && events[i].service == s ==>
              GetStateSpec(cfg, Replay(cfg, st, events[..i]), s, events[i].now).0 != Closed
    decreases |events|
  {
    if events != [] {
      var n := |events| - 1;
      var front := events[..n];
      OpenedNeverClosesAgain(cfg, st, front, s);
      StepKeepsOpened(cfg, Replay(cfg, st, front), events[n], s);
      forall i | 0 <= i < |events| && events[i].Query? && events[i].service == s
        ensures GetStateSpec(cfg, Replay(cfg, st, events[..i]), s, events[i].now).0 != Closed
      {
        if i < n {
          assert front[..i] == events[..i];
          assert front[i] == events[i];
        } else {
          assert events[..i] == front;
        }
      }
    }
  }

  /** The states `get_combo_state` sees, one per name it queries: it stops after the first OPENED. */
  function Probe(query: StateQuery, st: Store, names: seq<string>): (seq<CircuitState>, Store)
    decreases |names|
  {
    if names == [] then ([], st)
    else
      var (state, st') := query(st, names[0]);
      if state == Opened then ([Opened], st')
      else
        var (rest, st'') := Probe(query, st', names[1..]);
        ([state] + rest, st'')
  }

  /** The store after querying every name of `names`, in order. */
  function QueryAll(query: StateQuery, st: Store, names: seq<string>): Store
    decreases |names|
  {
    if names == [] then st else QueryAll(query, query(st, names[0]).1, names[1..])
  }

  lemma {:induction false} ProbeQueriesPrefix(query: StateQuery, st: Store, names: seq<string>)
    ensures var (seen, st') := Probe(query, st, names);
      && |seen| <= |names|
      && (forall i :: 0 <= i < |seen| - 1 ==> seen[i] != Opened)
      && (|seen| < |names| ==> |seen| > 0 && seen[|seen| - 1] == Opened)
      && st' == QueryAll(query, st, names[..|seen|])
    decreases |names|
  {
    if names != [] {
      var (state, st1) := query(st, names[0]);
      if state == Opened {
        assert names[..1] == [names[0]];
        assert QueryAll(query, st, names[..1]) == QueryAll(query, st1, []);
      } else {
        ProbeQueriesPrefix(query, st1, names[1..]);
        var (rest, st2) := Probe(query, st1, names[1..]);
        var pre := names[..|rest| + 1];
        assert pre[0] == names[0] && pre[1..] == names[1..][..|rest|];
      }
    }
  }

  lemma {:induction false} ComboFromFollowsProbe(query: StateQuery, st: Store, names: seq<string>, acc: CircuitState)
    requires acc != Opened
    ensures var (seen, st') := Probe(query, st, names);
      ComboFrom(query, st, names, acc) ==
        (if Opened in seen then Opened else if HalfOpened in seen then HalfOpened else acc, st')
    decreases |names|
  {
    if names != [] {
      var (state, st1) := query(st, names[0]);
      if state != Opened {
        ComboFromFollowsProbe(query, st1, names[1..], if state == HalfOpened then HalfOpened else acc);
      }
    }
  }

  /** `get_combo_state`: OPENED as soon as one service is OPENED, without querying
      the names after it; otherwise HALF_OPENED if any queried service is
      HALF_OPENED; otherwise CLOSED (also for an empty list). The store is the
      one left by querying exactly the names before and including the first OPENED. */
  lemma ComboState(cfg: Config, st: Store, names: seq<string>, now: int)
    ensures var (r, st') := ComboSpec(cfg, st, names, now);
      var (seen, _) := Probe(StateStep(cfg, now), st, names);
      && |seen| <= |names|
      && (|seen| < |names| ==> |seen| > 0 && seen[|seen| - 1] == Opened)
      && (forall i :: 0 <= i < |seen| - 1 ==> seen[i] != Opened)
      && st' == QueryAll(StateStep(cfg, now), st, names[..|seen|])
      && (r == Opened <==> Opened in seen)
      && (r == HalfOpened <==> Opened !in seen && HalfOpened in seen)
      && (r == Closed <==> Opened !in seen && HalfOpened !in seen)
  {
    ComboFromFollowsProbe(StateStep(cfg, now), st, names, Closed);
    ProbeQueriesPrefix(StateStep(cfg, now), st, names);
  }

  /** The guard: when the state at entry is OPENED the call is refused and
      nothing is observed; otherwise exactly one observation is appended,
      with the elapsed seconds and success meaning "no exception escaped". */
  lemma GuardObservesOnce(cfg: Config, st: Store, s: string, now: int, elapsed: int, raised: bool)
    ensures var (admitted, st') := GuardSpec(cfg, st, s, now, elapsed, raised);
      var (state, mid) := GetStateSpec(cfg, st, s, now);
      && (admitted <==> state != Opened)
      && (!admitted ==> st' == mid)
      && (admitted ==>
            Successes(st', s) == Successes(mid, s) + [!raised]
            && Times(st', s) == Times(mid, s) + [elapsed]
            && ClosedAt(st', s) == ClosedAt(mid, s))
  {
  }

  class CircuitBreaker {
    var reqSuccess: map<string, seq<bool>>
    var reqTimes: map<string, seq<int>>
    var closedAtSec: map<string, Option<int>>
    const storeLimit: int
    const errorRate: int
    const timeThresholdTenths: int
    const halfOpenThresholdSec: int

    function Cfg(): Config {
      Config(storeLimit, errorRate, timeThresholdTenths, halfOpenThresholdSec)
    }

    ghost function Model(): Store
      reads this
    {
      Store(reqSuccess, reqTimes, closedAtSec)
    }

    constructor (storeLimit: int := 100, errorRate: int := 75, timeThresholdTenths: int := 32, halfOpenThresholdSec: int := 10)
      ensures Cfg() == Config(storeLimit, errorRate, timeThresholdTenths, halfOpenThresholdSec)
      ensures Model() == EmptyStore
    {
      this.reqSuccess := map[];
      this.reqTimes := map[];
      this.closedAtSec := map[];
      this.storeLimit := storeLimit;
      this.errorRate := errorRate;
      this.timeThresholdTenths := timeThresholdTenths;
      this.halfOpenThresholdSec := halfOpenThresholdSec;
    }

    method Observe(s: string, reqTimeSec: int, wasSuccess: bool)
      modifies this
      ensures Model() == ObserveSpec(old(Model()), s, reqTimeSec, wasSuccess)
    {
      var times := if s in reqTimes then reqTimes[s] else [];
      reqTimes := reqTimes[s := times + [reqTimeSec]];
      var succ := if s in reqSuccess then reqSuccess[s] else [];
      reqSuccess := reqSuccess[s := succ + [wasSuccess]];
    }

    method CheckReqSuccessClosed(s: string) returns (healthy: bool)
      modifies this
      ensures healthy == SuccessHealthy(Cfg(), Successes(old(Model()), s))
      ensures Model() == TouchSuccess(old(Model()), s)
    {
      if s !in reqSuccess {
        reqSuccess := reqSuccess[s := []];
      }
      var h := reqSuccess[s];
      if |h| == 0 {
        return true;
      }
      healthy := 100 * CountTrue(h) > errorRate * |h|;
    }

    method CheckReqTimeClosed(s: string) returns (healthy: bool)
      modifies this
      ensures healthy == LatencyHealthy(Cfg(), Times(old(Model()), s))
      ensures Model() == TouchTimes(old(Model()), s)
    {
      if s !in reqTimes {
        reqTimes := reqTimes[s := []];
      }
      var h := reqTimes[s];
      if |h| == 0 {
        return true;
      }
      healthy := 10 * Sum(h) < timeThresholdTenths * |h|;
    }

    method GetState(s: string, now: int) returns (state: CircuitState)
      modifies this
      ensures (state, Model()) == GetStateSpec(Cfg(), old(Model()), s, now)
    {
      if s !in closedAtSec {
        closedAtSec := closedAtSec[s := None];
      }
      if closedAtSec[s].Some? {
        var c := closedAtSec[s].value;
        if now - c >= halfOpenThresholdSec {
          assert ClosedAt(old(Model()), s) == Some(c);
          closedAtSec := closedAtSec[s := Some(TruncDiv(now + c, 2))];
          assert GetStateSpec(Cfg(), old(Model()), s, now).1 == Model();
          return HalfOpened;
        } else {
          assert GetStateSpec(Cfg(), old(Model()), s, now).1 == Model();
          return Opened;
        }
      }
      ghost var st1 := Model();
      assert ClosedAt(old(Model()), s) == None;
      assert st1 == TouchClosedAt(old(Model()), s);
      if |reqSuccess| >= storeLimit {
        var succ := if s in reqSuccess then reqSuccess[s] else [];
        reqSuccess := reqSuccess[s := KeepLast(succ, storeLimit)];
        var times := if s in reqTimes then reqTimes[s] else [];
        reqTimes := reqTimes[s := KeepLast(times, storeLimit)];
      }
      assert Model() == Trim(Cfg(), st1, s);
      var timeOk := CheckReqTimeClosed(s);
      ghost var st3 := Model();
      assert st3 == TouchTimes(Trim(Cfg(), st1, s), s);
      if !timeOk {
        closedAtSec := closedAtSec[s := Some(now)];
        assert Model() == SetClosedAt(st3, s, now);
        return Opened;
      }
      var successOk := CheckReqSuccessClosed(s);
      if !successOk {
        ghost var st4 := Model();
        closedAtSec := closedAtSec[s := Some(now)];
        assert Model() == SetClosedAt(st4, s, now);
        return Opened;
      }
      return Closed;
    }

    method GetComboState(serviceNames: seq<string>, now: int) returns (state: CircuitState)
      modifies this
      ensures (state, Model()) == ComboSpec(Cfg(), old(Model()), serviceNames, now)
    {
      var ret := Closed;
      var i := 0;
      while i < |serviceNames|
        invariant 0 <= i <= |serviceNames|
        invariant ComboFrom(StateStep(Cfg(), now), Model(), serviceNames[i..], ret) == ComboSpec(Cfg(), old(Model()), serviceNames, now)
      {
        ComboFromUnfold(StateStep(Cfg(), now), Model(), serviceNames, i, ret);
        state := GetState(serviceNames[i], now);
        if state == HalfOpened {
          ret := state;
        } else if state == Opened {
          return state;
        }
        i := i + 1;
      }
      return ret;
    }

    /** `_CBGuard.__enter__`: `admitted` is false exactly when the guard raises. */
    method Enter(s: string, now: int) returns (admitted: bool)
      modifies this
      ensures (admitted, Model()) == EnterSpec(Cfg(), old(Model()), s, now)
    {
      var state := GetState(s, now);
      admitted := state != Opened;
    }

    /** `_CBGuard.__exit__`: records the elapsed whole seconds and whether no exception escaped. */
    method Exit(s: string, elapsed: int, succeeded: bool)
      modifies this
      ensures Model() == ObserveSpec(old(Model()), s, elapsed, succeeded)
    {
      Observe(s, elapsed, succeeded);
    }
  }
}

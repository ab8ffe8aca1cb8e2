/** The aggregation state of one correlation context and its closing rules.
    The state and condition types themselves (state.rs, conditions.rs) are not
    part of this model; what is modelled here is the behaviour the unit tests
    of src/context/mod.rs pin down, with the three limits OR-combined. */
module ContextState {
  import opened Wrappers
  import opened Messages
  import opened Dispatcher

  /** The closing policy of a context: the pattern ids it accepts, a timeout
      (always configured), an optional size cap and an optional renew timeout. */
  datatype Conditions = Conditions(
    patterns: seq<string>,
    timeout: nat,
    maxSize: Option<nat>,
    renewTimeout: Option<nat>)

  /** What a context is built from and keeps read-only: its uuid and its
      conditions (the `BaseContext` of the source; its actions are not part of
      this model). */
  datatype BaseContext = BaseContext(uuid: string, conditions: Conditions)

  /** `open` is the open flag, `messages` the accepted messages, `elapsed`
      the ticks since the context opened and `sinceLast` the ticks since the
      last accepted message. */
  datatype State = State(open: bool, messages: seq<Message>, elapsed: nat, sinceLast: nat)

  /** `State::new()`: nothing accepted yet, not open. */
  function NewState(): (s: State)
    ensures !s.open && s.messages == [] && !IsClosed(s)
  {
    State(false, [], 0, 0)
  }

  /** A closed context has accepted messages but is no longer open. */
  predicate IsClosed(s: State) {
    !s.open && s.messages != []
  }

  /** Every reachable state: an open context has accepted something and has
      no limit due. */
  predicate Wf(c: Conditions, s: State) {
    s.open ==> s.messages != [] && !IsClosing(c, s)
  }

  /** Any configured limit reached closes the context. */
  predicate IsClosing(c: Conditions, s: State) {
    || s.elapsed >= c.timeout
    || (c.maxSize.Some? && |s.messages| >= c.maxSize.value)
    || (c.renewTimeout.Some? && s.sinceLast >= c.renewTimeout.value)
  }

  function CloseIfDue(c: Conditions, s: State): State {
    if IsClosing(c, s) then s.(open := false) else s
  }

  /** A message whose uuid is one of the patterns is accepted by a context
      that is not closed: it opens the context, resets the renew gap, and the
      limits are evaluated afterwards. Anything else leaves the state alone. */
  function OnMessage(c: Conditions, s: State, m: Message): (r: State)
    ensures IsClosed(s) || m.uuid !in c.patterns ==> r == s
    ensures !IsClosed(s) && m.uuid in c.patterns ==>
              r.messages == s.messages + [m] && r.sinceLast == 0 && r.elapsed == s.elapsed &&
              (r.open <==> !IsClosing(c, r))
  {
    if IsClosed(s) || m.uuid !in c.patterns then s
    else CloseIfDue(c, State(true, s.messages + [m], s.elapsed, 0))
  }

  /** A tick advances both counters of an open context and evaluates the
      limits; a context that is not open ignores it. */
  function OnTimer(c: Conditions, s: State, ticks: nat): (r: State)
    ensures !s.open ==> r == s
    ensures s.open ==>
              r.messages == s.messages && r.elapsed == s.elapsed + ticks &&
              r.sinceLast == s.sinceLast + ticks && (r.open <==> !IsClosing(c, r))
  {
    if !s.open then s
    else CloseIfDue(c, s.(elapsed := s.elapsed + ticks, sinceLast := s.sinceLast + ticks))
  }

  /** Routing of one request: timers and messages as above, anything else
      (an exit request) changes nothing. */
  function OnEvent(c: Conditions, s: State, r: Request): (s': State)
    ensures IsClosed(s) ==> s' == s
    ensures r.ExitRequest? ==> s' == s
    ensures r.MessageRequest? ==> s'.messages == s.messages || s'.messages == s.messages + [r.message]
    ensures !r.MessageRequest? ==> s'.messages == s.messages
  {
    match r
    case TimerRequest(e) => OnTimer(c, s, e.ticks)
    case MessageRequest(m) => OnMessage(c, s, m)
    case ExitRequest => s
  }

  /** The state after a sequence of requests, first one first. */
  function Run(c: Conditions, s: State, rs: seq<Request>): (s': State)
    ensures s.messages <= s'.messages && |s'.messages| <= |s.messages| + |rs|
    decreases |rs|
  {
    if rs == [] then s else Run(c, OnEvent(c, s, rs[0]), rs[1..])
  }

  /** How many requests of the run moved the context into the closed state,
      i.e. how many times its closing actions would fire. */
  function Closings(c: Conditions, s: State, rs: seq<Request>): nat
    decreases |rs|
  {
    if rs == [] then 0
    else
      var s' := OnEvent(c, s, rs[0]);
      (if !IsClosed(s) && IsClosed(s') then 1 else 0) + Closings(c, s', rs[1..])
  }

  /** The sum of the tick deltas of the timer requests in `rs`. */
  function TickSum(rs: seq<Request>): nat
    decreases |rs|
  {
    if rs == [] then 0
    else (if rs[0].TimerRequest? then rs[0].event.ticks else 0) + TickSum(rs[1..])
  }

  predicate AllTimers(rs: seq<Request>) {
    forall i :: 0 <= i < |rs| ==> rs[i].TimerRequest?
  }

  /** `k` arrivals of the same message. */
  function Repeat(m: Message, k: nat): (rs: seq<Request>)
    ensures |rs| == k
    ensures forall i :: 0 <= i < k ==> rs[i] == MessageRequest(m)
  {
    if k == 0 then [] else Repeat(m, k - 1) + [MessageRequest(m)]
  }

  // ---------------------------------------------------------------------
  // Properties of the state machine

  /** Every request keeps the state well formed. */
  lemma OnEventPreservesWf(c: Conditions, s: State, r: Request)
    requires Wf(c, s)
    ensures Wf(c, OnEvent(c, s, r))
    ensures IsClosed(s) ==> OnEvent(c, s, r) == s
  {
  }

  /** Running two batches of requests is running their concatenation. */
  lemma {:induction false} RunAppend(c: Conditions, s: State, a: seq<Request>, b: seq<Request>)
    ensures Run(c, s, a + b) == Run(c, Run(c, s, a), b)
    decreases |a|
  {
    if a == [] {
      assert a + b == b;
    } else {
      assert (a + b)[0] == a[0];
      assert (a + b)[1..] == a[1..] + b;
      RunAppend(c, OnEvent(c, s, a[0]), a[1..], b);
    }
  }

  /** A closed context never reopens and never changes again, and no
      further closing happens to it. */
  lemma {:induction false} ClosedIsFinal(c: Conditions, s: State, rs: seq<Request>)
    requires IsClosed(s)
    ensures Run(c, s, rs) == s
    ensures Closings(c, s, rs) == 0
    decreases |rs|
  {
    if rs != [] {
      assert OnEvent(c, s, rs[0]) == s;
      ClosedIsFinal(c, s, rs[1..]);
    }
  }

  /** Exactly-once closing: along any run a context closes at most once, not
      at all if it is closed already, and it ends closed exactly when it was
      closed before or a closing happened on the way. */
  lemma {:induction false} AtMostOneClosing(c: Conditions, s: State, rs: seq<Request>)
    requires Wf(c, s)
    ensures Closings(c, s, rs) <= (if IsClosed(s) then 0 else 1)
    ensures IsClosed(Run(c, s, rs)) <==> IsClosed(s) || Closings(c, s, rs) == 1
    ensures Wf(c, Run(c, s, rs))
    decreases |rs|
  {
    if rs == [] {
    } else if IsClosed(s) {
      ClosedIsFinal(c, s, rs);
    } else {
      var s' := OnEvent(c, s, rs[0]);
      OnEventPreservesWf(c, s, rs[0]);
      AtMostOneClosing(c, s', rs[1..]);
      if IsClosed(s') {
        ClosedIsFinal(c, s', rs[1..]);
      }
    }
  }

  /** From a fresh context, `is_open` holds exactly when something was
      accepted and no closing condition has fired yet. */
  lemma OpenIffAcceptedAndNotClosed(c: Conditions, rs: seq<Request>)
    ensures Run(c, NewState(), rs).open <==>
              Run(c, NewState(), rs).messages != [] && Closings(c, NewState(), rs) == 0
  {
    AtMostOneClosing(c, NewState(), rs);
  }

  /** Timer closing is sum-based: for an open context a run of ticks leaves
      it open exactly when a single tick of the summed delta would. */
  lemma {:induction false} TimerChunking(c: Conditions, s: State, rs: seq<Request>)
    requires s.open && Wf(c, s) && AllTimers(rs)
    ensures Run(c, s, rs).open == OnTimer(c, s, TickSum(rs)).open
    decreases |rs|
  {
    if rs != [] {
      var s' := OnEvent(c, s, rs[0]);
      assert AllTimers(rs[1..]) by {
        forall i | 0 <= i < |rs[1..]| ensures rs[1..][i].TimerRequest? {
          assert rs[1..][i] == rs[i + 1];
        }
      }
      assert rs[0].TimerRequest?;
      var d, rest := rs[0].event.ticks, TickSum(rs[1..]);
      assert TickSum(rs) == d + rest;
      if s'.open {
        TimerChunking(c, s', rs[1..]);
      } else {
        ClosedIsFinal(c, s', rs[1..]);
      }
    }
  }

  /** The `timeout` rule: with only a timeout configured, an open context
      stays open while the ticks since opening sum to less than the timeout
      and closes once they reach it, however the ticks are chunked. */
  lemma TimeoutIsSumBased(c: Conditions, s: State, rs: seq<Request>)
    requires c.maxSize.None? && c.renewTimeout.None?
    requires s.open && Wf(c, s) && AllTimers(rs)
    ensures Run(c, s, rs).open <==> s.elapsed + TickSum(rs) < c.timeout
  {
    TimerChunking(c, s, rs);
  }

  /** The `renew_timeout` rule: after an accepted message, the context stays
      open under ticks exactly while their sum stays below the renew timeout
      (and the timeout is not reached), whatever gap preceded the message. */
  lemma RenewRestartsAfterMessage(c: Conditions, s: State, m: Message, rs: seq<Request>)
    requires c.maxSize.None? && c.renewTimeout.Some?
    requires s.open && m.uuid in c.patterns && AllTimers(rs)
    requires s.elapsed + TickSum(rs) < c.timeout
    ensures Run(c, OnMessage(c, s, m), rs).open <==> TickSum(rs) < c.renewTimeout.value
  {
    var s' := OnMessage(c, s, m);
    if s'.open {
      TimerChunking(c, s', rs);
    } else {
      ClosedIsFinal(c, s', rs);
    }
  }

  /** The `max_size` rule: with a size cap N and no other limit already due,
      a fresh context that receives the same matching message k <= N times
      holds k messages and is open exactly for 0 < k < N; it closes on the
      N-th. */
  lemma {:induction false} MaxSizeClosesOnNth(c: Conditions, m: Message, k: nat)
    requires c.maxSize.Some? && k <= c.maxSize.value
    requires m.uuid in c.patterns && c.timeout > 0
    requires c.renewTimeout.None? || c.renewTimeout.value > 0
    ensures |Run(c, NewState(), Repeat(m, k)).messages| == k
    ensures Run(c, NewState(), Repeat(m, k)).open <==> 0 < k < c.maxSize.value
  {
    if k > 0 {
      MaxSizeClosesOnNth(c, m, k - 1);
      RunAppend(c, NewState(), Repeat(m, k - 1), [MessageRequest(m)]);
      var s := Run(c, NewState(), Repeat(m, k - 1));
      assert Run(c, s, [MessageRequest(m)]) == OnMessage(c, s, m);
      assert s.elapsed == 0 by {
        ElapsedStaysZero(c, m, k - 1);
      }
    }
  }

  /** Messages alone never advance the clock. */
  lemma {:induction false} ElapsedStaysZero(c: Conditions, m: Message, k: nat)
    ensures Run(c, NewState(), Repeat(m, k)).elapsed == 0
  {
    if k > 0 {
      ElapsedStaysZero(c, m, k - 1);
      RunAppend(c, NewState(), Repeat(m, k - 1), [MessageRequest(m)]);
    }
  }

  // ---------------------------------------------------------------------
  // The unit-test scenarios of src/context/mod.rs, stated on the model

  function TestMessage(): Message {
    Message("1", None, "", map[])
  }

  /** timeout 100: open after the message and after ticks 50 and 49, closed
      after one more tick. */
  lemma TimeoutScenario()
    ensures var c := Conditions(["1"], 100, None, None);
            var s1 := OnMessage(c, NewState(), TestMessage());
            var s2 := OnTimer(c, s1, 50);
            var s3 := OnTimer(c, s2, 49);
            var s4 := OnTimer(c, s3, 1);
            !NewState().open && s1.open && s2.open && s3.open && !s4.open
  {
  }

  /** max_size 3: open after the first and second message, closed after the
      third. */
  lemma MaxSizeScenario()
    ensures var c := Conditions(["1"], 100, Some(3), None);
            var s1 := OnMessage(c, NewState(), TestMessage());
            var s2 := OnMessage(c, s1, TestMessage());
            var s3 := OnMessage(c, s2, TestMessage());
            s1.open && s2.open && !s3.open
  {
  }

  /** renew_timeout 10: ticks 8 and 1 keep the context open, one more closes it. */
  lemma RenewTimeoutScenario()
    ensures var c := Conditions(["1"], 100, None, Some(10));
            var s1 := OnMessage(c, NewState(), TestMessage());
            var s2 := OnTimer(c, s1, 8);
            var s3 := OnTimer(c, s2, 1);
            var s4 := OnTimer(c, s3, 1);
            s1.open && s2.open && s3.open && !s4.open
  {
  }

  /** renew_timeout 10: a message after 9 ticks resets the gap, so a further
      tick leaves the context open. */
  lemma RenewingMessageScenario()
    ensures var c := Conditions(["1"], 100, None, Some(10));
            var s1 := OnMessage(c, NewState(), TestMessage());
            var s2 := OnTimer(c, s1, 8);
            var s3 := OnTimer(c, s2, 1);
            var s4 := OnMessage(c, s3, TestMessage());
            var s5 := OnTimer(c, s4, 1);
            !NewState().open && s1.open && s2.open && s3.open && s4.open && s5.open
  {
  }
}

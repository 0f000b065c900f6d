/**
 The router's new-session handler (router/src/proxy.rs): long-poll the backend until it creates a
 session or gives up, own what is created until the client has it, and leave nothing behind.
 The backend's answers, the client's disconnects and the time each call takes are inputs.
 */
module NewSession {
  import opened Options
  import opened Routes

  type Ticket = string
  type Time = real

  const BODY_LIMIT: nat := 1_048_576
  const CREATE_CALL_TIMEOUT: Time := 280.0
  const CLIENT_TIMEOUT: Time := 40.0
  const RETRY_SLEEP: Time := 2.0

  datatype Chunk = Data(size: nat) | ReadFails

  datatype Answer = Created(sid: SessionId, target: string, parsed: Option<Upstream>, status: nat)
                  | Queued(ticket: Ticket)
                  | Invalid | CreateFailed(status: nat) | CreateError | QueueTimeout | Fatal
                  | CallFails

  /** One turn of the loop: whether the client is seen gone, the answer, and how long it took. */
  datatype Turn = Turn(gone: bool, answer: Answer, took: Time)

  datatype Effect = CallBackend(held: Option<Ticket>)
                  | CancelTicket(ticket: Ticket)
                  | AddRoute(sid: SessionId, upstream: Upstream)
                  | DropRoute(sid: SessionId)
                  | DeleteSession(target: string, sid: SessionId)
                  | NotifyEnded(sid: SessionId)
                  | Reply(status: nat)

  datatype Exit = BodyUnreadable | BodyTooLarge | Waiting
                | ClientGone | Refused | FatalError | TimedOut
                | Unroutable | Delivered | Lost

  predicate TurnsOk(turns: seq<Turn>) {
    forall i :: 0 <= i < |turns| ==> 0.0 <= turns[i].took <= CREATE_CALL_TIMEOUT
  }

  /** The ticket in hand after the first n turns: the last one the backend issued. */
  function Held(turns: seq<Turn>, n: nat): (r: Option<Ticket>)
    requires n <= |turns|
  {
    if n == 0 then None
    else if turns[n - 1].answer.Queued? then Some(turns[n - 1].answer.ticket)
    else Held(turns, n - 1)
  }

  /** Time since the body was read, after the first n turns. */
  function Clock(turns: seq<Turn>, n: nat): (t: Time)
    requires n <= |turns| && TurnsOk(turns)
    ensures t >= 0.0
  {
    if n == 0 then 0.0
    else Clock(turns, n - 1) + turns[n - 1].took + (if turns[n - 1].answer.CallFails? then RETRY_SLEEP else 0.0)
  }

  /** Turn i finds the client gone: only noticed while a ticket is held. */
  predicate NoticesGone(turns: seq<Turn>, i: nat)
    requires i < |turns|
  {
    turns[i].gone && Held(turns, i).Some?
  }

  predicate KeepsWaiting(a: Answer) {
    a.Queued? || a.CallFails?
  }

  /** The loop goes on after turn i. */
  predicate Continues(turns: seq<Turn>, i: nat, timeout: Time)
    requires i < |turns| && TurnsOk(turns)
  {
    !NoticesGone(turns, i) && KeepsWaiting(turns[i].answer) && Clock(turns, i + 1) < timeout
  }

  function BodySize(chunks: seq<Chunk>): (r: nat) {
    if chunks == [] then 0
    else BodySize(chunks[..|chunks| - 1]) + (if chunks[|chunks| - 1].Data? then chunks[|chunks| - 1].size else 0)
  }

  /** The routes a request adds, in order. */
  function Added(effects: seq<Effect>): (r: seq<(SessionId, Upstream)>) {
    if effects == [] then []
    else
      var last := effects[|effects| - 1];
      Added(effects[..|effects| - 1]) + (if last.AddRoute? then [(last.sid, last.upstream)] else [])
  }

  function Cancelled(effects: seq<Effect>): (r: seq<Ticket>) {
    if effects == [] then []
    else
      var last := effects[|effects| - 1];
      Cancelled(effects[..|effects| - 1]) + (if last.CancelTicket? then [last.ticket] else [])
  }

  /** The statuses of the responses a request attempts. */
  function Replies(effects: seq<Effect>): (statuses: seq<nat>) {
    if effects == [] then []
    else
      var last := effects[|effects| - 1];
      Replies(effects[..|effects| - 1]) + (if last.Reply? then [last.status] else [])
  }

  /** The response an exit owes the client; none where the client is gone or the request is still waiting. */
  function StatusOf(exit: Exit, answer: Answer): (status: seq<nat>) {
    match exit
    case BodyTooLarge => [413]
    case Refused =>
      (match answer
       case Invalid => [400]
       case CreateFailed(appium) => [appium]
       case _ => [500])
    case FatalError | TimedOut | Unroutable => [500]
    case Delivered | Lost => if answer.Created? then [answer.status] else []
    case BodyUnreadable | Waiting | ClientGone => []
  }

  lemma AddedAppends(effects: seq<Effect>, e: Effect)
    ensures Added(effects + [e]) == Added(effects) + (if e.AddRoute? then [(e.sid, e.upstream)] else [])
    ensures Cancelled(effects + [e]) == Cancelled(effects) + (if e.CancelTicket? then [e.ticket] else [])
    ensures Replies(effects + [e]) == Replies(effects) + (if e.Reply? then [e.status] else [])
  {
    assert (effects + [e])[..|effects|] == effects;
  }

  /** The effects of waiting: they leave the route table alone and tell the client nothing. */
  predicate Waits(effects: seq<Effect>) {
    forall i :: 0 <= i < |effects| ==> effects[i].CallBackend? || effects[i].CancelTicket?
  }

  lemma {:induction false} WaitingAddsNothing(effects: seq<Effect>)
    requires Waits(effects)
    ensures Added(effects) == [] && Replies(effects) == []
  {
    if effects != [] {
      WaitingAddsNothing(effects[..|effects| - 1]);
    }
  }

  class Router {
    const routes: RouteMap

    constructor (r: RouteMap)
      ensures routes == r
    {
      routes := r;
    }

    method ReadBody(chunks: seq<Chunk>) returns (exit: Option<Exit>)
      ensures exit == None <==> (forall i :: 0 <= i < |chunks| ==> chunks[i].Data?) && BodySize(chunks) <= BODY_LIMIT
      ensures exit.Some? ==> exit.value == BodyUnreadable || exit.value == BodyTooLarge
      ensures exit == Some(BodyTooLarge) ==> BodySize(chunks) > BODY_LIMIT
    {
      var size := 0;
      for i := 0 to |chunks|
        invariant forall j :: 0 <= j < i ==> chunks[j].Data?
        invariant size == BodySize(chunks[..i]) <= BODY_LIMIT
      {
        assert chunks[..i + 1][..i] == chunks[..i];
        if chunks[i].ReadFails? {
          return Some(BodyUnreadable);
        }
        size := size + chunks[i].size;
        if size > BODY_LIMIT {
          SizeGrows(chunks, i + 1);
          return Some(BodyTooLarge);
        }
      }
      assert chunks[..|chunks|] == chunks;
      exit := None;
    }

    lemma {:induction false} SizeGrows(chunks: seq<Chunk>, n: nat)
      requires n <= |chunks|
      ensures BodySize(chunks[..n]) <= BodySize(chunks)
      decreases |chunks| - n
    {
      if n == |chunks| {
        assert chunks[..n] == chunks;
      } else {
        assert chunks[..n + 1][..n] == chunks[..n];
        SizeGrows(chunks, n + 1);
      }
    }

    /** Cancel the ticket in hand, if any. */
    method CancelHeld(held: Option<Ticket>, effects: seq<Effect>) returns (more: seq<Effect>)
      requires Waits(effects)
      ensures Waits(more) && Cancelled(more) == Cancelled(effects) + (if held.Some? then [held.value] else [])
    {
      more := effects;
      if held.Some? {
        AddedAppends(effects, CancelTicket(held.value));
        more := more + [CancelTicket(held.value)];
      }
    }

    /** Wait for the backend; n counts the turns taken and now is the time when waiting ended. */
    method Await(turns: seq<Turn>, timeout: Time, cancelTook: Time)
      returns (exit: Option<Exit>, effects: seq<Effect>, n: nat, now: Time)
      requires TurnsOk(turns) && 0.0 <= timeout && 0.0 <= cancelTook <= CLIENT_TIMEOUT
      ensures n <= |turns| && forall i :: 0 <= i < n - 1 ==> Continues(turns, i, timeout)
      ensures exit == Some(Waiting) ==> n == |turns| && (n > 0 ==> Continues(turns, n - 1, timeout))
      ensures exit != Some(Waiting) ==> n > 0 && !Continues(turns, n - 1, timeout)
      ensures exit == None ==> turns[n - 1].answer.Created? && !NoticesGone(turns, n - 1)
      ensures exit == Some(ClientGone) ==> NoticesGone(turns, n - 1)
      ensures exit == Some(FatalError) ==> turns[n - 1].answer.Fatal?
      ensures exit == Some(TimedOut) ==> KeepsWaiting(turns[n - 1].answer) && Clock(turns, n) >= timeout
      ensures exit == Some(Refused) ==>
                !KeepsWaiting(turns[n - 1].answer) && !turns[n - 1].answer.Created? && !turns[n - 1].answer.Fatal?
      ensures exit.Some? ==> exit.value in {Waiting, ClientGone, Refused, FatalError, TimedOut}
      ensures Waits(effects)
      ensures Cancelled(effects) ==
              match exit
              case Some(ClientGone) => [Held(turns, n - 1).value]
              case Some(FatalError) => if Held(turns, n - 1).Some? then [Held(turns, n - 1).value] else []
              case Some(TimedOut) => if Held(turns, n).Some? then [Held(turns, n).value] else []
              case _ => []
      ensures exit.Some? && exit != Some(Waiting) ==>
                now <= timeout + CREATE_CALL_TIMEOUT + RETRY_SLEEP + CLIENT_TIMEOUT
      ensures exit.None? ==> now <= timeout + CREATE_CALL_TIMEOUT
    {
      effects, n, now := [], 0, 0.0;
      var ticket: Option<Ticket> := None;
      while n < |turns|
        invariant n <= |turns| && forall i :: 0 <= i < n ==> Continues(turns, i, timeout)
        invariant ticket == Held(turns, n) && now == Clock(turns, n) <= timeout
        invariant Waits(effects) && Cancelled(effects) == []
      {
        var turn := turns[n];
        n := n + 1;
        AddedAppends(effects, CallBackend(ticket));
        effects := effects + [CallBackend(ticket)];
        now := now + turn.took;
        if ticket.Some? && turn.gone {
          effects := CancelHeld(ticket, effects);
          return Some(ClientGone), effects, n, now + cancelTook;
        }
        match turn.answer {
          case Created(_, _, _, _) => return None, effects, n, now;
          case Queued(t) => ticket := Some(t);
          case CallFails => now := now + RETRY_SLEEP;
          case Fatal =>
            effects := CancelHeld(ticket, effects);
            return Some(FatalError), effects, n, now + cancelTook;
          case _ => return Some(Refused), effects, n, now;
        }
        if now >= timeout {
          effects := CancelHeld(ticket, effects);
          return Some(TimedOut), effects, n, now + cancelTook;
        }
      }
      exit := Some(Waiting);
    }

    /** The status of a request that ends without a session. */
    method RefusalStatus(exit: Exit, answer: Answer) returns (status: nat)
      requires exit in {Refused, FatalError, TimedOut}
      ensures [status] == StatusOf(exit, answer)
    {
      status := 500;
      if exit == Refused && answer.Invalid? {
        status := 400;
      } else if exit == Refused && answer.CreateFailed? {
        status := answer.status;
      }
    }

    /** Roll back a created session the client cannot use. */
    method TearDown(target: string, sid: SessionId, prune: bool, effects: seq<Effect>) returns (more: seq<Effect>)
      modifies routes
      ensures Added(more) == Added(effects) && Replies(more) == Replies(effects)
      ensures DeleteSession(target, sid) in more && NotifyEnded(sid) in more
      ensures routes.Value() == if prune then Remove(old(routes.Value()), sid) else old(routes.Value())
    {
      more := effects;
      if prune {
        routes.RemoveRoute(sid);
        AddedAppends(more, DropRoute(sid));
        more := more + [DropRoute(sid)];
      }
      AddedAppends(more, DeleteSession(target, sid));
      more := more + [DeleteSession(target, sid)];
      AddedAppends(more, NotifyEnded(sid));
      more := more + [NotifyEnded(sid)];
    }

    /** Route and deliver a created session, or undo it. */
    method Relay(created: Answer, delivers: bool, effects: seq<Effect>) returns (exit: Exit, more: seq<Effect>)
      requires created.Created? && Added(effects) == [] && Replies(effects) == []
      modifies routes
      ensures exit == if created.parsed.None? then Unroutable else if delivers then Delivered else Lost
      ensures Replies(more) == StatusOf(exit, created)
      ensures exit == Unroutable ==> Added(more) == [] && routes.Value() == old(routes.Value())
      ensures exit != Unroutable ==> Added(more) == [(created.sid, created.parsed.value)]
      ensures exit == Delivered ==> routes.Value() == Insert(old(routes.Value()), created.sid, created.parsed.value)
      ensures exit == Lost ==> routes.entries == old(routes.entries) - {created.sid}
      ensures exit != Delivered ==>
                DeleteSession(created.target, created.sid) in more && NotifyEnded(created.sid) in more
    {
      if created.parsed.None? {
        more := TearDown(created.target, created.sid, false, effects);
        AddedAppends(more, Reply(500));
        return Unroutable, more + [Reply(500)];
      }
      routes.InsertRoute(created.sid, created.parsed.value);
      AddedAppends(effects, AddRoute(created.sid, created.parsed.value));
      more := effects + [AddRoute(created.sid, created.parsed.value)];
      AddedAppends(more, Reply(created.status));
      more := more + [Reply(created.status)];
      if delivers {
        return Delivered, more;
      }
      more := TearDown(created.target, created.sid, true, more);
      exit := Lost;
    }

    /**
     The whole request. Whatever the backend and the client do, it adds at most one route, for a
     session it saw created with a routable target; a session that cannot be delivered leaves no
     route and is deleted and reported; a ticket it walks away from is cancelled; and without a
     teardown it is over within the new-session timeout plus 322 s. At most one response is attempted,
     with the status its exit calls for.
     */
    method HandleNewSession(chunks: seq<Chunk>, turns: seq<Turn>, timeout: Time, cancelTook: Time, delivers: bool)
      returns (exit: Exit, effects: seq<Effect>, n: nat, now: Time)
      requires TurnsOk(turns) && 0.0 <= timeout && 0.0 <= cancelTook <= CLIENT_TIMEOUT
      modifies routes
      ensures n <= |turns| && forall i :: 0 <= i < n - 1 ==> Continues(turns, i, timeout)
      ensures exit in {BodyUnreadable, BodyTooLarge} ==> n == 0 && |effects| == |Replies(effects)|
      ensures exit !in {BodyUnreadable, BodyTooLarge, Waiting} ==> n > 0
      ensures Replies(effects) == StatusOf(exit, if n > 0 then turns[n - 1].answer else CallFails)
      ensures exit in {Delivered, Lost, Unroutable} ==>
                n > 0 && turns[n - 1].answer.Created? && !NoticesGone(turns, n - 1)
      ensures exit in {Delivered, Lost} <==> Added(effects) != []
      ensures exit in {Delivered, Lost} ==>
                turns[n - 1].answer.parsed.Some?
                    && Added(effects) == [(turns[n - 1].answer.sid, turns[n - 1].answer.parsed.value)]
      ensures exit == Delivered ==>
                delivers && routes.Value() == Insert(old(routes.Value()), turns[n - 1].answer.sid,
                                                     turns[n - 1].answer.parsed.value)
      ensures exit == Lost ==> !delivers && routes.entries == old(routes.entries) - {turns[n - 1].answer.sid}
      ensures exit == Unroutable ==> turns[n - 1].answer.parsed.None? && routes.Value() == old(routes.Value())
      ensures exit in {Lost, Unroutable} ==>
                && DeleteSession(turns[n - 1].answer.target, turns[n - 1].answer.sid) in effects
                && NotifyEnded(turns[n - 1].answer.sid) in effects
      ensures exit !in {Delivered, Lost} ==> routes.Value() == old(routes.Value())
      ensures exit == ClientGone ==>
                n > 0 && NoticesGone(turns, n - 1) && Cancelled(effects) == [Held(turns, n - 1).value]
      ensures exit == FatalError ==>
                n > 0 && Cancelled(effects) == if Held(turns, n - 1).Some? then [Held(turns, n - 1).value] else []
      ensures exit == TimedOut ==>
                n > 0 && Cancelled(effects) == if Held(turns, n).Some? then [Held(turns, n).value] else []
      ensures exit !in {Waiting, Lost, Unroutable} ==> now <= timeout + 322.0
    {
      hide Continues;
      hide NoticesGone;
      hide Held;
      n, now, effects := 0, 0.0, [];
      var refused := ReadBody(chunks);
      if refused.Some? {
        exit := refused.value;
        if exit == BodyTooLarge {
          AddedAppends([], Reply(413));
          effects := [] + [Reply(413)];
        }
        return;
      }
      var waited;
      waited, effects, n, now := Await(turns, timeout, cancelTook);
      WaitingAddsNothing(effects);
      if waited.Some? {
        exit := waited.value;
        if exit != Waiting && exit != ClientGone {
          var status := RefusalStatus(exit, turns[n - 1].answer);
          AddedAppends(effects, Reply(status));
          effects := effects + [Reply(status)];
        }
        return;
      }
      exit, effects := Relay(turns[n - 1].answer, delivers, effects);
    }

    /**
     Look a session up, with one rebuild on a miss: the listing the backend returns, if it does, is
     swapped in under the generation captured before the fetch.
     */
    method Resolve(sid: SessionId, fetched: Option<seq<(SessionId, Upstream)>>) returns (upstream: Option<Upstream>)
      modifies routes
      ensures routes.Value() == if sid in old(routes.entries) || fetched.None? then old(routes.Value())
                                else Replace(old(routes.Value()), fetched.value, old(routes.insertGen))
      ensures upstream == if sid in routes.entries then Some(routes.entries[sid].upstream) else None
    {
      upstream := routes.Get(sid);
      if upstream.Some? {
        return;
      }
      var captured := routes.InsertGeneration();
      if fetched.Some? {
        routes.ReplaceIfUnchanged(fetched.value, captured);
      }
      upstream := routes.Get(sid);
    }
  }
}

/** The bus: the pending table, its consumer and its requests. */
module Correlation {
  import opened Common
  import opened CorrelationSpec
  import opened CorrelationTheory

  /** The final select of a request, when more than one case is ready. */
  datatype Choice = ReplyWins | DeadlineWins | CancelWins

  /** A consumer's whole turn with a message: claim, then offer. */
  function Dispatched(s: State, m: Message): State {
    var s1 := Next(s, Arrive(m));
    if m.correlation != "" && m.correlation in s.pending && s.pending[m.correlation] < |s.requests|
    then Next(s1, Offer(s.pending[m.correlation], |s.requests[s.pending[m.correlation]].claimed|)) else s1
  }

  function Consumed(s: State, ms: seq<Message>): State
    decreases |ms|
  {
    if ms == [] then s else Dispatched(Consumed(s, ms[..|ms| - 1]), ms[|ms| - 1])
  }

  /** The first of the messages that carries the id. */
  function FirstWith(ms: seq<Message>, id: string): Option<Message> {
    if ms == [] then None
    else if FirstWith(ms[..|ms| - 1], id).Some? then FirstWith(ms[..|ms| - 1], id)
    else if id != "" && ms[|ms| - 1].correlation == id then Some(ms[|ms| - 1]) else None
  }

  lemma DispatchedSound(s: State, m: Message)
    requires Sound(s)
    ensures Sound(Dispatched(s, m)) && (Inv(s) ==> Inv(Dispatched(s, m)))
  {
    var s1 := Next(s, Arrive(m));
    NextSound(s, Arrive(m));
    if Inv(s) {
      NextKeeps(s, Arrive(m));
    }
    if m.correlation in s.pending {
      var t := Offer(s.pending[m.correlation], |s.requests[s.pending[m.correlation]].claimed|);
      NextSound(s1, t);
      if Inv(s) {
        NextKeeps(s1, t);
      }
    }
  }

  /** A waiting request and its channel: listed and empty until the reply is there. */
  predicate Waits(s: State, r: nat, id: string, reply: Option<Message>) {
    && r < |s.requests| && s.requests[r].id == id && s.requests[r].phase.Waiting? && s.requests[r].claimed == []
    && (if reply.None? then s.requests[r].channel == [] && Listed(s, r)
        else s.requests[r].channel == [reply.value] && !Listed(s, r))
  }

  lemma DispatchedWaits(s: State, m: Message, r: nat, id: string, reply: Option<Message>)
    requires Sound(s) && Waits(s, r, id, reply)
    ensures Waits(Dispatched(s, m), r, id, if reply.None? && id != "" && m.correlation == id then Some(m) else reply)
  {
    ArriveAt(s, m, r);
    if Claims(s, m, r) {
      var s1 := Next(s, Arrive(m));
      assert s1.requests[r] == s.requests[r].(claimed := [m]);
      assert Dispatched(s, m) == Next(s1, Offer(r, 0));
      assert Dispatched(s, m).requests[r] == s.requests[r].(channel := [m]);
    } else {
      DispatchedElsewhere(s, m, r);
    }
  }

  lemma DispatchedElsewhere(s: State, m: Message, r: nat)
    requires Sound(s) && r < |s.requests| && !Claims(s, m, r)
    ensures var s' := Dispatched(s, m);
      r < |s'.requests| && s'.requests[r] == s.requests[r] && Listed(s', r) == Listed(s, r)
  {
  }

  /** Whatever comes in, the channel of a waiting request ends up with the first
      message that carries its id. */
  lemma {:induction false} ConsumedWaits(s: State, ms: seq<Message>, r: nat, id: string)
    requires Sound(s) && Waits(s, r, id, None)
    ensures Sound(Consumed(s, ms)) && Waits(Consumed(s, ms), r, id, FirstWith(ms, id))
    decreases |ms|
  {
    if ms != [] {
      var init, m := ms[..|ms| - 1], ms[|ms| - 1];
      ConsumedWaits(s, init, r, id);
      DispatchedSound(Consumed(s, init), m);
      DispatchedWaits(Consumed(s, init), m, r, id, FirstWith(init, id));
    }
  }

  /** What the wait for a reply comes to. */
  function Awaited(incoming: seq<Message>, id: string, choice: Choice): Outcome {
    Selected(FirstWith(incoming, id), choice)
  }

  function Selected(reply: Option<Message>, choice: Choice): Outcome {
    if reply.Some? && choice.ReplyWins? then Got(reply.value)
    else if choice.CancelWins? then Cancelled else TimedOut
  }

  class Bus {
    var requests: seq<Request>
    var pending: map<string, nat>
    var handled: seq<Message>
    var dropped: seq<Message>
    ghost var log: seq<Event>

    ghost function Now(): State
      reads this
    {
      State(requests, pending, handled, dropped, log)
    }

    constructor ()
      ensures Now() == INITIAL
    {
      requests, pending, handled, dropped, log := [], map[], [], [], [];
    }

    method Register(id: string) returns (r: nat)
      modifies this
      ensures r == |old(requests)| && Now() == Next(old(Now()), Begin(id))
    {
      r := |requests|;
      requests := requests + [NewRequest(id)];
      pending := pending[id := r];
      log := log + [Began(id)];
    }

    /** Look up and delete under the lock; None when nobody waits for the message. */
    method Claim(m: Message) returns (owner: Option<nat>)
      requires TableFits(Now())
      modifies this
      ensures owner == if m.correlation != "" && m.correlation in old(pending)
                       then Some(old(pending)[m.correlation]) else None
      ensures var s := old(Now());
        Now() == if owner.Some? then Next(s, Arrive(m)) else s.(log := s.log + [Arrived(m)])
    {
      log := log + [Arrived(m)];
      if m.correlation != "" && m.correlation in pending {
        var r := pending[m.correlation];
        pending := pending - {m.correlation};
        requests := requests[r := requests[r].(claimed := requests[r].claimed + [m])];
        return Some(r);
      }
      return None;
    }

    /** The select with a default: never blocks, and drops when the channel is full. */
    method Send(r: nat, k: nat)
      requires r < |requests| && k < |requests[r].claimed|
      modifies this
      ensures Now() == Next(old(Now()), Offer(r, k))
    {
      var q := requests[r];
      var rest := q.(claimed := q.claimed[..k] + q.claimed[k + 1..]);
      if |q.channel| < CAPACITY {
        requests := requests[r := rest.(channel := q.channel + [q.claimed[k]])];
      } else {
        requests := requests[r := rest];
        dropped := dropped + [q.claimed[k]];
      }
    }

    method Dispatch(m: Message)
      requires Sound(Now())
      modifies this
      ensures Now() == Dispatched(old(Now()), m) && Sound(Now()) && (Inv(old(Now())) ==> Inv(Now()))
    {
      DispatchedSound(Now(), m);
      var owner := Claim(m);
      if owner.Some? {
        Send(owner.value, |requests[owner.value].claimed| - 1);
      } else {
        handled := handled + [m];
      }
    }

    /** The consumer loop. */
    method ConsumeClaim(ms: seq<Message>)
      requires Sound(Now())
      modifies this
      ensures Now() == Consumed(old(Now()), ms) && Sound(Now()) && (Inv(old(Now())) ==> Inv(Now()))
    {
      var i := 0;
      while i < |ms|
        invariant 0 <= i <= |ms|
        invariant Sound(Now()) && (Inv(old(Now())) ==> Inv(Now())) && Now() == Consumed(old(Now()), ms[..i])
      {
        assert ms[..i + 1][..i] == ms[..i];
        Dispatch(ms[i]);
        i := i + 1;
      }
      assert ms[..i] == ms;
    }

    /** The deferred clean-up. */
    method Forget(r: nat)
      requires r < |requests| && requests[r].phase.Returning?
      modifies this
      ensures Now() == Next(old(Now()), CleanUp(r))
    {
      var q := requests[r];
      pending := pending - {q.id};
      requests := requests[r := q.(phase := Finished(q.phase.outcome))];
    }

    method Publish(r: nat, ok: bool)
      requires r < |requests| && requests[r].phase.Publishing?
      modifies this`requests
      ensures Now() == Next(old(Now()), CorrelationSpec.Publish(r, ok))
    {
      requests := requests[r := requests[r].(phase := if ok then Waiting else Returning(PublishFailed))];
    }

    method Receive(r: nat) returns (m: Message)
      requires r < |requests| && requests[r].phase.Waiting? && requests[r].channel != []
      modifies this`requests
      ensures m == old(requests)[r].channel[0]
      ensures Now() == Next(old(Now()), CorrelationSpec.Receive(r))
    {
      m := requests[r].channel[0];
      requests := requests[r := requests[r].(phase := Returning(Got(m)), channel := requests[r].channel[1..])];
    }

    method GiveUp(r: nat, cancelled: bool)
      requires r < |requests| && requests[r].phase.Waiting?
      modifies this`requests
      ensures Now() == Next(old(Now()), CorrelationSpec.GiveUp(r, cancelled))
    {
      requests := requests[r := requests[r].(phase := Returning(if cancelled then Cancelled else TimedOut))];
    }

    /** The wait of a published request, with the messages that come in meanwhile. */
    method Await(r: nat, incoming: seq<Message>, choice: Choice) returns (o: Outcome)
      requires Sound(Now()) && r < |requests| && Waits(Now(), r, requests[r].id, None)
      modifies this
      ensures Sound(Now()) && (Inv(old(Now())) ==> Inv(Now()))
      ensures r < |requests| && requests[r].phase == Returning(o) && requests[r].id == old(requests)[r].id
      ensures o == Awaited(incoming, old(requests)[r].id, choice)
    {
      ConsumedWaits(Now(), incoming, r, requests[r].id);
      ghost var id := requests[r].id;
      ConsumeClaim(incoming);
      o := Select(r, choice, id, FirstWith(incoming, id));
    }

    /** The final select: the reply, if it is there and chosen, or the end of the wait. */
    method Select(r: nat, choice: Choice, ghost id: string, ghost reply: Option<Message>) returns (o: Outcome)
      requires Sound(Now()) && Waits(Now(), r, id, reply)
      modifies this
      ensures Sound(Now()) && (Inv(old(Now())) ==> Inv(Now()))
      ensures r < |requests| && requests[r].phase == Returning(o) && requests[r].id == id
      ensures o == Selected(reply, choice)
    {
      if |requests[r].channel| > 0 && choice.ReplyWins? {
        StepKeeps(Now(), CorrelationSpec.Receive(r));
        var m := Receive(r);
        o := Got(m);
      } else {
        StepKeeps(Now(), CorrelationSpec.GiveUp(r, choice.CancelWins?));
        GiveUp(r, choice.CancelWins?);
        o := if choice.CancelWins? then Cancelled else TimedOut;
      }
    }

    /** A whole request, whatever its id: it returns the first incoming message that
        carries the id, unless publishing failed or the wait ended first, and leaves
        no entry. With a fresh id the table stays exact. */
    method Request(id: string, published: bool, incoming: seq<Message>, choice: Choice) returns (o: Outcome)
      requires Sound(Now())
      modifies this
      ensures Sound(Now()) && id !in pending
      ensures o == if published then Awaited(incoming, id, choice) else PublishFailed
      ensures Inv(old(Now())) && Fresh(old(Now()), id) ==> Inv(Now())
    {
      StepKeeps(Now(), Begin(id));
      var r := Register(id);
      StepKeeps(Now(), CorrelationSpec.Publish(r, published));
      Publish(r, published);
      o := PublishFailed;
      if published {
        o := Await(r, incoming, choice);
      }
      StepKeeps(Now(), CleanUp(r));
      Forget(r);
    }
  }

  lemma StepKeeps(s: State, t: Step)
    requires Sound(s)
    ensures Sound(Next(s, t))
    ensures Inv(s) && (t.Begin? ==> Fresh(s, t.id)) ==> Inv(Next(s, t))
  {
    NextSound(s, t);
    if Inv(s) && (t.Begin? ==> Fresh(s, t.id)) {
      NextKeeps(s, t);
    }
  }
}

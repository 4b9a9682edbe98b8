/** What every interleaving of requests, replies and timeouts keeps. */
module CorrelationTheory {
  import opened Common
  import opened CorrelationSpec

  predicate Live(q: Request) {
    !q.phase.Finished?
  }

  /** The messages a request has been given so far, wherever they are. */
  function Copies(q: Request): seq<Message> {
    q.claimed + q.channel + Returned(q)
  }

  function Returned(q: Request): seq<Message> {
    if (q.phase.Returning? || q.phase.Finished?) && q.phase.outcome.Got? then [q.phase.outcome.message] else []
  }

  // ---- the first reply to a request ---------------------------------------------------------

  /** How many requests have begun. */
  function Begun(log: seq<Event>): nat {
    if log == [] then 0 else Begun(log[..|log| - 1]) + (if log[|log| - 1].Began? then 1 else 0)
  }

  /** The first message with this id that came in after request `r` began. */
  function ReplyTo(log: seq<Event>, r: nat, id: string): Option<Message> {
    if log == [] then None
    else
      var init := log[..|log| - 1];
      var before, e := ReplyTo(init, r, id), log[|log| - 1];
      if before.None? && e.Arrived? && r < Begun(init) && id != "" && e.message.correlation == id
      then Some(e.message) else before
  }

  lemma LogGrows(log: seq<Event>, e: Event, r: nat, id: string)
    ensures Begun(log + [e]) == Begun(log) + if e.Began? then 1 else 0
    ensures ReplyTo(log + [e], r, id) ==
      if ReplyTo(log, r, id).None? && e.Arrived? && r < Begun(log) && id != "" && e.message.correlation == id
      then Some(e.message) else ReplyTo(log, r, id)
  {
    assert (log + [e])[..|log|] == log;
  }

  lemma {:induction false} NoReplyBeforeBeginning(log: seq<Event>, r: nat, id: string)
    requires r >= Begun(log)
    ensures ReplyTo(log, r, id) == None
    decreases |log|
  {
    if log != [] {
      NoReplyBeforeBeginning(log[..|log| - 1], r, id);
    }
  }

  function ReplyAt(s: State, r: nat): Option<Message>
    requires r < |s.requests|
  {
    ReplyTo(s.log, r, s.requests[r].id)
  }

  // ---- what holds whatever the ids are --------------------------------------------------------

  /** The table holds the entry of request `r`. */
  predicate Listed(s: State, r: nat)
    requires r < |s.requests|
  {
    s.requests[r].id in s.pending && s.pending[s.requests[r].id] == r
  }

  /** A request is given at most one message, its first reply; while it is listed it
      has been given none and none has come. */
  predicate Served(q: Request, listed: bool, reply: Option<Message>) {
    && |Copies(q)| <= 1
    && (forall m <- Copies(q) :: m.correlation == q.id && reply == Some(m))
    && (listed ==> Copies(q) == [] && reply.None?)
  }

  predicate ServedAt(s: State, r: nat)
    requires r < |s.requests|
  {
    Served(s.requests[r], Listed(s, r), ReplyAt(s, r))
  }

  predicate TableFits(s: State) {
    forall id <- s.pending :: s.pending[id] < |s.requests| && s.requests[s.pending[id]].id == id
  }

  ghost predicate Sound(s: State) {
    && TableFits(s) && s.dropped == [] && Begun(s.log) == |s.requests|
    && forall r: nat :: r < |s.requests| ==> ServedAt(s, r)
  }

  lemma BeginServed(s: State, id: string, r: nat)
    requires Sound(s) && r <= |s.requests|
    ensures ServedAt(DoBegin(s, id), r)
  {
    var s' := DoBegin(s, id);
    LogGrows(s.log, Began(id), r, s'.requests[r].id);
    if r < |s.requests| {
      assert ServedAt(s, r) && s'.requests[r] == s.requests[r];
    } else {
      NoReplyBeforeBeginning(s.log, r, id);
    }
  }

  lemma BeginSound(s: State, id: string)
    requires Sound(s)
    ensures Sound(DoBegin(s, id))
  {
    var s' := DoBegin(s, id);
    LogGrows(s.log, Began(id), 0, id);
    forall r: nat | r < |s'.requests|
      ensures ServedAt(s', r)
    {
      BeginServed(s, id, r);
    }
    forall i <- s'.pending
      ensures s'.pending[i] < |s'.requests| && s'.requests[s'.pending[i]].id == i
    {
      if i != id {
        assert i in s.pending;
      }
    }
  }

  /** Request `r` is the one the message is for. */
  predicate Claims(s: State, m: Message, r: nat)
    requires r < |s.requests|
  {
    m.correlation != "" && m.correlation == s.requests[r].id && Listed(s, r)
  }

  /** What an arriving message does to one request. */
  lemma ArriveAt(s: State, m: Message, r: nat)
    requires Sound(s) && r < |s.requests|
    ensures var s', q := DoArrive(s, m), s.requests[r];
      && |s'.requests| == |s.requests|
      && s'.requests[r] == (if Claims(s, m, r) then q.(claimed := [m]) else q)
      && (Claims(s, m, r) ==> Copies(q) == [] && Copies(s'.requests[r]) == [m])
      && Listed(s', r) == (Listed(s, r) && !Claims(s, m, r))
      && ReplyAt(s', r) ==
           if ReplyAt(s, r).None? && q.id != "" && m.correlation == q.id then Some(m) else ReplyAt(s, r)
  {
    var q := s.requests[r];
    LogGrows(s.log, Arrived(m), r, q.id);
    assert ServedAt(s, r);
    if Claims(s, m, r) {
      assert Copies(q) == [];
      assert q.claimed == [] && q.channel == [] && Returned(q) == [];
      assert q.claimed + [m] == [m];
      assert Copies(q.(claimed := [m])) == [m];
    }
  }

  lemma ArriveServed(s: State, m: Message, r: nat)
    requires Sound(s) && r < |s.requests|
    ensures ServedAt(DoArrive(s, m), r)
  {
    assert ServedAt(s, r);
    ArriveAt(s, m, r);
  }

  lemma ArriveSound(s: State, m: Message)
    requires Sound(s)
    ensures Sound(DoArrive(s, m))
  {
    var s' := DoArrive(s, m);
    LogGrows(s.log, Arrived(m), 0, "");
    forall r: nat | r < |s'.requests|
      ensures ServedAt(s', r)
    {
      ArriveServed(s, m, r);
    }
  }

  /** A step that only moves messages about within one request. */
  lemma MoveSound(s: State, r: nat, q: Request)
    requires Sound(s) && r < |s.requests| && q.id == s.requests[r].id && Copies(q) == Copies(s.requests[r])
    ensures Sound(With(s, r, q))
  {
    var s' := With(s, r, q);
    forall i: nat | i < |s'.requests|
      ensures ServedAt(s', i)
    {
      assert ServedAt(s, i);
    }
  }

  lemma CleanUpSound(s: State, r: nat)
    requires Sound(s) && r < |s.requests| && s.requests[r].phase.Returning?
    ensures Sound(DoCleanUp(s, r))
  {
    var q := s.requests[r];
    var q' := q.(phase := Finished(q.phase.outcome));
    assert Copies(q') == Copies(q);
    MoveSound(s, r, q');
    UnlistSound(With(s, r, q'), q.id);
  }

  lemma UnlistSound(s: State, id: string)
    requires Sound(s)
    ensures Sound(s.(pending := s.pending - {id}))
  {
    var s' := s.(pending := s.pending - {id});
    forall i: nat | i < |s'.requests|
      ensures ServedAt(s', i)
    {
      assert ServedAt(s, i);
    }
  }

  lemma FewCopies(s: State, r: nat)
    requires Sound(s) && r < |s.requests|
    ensures |s.requests[r].claimed| + |s.requests[r].channel| <= 1
  {
    assert ServedAt(s, r);
    assert |Copies(s.requests[r])| <= 1;
  }

  lemma OfferMoves(q: Request, k: nat, q': Request)
    requires k < |q.claimed| && |q.claimed| + |q.channel| <= 1
    requires q' == q.(claimed := q.claimed[..k] + q.claimed[k + 1..], channel := q.channel + [q.claimed[k]])
    ensures Copies(q') == Copies(q)
  {
    assert q'.claimed == [] && q.channel == [] && q'.channel == q.claimed;
  }

  /** The full-channel branch is never taken. */
  lemma OfferSound(s: State, r: nat, k: nat)
    requires Sound(s) && r < |s.requests| && k < |s.requests[r].claimed|
    ensures Sound(DoOffer(s, r, k)) && |s.requests[r].channel| < CAPACITY
    ensures DoOffer(s, r, k) == With(s, r, Offered(s.requests[r], k))
    ensures Copies(Offered(s.requests[r], k)) == Copies(s.requests[r])
  {
    FewCopies(s, r);
    OfferMoves(s.requests[r], k, Offered(s.requests[r], k));
    MoveSound(s, r, Offered(s.requests[r], k));
  }

  /** The request once a claimed message is in its channel. */
  function Offered(q: Request, k: nat): Request
    requires k < |q.claimed|
  {
    q.(claimed := q.claimed[..k] + q.claimed[k + 1..], channel := q.channel + [q.claimed[k]])
  }

  lemma ReceiveMoves(q: Request)
    requires q.phase.Waiting? && q.channel != [] && |q.claimed| + |q.channel| <= 1
    ensures Copies(Received(q)) == Copies(q)
  {
    var q' := Received(q);
    assert q.claimed == [] && q'.channel == [] && q.channel == [q.channel[0]];
    assert Copies(q') == Returned(q') == q.channel;
  }

  function Received(q: Request): Request
    requires q.channel != []
  {
    q.(phase := Returning(Got(q.channel[0])), channel := q.channel[1..])
  }

  lemma NextSound(s: State, t: Step)
    requires Sound(s)
    ensures Sound(Next(s, t))
  {
    match t
    case Begin(id) => BeginSound(s, id);
    case Arrive(m) => ArriveSound(s, m);
    case Publish(r, ok) =>
      if r < |s.requests| && s.requests[r].phase.Publishing? {
        MoveSound(s, r, s.requests[r].(phase := if ok then Waiting else Returning(PublishFailed)));
      }
    case Offer(r, k) =>
      if r < |s.requests| && k < |s.requests[r].claimed| {
        OfferSound(s, r, k);
      }
    case Receive(r) =>
      if r < |s.requests| && s.requests[r].phase.Waiting? && s.requests[r].channel != [] {
        FewCopies(s, r);
        ReceiveMoves(s.requests[r]);
        MoveSound(s, r, Received(s.requests[r]));
      }
    case GiveUp(r, cancelled) =>
      if r < |s.requests| && s.requests[r].phase.Waiting? {
        MoveSound(s, r, s.requests[r].(phase := Returning(if cancelled then Cancelled else TimedOut)));
      }
    case CleanUp(r) =>
      if r < |s.requests| && s.requests[r].phase.Returning? {
        CleanUpSound(s, r);
      }
  }

  lemma {:induction false} SoundOverRuns(h: seq<Step>)
    ensures Sound(After(INITIAL, h))
    decreases |h|
  {
    if h != [] {
      SoundOverRuns(h[..|h| - 1]);
      NextSound(After(INITIAL, h[..|h| - 1]), h[|h| - 1]);
    }
  }

  /** In every interleaving, whatever the ids: no message is lost to a full channel,
      and a request is given at most one message, the first one with its id that
      came in after it began; in particular that is what it returns. */
  lemma RepliesAreOwn(h: seq<Step>, r: nat)
    requires r < |After(INITIAL, h).requests|
    ensures var s := After(INITIAL, h);
      && s.dropped == []
      && |s.requests[r].claimed| + |s.requests[r].channel| <= 1
      && |Copies(s.requests[r])| <= 1
      && (forall m <- Copies(s.requests[r]) :: m.correlation == s.requests[r].id && ReplyAt(s, r) == Some(m))
      && (forall m <- Returned(s.requests[r]) :: m.correlation == s.requests[r].id && ReplyAt(s, r) == Some(m))
  {
    SoundOverRuns(h);
    var s := After(INITIAL, h);
    FewCopies(s, r);
    assert ServedAt(s, r);
    assert forall m <- Returned(s.requests[r]) :: m in Copies(s.requests[r]);
  }

  // ---- what fresh ids add ------------------------------------------------------------------------

  /** A live request is listed exactly while no reply has come, and then has it; a
      finished one is not listed. */
  predicate Accounted(q: Request, listed: bool, reply: Option<Message>) {
    if Live(q) then listed == reply.None? && (reply.Some? ==> Copies(q) == [reply.value]) else !listed
  }

  predicate AccountedAt(s: State, r: nat)
    requires r < |s.requests|
  {
    Accounted(s.requests[r], Listed(s, r), ReplyAt(s, r))
  }

  predicate LiveDistinct(s: State) {
    forall i, j :: 0 <= i < j < |s.requests| && Live(s.requests[i]) && Live(s.requests[j]) ==>
      s.requests[i].id != s.requests[j].id
  }

  ghost predicate Inv(s: State) {
    && Sound(s) && LiveDistinct(s)
    && forall r: nat :: r < |s.requests| ==> AccountedAt(s, r)
  }

  /** No live request has this id. */
  predicate Fresh(s: State, id: string) {
    forall i :: 0 <= i < |s.requests| && Live(s.requests[i]) ==> s.requests[i].id != id
  }

  lemma BeginAccounted(s: State, id: string, r: nat)
    requires Inv(s) && Fresh(s, id) && r <= |s.requests|
    ensures AccountedAt(DoBegin(s, id), r)
  {
    var s' := DoBegin(s, id);
    LogGrows(s.log, Began(id), r, s'.requests[r].id);
    if r < |s.requests| {
      assert AccountedAt(s, r) && s'.requests[r] == s.requests[r];
    } else {
      NoReplyBeforeBeginning(s.log, r, id);
    }
  }

  lemma BeginKeeps(s: State, id: string)
    requires Inv(s) && Fresh(s, id)
    ensures Inv(DoBegin(s, id))
  {
    BeginSound(s, id);
    forall r: nat | r < |DoBegin(s, id).requests|
      ensures AccountedAt(DoBegin(s, id), r)
    {
      BeginAccounted(s, id, r);
    }
  }

  lemma ArriveKeeps(s: State, m: Message)
    requires Inv(s)
    ensures Inv(DoArrive(s, m))
  {
    var s' := DoArrive(s, m);
    ArriveSound(s, m);
    forall r: nat | r < |s'.requests|
      ensures AccountedAt(s', r) && s'.requests[r].id == s.requests[r].id && Live(s'.requests[r]) == Live(s.requests[r])
    {
      assert AccountedAt(s, r);
      ArriveAt(s, m, r);
    }
  }

  /** A step that moves messages about within one request without ending it. */
  lemma MoveKeeps(s: State, r: nat, q: Request)
    requires Inv(s) && r < |s.requests| && q.id == s.requests[r].id
    requires Live(q) == Live(s.requests[r]) && Copies(q) == Copies(s.requests[r])
    ensures Inv(With(s, r, q))
  {
    var s' := With(s, r, q);
    MoveSound(s, r, q);
    forall i: nat | i < |s'.requests|
      ensures AccountedAt(s', i)
    {
      assert AccountedAt(s, i);
    }
  }

  lemma CleanUpAccounted(s: State, r: nat, i: nat)
    requires Inv(s) && r < |s.requests| && s.requests[r].phase.Returning? && i < |s.requests|
    ensures AccountedAt(DoCleanUp(s, r), i)
  {
    var s' := DoCleanUp(s, r);
    assert AccountedAt(s, i);
    if i != r {
      assert s'.requests[i] == s.requests[i];
      assert Live(s.requests[i]) ==> s.requests[i].id != s.requests[r].id;
    }
  }

  lemma CleanUpKeeps(s: State, r: nat)
    requires Inv(s) && r < |s.requests| && s.requests[r].phase.Returning?
    ensures Inv(DoCleanUp(s, r))
  {
    CleanUpSound(s, r);
    forall i: nat | i < |DoCleanUp(s, r).requests|
      ensures AccountedAt(DoCleanUp(s, r), i)
    {
      CleanUpAccounted(s, r, i);
    }
  }

  lemma NextKeeps(s: State, t: Step)
    requires Inv(s) && (t.Begin? ==> Fresh(s, t.id))
    ensures Inv(Next(s, t))
  {
    match t
    case Begin(id) => BeginKeeps(s, id);
    case Arrive(m) => ArriveKeeps(s, m);
    case Publish(r, ok) =>
      if r < |s.requests| && s.requests[r].phase.Publishing? {
        MoveKeeps(s, r, s.requests[r].(phase := if ok then Waiting else Returning(PublishFailed)));
      }
    case Offer(r, k) =>
      if r < |s.requests| && k < |s.requests[r].claimed| {
        OfferSound(s, r, k);
        MoveKeeps(s, r, Offered(s.requests[r], k));
      }
    case Receive(r) =>
      if r < |s.requests| && s.requests[r].phase.Waiting? && s.requests[r].channel != [] {
        FewCopies(s, r);
        ReceiveMoves(s.requests[r]);
        MoveKeeps(s, r, Received(s.requests[r]));
      }
    case GiveUp(r, cancelled) =>
      if r < |s.requests| && s.requests[r].phase.Waiting? {
        MoveKeeps(s, r, s.requests[r].(phase := Returning(if cancelled then Cancelled else TimedOut)));
      }
    case CleanUp(r) =>
      if r < |s.requests| && s.requests[r].phase.Returning? {
        CleanUpKeeps(s, r);
      }
  }

  /** Every request starts with an id that no live request has. */
  predicate FreshIds(h: seq<Step>)
    decreases |h|
  {
    h == [] || (FreshIds(h[..|h| - 1]) && (h[|h| - 1].Begin? ==> Fresh(After(INITIAL, h[..|h| - 1]), h[|h| - 1].id)))
  }

  /** The correlation protocol with fresh ids: under every interleaving a live
      request is listed exactly while no reply to it has come, the first reply is
      then on its way to it, in its channel or received, and a finished request
      leaves no entry. */
  lemma {:induction false} CorrelationOverRuns(h: seq<Step>)
    requires FreshIds(h)
    ensures Inv(After(INITIAL, h))
    decreases |h|
  {
    if h != [] {
      CorrelationOverRuns(h[..|h| - 1]);
      NextKeeps(After(INITIAL, h[..|h| - 1]), h[|h| - 1]);
    }
  }

  predicate DistinctIds(h: seq<Step>) {
    forall i, j :: 0 <= i < j < |h| && h[i].Begin? && h[j].Begin? ==> h[i].id != h[j].id
  }

  /** Every request of a run was begun in it. */
  lemma {:induction false} RequestsWereBegun(h: seq<Step>, r: nat)
    requires r < |After(INITIAL, h).requests|
    ensures exists i :: 0 <= i < |h| && h[i] == Begin(After(INITIAL, h).requests[r].id)
    decreases |h|
  {
    var before, t := h[..|h| - 1], h[|h| - 1];
    var s := After(INITIAL, before);
    if r < |s.requests| {
      RequestsWereBegun(before, r);
      var i :| 0 <= i < |before| && before[i] == Begin(s.requests[r].id);
      IdsStay(s, t, r);
      assert h[i] == before[i];
    } else {
      assert h[|h| - 1] == Begin(Next(s, t).requests[r].id);
    }
  }

  lemma IdsStay(s: State, t: Step, r: nat)
    requires r < |s.requests|
    ensures r < |Next(s, t).requests| && Next(s, t).requests[r].id == s.requests[r].id
  {
  }

  /** Distinct ids are fresh. */
  lemma {:induction false} DistinctIdsAreFresh(h: seq<Step>)
    requires DistinctIds(h)
    ensures FreshIds(h)
    decreases |h|
  {
    if h != [] {
      var before, t := h[..|h| - 1], h[|h| - 1];
      DistinctIdsAreFresh(before);
      if t.Begin? {
        var s := After(INITIAL, before);
        forall i | 0 <= i < |s.requests| && Live(s.requests[i])
          ensures s.requests[i].id != t.id
        {
          RequestsWereBegun(before, i);
          var k :| 0 <= k < |before| && before[k] == Begin(s.requests[i].id);
          assert h[k] == before[k];
        }
      }
    }
  }

  /** A live request with this id that no reply has reached. */
  predicate Unanswered(s: State, id: string) {
    exists r: nat :: r < |s.requests| && Live(s.requests[r]) && s.requests[r].id == id && ReplyAt(s, r).None?
  }

  /** With fresh ids the table is exactly the unanswered live requests. */
  lemma TableIsUnanswered(h: seq<Step>, id: string)
    requires FreshIds(h)
    ensures id in After(INITIAL, h).pending <==> Unanswered(After(INITIAL, h), id)
  {
    CorrelationOverRuns(h);
    var s := After(INITIAL, h);
    if id in s.pending {
      assert AccountedAt(s, s.pending[id]) && ServedAt(s, s.pending[id]);
    }
    if Unanswered(s, id) {
      var r: nat :| r < |s.requests| && Live(s.requests[r]) && s.requests[r].id == id && ReplyAt(s, r).None?;
      assert AccountedAt(s, r);
    }
  }

  /** Late and duplicate replies, and messages without an id, go to the handler of
      their topic and change no request. */
  lemma LateRepliesAreHandled(h: seq<Step>, m: Message)
    requires FreshIds(h) && (m.correlation == "" || !Unanswered(After(INITIAL, h), m.correlation))
    ensures var s := After(INITIAL, h);
      Next(s, Arrive(m)) == s.(handled := s.handled + [m], log := s.log + [Arrived(m)])
  {
    TableIsUnanswered(h, m.correlation);
  }

  // ---- why ids must be fresh -----------------------------------------------------------------------

  /** Every live request is listed or was given a message. */
  ghost predicate Answerable(s: State) {
    forall r: nat :: r < |s.requests| && Live(s.requests[r]) ==> Listed(s, r) || Copies(s.requests[r]) != []
  }

  /** The steps that end request `r`. */
  function Ending(s: State, r: nat): seq<Step>
    requires r < |s.requests|
  {
    match s.requests[r].phase
    case Publishing => [Publish(r, false), CleanUp(r)]
    case Waiting => [GiveUp(r, false), CleanUp(r)]
    case Returning(_) => [CleanUp(r)]
    case Finished(_) => []
  }

  lemma AfterOne(s: State, t: Step)
    ensures After(s, [t]) == Next(s, t)
  {
    assert [t][..0] == [];
  }

  lemma AfterTwo(s: State, t: Step, u: Step)
    ensures After(s, [t, u]) == Next(Next(s, t), u)
  {
    AfterOne(s, t);
    assert [t, u][..1] == [t];
  }

  /** A continuation that begins nothing. */
  predicate NoBegin(h: seq<Step>) {
    forall i :: 0 <= i < |h| ==> !h[i].Begin?
  }

  /** Two live requests with one id: the end of the first takes away the entry of
      the second, which then waits for a reply that cannot reach it. */
  lemma CollisionOrphans(s: State, id: string) returns (h: seq<Step>)
    requires Inv(s) && !Fresh(s, id)
    ensures NoBegin(h) && !Answerable(After(DoBegin(s, id), h))
  {
    var r: nat :| r < |s.requests| && Live(s.requests[r]) && s.requests[r].id == id;
    var s1 := DoBegin(s, id);
    h := Ending(s, r);
    if |h| == 2 {
      AfterTwo(s1, h[0], h[1]);
      EndOrphans(Next(s1, h[0]), r, |s.requests|);
    } else {
      AfterOne(s1, h[0]);
      EndOrphans(s1, r, |s.requests|);
    }
  }

  lemma EndOrphans(s: State, r: nat, n: nat)
    requires r < n < |s.requests| && s.requests[r].phase.Returning?
    requires s.requests[n] == NewRequest(s.requests[r].id)
    ensures !Answerable(Next(s, CleanUp(r)))
  {
    var s' := Next(s, CleanUp(r));
    assert s'.requests[n] == s.requests[n] && !Listed(s', n);
    assert Copies(s'.requests[n]) == [];
  }

  lemma FreshIsSafe(s: State, id: string, h: seq<Step>)
    requires Inv(s) && Fresh(s, id) && NoBegin(h)
    ensures Answerable(After(DoBegin(s, id), h))
  {
    BeginKeeps(s, id);
    RunKeeps(DoBegin(s, id), h);
    InvIsAnswerable(After(DoBegin(s, id), h));
  }

  /** Starting a request is safe exactly when no live request has its id. */
  lemma FreshIdsAreNeeded(s: State, id: string)
    requires Inv(s)
    ensures Fresh(s, id) <==> forall h :: NoBegin(h) ==> Answerable(After(DoBegin(s, id), h))
  {
    if Fresh(s, id) {
      forall h | NoBegin(h)
        ensures Answerable(After(DoBegin(s, id), h))
      {
        FreshIsSafe(s, id, h);
      }
    } else {
      var h := CollisionOrphans(s, id);
    }
  }

  lemma {:induction false} RunKeeps(s: State, h: seq<Step>)
    requires Inv(s) && NoBegin(h)
    ensures Inv(After(s, h))
    decreases |h|
  {
    if h != [] {
      RunKeeps(s, h[..|h| - 1]);
      NextKeeps(After(s, h[..|h| - 1]), h[|h| - 1]);
    }
  }

  lemma InvIsAnswerable(s: State)
    requires Inv(s)
    ensures Answerable(s)
  {
    forall r: nat | r < |s.requests| && Live(s.requests[r])
      ensures Listed(s, r) || Copies(s.requests[r]) != []
    {
      assert AccountedAt(s, r);
    }
  }
}

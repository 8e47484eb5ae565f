/** Matching answers to calls on one pile connection: a CALL waits for the CALLRESULT or CALLERROR that carries its
    UniqueId (section 4.2 of the OCPP-J 1.6 specification), whatever else the read loop and the timers do meanwhile. */
module Calls {
  import opened Basics

  /** An answer frame: its UniqueId and whether it is a CALLERROR; the payload is what the caller gets back. */
  datatype Answer = Answer(uid: Id, isError: bool, payload: nat)

  datatype Outcome = Payload(value: nat) | Failed

  /** A call between registering its channel and taking it out of the pending table again. */
  datatype Stage = Registered | Waiting | Decided(from: Option<Answer>) | Returned(from: Option<Answer>)

  /** since: how many answers the read loop had looked up when the call registered. */
  datatype Call = Call(since: nat, stage: Stage)

  /** The read loop: idle, or past the lookup and about to offer the answer to the call's channel. */
  datatype Resolver = Idle | Offering(answer: Answer)

  /** channels: the buffer, of one answer, of every channel made so far. */
  datatype Conn = Conn(pending: set<Id>, channels: map<Id, Option<Answer>>, calls: map<Id, Call>,
                       resolver: Resolver, looked: seq<Answer>, closed: bool)

  datatype Action =
    | Register            // make the channel and enter it in the pending table
    | Written(ok: bool)   // the frame was sent, or the write failed
    | LookUp(a: Answer)   // the read loop decodes an answer and looks its id up
    | Offer               // the non-blocking send
    | Take                // the select receives from the channel
    | GiveUp              // the select takes the timer or the cancelled context
    | SeeClosed           // the select sees the connection closed
    | Leave               // the deferred removal from the pending table
    | Close

  predicate InStage(s: Conn, uid: Id, stage: Stage) {
    uid in s.calls && s.calls[uid].stage == stage
  }

  predicate Enabled(s: Conn, uid: Id, a: Action) {
    match a
    case Register => uid !in s.calls
    case Written(_) => InStage(s, uid, Registered)
    case LookUp(_) => s.resolver.Idle?
    case Offer => s.resolver.Offering? && s.resolver.answer.uid in s.channels
    case Take => InStage(s, uid, Waiting) && uid in s.channels && s.channels[uid].Some?
    case GiveUp => InStage(s, uid, Waiting)
    case SeeClosed => InStage(s, uid, Waiting) && s.closed
    case Leave => uid in s.calls && s.calls[uid].stage.Decided?
    case Close => true
  }

  function At(s: Conn, uid: Id, stage: Stage): Conn
    requires uid in s.calls
  {
    s.(calls := s.calls[uid := s.calls[uid].(stage := stage)])
  }

  function Step(s: Conn, uid: Id, a: Action): Conn {
    if !Enabled(s, uid, a) then s
    else match a
      case Register =>
        s.(pending := s.pending + {uid}, channels := s.channels[uid := None], calls := s.calls[uid := Call(|s.looked|, Registered)])
      case Written(ok) => At(s, uid, if ok then Waiting else Decided(None))
      case LookUp(m) =>
        s.(looked := s.looked + [m], resolver := if m.uid in s.pending then Offering(m) else Idle)
      case Offer =>
        var m := s.resolver.answer;
        s.(resolver := Idle, channels := if s.channels[m.uid].None? then s.channels[m.uid := Some(m)] else s.channels)
      case Take => At(s, uid, Decided(s.channels[uid])).(channels := s.channels[uid := None])
      case GiveUp => At(s, uid, Decided(None))
      case SeeClosed => At(s, uid, Decided(None))
      case Leave => At(s, uid, Returned(s.calls[uid].stage.from)).(pending := s.pending - {uid})
      case Close => s.(closed := true)
  }

  const FRESH: Conn := Conn({}, map[], map[], Idle, [], false)

  function Run(steps: seq<(Id, Action)>): Conn {
    if steps == [] then FRESH
    else
      var last := steps[|steps| - 1];
      Step(Run(steps[..|steps| - 1]), last.0, last.1)
  }

  /** What the caller gets once the call has returned. */
  function Result(from: Option<Answer>): Outcome {
    match from
    case Some(m) => if m.isError then Failed else Payload(m.payload)
    case None => Failed
  }

  // ---- what every interleaving keeps

  /** The first answer with this id among those looked up from a position on. */
  function FirstAnswer(looked: seq<Answer>, since: nat, uid: Id): Option<Answer>
  {
    if |looked| <= since then None
    else
      var earlier := FirstAnswer(looked[..|looked| - 1], since, uid);
      if earlier.Some? then earlier
      else if looked[|looked| - 1].uid == uid then Some(looked[|looked| - 1]) else None
  }

  /** The table of pending calls holds exactly the calls that have not returned. */
  ghost predicate PendingIsUnreturned(s: Conn) {
    && (forall uid :: uid in s.pending <==> uid in s.calls && !s.calls[uid].stage.Returned?)
    && (forall uid :: uid in s.calls <==> uid in s.channels)
    && (s.resolver.Offering? ==> s.resolver.answer.uid in s.channels)
    && (forall uid :: uid in s.calls ==> s.calls[uid].since <= |s.looked|)
  }

  /** Until a call decides, its first answer is on its way to the channel or in it; an answer it decided on is that first one. */
  ghost predicate FirstAnswerCounts(s: Conn)
    requires PendingIsUnreturned(s)
  {
    forall uid :: uid in s.calls ==>
      var first := FirstAnswer(s.looked, s.calls[uid].since, uid);
      match s.calls[uid].stage
      case Decided(from) => from.Some? ==> from == first
      case Returned(from) => from.Some? ==> from == first
      case _ =>
        if s.resolver.Offering? && s.resolver.answer.uid == uid && s.channels[uid].None? then first == Some(s.resolver.answer)
        else s.channels[uid] == first
  }

  ghost predicate Inv(s: Conn) {
    PendingIsUnreturned(s) && FirstAnswerCounts(s)
  }

  // One more answer looked up is the first for its own id if none was before, and changes nothing for the others.
  lemma FirstAfterLookUp(looked: seq<Answer>, m: Answer, since: nat, uid: Id)
    requires since <= |looked|
    ensures var before, after := FirstAnswer(looked, since, uid), FirstAnswer(looked + [m], since, uid);
            after == if before.Some? || m.uid != uid then before else Some(m)
  {
    assert (looked + [m])[..|looked|] == looked;
  }

  lemma LookUpKeepsInv(s: Conn, uid: Id, m: Answer)
    requires Inv(s) && Enabled(s, uid, LookUp(m))
    ensures Inv(Step(s, uid, LookUp(m)))
  {
    var t := Step(s, uid, LookUp(m));
    forall u | u in t.calls ensures FirstAnswer(t.looked, t.calls[u].since, u)
        == (var before := FirstAnswer(s.looked, s.calls[u].since, u); if before.Some? || m.uid != u then before else Some(m)) {
      FirstAfterLookUp(s.looked, m, s.calls[u].since, u);
    }
  }

  lemma RegisterKeepsInv(s: Conn, uid: Id)
    requires Inv(s) && Enabled(s, uid, Register)
    ensures Inv(Step(s, uid, Register))
  {
  }

  lemma OfferKeepsInv(s: Conn, uid: Id)
    requires Inv(s) && Enabled(s, uid, Offer)
    ensures Inv(Step(s, uid, Offer))
  {
  }

  lemma TakeKeepsInv(s: Conn, uid: Id)
    requires Inv(s) && Enabled(s, uid, Take)
    ensures Inv(Step(s, uid, Take))
  {
  }

  lemma LeaveKeepsInv(s: Conn, uid: Id)
    requires Inv(s) && Enabled(s, uid, Leave)
    ensures Inv(Step(s, uid, Leave))
  {
  }

  lemma EndingKeepsInv(s: Conn, uid: Id, a: Action)
    requires Inv(s) && Enabled(s, uid, a) && (a.Written? || a.GiveUp? || a.SeeClosed? || a.Close?)
    ensures Inv(Step(s, uid, a))
  {
  }

  lemma StepKeepsInv(s: Conn, uid: Id, a: Action)
    requires Inv(s)
    ensures Inv(Step(s, uid, a))
  {
    if Enabled(s, uid, a) {
      match a
      case Register => RegisterKeepsInv(s, uid);
      case LookUp(m) => LookUpKeepsInv(s, uid, m);
      case Offer => OfferKeepsInv(s, uid);
      case Take => TakeKeepsInv(s, uid);
      case Leave => LeaveKeepsInv(s, uid);
      case Written(_) => EndingKeepsInv(s, uid, a);
      case GiveUp => EndingKeepsInv(s, uid, a);
      case SeeClosed => EndingKeepsInv(s, uid, a);
      case Close => EndingKeepsInv(s, uid, a);
    }
  }

  /** Every interleaving keeps the invariant. */
  lemma {:induction false} EveryRunKeepsInv(steps: seq<(Id, Action)>)
    ensures Inv(Run(steps))
  {
    if steps != [] {
      var last := steps[|steps| - 1];
      EveryRunKeepsInv(steps[..|steps| - 1]);
      StepKeepsInv(Run(steps[..|steps| - 1]), last.0, last.1);
    }
  }

  /** Position i holds the first answer with this id among those looked up from a position on. */
  ghost predicate IsFirst(looked: seq<Answer>, since: nat, uid: Id, i: nat) {
    && since <= i < |looked|
    && looked[i].uid == uid
    && forall j :: since <= j < i ==> looked[j].uid != uid
  }

  lemma {:induction false} FirstAnswerIsFirst(looked: seq<Answer>, since: nat, uid: Id) returns (i: nat)
    ensures var first := FirstAnswer(looked, since, uid);
            if first.Some? then IsFirst(looked, since, uid, i) && looked[i] == first.value
            else forall j :: since <= j < |looked| ==> looked[j].uid != uid
  {
    i := |looked| - (if looked == [] then 0 else 1);
    if |looked| > since {
      var earlier := FirstAnswerIsFirst(looked[..|looked| - 1], since, uid);
      if FirstAnswer(looked[..|looked| - 1], since, uid).Some? {
        i := earlier;
      }
    }
  }

  /** A call that returns a payload returns that of the first answer with its own id looked up since it registered:
      no other call's answer, no answer from before, and no duplicate after it. */
  lemma PayloadIsOfTheFirstOwnAnswer(steps: seq<(Id, Action)>, uid: Id, from: Option<Answer>) returns (i: nat)
    requires InStage(Run(steps), uid, Returned(from)) && Result(from).Payload?
    ensures var s := Run(steps);
            && IsFirst(s.looked, s.calls[uid].since, uid, i)
            && !s.looked[i].isError && Result(from) == Payload(s.looked[i].payload)
  {
    EveryRunKeepsInv(steps);
    i := FirstAnswerIsFirst(Run(steps).looked, Run(steps).calls[uid].since, uid);
  }

  /** The pending table holds exactly the calls under way, so it does not grow with the calls already answered. */
  lemma PendingHoldsUnfinishedCalls(steps: seq<(Id, Action)>)
    ensures var s := Run(steps); s.pending == set uid | uid in s.calls && !s.calls[uid].stage.Returned?
  {
    EveryRunKeepsInv(steps);
  }

  /** The read loop never waits for a caller: past the lookup its send always goes through, changing no call, and an
      answer that finds the buffer full is one the call has no use for, since its first answer is already there. */
  lemma ResolveNeverBlocks(steps: seq<(Id, Action)>, any: Id)
    requires Run(steps).resolver.Offering?
    ensures var s := Run(steps);
            var m := s.resolver.answer;
            var t := Step(s, any, Offer);
            && Enabled(s, any, Offer) && t.resolver.Idle? && t.calls == s.calls && t.pending == s.pending
            && m.uid in s.calls
            && ((s.calls[m.uid].stage.Registered? || s.calls[m.uid].stage.Waiting?) ==>
                  t.channels[m.uid] == FirstAnswer(s.looked, s.calls[m.uid].since, m.uid) != None)
  {
    EveryRunKeepsInv(steps);
  }

  /** A waiting call whose answer was looked up and offered can receive it: nothing is lost in between. */
  lemma AnswerIsNotLost(steps: seq<(Id, Action)>, uid: Id)
    requires InStage(Run(steps), uid, Waiting) && Run(steps).resolver.Idle?
    ensures var s := Run(steps);
            Enabled(s, uid, Take) <==> exists i :: s.calls[uid].since <= i < |s.looked| && s.looked[i].uid == uid
  {
    EveryRunKeepsInv(steps);
    var _ := FirstAnswerIsFirst(Run(steps).looked, Run(steps).calls[uid].since, uid);
  }

  /** A waiting call that takes its answer returns it, if it is a CALLRESULT, and fails, if it is a CALLERROR. */
  lemma TakenAnswerIsReturned(steps: seq<(Id, Action)>, uid: Id) returns (i: nat)
    requires InStage(Run(steps), uid, Waiting) && Enabled(Run(steps), uid, Take)
    ensures var s := Run(steps);
            var t := Step(Step(s, uid, Take), uid, Leave);
            && uid in s.calls && IsFirst(s.looked, s.calls[uid].since, uid, i)
            && InStage(t, uid, Returned(Some(s.looked[i]))) && t.pending == s.pending - {uid}
            && Result(Some(s.looked[i])) == if s.looked[i].isError then Failed else Payload(s.looked[i].payload)
  {
    EveryRunKeepsInv(steps);
    i := FirstAnswerIsFirst(Run(steps).looked, Run(steps).calls[uid].since, uid);
  }

  /** A call whose write fails, whose time is up or whose connection is closed fails, and leaves the table. */
  lemma UnansweredCallFails(steps: seq<(Id, Action)>, uid: Id, a: Action)
    requires Enabled(Run(steps), uid, a) && (a == Written(false) || a == GiveUp || a == SeeClosed)
    ensures var s := Run(steps);
            var t := Step(Step(s, uid, a), uid, Leave);
            InStage(t, uid, Returned(None)) && Result(None) == Failed && t.pending == s.pending - {uid}
  {
  }

  /** Closing wakes every waiting call: from then on, whatever else happens, it can end without an answer and
      leave the table; closing again changes nothing. */
  lemma CloseWakesWaitingCalls(s: Conn, uid: Id, any: Id, other: Id, a: Action)
    requires Inv(s)
    ensures var t := Step(s, any, Close);
            && t.closed && Step(t, any, Close) == t && Step(t, other, a).closed
            && (InStage(t, uid, Waiting) ==>
                  var u := Step(Step(t, uid, SeeClosed), uid, Leave);
                  InStage(u, uid, Returned(None)) && uid !in u.pending)
  {
  }

  // ---- the connection's own operations, each under its mutex

  /** What resolve does to the buffers of the pending calls: the answer goes in unless one is already there. */
  function Delivered(buffers: map<Id, Option<Answer>>, m: Answer): map<Id, Option<Answer>> {
    if m.uid in buffers && buffers[m.uid].None? then buffers[m.uid := Some(m)] else buffers
  }

  class Channel {
    var buffer: Option<Answer>

    constructor ()
      ensures buffer == None
    {
      buffer := None;
    }
  }

  class PileConnection {
    var pending: map<Id, Channel>
    var closed: bool

    constructor ()
      ensures Valid() && Buffers() == map[] && !closed
    {
      pending, closed := map[], false;
    }

    /** Every pending call has its own channel. */
    ghost predicate Valid()
      reads this
    {
      forall u, v :: u in pending && v in pending && pending[u] == pending[v] ==> u == v
    }

    function Buffers(): map<Id, Option<Answer>>
      reads this, pending.Values
    {
      map u | u in pending :: pending[u].buffer
    }

    method Register(uid: Id) returns (ch: Channel)
      requires Valid() && uid !in pending
      modifies this`pending
      ensures Valid() && fresh(ch) && uid in pending && pending[uid] == ch
      ensures Buffers() == old(Buffers())[uid := None]
    {
      ch := new Channel();
      pending := pending[uid := ch];
    }

    /** Never waits: a full buffer is left alone, and an unknown id is dropped. */
    method Resolve(m: Answer) returns (known: bool)
      requires Valid()
      modifies pending.Values
      ensures Valid() && pending == old(pending)
      ensures known <==> m.uid in pending
      ensures Buffers() == Delivered(old(Buffers()), m)
    {
      if m.uid !in pending {
        return false;
      }
      var ch := pending[m.uid];
      if ch.buffer.None? {
        ch.buffer := Some(m);
      }
      return true;
    }

    method Leave(uid: Id)
      requires Valid()
      modifies this`pending
      ensures Valid() && Buffers() == old(Buffers()) - {uid}
    {
      pending := pending - {uid};
    }

    /** Idempotent. */
    method CloseOnce() returns (first: bool)
      modifies this`closed
      ensures closed && (first <==> !old(closed))
    {
      first := !closed;
      closed := true;
    }
  }

  /** The buffers of the calls under way, in the protocol's own state. */
  function BuffersOf(s: Conn): map<Id, Option<Answer>>
    requires forall uid :: uid in s.pending ==> uid in s.channels
  {
    map uid | uid in s.pending :: s.channels[uid]
  }

  /** A resolve that nobody comes between is a lookup and the send that follows it. */
  lemma ResolveIsLookUpThenOffer(s: Conn, any: Id, m: Answer)
    requires Inv(s) && s.resolver.Idle?
    ensures var t := Step(Step(s, any, LookUp(m)), any, Offer);
            && t.pending == s.pending && t.resolver.Idle?
            && (forall uid :: uid in t.pending ==> uid in t.channels)
            && BuffersOf(t) == Delivered(BuffersOf(s), m)
  {
  }
}

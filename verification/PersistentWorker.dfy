/** One pooled worker as the code that uses it (crates/orchestrator/src/worker_pool.rs:118-170,
    217-246, 300-397, 428-450).

    Waiting is where the outside world gets its turn.  What happens meanwhile, and how the wait
    ends, is given by a schedule; a schedule that has run out means that the deadline has passed.
    The structured code is proved to do what the step machine of WorkerChannel does when it follows
    the same schedule. */
module PersistentWorker {
  import opened Options
  import opened Json
  import opened RpcServer
  import opened WorkerChannel
  import opened WorkerChannelLaws
  import opened WorkerAnswers

  datatype Outcome = Succeeds | Fails | DeadlinePassed

  /** One wait: the steps others try to take, then how the wait ends for the caller; whether a write
      that does not succeed was delivered, whether a dead child is noticed, whether a spawn works. */
  datatype Moment = Moment(meanwhile: seq<Action>, outcome: Outcome, delivered: bool, sawExit: bool, spawned: bool)

  const LAST := Moment([], DeadlinePassed, false, false, false)

  function Next(schedule: seq<Moment>): Moment {
    if schedule == [] then LAST else schedule[0]
  }

  function Rest(schedule: seq<Moment>): seq<Moment> {
    if schedule == [] then [] else schedule[1..]
  }

  predicate IsBy(a: Action, p: nat) {
    !a.ChildTakes? && !a.ChildEmits? && !a.ChildAnswers? && !a.ChildDies? && a.p == p
  }

  /** What others do while `p` waits; steps that are not possible are passed over. */
  function Meanwhile(names: set<string>, s: State, p: nat, acts: seq<Action>): State
    decreases |acts|
  {
    if acts == [] then s
    else
      var s' := if Enabled(s, acts[0]) && !IsBy(acts[0], p) then Apply(names, s, acts[0]) else s;
      Meanwhile(names, s', p, acts[1..])
  }

  /** The step `p` takes next, if the moment lets it take any. */
  function Choice(s: State, p: nat, m: Moment): Option<Action>
    requires p in s.parties
  {
    match s.parties[p].phase
    case Queued =>
      if m.outcome.DeadlinePassed? then Some(GiveUp(p)) else if s.lock.None? then Some(Acquire(p)) else None
    case Ensuring(_) => Some(EnsureLive(p, m.sawExit && s.slot.Some? && !IsAlive(s, s.slot.value), m.spawned))
    case Ready(_, _) =>
      Some(if m.outcome.Succeeds? then WriteOk(p) else WriteFails(p, m.delivered, m.outcome.DeadlinePassed?))
    case Reading(_, k, _) =>
      if m.outcome.DeadlinePassed? then Some(ReadTimesOut(p))
      else if m.outcome.Fails? then Some(ReadFails(p))
      else if k < |s.children| && s.children[k].outbox != [] then Some(ReadLine(p)) else None
    case Killing(_, _) => Some(KillDone(p))
    case _ => None
  }

  predicate InCall(phase: Phase) {
    phase.Queued? || phase.Ensuring? || phase.Ready? || phase.Reading? || phase.Killing? || phase.Finished?
  }

  ghost predicate Calling(names: set<string>, s: State, p: nat) {
    Inv(names, s) && p in s.parties && InCall(s.parties[p].phase)
  }

  lemma {:induction false} ChoiceIsEnabled(names: set<string>, s: State, p: nat, m: Moment)
    requires Calling(names, s, p)
    ensures var a := Choice(s, p, m); a.Some? ==> Enabled(s, a.value)
  {
    hide ChildrenOk;
    hide PartiesOk;
    hide AllAtHand;
    hide Awaited;
    assert Holds(s.parties[p].phase) ==> HolderOk(s, s.parties[p]);
  }

  lemma {:induction false} OthersLeaveParty(names: set<string>, s: State, a: Action, p: nat)
    requires Enabled(s, a) && p in s.parties && !IsBy(a, p)
    ensures var s' := Apply(names, s, a); p in s'.parties && s'.parties[p] == s.parties[p]
  {
    if a.ReadLine? {
      var verdict := Judge(s.children[s.parties[a.p].phase.child].outbox[0], s.parties[a.p].phase.id);
      assert Apply(names, s, a) == TakeLine(s, a.p, s.parties[a.p].phase.child, verdict);
    }
  }

  lemma {:induction false} MeanwhileKeeps(names: set<string>, s: State, p: nat, acts: seq<Action>)
    requires Inv(names, s) && p in s.parties
    ensures var s' := Meanwhile(names, s, p, acts);
            Inv(names, s') && p in s'.parties && s'.parties[p] == s.parties[p]
    decreases |acts|
  {
    if acts != [] {
      if Enabled(s, acts[0]) && !IsBy(acts[0], p) {
        StepKeepsInv(names, s, acts[0]);
        OthersLeaveParty(names, s, acts[0], p);
        MeanwhileKeeps(names, Apply(names, s, acts[0]), p, acts[1..]);
      } else {
        MeanwhileKeeps(names, s, p, acts[1..]);
      }
    }
  }

  // ------------------------------------------------------------------------------------------
  // The machine under a schedule
  // ------------------------------------------------------------------------------------------

  /** `p` takes the step it chooses, if it has one. */
  ghost function Act(names: set<string>, s: State, p: nat, m: Moment): State
    requires Calling(names, s, p)
  {
    ChoiceIsEnabled(names, s, p, m);
    var a := Choice(s, p, m);
    if a.None? then s else Apply(names, s, a.value)
  }

  lemma {:induction false} OwnStepStaysInCall(names: set<string>, s: State, p: nat, a: Action)
    requires Enabled(s, a) && p in s.parties && InCall(s.parties[p].phase) && IsBy(a, p)
    ensures var s' := Apply(names, s, a); p in s'.parties && InCall(s'.parties[p].phase)
  {
    if a.ReadLine? {
      var verdict := Judge(s.children[s.parties[p].phase.child].outbox[0], s.parties[p].phase.id);
      assert Apply(names, s, a) == TakeLine(s, p, s.parties[p].phase.child, verdict);
    }
  }

  lemma {:induction false} OwnStepKeeps(names: set<string>, s: State, p: nat, a: Action, s': State)
    requires Calling(names, s, p) && Enabled(s, a) && IsBy(a, p) && s' == Apply(names, s, a)
    ensures Calling(names, s', p)
  {
    StepKeepsInv(names, s, a);
    OwnStepStaysInCall(names, s, p, a);
  }

  lemma {:induction false} ActKeeps(names: set<string>, s: State, p: nat, m: Moment)
    requires Calling(names, s, p)
    ensures Calling(names, Act(names, s, p, m), p)
  {
    ChoiceIsEnabled(names, s, p, m);
    var a := Choice(s, p, m);
    if a.Some? {
      assert IsBy(a.value, p);
      OwnStepKeeps(names, s, p, a.value, Act(names, s, p, m));
    }
  }

  /** How far a call is from its end when time is up. */
  function Rank(phase: Phase): nat {
    match phase
    case Finished(_) => 0
    case Killing(_, next) => if next.Some? then 1 else 5
    case Reading(_, _, _) => 2
    case Ready(_, _) => 3
    case Ensuring(_) => 4
    case Queued => 6
    case _ => 7
  }

  lemma {:induction false} TimeIsUp(names: set<string>, s: State, p: nat)
    requires Calling(names, s, p) && !s.parties[p].phase.Finished?
    ensures var s' := Act(names, s, p, LAST); p in s'.parties && Rank(s'.parties[p].phase) < Rank(s.parties[p].phase)
  {
    hide ChildrenOk;
    hide PartiesOk;
    hide AllAtHand;
    hide Awaited;
    ChoiceIsEnabled(names, s, p, LAST);
  }

  lemma {:induction false} WaitKeeps(names: set<string>, s: State, p: nat, schedule: seq<Moment>)
    requires Calling(names, s, p) && !s.parties[p].phase.Finished?
    ensures var m := Next(schedule);
            var mid := Meanwhile(names, s, p, m.meanwhile);
            && Calling(names, mid, p) && mid.parties[p] == s.parties[p]
            && Calling(names, Act(names, mid, p, m), p)
            && (schedule == [] ==> mid == s && Rank(Act(names, mid, p, m).parties[p].phase) < Rank(s.parties[p].phase))
  {
    var m := Next(schedule);
    MeanwhileKeeps(names, s, p, m.meanwhile);
    ActKeeps(names, Meanwhile(names, s, p, m.meanwhile), p, m);
    if schedule == [] { TimeIsUp(names, s, p); }
  }

  /** Where the call of `p` ends if the schedule is followed. */
  ghost function Play(names: set<string>, s: State, p: nat, schedule: seq<Moment>): State
    requires Calling(names, s, p)
    decreases |schedule|, Rank(s.parties[p].phase)
  {
    if s.parties[p].phase.Finished? then s
    else
      var m := Next(schedule);
      WaitKeeps(names, s, p, schedule);
      Play(names, Act(names, Meanwhile(names, s, p, m.meanwhile), p, m), p, Rest(schedule))
  }

  /** Following the schedule from `s` leads to `fate`. */
  ghost predicate LeadsTo(names: set<string>, s: State, p: nat, schedule: seq<Moment>, fate: State) {
    Calling(names, s, p) && Play(names, s, p, schedule) == fate
  }

  ghost predicate Reaches(names: set<string>, s: State, s': State) {
    exists acts :: Runs(names, s, acts, s')
  }

  lemma {:induction false} ReachesMore(names: set<string>, s: State, mid: State, a: Action)
    requires Reaches(names, s, mid) && Enabled(mid, a)
    ensures Reaches(names, s, Apply(names, mid, a))
  {
    var acts :| Runs(names, s, acts, mid);
    OneMoreAct(names, s, acts, mid, a);
  }

  lemma {:induction false} MeanwhileIsRun(names: set<string>, start: State, s: State, p: nat, acts: seq<Action>)
    requires Reaches(names, start, s)
    ensures Reaches(names, start, Meanwhile(names, s, p, acts))
    decreases |acts|
  {
    if acts != [] {
      if Enabled(s, acts[0]) && !IsBy(acts[0], p) {
        ReachesMore(names, start, s, acts[0]);
        MeanwhileIsRun(names, start, Apply(names, s, acts[0]), p, acts[1..]);
      } else {
        MeanwhileIsRun(names, start, s, p, acts[1..]);
      }
    }
  }

  lemma {:induction false} ActIsRun(names: set<string>, start: State, s: State, p: nat, m: Moment)
    requires Calling(names, s, p) && Reaches(names, start, s)
    ensures Reaches(names, start, Act(names, s, p, m))
  {
    ChoiceIsEnabled(names, s, p, m);
    var a := Choice(s, p, m);
    if a.Some? { ReachesMore(names, start, s, a.value); }
  }

  /** Under every schedule the call ends, and what happened is a run of the machine: all that holds
      of runs holds of the code. */
  lemma {:induction false} PlayEndsInARun(names: set<string>, start: State, s: State, p: nat, schedule: seq<Moment>)
    requires Calling(names, s, p) && Reaches(names, start, s)
    ensures var s' := Play(names, s, p, schedule);
            Reaches(names, start, s') && p in s'.parties && s'.parties[p].phase.Finished?
    decreases |schedule|, Rank(s.parties[p].phase)
  {
    if !s.parties[p].phase.Finished? {
      var m := Next(schedule);
      var mid := Meanwhile(names, s, p, m.meanwhile);
      WaitKeeps(names, s, p, schedule);
      MeanwhileIsRun(names, start, s, p, m.meanwhile);
      ActIsRun(names, start, mid, p, m);
      PlayEndsInARun(names, start, Act(names, mid, p, m), p, Rest(schedule));
    }
  }

  // ------------------------------------------------------------------------------------------
  // The code
  // ------------------------------------------------------------------------------------------

  /** How one attempt ends, seen by the retry loop. */
  datatype Attempt = Replied(value: Json) | ChildGone | TimedOut | Other(result: CallResult)

  /** What the retry loop makes of the end of an attempt. */
  function AfterAttempt(s: State, p: nat, k: nat, attempt: nat, r: Attempt): State
    requires p in s.parties && k < |s.children|
  {
    match r
    case Replied(v) => Return(WithChild(s, k, s.children[k].(callsServed := s.children[k].callsServed + 1)), p, Ok(v))
    case Other(result) => Return(s, p, result)
    case ChildGone => FoundDead(s, p, k, attempt)
    case TimedOut => StartKill(s, p, k, Some(Timeout))
  }

  /** The worker after the request was written, or after the write failed. */
  function AfterWrite(s: State, p: nat, m: Moment): State
    requires CanWrite(s, p)
  {
    var phase := s.parties[p].phase;
    if m.outcome.Succeeds?
    then Written(s, p, true, Reading(phase.attempt, phase.child, s.children[phase.child].nextId))
    else Written(s, p, m.delivered, phase)
  }

  function FailedWait(m: Moment): Attempt {
    if m.outcome.DeadlinePassed? then TimedOut else ChildGone
  }

  lemma {:induction false} ActOnReady(names: set<string>, s: State, p: nat, m: Moment, attempt: nat, k: nat)
    requires Calling(names, s, p) && s.parties[p].phase == Ready(attempt, k)
    ensures CanWrite(s, p)
    ensures var s' := AfterWrite(s, p, m);
            Act(names, s, p, m) == if m.outcome.Succeeds? then s' else AfterAttempt(s', p, k, attempt, FailedWait(m))
  {
    ChoiceIsEnabled(names, s, p, m);
  }

  lemma {:induction false} ActOnReading(names: set<string>, s: State, p: nat, m: Moment, attempt: nat, k: nat, id: nat)
    requires Calling(names, s, p) && s.parties[p].phase == Reading(attempt, k, id)
    ensures k < |s.children|
    ensures Act(names, s, p, m) ==
              if !m.outcome.Succeeds? then AfterAttempt(s, p, k, attempt, FailedWait(m))
              else if s.children[k].outbox == [] then s
              else TakeLine(s, p, k, Judge(s.children[k].outbox[0], id))
  {
    assert HolderOk(s, s.parties[p]);
    ChoiceIsEnabled(names, s, p, m);
  }

  /** The retry loop goes the right way from `s` if the attempt ends with `r`. */
  ghost predicate EndsRight(
      names: set<string>, s: State, p: nat, k: nat, attempt: nat, r: Attempt, schedule: seq<Moment>, fate: State)
  {
    p in s.parties && k < |s.children| && LeadsTo(names, AfterAttempt(s, p, k, attempt, r), p, schedule, fate)
  }

  lemma {:induction false} ActOnQueued(names: set<string>, s: State, p: nat, m: Moment)
    requires Calling(names, s, p) && s.parties[p].phase.Queued?
    ensures Act(names, s, p, m) == if m.outcome.DeadlinePassed? then Moved(s, p, Finished(QueueTimeout))
                                   else if s.lock.None? then Moved(s, p, Ensuring(0)).(lock := Some(p))
                                   else s
  {
  }

  lemma {:induction false} ActOnEnsuring(names: set<string>, s: State, p: nat, m: Moment)
    requires Calling(names, s, p) && s.parties[p].phase.Ensuring?
    ensures s.slot.Some? ==> s.slot.value < |s.children|
    ensures Act(names, s, p, m) == AfterEnsure(s, p, m.sawExit && s.slot.Some? && !IsAlive(s, s.slot.value), m.spawned)
  {
    ChoiceIsEnabled(names, s, p, m);
  }

  /** The child is killed; then the next attempt, or the result. */
  function AfterKill(s: State, p: nat, k: nat, next: Option<CallResult>): State
    requires p in s.parties && k < |s.children|
  {
    var s' := WithChild(s, k, s.children[k].(alive := false));
    if next.None? then Moved(s', p, Ensuring(1)) else Return(s', p, next.value)
  }

  lemma {:induction false} ActOnKilling(names: set<string>, s: State, p: nat, m: Moment, k: nat, next: Option<CallResult>)
    requires Calling(names, s, p) && s.parties[p].phase == Killing(k, next)
    ensures k < |s.children| && Act(names, s, p, m) == AfterKill(s, p, k, next)
  {
    ChoiceIsEnabled(names, s, p, m);
  }

  lemma {:induction false} ReachableIsOk(names: set<string>, s: State)
    requires Reaches(names, START, s)
    ensures Inv(names, s)
  {
    var acts :| Runs(names, START, acts, s);
    StartIsOk(names);
    RunKeepsInv(names, START, acts, s);
  }

  lemma {:induction false} ArrivalKeeps(names: set<string>, s: State, p: nat, name: string, params: Json)
    requires Reaches(names, START, s) && p !in s.parties
    ensures var s' := Apply(names, s, Arrive(p, name, params));
            Calling(names, s', p) && Reaches(names, START, s')
  {
    ReachableIsOk(names, s);
    StepKeepsInv(names, s, Arrive(p, name, params));
    ReachesMore(names, START, s, Arrive(p, name, params));
  }

  /** What `Call` returns belongs to its own request: the state it leaves is that of a run in which a
      value or an RPC error was given, in some step, by the child at work on the request this party
      wrote last. */
  lemma {:induction false} CallGetsItsOwnAnswer(names: set<string>, s: State, p: nat)
      returns (acts: seq<Action>, n: nat, k: nat, id: nat, result: HandlerResult)
    requires Reaches(names, START, s) && p in s.parties && s.parties[p].phase.Finished?
    requires s.parties[p].phase.result.Ok? || s.parties[p].phase.result.RpcError?
    ensures Runs(names, START, acts, s) && Correlated(names, s.children, p, s.parties[p], k, id, result)
    ensures AnsweredAt(names, acts, n, k, Request(p, id, s.parties[p].name, s.parties[p].params), result)
  {
    acts :| Runs(names, START, acts, s);
    k, id, n, result := ReplyCorrelation(names, acts, s, p);
  }

  lemma {:induction false} NobodyLeftAlive(names: set<string>, s: State)
    requires Inv(names, s) && s.slot.None? && s.lock.None?
    ensures forall k: nat :: !IsAlive(s, k)
  {
    forall k: nat ensures !IsAlive(s, k) {
      assert IsAlive(s, k) ==> AtHand(s, k);
    }
  }

  /** A stopper that holds the lock has emptied the slot. */
  lemma {:induction false} StopperStands(names: set<string>, s: State, p: nat)
    requires Inv(names, s) && p in s.parties && s.parties[p].phase.Stopping?
    ensures Enabled(s, StopDone(p)) && s.slot.None?
  {
    assert HolderOk(s, s.parties[p]);
  }

  class PersistentWorker {
    const names: set<string>
    var lock: Option<nat>
    var slot: Option<nat>
    var children: seq<Child>
    var parties: map<nat, Party>
    var schedule: seq<Moment>

    constructor (names: set<string>, schedule: seq<Moment>)
      ensures Now() == START && Valid() && this.names == names && this.schedule == schedule
    {
      this.names := names;
      lock, slot, children, parties := None, None, [], map[];
      this.schedule := schedule;
      new;
      assert Runs(names, START, [], START);
    }

    function Now(): State
      reads this
    {
      State(lock, slot, children, parties)
    }

    /** The worker is in a state the machine can reach. */
    ghost predicate Valid()
      reads this
    {
      Reaches(names, START, Now())
    }

    /** Wait: others get their turn, then the wait ends as the moment says. */
    method Wait(p: nat, ghost fate: State) returns (m: Moment)
      requires LeadsTo(names, Now(), p, schedule, fate) && !parties[p].phase.Finished?
      modifies this
      ensures Calling(names, Now(), p) && parties[p] == old(parties[p])
      ensures LeadsTo(names, Act(names, Now(), p, m), p, schedule, fate)
      ensures m == Next(old(schedule)) && schedule == Rest(old(schedule))
    {
      hide Inv;
      m := Next(schedule);
      WaitKeeps(names, Now(), p, schedule);
      var s := Meanwhile(names, Now(), p, m.meanwhile);
      lock, slot, children, parties := s.lock, s.slot, s.children, s.parties;
      schedule := Rest(schedule);
    }

    /** Have a living child in the slot: drop one that was seen to have exited, then spawn if the slot
        is empty. */
    method EnsureLive(p: nat, m: Moment) returns (live: bool)
      requires p in parties && parties[p].phase.Ensuring? && (slot.Some? ==> slot.value < |children|)
      modifies this`slot, this`children
      ensures live ==> slot.Some? && slot.value < |children|
      ensures var s := old(Now());
              var sawExit := m.sawExit && s.slot.Some? && !IsAlive(s, s.slot.value);
              AfterEnsure(s, p, sawExit, m.spawned)
                == if live then Moved(Now(), p, Ready(parties[p].phase.attempt, slot.value)) else Return(Now(), p, SpawnError)
    {
      if slot.Some? && m.sawExit && !children[slot.value].alive { slot := None; }
      if slot.None? {
        if !m.spawned { return false; }
        slot, children := Some(|children|), children + [NEWBORN];
      }
      return true;
    }

    /** Send the request under the child's next id, or fail to. */
    method Write(p: nat, attempt: nat, k: nat, m: Moment) returns (id: nat)
      requires CanWrite(Now(), p) && parties[p].phase == Ready(attempt, k)
      modifies this`children, this`parties
      ensures Now() == AfterWrite(old(Now()), p, m)
      ensures id == old(children[k].nextId)
    {
      var party, c := parties[p], children[k];
      id := c.nextId;
      var request := Request(p, id, party.name, party.params);
      var delivered := m.outcome.Succeeds? || m.delivered;
      children := children[k := c.(nextId := id + 1, issued := c.issued + [request],
                                   inbox := if delivered then c.inbox + [request] else c.inbox)];
      var phase := if m.outcome.Succeeds? then Reading(attempt, k, id) else party.phase;
      parties := parties[p := party.(phase := phase, sent := party.sent + [(k, id)])];
    }

    /** Take one line from child `k`: a frame for others is passed over, a line that is no JSON or the
        frame that carries the id ends the attempt. */
    method Read(p: nat, attempt: nat, k: nat, id: nat) returns (r: Option<Attempt>)
      requires k < |children| && children[k].outbox != [] && p in parties
      modifies this`children
      ensures k < |children|
      ensures TakeLine(old(Now()), p, k, Judge(old(children[k].outbox[0]), id))
                == if r.None? then Now() else AfterAttempt(Now(), p, k, attempt, r.value)
      ensures r.None? <==> IsPassedOver(old(children[k].outbox[0]), id)
      ensures r.Some? ==>
                var line := old(children[k].outbox[0]);
                match r.value
                case Replied(value) => line.Some? && Says(line.value, Ok(value))
                case Other(result) => if line.None? then result == Malformed else Says(line.value, result)
                case _ => false
    {
      if children[k].outbox[0].Some? { PassedOverIsSkipped(children[k].outbox[0], id); }
      var line := children[k].outbox[0];
      children := children[k := children[k].(outbox := children[k].outbox[1..])];
      if line.None? { return Some(Other(Malformed)); }
      var frame := line.value;
      if frame.GetU64("id") != Some(id) { return None; }
      var err := frame.Get("error");
      if err.Some? {
        var code := match err.value.Get("code") case Some(n) => n.AsI64() case None => None;
        return Some(Other(RpcError(OrElse(code, -1), OrElse(err.value.GetStr("message"), "unknown rpc error"))));
      }
      var value := frame.Get("result");
      if value.None? { return Some(Other(Malformed)); }
      return Some(Replied(value.value));
    }

    /** Wait for the answer to request `id`: lines that are not the answer are passed over. */
    method AwaitReply(p: nat, attempt: nat, k: nat, id: nat, ghost fate: State) returns (r: Attempt)
      requires LeadsTo(names, Now(), p, schedule, fate) && parties[p].phase == Reading(attempt, k, id)
      modifies this
      ensures EndsRight(names, Now(), p, k, attempt, r, schedule, fate)
    {
      hide Inv;
      while true
        invariant LeadsTo(names, Now(), p, schedule, fate) && parties[p].phase == Reading(attempt, k, id)
        decreases |schedule|
      {
        var m := Wait(p, fate);
        ActOnReading(names, Now(), p, m, attempt, k, id);
        if !m.outcome.Succeeds? { return FailedWait(m); }
        if children[k].outbox != [] {
          var end := Read(p, attempt, k, id);
          if end.Some? { return end.value; }
        }
      }
    }

    /** One request and its answer on child `k`. */
    method Roundtrip(p: nat, attempt: nat, k: nat, ghost fate: State) returns (r: Attempt)
      requires LeadsTo(names, Now(), p, schedule, fate) && parties[p].phase == Ready(attempt, k)
      modifies this
      ensures EndsRight(names, Now(), p, k, attempt, r, schedule, fate)
    {
      hide Inv;
      var m := Wait(p, fate);
      ActOnReady(names, Now(), p, m, attempt, k);
      var id := Write(p, attempt, k, m);
      if !m.outcome.Succeeds? { return FailedWait(m); }
      r := AwaitReply(p, attempt, k, id, fate);
    }

    method Move(p: nat, phase: Phase)
      requires p in parties
      modifies this`parties
      ensures Now() == Moved(old(Now()), p, phase)
    {
      parties := parties[p := parties[p].(phase := phase)];
    }

    /** The call returns and the lock is dropped. */
    method Leave(p: nat, result: CallResult)
      requires p in parties
      modifies this`parties, this`lock
      ensures Now() == Return(old(Now()), p, result)
    {
      Move(p, Finished(result));
      lock := None;
    }

    /** Wait for the lock; the worker is not touched if the deadline comes first. */
    method Acquire(p: nat, ghost fate: State) returns (acquired: bool)
      requires LeadsTo(names, Now(), p, schedule, fate) && parties[p].phase.Queued?
      modifies this
      ensures LeadsTo(names, Now(), p, schedule, fate)
      ensures parties[p].phase == if acquired then Ensuring(0) else Finished(QueueTimeout)
    {
      hide Inv;
      while true
        invariant LeadsTo(names, Now(), p, schedule, fate) && parties[p].phase.Queued?
        decreases |schedule|
      {
        var m := Wait(p, fate);
        ActOnQueued(names, Now(), p, m);
        if m.outcome.DeadlinePassed? {
          Move(p, Finished(QueueTimeout));
          return false;
        }
        if lock.None? {
          lock := Some(p);
          Move(p, Ensuring(0));
          return true;
        }
      }
    }

    /** Spawn if need be; a failed spawn ends the call. */
    method MakeReady(p: nat, attempt: nat, ghost fate: State) returns (live: bool)
      requires LeadsTo(names, Now(), p, schedule, fate) && parties[p].phase == Ensuring(attempt)
      modifies this
      ensures LeadsTo(names, Now(), p, schedule, fate)
      ensures if live then slot.Some? && parties[p].phase == Ready(attempt, slot.value)
              else parties[p].phase == Finished(SpawnError)
    {
      hide Inv;
      var m := Wait(p, fate);
      ActOnEnsuring(names, Now(), p, m);
      live := EnsureLive(p, m);
      if live { Move(p, Ready(attempt, slot.value)); } else { Leave(p, SpawnError); }
    }

    /** Take the child out of the slot, kill it, and go on to the next attempt or to the result. */
    method KillAndClear(p: nat, k: nat, next: Option<CallResult>, ghost fate: State)
      requires p in parties && LeadsTo(names, StartKill(Now(), p, k, next), p, schedule, fate)
      modifies this
      ensures LeadsTo(names, Now(), p, schedule, fate)
      ensures parties[p].phase == if next.None? then Ensuring(1) else Finished(next.value)
    {
      hide Inv;
      slot := None;
      Move(p, Killing(k, next));
      var m := Wait(p, fate);
      ActOnKilling(names, Now(), p, m, k, next);
      children := children[k := children[k].(alive := false)];
      if next.None? { Move(p, Ensuring(1)); } else { Leave(p, next.value); }
    }

    /** What the end of an attempt leads to: only a child found dead the first time lets the call go on. */
    method Settle(p: nat, k: nat, attempt: nat, r: Attempt, ghost fate: State) returns (result: Option<CallResult>)
      requires EndsRight(names, Now(), p, k, attempt, r, schedule, fate)
      modifies this
      ensures LeadsTo(names, Now(), p, schedule, fate)
      ensures result.None? ==> attempt == 0
      ensures parties[p].phase == if result.None? then Ensuring(1) else Finished(result.value)
    {
      hide Inv;
      match r {
        case Replied(value) =>
          children := children[k := children[k].(callsServed := children[k].callsServed + 1)];
          Leave(p, Ok(value));
          return Some(Ok(value));
        case Other(error) =>
          Leave(p, error);
          return Some(error);
        case ChildGone =>
          result := if attempt == 0 then None else Some(EarlyExit);
          KillAndClear(p, k, result, fate);
        case TimedOut =>
          KillAndClear(p, k, Some(Timeout), fate);
          return Some(Timeout);
      }
    }

    /** One attempt; it ends the call unless the child was found dead the first time. */
    method Try(p: nat, attempt: nat, ghost fate: State) returns (result: Option<CallResult>)
      requires LeadsTo(names, Now(), p, schedule, fate) && parties[p].phase == Ensuring(attempt)
      modifies this
      ensures LeadsTo(names, Now(), p, schedule, fate)
      ensures result.None? ==> attempt == 0
      ensures parties[p].phase == if result.None? then Ensuring(1) else Finished(result.value)
    {
      hide Inv;
      var live := MakeReady(p, attempt, fate);
      if !live { return Some(SpawnError); }
      var k := slot.value;
      var r := Roundtrip(p, attempt, k, fate);
      result := Settle(p, k, attempt, r, fate);
    }

    /** A call: queue, then at most two attempts.  It ends as the step machine does under the same
        schedule, in a state that is again reachable. */
    method Call(p: nat, name: string, params: Json) returns (result: CallResult)
      requires Valid() && p !in parties
      modifies this
      ensures Valid()
      ensures p in parties && parties[p].phase == Finished(result)
      ensures var s := Apply(names, old(Now()), Arrive(p, name, params));
              Calling(names, s, p) && Now() == Play(names, s, p, old(schedule))
    {
      hide Inv;
      ArrivalKeeps(names, Now(), p, name, params);
      parties := parties[p := Party(name, params, Queued, [])];
      ghost var fate := Play(names, Now(), p, schedule);
      PlayEndsInARun(names, START, Now(), p, schedule);
      var acquired := Acquire(p, fate);
      if !acquired { return QueueTimeout; }
      var attempt := 0;
      while true
        invariant attempt < 2 && LeadsTo(names, Now(), p, schedule, fate) && parties[p].phase == Ensuring(attempt)
        decreases 2 - attempt
      {
        var end := Try(p, attempt, fate);
        if end.Some? { return end.value; }
        attempt := attempt + 1;
      }
    }

    /** Others get their turn while `p` waits to stop the child or for its exit. */
    method Pause(p: nat)
      requires Valid() && p in parties && schedule != []
      modifies this
      ensures Valid() && p in parties && parties[p] == old(parties[p])
      ensures schedule == old(schedule)[1..]
    {
      hide Inv;
      ReachableIsOk(names, Now());
      MeanwhileKeeps(names, Now(), p, schedule[0].meanwhile);
      MeanwhileIsRun(names, START, Now(), p, schedule[0].meanwhile);
      var s := Meanwhile(names, Now(), p, schedule[0].meanwhile);
      lock, slot, children, parties := s.lock, s.slot, s.children, s.parties;
      schedule := schedule[1..];
    }

    /** Stop the child gracefully: once the lock is had, the slot is emptied and the child ends.  When
        this returns, no child of the module is alive.  Without a deadline the wait for the lock may
        outlast the schedule. */
    method Stop(p: nat) returns (stopped: bool)
      requires Valid() && p !in parties
      modifies this
      ensures Valid() && p in parties
      ensures stopped ==> parties[p].phase.Stopped? && slot.None? && lock.None? && forall k: nat :: !IsAlive(Now(), k)
      ensures !stopped ==> parties[p].phase.StopQueued? && lock.Some? && schedule == []
    {
      hide Inv;
      hide Runs;
      ReachesMore(names, START, Now(), ArriveStop(p));
      parties := parties[p := Party("", Null, StopQueued, [])];
      while lock.Some? && schedule != []
        invariant Valid() && p in parties && parties[p].phase.StopQueued?
        decreases |schedule|
      {
        Pause(p);
      }
      if lock.Some? { return false; }
      ReachesMore(names, START, Now(), TakeForStop(p));
      if slot.None? {
        Move(p, Stopped);
      } else {
        var k := slot.value;
        lock, slot := Some(p), None;
        Move(p, Stopping(k));
        if schedule != [] { Pause(p); }
        ReachableIsOk(names, Now());
        StopperStands(names, Now(), p);
        ReachesMore(names, START, Now(), StopDone(p));
        children := children[k := children[k].(alive := false)];
        Move(p, Stopped);
        lock := None;
      }
      ReachableIsOk(names, Now());
      NobodyLeftAlive(names, Now());
      return true;
    }
  }
}

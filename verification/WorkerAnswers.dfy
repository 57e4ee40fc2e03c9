/** Which line ends a pooled call (crates/orchestrator/src/worker_pool.rs:343-396): frames that do not
    carry the id of the request are passed over, whatever else is in them, and the first one that
    carries it decides.  A line that is no JSON ends the call at once. */
module WorkerAnswers {
  import opened Options
  import opened Json
  import opened RpcServer
  import opened RpcServerLaws
  import opened WorkerChannel
  import opened WorkerChannelLaws

  /** The member `id` is this very number (beyond 64 bits none is recognised). */
  predicate Carries(frame: Json, id: nat) {
    id < 0x1_0000_0000_0000_0000 && frame.Get("id") == Some(Num(id))
  }

  /** JSON that is not for request `id`: no id, another id, or an id that is no number. */
  predicate IsPassedOver(line: Line, id: nat) {
    line.Some? && !Carries(line.value, id)
  }

  /** What a frame that carries the id tells the caller: an error goes before a result. */
  predicate Says(frame: Json, result: CallResult) {
    match result
    case Ok(value) => frame.Get("error").None? && frame.Get("result") == Some(value)
    case RpcError(code, message) => frame.Get("error").Some? && ErrorSays(frame.Get("error").value, code, message)
    case Malformed => frame.Get("error").None? && frame.Get("result").None?
    case _ => false
  }

  lemma {:induction false} PassedOverIsSkipped(line: Line, id: nat)
    requires line.Some?
    ensures IsPassedOver(line, id) <==> Judge(line, id).Skip?
  {
  }

  lemma {:induction false} CarriedIsTaken(frame: Json, id: nat, result: CallResult)
    requires Carries(frame, id) && Says(frame, result)
    ensures var verdict := Judge(Some(frame), id);
            !verdict.Skip? && VerdictResult(verdict) == result && (verdict.Value? <==> result.Ok?)
  {
  }

  /** The request as written runs the handler of the caller's method on the caller's parameters, and
      the answer is what comes of that. */
  lemma {:induction false} RequestReachesHandler(names: set<string>, r: Request, handler: (string, Json) -> HandlerResult)
    requires r.name in names && r.params.Obj?
    ensures Calls(names, Some(RequestJson(r)), r.name, r.params)
    ensures RequestJson(r).Get("id") == Some(Num(r.id))
    ensures HandleLine(names, Some(RequestJson(r)), handler) == Some(Answer(names, r, handler(r.name, r.params)))
  {
    var json := RequestJson(r);
    assert json.Get("params") == Some(r.params) && json.Get("id") == Some(Num(r.id));
    assert json.Get("jsonrpc") == Some(Str("2.0")) && json.Get("method") == Some(Str(r.name));
    ParamsAreBrought(json);
    RequestIsAnswered(names, r, handler(r.name, r.params));
  }

  // ------------------------------------------------------------------------------------------
  // Taking lines
  // ------------------------------------------------------------------------------------------

  /** The caller goes on waiting with `m` lines of its child taken. */
  function WithLinesTaken(s: State, k: nat, m: nat): State
    requires k < |s.children| && m <= |s.children[k].outbox|
  {
    WithChild(s, k, s.children[k].(outbox := s.children[k].outbox[m..]))
  }

  function Reads(p: nat, m: nat): seq<Action> {
    seq(m, _ => ReadLine(p))
  }

  /** Lines passed over leave the caller waiting and everything else as it was. */
  lemma {:induction false} PassesOver(names: set<string>, s: State, p: nat, attempt: nat, k: nat, id: nat, m: nat)
    requires IsReading(s, p) && s.parties[p].phase == Reading(attempt, k, id)
    requires m <= |s.children[k].outbox|
    requires forall i | 0 <= i < m :: IsPassedOver(s.children[k].outbox[i], id)
    ensures Runs(names, s, Reads(p, m), WithLinesTaken(s, k, m))
    decreases m
  {
    if m == 0 {
      assert s.children[k].outbox[0..] == s.children[k].outbox;
      assert WithLinesTaken(s, k, 0) == s;
    } else {
      PassesOver(names, s, p, attempt, k, id, m - 1);
      var mid := WithLinesTaken(s, k, m - 1);
      var line := s.children[k].outbox[m - 1];
      assert mid.children[k].outbox[0] == line;
      PassedOverIsSkipped(line, id);
      assert mid.children[k].outbox[1..] == s.children[k].outbox[m..];
      assert AfterLine(mid, p) == TakeLine(mid, p, k, Judge(line, id)) == WithLinesTaken(s, k, m);
      OneMoreAct(names, s, Reads(p, m - 1), mid, ReadLine(p));
      assert Reads(p, m - 1) + [ReadLine(p)] == Reads(p, m);
    }
  }

  /** The same steps lead to the same state. */
  lemma {:induction false} RunHasOneEnd(names: set<string>, s: State, acts: seq<Action>, s1: State, s2: State)
    requires Runs(names, s, acts, s1) && Runs(names, s, acts, s2)
    ensures s1 == s2
    decreases |acts|
  {
    hide Enabled;
    hide Apply;
    if acts != [] {
      var n := |acts| - 1;
      var mid1 :| Runs(names, s, acts[..n], mid1) && Enabled(mid1, acts[n]) && s1 == Apply(names, mid1, acts[n]);
      var mid2 :| Runs(names, s, acts[..n], mid2) && Enabled(mid2, acts[n]) && s2 == Apply(names, mid2, acts[n]);
      RunHasOneEnd(names, s, acts[..n], mid1, mid2);
    }
  }

  /** The call is over with `result` after `m` lines: the lock is free, the child stays in its slot and
      a value counts as a call served. */
  function CallOver(s: State, p: nat, k: nat, m: nat, result: CallResult): State
    requires p in s.parties && k < |s.children| && m <= |s.children[k].outbox|
  {
    var c := s.children[k];
    var c' := c.(outbox := c.outbox[m..], callsServed := if result.Ok? then c.callsServed + 1 else c.callsServed);
    State(None, s.slot, s.children[k := c'], s.parties[p := s.parties[p].(phase := Finished(result))])
  }

  /** Whatever frames for others come before it, the first frame that carries the id ends the call
      with what that frame says. */
  lemma {:induction false} FirstCarriedLineEndsCall(
      names: set<string>, s: State, p: nat, attempt: nat, k: nat, id: nat, m: nat, result: CallResult)
    requires IsReading(s, p) && s.parties[p].phase == Reading(attempt, k, id)
    requires m < |s.children[k].outbox|
    requires forall i | 0 <= i < m :: IsPassedOver(s.children[k].outbox[i], id)
    requires var line := s.children[k].outbox[m];
             line.Some? && Carries(line.value, id) && Says(line.value, result)
    ensures Runs(names, s, Reads(p, m), WithLinesTaken(s, k, m))
    ensures Runs(names, s, Reads(p, m + 1), CallOver(s, p, k, m + 1, result))
    ensures var acts := Reads(p, m + 1); forall s' | Runs(names, s, acts, s') :: s' == CallOver(s, p, k, m + 1, result)
  {
    PassesOver(names, s, p, attempt, k, id, m);
    CarriedIsTaken(s.children[k].outbox[m].value, id, result);
    LastLine(names, s, p, attempt, k, id, m, result);
    var acts := Reads(p, m + 1);
    forall s' | Runs(names, s, acts, s') ensures s' == CallOver(s, p, k, m + 1, result) {
      RunHasOneEnd(names, s, acts, s', CallOver(s, p, k, m + 1, result));
    }
  }

  /** A line that is no JSON ends the call as malformed, once the lines before it are passed over. */
  lemma {:induction false} NoiseEndsCall(names: set<string>, s: State, p: nat, attempt: nat, k: nat, id: nat, m: nat)
    requires IsReading(s, p) && s.parties[p].phase == Reading(attempt, k, id)
    requires m < |s.children[k].outbox|
    requires forall i | 0 <= i < m :: IsPassedOver(s.children[k].outbox[i], id)
    requires s.children[k].outbox[m].None?
    ensures Runs(names, s, Reads(p, m + 1), CallOver(s, p, k, m + 1, Malformed))
  {
    PassesOver(names, s, p, attempt, k, id, m);
    LastLine(names, s, p, attempt, k, id, m, Malformed);
  }

  lemma {:induction false} LastLine(
      names: set<string>, s: State, p: nat, attempt: nat, k: nat, id: nat, m: nat, result: CallResult)
    requires IsReading(s, p) && s.parties[p].phase == Reading(attempt, k, id)
    requires m < |s.children[k].outbox| && Runs(names, s, Reads(p, m), WithLinesTaken(s, k, m))
    requires var verdict := Judge(s.children[k].outbox[m], id);
             !verdict.Skip? && VerdictResult(verdict) == result && (verdict.Value? <==> result.Ok?)
    ensures Runs(names, s, Reads(p, m + 1), CallOver(s, p, k, m + 1, result))
  {
    hide Judge;
    hide Runs;
    var mid := WithLinesTaken(s, k, m);
    var line := s.children[k].outbox[m];
    assert mid.children[k].outbox[0] == line;
    assert mid.children[k].outbox[1..] == s.children[k].outbox[m + 1..];
    assert AfterLine(mid, p) == TakeLine(mid, p, k, Judge(line, id)) == CallOver(s, p, k, m + 1, result);
    OneMoreAct(names, s, Reads(p, m), mid, ReadLine(p));
    assert Reads(p, m) + [ReadLine(p)] == Reads(p, m + 1);
  }

  // ------------------------------------------------------------------------------------------
  // Only noise makes a call malformed
  // ------------------------------------------------------------------------------------------

  ghost predicate AllJson(children: seq<Child>) {
    forall k, i | 0 <= k < |children| && 0 <= i < |children[k].outbox| :: children[k].outbox[i].Some?
  }

  predicate IsMalformed(phase: Phase) {
    phase == Finished(Malformed) || (phase.Killing? && phase.next == Some(Malformed))
  }

  ghost predicate NoneMalformed(s: State) {
    AllJson(s.children) && forall p | p in s.parties :: !IsMalformed(s.parties[p].phase)
  }

  predicate EmitsNoise(a: Action) {
    a.ChildEmits? && a.line.None?
  }

  /** The server's answer has a result or an error. */
  lemma {:induction false} AnswerSaysSomething(names: set<string>, r: Request, result: HandlerResult)
    ensures var reply := Answer(names, r, result); reply.Get("result").Some? <==> reply.Get("error").None?
  {
    RequestIsAnswered(names, r, result);
    RepliesEchoId(names, Some(RequestJson(r)), (_, _) => result);
  }

  /** Every answer a child holds has a result or an error. */
  lemma {:induction false} HeldSaysSomething(names: set<string>, c: Child, id: nat)
    requires ChildOk(names, c) && id in c.answers
    ensures c.answers[id].Get("result").Some? <==> c.answers[id].Get("error").None?
  {
    hide Answer;
    hide IdsOk;
    hide PendingOk;
    hide OutboxOk;
    assert IsAnswer(names, c.issued[id - 1], c.answers[id]);
    var result :| c.answers[id] == Answer(names, c.issued[id - 1], result);
    AnswerSaysSomething(names, c.issued[id - 1], result);
  }

  /** A frame with a result or an error is passed over or says something. */
  lemma {:induction false} SomethingIsHeard(frame: Json, id: nat)
    requires frame.Get("result").Some? <==> frame.Get("error").None?
    ensures var verdict := Judge(Some(frame), id); verdict.Skip? || VerdictResult(verdict) != Malformed
  {
  }

  /** A line of JSON is passed over, or it is the server's answer and says something. */
  lemma {:induction false} JsonIsNeverMalformed(names: set<string>, s: State, p: nat)
    requires Inv(names, s) && Enabled(s, ReadLine(p))
    requires s.children[s.parties[p].phase.child].outbox[0].Some?
    ensures var verdict := Judge(s.children[s.parties[p].phase.child].outbox[0], s.parties[p].phase.id);
            verdict.Skip? || VerdictResult(verdict) != Malformed
  {
    ReaderStands(names, s, p);
    var Reading(attempt, k, id) := s.parties[p].phase;
    var c := s.children[k];
    assert ChildOk(names, c);
    hide Inv;
    hide ChildOk;
    hide Awaited;
    var verdict := Judge(c.outbox[0], id);
    if !verdict.Skip? {
      TakenIsAnswer(c, id);
      HeldSaysSomething(names, c, id);
      SomethingIsHeard(c.answers[id], id);
    }
  }

  lemma {:induction false} LineKeepsSound(s: State, p: nat, k: nat, verdict: Verdict)
    requires p in s.parties && k < |s.children| && s.children[k].outbox != [] && NoneMalformed(s)
    requires verdict.Skip? || VerdictResult(verdict) != Malformed
    ensures NoneMalformed(TakeLine(s, p, k, verdict))
  {
    var s' := TakeLine(s, p, k, verdict);
    forall j, i | 0 <= j < |s'.children| && 0 <= i < |s'.children[j].outbox| ensures s'.children[j].outbox[i].Some? {
      assert s'.children[j].outbox[i] == if j == k then s.children[k].outbox[i + 1] else s.children[j].outbox[i];
    }
  }

  lemma {:induction false} ChildKeepsSound(names: set<string>, s: State, a: Action)
    requires Enabled(s, a) && !EmitsNoise(a) && NoneMalformed(s)
    requires a.ChildTakes? || a.ChildEmits? || a.ChildAnswers? || a.ChildDies?
    ensures NoneMalformed(Apply(names, s, a))
  {
    hide Answer;
    var s' := Apply(names, s, a);
    forall j, i | 0 <= j < |s'.children| && 0 <= i < |s'.children[j].outbox| ensures s'.children[j].outbox[i].Some? {
      if i < |s.children[j].outbox| { assert s'.children[j].outbox[i] == s.children[j].outbox[i]; }
    }
  }

  /** The other steps of a party leave every outbox as it is, or start one that is empty. */
  lemma {:induction false} PartyKeepsJson(names: set<string>, s: State, a: Action)
    requires Enabled(s, a) && AllJson(s.children)
    requires !a.ReadLine? && !a.ChildTakes? && !a.ChildEmits? && !a.ChildAnswers? && !a.ChildDies?
    ensures AllJson(Apply(names, s, a).children)
  {
    var s' := Apply(names, s, a);
    forall j, i | 0 <= j < |s'.children| && 0 <= i < |s'.children[j].outbox| ensures s'.children[j].outbox[i].Some? {
      assert j < |s.children| && s'.children[j].outbox == s.children[j].outbox;
    }
  }

  lemma {:induction false} PartyKeepsSound(names: set<string>, s: State, a: Action)
    requires Enabled(s, a) && NoneMalformed(s)
    requires !a.ReadLine? && !a.ChildTakes? && !a.ChildEmits? && !a.ChildAnswers? && !a.ChildDies?
    ensures NoneMalformed(Apply(names, s, a))
  {
    PartyKeepsJson(names, s, a);
    hide AllJson;
  }

  lemma {:induction false} StepKeepsSound(names: set<string>, s: State, a: Action)
    requires Inv(names, s) && Enabled(s, a) && !EmitsNoise(a) && NoneMalformed(s)
    ensures NoneMalformed(Apply(names, s, a))
  {
    if a.ReadLine? {
      var Reading(attempt, k, id) := s.parties[a.p].phase;
      assert s.children[k].outbox[0].Some?;
      JsonIsNeverMalformed(names, s, a.p);
      LineKeepsSound(s, a.p, k, Judge(s.children[k].outbox[0], id));
    } else if a.ChildTakes? || a.ChildEmits? || a.ChildAnswers? || a.ChildDies? {
      ChildKeepsSound(names, s, a);
    } else {
      PartyKeepsSound(names, s, a);
    }
  }

  lemma {:induction false} NoNoiseNoMalformed(names: set<string>, acts: seq<Action>, s: State)
    requires Runs(names, START, acts, s) && forall i | 0 <= i < |acts| :: !EmitsNoise(acts[i])
    ensures NoneMalformed(s)
    decreases |acts|
  {
    if acts != [] {
      var n := |acts| - 1;
      var mid :| Runs(names, START, acts[..n], mid) && Enabled(mid, acts[n]) && s == Apply(names, mid, acts[n]);
      NoNoiseNoMalformed(names, acts[..n], mid);
      StartIsOk(names);
      RunKeepsInv(names, START, acts[..n], mid);
      StepKeepsSound(names, mid, acts[n]);
    }
  }

  /** In every run, a call returns as malformed only if some child printed a line that is no JSON:
      notifications and stale answers never make it so. */
  lemma {:induction false} MalformedMeansNoise(names: set<string>, acts: seq<Action>, s: State, p: nat)
    requires Runs(names, START, acts, s) && p in s.parties && s.parties[p].phase == Finished(Malformed)
    ensures exists i, k :: 0 <= i < |acts| && acts[i] == ChildEmits(k, None)
  {
    if forall i | 0 <= i < |acts| :: !EmitsNoise(acts[i]) {
      NoNoiseNoMalformed(names, acts, s);
      assert false;
    } else {
      var i :| 0 <= i < |acts| && EmitsNoise(acts[i]);
      assert acts[i] == ChildEmits(acts[i].k, None);
    }
  }
}

/** The lifecycle of the embedded tunnel client: one manager, restarted whenever the token changes. */
module RelayManager {
  import opened Sequences

  /** A client run started by the manager: the token it carries, the parent of its context, and whether its own
      cancel function was called. */
  datatype ClientRun = ClientRun(token: string, parent: nat, cancelled: bool)

  /** Parent contexts are numbered by the calls of `Start`; `parents` is the current one, zero before the first,
      and `ended` those cancelled from outside. `runs` lists every client ever started; `cancel` names the one
      whose cancel function is held. */
  datatype State = State(
    parents: nat, ended: set<nat>, cancel: Option<nat>, mode: string, token: string, runs: seq<ClientRun>)

  datatype Op = StartOp | UpdateOp(token: string) | EndParent(parent: nat)

  function Launch(s: State): State {
    if s.parents == 0 || s.mode != "tunnel" || s.token == "" then s
    else s.(cancel := Some(|s.runs|), runs := s.runs + [ClientRun(s.token, s.parents, false)])
  }

  function Cancelled(s: State): State {
    if s.cancel.Some? && s.cancel.value < |s.runs|
    then s.(runs := s.runs[s.cancel.value := s.runs[s.cancel.value].(cancelled := true)], cancel := None)
    else s.(cancel := None)
  }

  function Apply(s: State, op: Op): State {
    match op
    case StartOp => Launch(s.(parents := s.parents + 1))
    case UpdateOp(token) => Launch(Cancelled(s.(token := token, mode := "tunnel")))
    case EndParent(p) => if 1 <= p <= s.parents then s.(ended := s.ended + {p}) else s
  }

  function ApplyAll(s: State, ops: seq<Op>): State {
    if ops == [] then s else Apply(ApplyAll(s, ops[..|ops| - 1]), ops[|ops| - 1])
  }

  function New(mode: string, token: string): State {
    State(0, {}, None, mode, token, [])
  }

  class Manager {
    /** The parent context in use, zero before `Start` has supplied one. */
    var parentCtx: nat
    var ended: set<nat>
    var cancel: Option<nat>
    var deploymentMode: string
    var token: string
    /** The contexts created so far. */
    var runs: seq<ClientRun>

    ghost predicate Valid()
      reads this
    {
      cancel.Some? ==> cancel.value < |runs|
    }

    ghost function Abs(): State
      reads this
    {
      State(parentCtx, ended, cancel, deploymentMode, token, runs)
    }

    constructor (mode: string, token: string)
      ensures Valid() && Abs() == New(mode, token)
    {
      parentCtx, ended, cancel, deploymentMode, runs := 0, {}, None, mode, [];
      this.token := token;
    }

    method Start()
      requires Valid()
      modifies this
      ensures Valid() && Abs() == Apply(old(Abs()), StartOp)
      ensures parentCtx == old(parentCtx) + 1 && old(runs) <= runs
      ensures if deploymentMode == "tunnel" && token != ""
              then runs == old(runs) + [ClientRun(token, parentCtx, false)] && cancel == Some(|old(runs)|)
              else runs == old(runs) && cancel == old(cancel)
    {
      parentCtx := parentCtx + 1;
      StartLocked();
    }

    method UpdateToken(newToken: string)
      requires Valid()
      modifies this
      ensures Valid() && Abs() == Apply(old(Abs()), UpdateOp(newToken))
      ensures token == newToken && deploymentMode == "tunnel" && parentCtx == old(parentCtx)
      ensures old(cancel).Some? ==> runs[old(cancel).value].cancelled
      ensures if parentCtx > 0 && newToken != ""
              then |runs| == |old(runs)| + 1 && cancel == Some(|old(runs)|)
                   && runs[|old(runs)|] == ClientRun(newToken, parentCtx, false)
              else |runs| == |old(runs)| && cancel.None?
      ensures forall i :: 0 <= i < |old(runs)| && old(cancel) != Some(i) ==> runs[i] == old(runs)[i]
    {
      token := newToken;
      deploymentMode := "tunnel";
      if cancel.Some? {
        runs := runs[cancel.value := runs[cancel.value].(cancelled := true)];
        cancel := None;
      }
      StartLocked();
    }

    method StartLocked()
      requires Valid()
      modifies this
      ensures Valid() && Abs() == Launch(old(Abs()))
    {
      if parentCtx == 0 {
        return;
      }
      if deploymentMode != "tunnel" || token == "" {
        return;
      }
      cancel := Some(|runs|);
      runs := runs + [ClientRun(token, parentCtx, false)];
    }

    method Running() returns (mode: string, hasToken: bool, running: bool)
      ensures mode == deploymentMode && hasToken == (token != "") && running == cancel.Some?
    {
      mode, hasToken, running := deploymentMode, token != "", cancel.Some?;
    }
  }

  /** The positions of the clients whose context is not cancelled, neither its own nor its parent's. */
  function LiveRuns(s: State): set<nat> {
    set i: nat | i < |s.runs| && !s.runs[i].cancelled && s.runs[i].parent !in s.ended
  }

  /** This `Start` launches a client although one is live: nothing cancels the old one. */
  predicate StartsOver(s: State, op: Op) {
    op.StartOp? && s.mode == "tunnel" && s.token != "" && LiveRuns(s) != {}
  }

  ghost predicate NeverStartsOver(s: State, ops: seq<Op>) {
    ops != [] ==>
      NeverStartsOver(s, ops[..|ops| - 1]) && !StartsOver(ApplyAll(s, ops[..|ops| - 1]), ops[|ops| - 1])
  }

  /** At most one client is live, at every instant of the run. */
  ghost predicate OneAlways(s: State, ops: seq<Op>) {
    |LiveRuns(ApplyAll(s, ops))| <= 1 && (ops != [] ==> OneAlways(s, ops[..|ops| - 1]))
  }

  /** Contexts come from a parent there was; the client held is the last one started, with the current token. */
  ghost predicate HeldOk(s: State) {
    && (forall p :: p in s.ended ==> 1 <= p <= s.parents)
    && (forall i: nat :: i < |s.runs| ==> 1 <= s.runs[i].parent <= s.parents)
    && (s.cancel.Some? ==>
          && s.cancel.value < |s.runs| && s.runs[s.cancel.value].token == s.token
          && !s.runs[s.cancel.value].cancelled)
    && (s.cancel.Some? <==> s.parents > 0 && s.mode == "tunnel" && s.token != "")
  }

  /** Every client but the one held is dead for good. */
  ghost predicate OthersDead(s: State) {
    forall i :: i in LiveRuns(s) ==> s.cancel == Some(i)
  }

  lemma HeldStep(s: State, op: Op)
    requires HeldOk(s)
    ensures HeldOk(Apply(s, op))
  {
  }

  lemma {:induction false} HeldKept(mode: string, token: string, ops: seq<Op>)
    ensures HeldOk(ApplyAll(New(mode, token), ops))
    decreases |ops|
  {
    if ops != [] {
      HeldKept(mode, token, ops[..|ops| - 1]);
      HeldStep(ApplyAll(New(mode, token), ops[..|ops| - 1]), ops[|ops| - 1]);
    }
  }

  /** The only client that can be live is the one held, and it is live while its parent is. */
  lemma LiveIsHeld(s: State)
    requires HeldOk(s) && OthersDead(s)
    ensures LiveRuns(s) ==
      if s.cancel.Some? && s.runs[s.cancel.value].parent !in s.ended then {s.cancel.value} else {}
    ensures |LiveRuns(s)| <= 1
  {
  }

  lemma OthersStayDead(s: State, op: Op)
    requires HeldOk(s) && OthersDead(s) && !StartsOver(s, op)
    ensures OthersDead(Apply(s, op))
  {
    var t := Apply(s, op);
    forall i | i in LiveRuns(t)
      ensures t.cancel == Some(i)
    {
      if i < |s.runs| {
        assert i in LiveRuns(s);
      }
    }
  }

  lemma StartingOverLeavesTwo(s: State, op: Op)
    requires HeldOk(s) && OthersDead(s) && StartsOver(s, op)
    ensures LiveRuns(Apply(s, op)) == {s.cancel.value, |s.runs|} && |LiveRuns(Apply(s, op))| == 2
  {
    LiveIsHeld(s);
    var t := Apply(s, op);
    assert t.runs == s.runs + [ClientRun(s.token, s.parents + 1, false)] && t.ended == s.ended;
    assert forall i: nat :: i < |s.runs| ==> (i in LiveRuns(t) <==> i in LiveRuns(s));
    assert |s.runs| in LiveRuns(t);
    assert LiveRuns(t) == {s.cancel.value, |s.runs|};
  }

  lemma {:induction false} OnlyHeldIsLive(mode: string, token: string, ops: seq<Op>)
    requires NeverStartsOver(New(mode, token), ops)
    ensures OthersDead(ApplyAll(New(mode, token), ops))
    decreases |ops|
  {
    if ops != [] {
      OnlyHeldIsLive(mode, token, ops[..|ops| - 1]);
      HeldKept(mode, token, ops[..|ops| - 1]);
      OthersStayDead(ApplyAll(New(mode, token), ops[..|ops| - 1]), ops[|ops| - 1]);
    }
  }

  /** For any operations with any number of `Start`s: at most one client is ever live exactly when no `Start` comes
      in tunnel mode, with a token, while one is. */
  lemma {:induction false} OneClientIff(mode: string, token: string, ops: seq<Op>)
    ensures OneAlways(New(mode, token), ops) <==> NeverStartsOver(New(mode, token), ops)
    decreases |ops|
  {
    var s0 := New(mode, token);
    if ops != [] {
      var init, op := ops[..|ops| - 1], ops[|ops| - 1];
      OneClientIff(mode, token, init);
      HeldKept(mode, token, init);
      HeldKept(mode, token, ops);
      hide Apply, HeldOk, LiveRuns, StartsOver;
      if NeverStartsOver(s0, init) {
        OnlyHeldIsLive(mode, token, init);
        if StartsOver(ApplyAll(s0, init), op) {
          StartingOverLeavesTwo(ApplyAll(s0, init), op);
        } else {
          OnlyHeldIsLive(mode, token, ops);
          LiveIsHeld(ApplyAll(s0, ops));
        }
      }
    } else {
      assert LiveRuns(s0) == {};
    }
  }

  /** Then the client that is live is the one whose cancel function is held, and carries the current token. There is
      one exactly while `Running` is reported and its parent context has not ended: after that `Running` is still
      reported with no client left. */
  lemma OneClientAtATime(mode: string, token: string, ops: seq<Op>)
    requires OneAlways(New(mode, token), ops)
    ensures
      var s := ApplyAll(New(mode, token), ops);
      && (forall i :: i in LiveRuns(s) ==> s.cancel == Some(i) && s.runs[i].token == s.token)
      && (s.cancel.Some? ==> s.cancel.value < |s.runs|)
      && (LiveRuns(s) != {} <==> s.cancel.Some? && s.runs[s.cancel.value].parent !in s.ended)
  {
    OneClientIff(mode, token, ops);
    OnlyHeldIsLive(mode, token, ops);
    HeldKept(mode, token, ops);
    LiveIsHeld(ApplyAll(New(mode, token), ops));
  }

  /** Whatever came before, a cancel function is held exactly after a `Start`, in tunnel mode and with a token. */
  lemma RunningIff(mode: string, token: string, ops: seq<Op>)
    ensures
      var s := ApplyAll(New(mode, token), ops);
      s.cancel.Some? <==> s.parents > 0 && s.mode == "tunnel" && s.token != ""
  {
    HeldKept(mode, token, ops);
  }

  function Starts(ops: seq<Op>): nat {
    if ops == [] then 0 else Starts(ops[..|ops| - 1]) + (if ops[|ops| - 1].StartOp? then 1 else 0)
  }

  function LastToken(token: string, ops: seq<Op>): string {
    if ops == [] then token
    else if ops[|ops| - 1].UpdateOp? then ops[|ops| - 1].token
    else LastToken(token, ops[..|ops| - 1])
  }

  /** The settings are those of the last update, if there was one; every `Start` supplies one more parent. */
  lemma {:induction false} SettingsAreLatest(mode: string, token: string, ops: seq<Op>)
    ensures
      var s := ApplyAll(New(mode, token), ops);
      && s.token == LastToken(token, ops)
      && s.mode == (if exists op :: op in ops && op.UpdateOp? then "tunnel" else mode)
      && s.parents == Starts(ops)
      && (forall p :: p in s.ended ==> EndParent(p) in ops)
    decreases |ops|
  {
    if ops != [] {
      SettingsAreLatest(mode, token, ops[..|ops| - 1]);
      assert forall op :: op in ops <==> op in ops[..|ops| - 1] || op == ops[|ops| - 1];
    }
  }

  /** One `Start`, as the server makes, never starts over. */
  lemma {:induction false} OneStartIsEnough(mode: string, token: string, ops: seq<Op>)
    requires Starts(ops) <= 1
    ensures OneAlways(New(mode, token), ops) && ApplyAll(New(mode, token), ops).parents == Starts(ops)
    decreases |ops|
  {
    OneClientIff(mode, token, ops);
    if ops != [] {
      var init := ops[..|ops| - 1];
      OneStartIsEnough(mode, token, init);
      OneClientIff(mode, token, init);
      HeldKept(mode, token, init);
      assert ApplyAll(New(mode, token), init).parents == 0 ==> LiveRuns(ApplyAll(New(mode, token), init)) == {};
    }
  }
}

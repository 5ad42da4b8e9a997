/** Accepting an invite: any number of interleaved calls, each a sequence of separate database steps. */
module Invites {
  import opened Sequences

  datatype Status = Pending | Consumed | Expired

  datatype Invite = Invite(userId: string, status: Status, expiresAt: nat, consumedAt: Option<nat>)

  datatype Verdict = NotFound | TooLate | AlreadyConsumed | Valid(invite: Invite)

  type Table = map<string, Invite>

  function Validated(invites: Table, hash: string, now: nat): Verdict {
    if hash !in invites then NotFound
    else if now > invites[hash].expiresAt then TooLate
    else if invites[hash].status.Consumed? then AlreadyConsumed
    else Valid(invites[hash])
  }

  /** The conditional update: the new table and whether a row was affected. */
  function ConsumedBy(invites: Table, hash: string, now: nat): (Table, bool) {
    if hash in invites && invites[hash].status.Pending?
    then (invites[hash := invites[hash].(status := Consumed, consumedAt := Some(now))], true)
    else (invites, false)
  }

  class InviteRepository {
    var invites: Table

    constructor ()
      ensures invites == map[]
    {
      invites := map[];
    }

    method Create(hash: string, invite: Invite) returns (ok: bool)
      modifies this
      ensures ok <==> hash !in old(invites)
      ensures invites == if ok then old(invites)[hash := invite] else old(invites)
    {
      ok := hash !in invites;
      if ok {
        invites := invites[hash := invite];
      }
    }

    method ValidateToken(hash: string, now: nat) returns (v: Verdict)
      ensures v == Validated(invites, hash, now)
      ensures v.Valid? <==>
        hash in invites && now <= invites[hash].expiresAt && invites[hash].status in {Pending, Expired}
      ensures v.Valid? ==> v.invite == invites[hash]
      ensures v.NotFound? <==> hash !in invites
      ensures v.TooLate? <==> hash in invites && invites[hash].expiresAt < now
    {
      if hash !in invites {
        return NotFound;
      }
      var invite := invites[hash];
      if now > invite.expiresAt {
        return TooLate;
      }
      if invite.status == Consumed {
        return AlreadyConsumed;
      }
      return Valid(invite);
    }

    method ConsumeToken(hash: string, now: nat) returns (affected: bool)
      modifies this
      ensures (invites, affected) == ConsumedBy(old(invites), hash, now)
      ensures affected <==> hash in old(invites) && old(invites)[hash].status == Pending
      ensures affected ==>
        var was := old(invites)[hash];
        invites == old(invites)[hash := Invite(was.userId, Consumed, was.expiresAt, Some(now))]
      ensures !affected ==> invites == old(invites)
    {
      affected := hash in invites && invites[hash].status == Pending;
      if affected {
        invites := invites[hash := invites[hash].(status := Consumed, consumedAt := Some(now))];
      }
    }
  }

  // ---- Interleaved calls ----

  /** How far a call has come; Spent means its conditional update took effect. */
  datatype Stage = Begun | Checked | Loaded | Updated | Spent | Signed | Succeeded | Failed

  datatype Call = Call(hash: string, stage: Stage)

  datatype State = State(invites: Table, calls: map<nat, Call>, now: nat)

  const EMPTY := State(map[], map[], 0)

  datatype Event =
    | Create(hash: string, invite: Invite)
    | Begin(call: nat, hash: string, jwtOk: bool)
    | Validate(call: nat)
    | LoadUser(call: nat, ok: bool)
    | UpdateUser(call: nat, ok: bool)
    | Consume(call: nat, reachable: bool)
    | SignToken(call: nat, ok: bool)
    | WelcomeDM(call: nat, ok: bool)
    | Pass(ms: nat)

  predicate AtStage(s: State, call: nat, stage: Stage) {
    call in s.calls && s.calls[call].stage == stage
  }

  predicate Enabled(s: State, e: Event) {
    match e
    case Create(hash, invite) => hash !in s.invites && !invite.status.Consumed?
    case Begin(c, _, _) => c !in s.calls
    case Validate(c) => AtStage(s, c, Begun)
    case LoadUser(c, _) => AtStage(s, c, Checked)
    case UpdateUser(c, _) => AtStage(s, c, Loaded)
    case Consume(c, _) => AtStage(s, c, Updated)
    case SignToken(c, _) => AtStage(s, c, Spent)
    case WelcomeDM(c, _) => AtStage(s, c, Signed)
    case Pass(_) => true
  }

  function Move(s: State, c: nat, ok: bool, stage: Stage): State
    requires c in s.calls
  {
    s.(calls := s.calls[c := s.calls[c].(stage := if ok then stage else Failed)])
  }

  function Next(s: State, e: Event): State
    requires Enabled(s, e)
  {
    match e
    case Create(hash, invite) => s.(invites := s.invites[hash := invite])
    case Begin(c, hash, jwtOk) => s.(calls := s.calls[c := Call(hash, if jwtOk then Begun else Failed)])
    case Validate(c) => Move(s, c, Validated(s.invites, s.calls[c].hash, s.now).Valid?, Checked)
    case LoadUser(c, ok) => Move(s, c, ok, Loaded)
    case UpdateUser(c, ok) => Move(s, c, ok, Updated)
    case Consume(c, reachable) =>
      var (invites, affected) :=
        if reachable then ConsumedBy(s.invites, s.calls[c].hash, s.now) else (s.invites, false);
      Move(s, c, affected, Spent).(invites := invites)
    case SignToken(c, ok) => Move(s, c, ok, Signed)
    case WelcomeDM(c, ok) => Move(s, c, ok, Succeeded)
    case Pass(ms) => s.(now := s.now + ms)
  }

  ghost predicate RunFrom(s: State, es: seq<Event>)
    decreases |es|, 0
  {
    es == [] || (RunFrom(s, es[..|es| - 1]) && Enabled(AfterFrom(s, es[..|es| - 1]), es[|es| - 1]))
  }

  ghost function AfterFrom(s: State, es: seq<Event>): State
    requires RunFrom(s, es)
    decreases |es|, 1
  {
    if es == [] then s else Next(AfterFrom(s, es[..|es| - 1]), es[|es| - 1])
  }

  /** The calls whose conditional update took effect, found in the history. */
  ghost function Winners(es: seq<Event>, hash: string): seq<nat>
    requires RunFrom(EMPTY, es)
  {
    if es == [] then []
    else
      var init, e := es[..|es| - 1], es[|es| - 1];
      if Wins(AfterFrom(EMPTY, init), e, hash) then Winners(init, hash) + [e.call] else Winners(init, hash)
  }

  predicate PastConsume(stage: Stage) {
    stage.Spent? || stage.Signed? || stage.Succeeded?
  }

  ghost predicate InviteInv(s: State, winners: seq<nat>, hash: string) {
    && |winners| <= 1
    && (winners != [] <==> hash in s.invites && s.invites[hash].status.Consumed?)
    && (forall c :: c in s.calls && s.calls[c].hash == hash && PastConsume(s.calls[c].stage) ==> winners == [c])
    && (forall c :: c in winners ==> c in s.calls && s.calls[c].hash == hash)
  }

  predicate Wins(s: State, e: Event, hash: string)
    requires Enabled(s, e)
  {
    e.Consume? && s.calls[e.call].hash == hash && AtStage(Next(s, e), e.call, Spent)
  }

  lemma ConsumeStep(s: State, winners: seq<nat>, hash: string, e: Event)
    requires InviteInv(s, winners, hash) && Enabled(s, e) && e.Consume?
    ensures InviteInv(Next(s, e), if Wins(s, e, hash) then winners + [e.call] else winners, hash)
  {
    if Wins(s, e, hash) {
      assert winners == [] && winners + [e.call] == [e.call];
    }
  }

  lemma OtherStep(s: State, winners: seq<nat>, hash: string, e: Event)
    requires InviteInv(s, winners, hash) && Enabled(s, e) && !e.Consume?
    ensures InviteInv(Next(s, e), winners, hash)
  {
    hide Validated;
  }

  lemma {:induction false} InviteKept(es: seq<Event>, hash: string)
    requires RunFrom(EMPTY, es)
    ensures InviteInv(AfterFrom(EMPTY, es), Winners(es, hash), hash)
    decreases |es|
  {
    hide Next, InviteInv, Enabled;
    if es == [] {
      assert InviteInv(EMPTY, [], hash) by { NothingWon(hash); }
    } else {
      var init, e := es[..|es| - 1], es[|es| - 1];
      InviteKept(init, hash);
      var s, winners := AfterFrom(EMPTY, init), Winners(init, hash);
      if e.Consume? { ConsumeStep(s, winners, hash, e); } else { OtherStep(s, winners, hash, e); }
    }
  }

  lemma NothingWon(hash: string)
    ensures InviteInv(EMPTY, [], hash)
  {
  }

  /** Under every interleaving of any number of calls on one token: at most one passes its conditional update,
      so at most one succeeds; and the invite is consumed exactly when one has passed it. */
  lemma SingleUse(es: seq<Event>, hash: string)
    requires RunFrom(EMPTY, es)
    ensures
      var s := AfterFrom(EMPTY, es);
      && |Winners(es, hash)| <= 1
      && (hash in s.invites && s.invites[hash].status.Consumed? <==> |Winners(es, hash)| == 1)
      && forall a, b :: a in s.calls && b in s.calls
           && s.calls[a] == Call(hash, Succeeded) && s.calls[b] == Call(hash, Succeeded)
           ==> a == b
  {
    InviteKept(es, hash);
  }

  /** Once consumed, an invite stays exactly as it is, every validation fails, and so does every conditional update. */
  lemma {:induction false} ConsumedForever(s: State, hash: string, es: seq<Event>)
    requires RunFrom(s, es) && hash in s.invites && s.invites[hash].status.Consumed?
    ensures
      var s' := AfterFrom(s, es);
      && hash in s'.invites && s'.invites[hash] == s.invites[hash]
      && (forall now :: !Validated(s'.invites, hash, now).Valid?)
      && (forall c :: AtStage(s', c, Begun) && s'.calls[c].hash == hash ==>
            Next(s', Validate(c)).calls[c] == Call(hash, Failed))
      && (forall c, up :: AtStage(s', c, Updated) && s'.calls[c].hash == hash ==>
            Next(s', Consume(c, up)).calls[c] == Call(hash, Failed))
    decreases |es|
  {
    if es != [] {
      ConsumedForever(s, hash, es[..|es| - 1]);
    }
  }

  /** Call `c`, if it is for this invite, has not got past its validation. */
  ghost predicate NeverPast(s: State, hash: string, c: nat) {
    c in s.calls && s.calls[c].hash == hash ==> s.calls[c].stage.Begun? || s.calls[c].stage.Failed?
  }

  /** The invite was consumed, or its time is over. */
  predicate Closed(s: State, hash: string) {
    hash in s.invites && (s.invites[hash].status.Consumed? || s.invites[hash].expiresAt < s.now)
  }

  lemma LateStep(s: State, hash: string, e: Event, c: nat)
    requires Enabled(s, e) && Closed(s, hash) && NeverPast(s, hash, c)
    ensures Closed(Next(s, e), hash) && NeverPast(Next(s, e), hash, c)
  {
  }

  /** A call that has not been validated when the invite is consumed or its time is over never gets past that. */
  lemma {:induction false} LateCallsFail(s: State, hash: string, es: seq<Event>, c: nat)
    requires RunFrom(s, es) && Closed(s, hash) && NeverPast(s, hash, c)
    ensures Closed(AfterFrom(s, es), hash) && NeverPast(AfterFrom(s, es), hash, c)
    decreases |es|
  {
    if es != [] {
      var init := es[..|es| - 1];
      LateCallsFail(s, hash, init, c);
      hide Next, Enabled, Closed, NeverPast;
      LateStep(AfterFrom(s, init), hash, es[|es| - 1], c);
    }
  }

  // ---- When a call fails ----

  predicate Concerns(e: Event, c: nat) {
    !e.Create? && !e.Pass? && e.call == c
  }

  /** The token's invite is stored, its time is not over, and it has not been consumed. */
  predicate Acceptable(s: State, hash: string) {
    hash in s.invites && s.now <= s.invites[hash].expiresAt && s.invites[hash].status != Consumed
  }

  /** The step goes as the call needs it to. */
  predicate Fine(s: State, e: Event)
    requires Enabled(s, e)
  {
    match e
    case Create(_, _) => true
    case Begin(_, _, jwtOk) => jwtOk
    case Validate(c) => Acceptable(s, s.calls[c].hash)
    case LoadUser(_, ok) => ok
    case UpdateUser(_, ok) => ok
    case Consume(c, reachable) =>
      reachable && s.calls[c].hash in s.invites && s.invites[s.calls[c].hash].status == Pending
    case SignToken(_, ok) => ok
    case WelcomeDM(_, ok) => ok
    case Pass(_) => true
  }

  ghost predicate StepAt(es: seq<Event>, k: nat) {
    k < |es| && RunFrom(EMPTY, es[..k]) && Enabled(AfterFrom(EMPTY, es[..k]), es[k])
  }

  ghost predicate WentWrong(es: seq<Event>, c: nat, k: nat) {
    StepAt(es, k) && Concerns(es[k], c) && !Fine(AfterFrom(EMPTY, es[..k]), es[k])
  }

  lemma FailStep(s: State, e: Event, c: nat)
    requires Enabled(s, e)
    ensures AtStage(Next(s, e), c, Failed) <==> AtStage(s, c, Failed) || (Concerns(e, c) && !Fine(s, e))
  {
  }

  /** In every interleaving a call has failed if and only if one of its own steps went wrong: its validation found no
      acceptable invite, its update no pending one, or something it needs failed. */
  lemma {:induction false} FailedIff(es: seq<Event>, c: nat)
    requires RunFrom(EMPTY, es)
    ensures AtStage(AfterFrom(EMPTY, es), c, Failed) <==> exists k: nat :: WentWrong(es, c, k)
    decreases |es|
  {
    hide Next, Fine, Enabled;
    if es != [] {
      var n := |es| - 1;
      var init := es[..n];
      FailedIff(init, c);
      FailStep(AfterFrom(EMPTY, init), es[n], c);
      assert forall k: nat :: k < n ==> init[..k] == es[..k];
      assert forall k: nat :: k < n ==> (WentWrong(es, c, k) <==> WentWrong(init, c, k));
      assert forall k: nat :: WentWrong(init, c, k) ==> k < n;
      assert forall k: nat :: WentWrong(es, c, k) ==> k < n || k == n;
      assert WentWrong(es, c, n) <==> Concerns(es[n], c) && !Fine(AfterFrom(EMPTY, init), es[n]);
      hide WentWrong;
    }
  }

  predicate PastValidation(s: State, c: nat) {
    c in s.calls && s.calls[c].stage != Begun && s.calls[c].stage != Failed
  }

  /** Step `k` validated the call, when its invite was acceptable; the time it expires at is the same as ever. */
  ghost predicate ValidatedAt(es: seq<Event>, c: nat, k: nat)
    requires RunFrom(EMPTY, es) && c in AfterFrom(EMPTY, es).calls
  {
    var hash, invites := AfterFrom(EMPTY, es).calls[c].hash, AfterFrom(EMPTY, es).invites;
    && StepAt(es, k) && es[k] == Validate(c) && hash in invites
    && var t := AfterFrom(EMPTY, es[..k]);
       Acceptable(t, hash) && t.invites[hash].expiresAt == invites[hash].expiresAt
  }

  lemma PastStep(s: State, e: Event, c: nat)
    requires Enabled(s, e) && PastValidation(Next(s, e), c)
    ensures c in s.calls && Next(s, e).calls[c].hash == s.calls[c].hash
    ensures PastValidation(s, c) || (e == Validate(c) && Acceptable(s, s.calls[c].hash))
    ensures forall h :: h in s.invites ==>
      h in Next(s, e).invites && Next(s, e).invites[h].expiresAt == s.invites[h].expiresAt
  {
  }

  /** So in every interleaving each call that has passed its validation, and so each one that passes its conditional
      update or succeeds, was validated at an instant not after its invite expires. */
  lemma {:induction false} ValidatedInTime(es: seq<Event>, c: nat)
    requires RunFrom(EMPTY, es) && PastValidation(AfterFrom(EMPTY, es), c)
    ensures exists k: nat :: ValidatedAt(es, c, k)
    decreases |es|
  {
    hide Next, Enabled, Fine;
    if es != [] {
      var n := |es| - 1;
      var init := es[..n];
      PastStep(AfterFrom(EMPTY, init), es[n], c);
      if PastValidation(AfterFrom(EMPTY, init), c) {
        ValidatedInTime(init, c);
        var k: nat :| ValidatedAt(init, c, k);
        assert init[..k] == es[..k];
        assert ValidatedAt(es, c, k);
      } else {
        assert ValidatedAt(es, c, n);
      }
    }
  }
}

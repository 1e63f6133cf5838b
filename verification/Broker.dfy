/**
 The token broker's lifecycle: adapters/token-broker-core/src/broker.rs as a machine of
 interleaved operations over the shared permits, the credential store and the provider.

 Each operation is a program counter.  One event is one access to shared state, so any
 interleaving at or between the code's awaits is a sequence of events; operations may be
 cancelled while they await.  A revoke request that was sent may be processed by the
 provider at any later time, or never, whatever became of its sender.
 */
module Broker {
  import opened Wrappers
  import opened Sets
  import opened BrokerErrors
  import opened Permits

  const MAX_SUBJECT_LEN := 255
  const MAX_ACCESS_TOKEN_LEN := 4096
  const MAX_REFRESH_TOKEN_LEN := 1024
  const MAX_EXPIRES_IN_SECS := 86_400

  type Token = string

  // ----- Provider answers and the pure verdicts on them -----

  /**
   A granted token response: its identity, the minted tokens, the seconds left on the
   access token and whether the identity token is fresh.
   */
  datatype Success = Success(subject: string, access: Token, rotated: Option<Token>, seconds: nat, timely: bool)

  datatype Answer =
    | Granted(success: Success)
    | UnderScoped(rotated: Option<Token>)
    | Revoked
    | Failed(error: BrokerError)

  predicate ValidSubject(text: string) {
    1 <= |text| <= MAX_SUBJECT_LEN && forall i :: 0 <= i < |text| ==> '!' <= text[i] <= '~'
  }

  predicate WellShapedRefresh(token: Token) {
    1 <= |token| <= MAX_REFRESH_TOKEN_LEN
  }

  /** Failures the token layer reports without a token response. */
  predicate IsTokenFailure(error: BrokerError) {
    error in {InvalidConfiguration, Transport, ProviderRejected, AuthorizationCodeRejected,
              MalformedResponse, IdentityUnverified, Unavailable}
  }

  /** `broker_token`: the bounds on the value handed to the caller. */
  function MintCheck(success: Success): Result<(), BrokerError> {
    if |success.access| > MAX_ACCESS_TOKEN_LEN then Err(MalformedResponse)
    else if success.seconds == 0 || success.seconds > MAX_EXPIRES_IN_SECS then Err(MalformedResponse)
    else Ok(())
  }

  /** `revoke_handle`: a well-shaped rotated refresh token, else a well-shaped access token. */
  function RevokeHandle(success: Success): Option<Token> {
    if success.rotated.Some? && WellShapedRefresh(success.rotated.value) then success.rotated
    else if success.access == "" || |success.access| > MAX_ACCESS_TOKEN_LEN then None
    else Some(success.access)
  }

  /** The gates of a completion, in order: freshness, minting, presence and shape of the refresh token. */
  function CompletionVerdict(success: Success): Result<Token, BrokerError> {
    if !success.timely then Err(IdentityUnverified)
    else if MintCheck(success).Err? then Err(MintCheck(success).error)
    else match success.rotated
      case None => Err(MissingRefreshToken)
      case Some(token) => if WellShapedRefresh(token) then Ok(token) else Err(MalformedResponse)
  }

  /** What a refresh does with its answer: the store write or delete it asks for, then its result. */
  datatype Effect = Keep | Write(token: Token) | Delete

  function RefreshPlan(subject: string, answer: Answer): (Effect, Result<(), BrokerError>) {
    match answer
    case Revoked => (Delete, Err(ConsentRevoked))
    case Failed(error) => (Keep, Err(error))
    case Granted(success) =>
      if success.subject != subject then (Keep, Err(IdentityMismatch))
      else if success.rotated.Some? && !WellShapedRefresh(success.rotated.value) then
        (Keep, Err(MalformedResponse))
      else
        (if success.rotated.Some? then Write(success.rotated.value) else Keep,
         if !success.timely then Err(IdentityUnverified) else MintCheck(success))
    case UnderScoped(rotated) =>
      if rotated.Some? && !WellShapedRefresh(rotated.value) then (Keep, Err(MalformedResponse))
      else (if rotated.Some? then Write(rotated.value) else Keep, Err(InsufficientScope))
  }

  /** Failures before a completion's exchange: the handle, the session and its callback. */
  predicate IsPreludeFailure(error: BrokerError) {
    error in {InvalidInput, SessionUnknown, Unavailable, InvalidConfiguration, ProviderRejected,
              InsufficientScope}
  }

  // ----- The machine -----

  datatype Job = Complete(success: Success) | Refresh | RevokeGrant | DeleteTokens

  datatype Stage =
    | Loading(job: Job)
    | Snapshotted(success: Success, empty: bool)
    | Stranded(success: Success, empty: bool, error: BrokerError)
    | CleaningUp(error: BrokerError)      // awaiting a best-effort revoke
    | Refreshing(loaded: Token, granted: Option<Answer>)  // awaiting the refresh
    | Answered(answer: Answer, loaded: Token)
    | Revoking(token: Token, last: bool)  // awaiting the first or the last revoke attempt

  /**
   `Holding` is the part of an operation that owns its subject's permit.  While an operation
   awaits tokens, `granted` is the answer the provider has minted and not yet delivered.
   */
  datatype Pc =
    | Exchanging(granted: Option<Answer>) // awaiting the code exchange
    | Claiming(subject: string, job: Job)
    | Holding(subject: string, stage: Stage)
    | Finished(result: Result<(), BrokerError>)
    | Cancelled

  datatype Revoke = Revoke(subject: string, token: Token, cleanup: bool)

  datatype Request = Request(sender: nat, revoke: Revoke)

  /** The tokens one provider answer minted: before the run, or for an operation of it. */
  datatype Source = Earlier | From(o: nat)

  datatype Mint = Mint(subject: string, source: Source)

  /** Whether minted tokens still work, or which kind of revoke ended them. */
  datatype Fate = Live | CleanedUp | Disconnected

  /**
   `requests` are the revokes sent and not yet processed, each under its own number; `sent`
   counts them.  `minted` is every token batch the provider gave out, `cleaned` and
   `disconnected` those a revoke ended.  `origin` is history: the operation that stored a
   credential, if one of the run did.
   */
  datatype World = World(held: set<string>, poisoned: bool, store: map<string, Token>, ops: map<nat, Pc>,
                         requests: map<nat, Request>, sent: nat,
                         minted: set<Mint>, cleaned: set<Mint>, disconnected: set<Mint>, origin: map<string, nat>)

  datatype Event =
    | StartComplete(o: nat, prelude: Option<BrokerError>)
    | StartOn(o: nat, text: string, job: Job)
    | Grant(o: nat, answer: Answer)
    | AnswerExchange(o: nat, answer: Answer)
    | AnswerRefresh(o: nat, answer: Answer)
    | AnswerRevoke(o: nat, confirmed: bool)
    | Claim(o: nat)
    | Load(o: nat, fault: bool)
    | Act(o: nat, fault: bool)
    | Cancel(o: nat)
    | Land(r: nat)
    | Lose(r: nat)
    | Poison

  /** The events of one operation, with what the provider grants it. */
  predicate OfOperation(e: Event) {
    !e.Land? && !e.Lose? && !e.Poison?
  }

  predicate AtStage(w: World, o: nat) {
    o in w.ops && w.ops[o].Holding?
  }

  predicate Awaiting(pc: Pc) {
    pc.Exchanging?
    || (pc.Holding? && (pc.stage.CleaningUp? || pc.stage.Refreshing? || pc.stage.Revoking?))
  }

  /** The granted answer that is under way to the operation, if any. */
  function UnderWay(pc: Pc): Option<Answer> {
    match pc
    case Exchanging(granted) => granted
    case Holding(_, Refreshing(_, granted)) => granted
    case _ => None
  }

  /** Only what was granted is delivered as granted; a grant may also be lost on its way. */
  predicate Deliverable(pc: Pc, answer: Answer) {
    && (answer.Granted? || answer.UnderScoped? ==> UnderWay(pc) == Some(answer))
    && (answer.Failed? ==> IsTokenFailure(answer.error))
  }

  predicate Enabled(w: World, e: Event) {
    match e
    case StartComplete(o, prelude) => o !in w.ops && (prelude.Some? ==> IsPreludeFailure(prelude.value))
    case StartOn(o, _, job) => o !in w.ops && !job.Complete?
    case Grant(o, answer) =>
      o in w.ops && (w.ops[o].Exchanging? || (w.ops[o].Holding? && w.ops[o].stage.Refreshing?))
      && UnderWay(w.ops[o]).None? && (answer.Granted? || answer.UnderScoped?)
    case AnswerExchange(o, answer) =>
      o in w.ops && w.ops[o].Exchanging? && answer != Revoked && Deliverable(w.ops[o], answer)
    case AnswerRefresh(o, answer) =>
      AtStage(w, o) && w.ops[o].stage.Refreshing? && Deliverable(w.ops[o], answer)
    case AnswerRevoke(o, _) => AtStage(w, o) && (w.ops[o].stage.CleaningUp? || w.ops[o].stage.Revoking?)
    case Claim(o) => o in w.ops && w.ops[o].Claiming?
    case Load(o, _) => AtStage(w, o) && w.ops[o].stage.Loading?
    case Act(o, _) =>
      AtStage(w, o)
      && (w.ops[o].stage.Snapshotted? || w.ops[o].stage.Stranded? || w.ops[o].stage.Answered?)
    case Cancel(o) => o in w.ops && Awaiting(w.ops[o])
    case Land(r) => r in w.requests
    case Lose(r) => r in w.requests
    case Poison => true
  }

  /**
   What one event makes of its operation: the new program counter, the change of its
   subject's credential, a revoke it sends, and the subject the provider minted tokens for.
   */
  datatype Turn = Turn(pc: Pc, effect: Effect, send: Option<Revoke>, mint: Option<string>)

  function Ends(result: Result<(), BrokerError>): Turn {
    Turn(Finished(result), Keep, None, None)
  }

  function GoesTo(pc: Pc): Turn {
    Turn(pc, Keep, None, None)
  }

  function Mints(turn: Turn, subject: string): Turn {
    turn.(mint := Some(subject))
  }

  function TurnOf(w: World, e: Event): Turn
    requires Enabled(w, e) && OfOperation(e)
  {
    match e
    case StartComplete(_, prelude) => if prelude.Some? then Ends(Err(prelude.value)) else GoesTo(Exchanging(None))
    case StartOn(_, text, job) =>
      if ValidSubject(text) then GoesTo(Claiming(text, job)) else Ends(Err(InvalidInput))
    case Grant(o, answer) => AfterGrant(w.ops[o], answer)
    case AnswerExchange(_, answer) => AfterExchange(answer)
    case AnswerRefresh(o, answer) => GoesTo(Holding(w.ops[o].subject, Answered(answer, w.ops[o].stage.loaded)))
    case AnswerRevoke(o, confirmed) => AfterRevoke(w.ops[o].subject, w.ops[o].stage, confirmed)
    case Claim(o) => AfterClaim(w.held, w.poisoned, w.ops[o].subject, w.ops[o].job)
    case Load(o, fault) => AfterLoad(w.store, w.ops[o].subject, w.ops[o].stage.job, fault)
    case Act(o, fault) => AfterAct(w.ops[o].subject, w.ops[o].stage, fault)
    case Cancel(_) => GoesTo(Cancelled)
  }

  function AfterExchange(answer: Answer): Turn
    requires answer != Revoked
  {
    match answer
    case Granted(success) =>
      if ValidSubject(success.subject) then GoesTo(Claiming(success.subject, Complete(success)))
      else Ends(Err(IdentityUnverified))
    case UnderScoped(_) => Ends(Err(InsufficientScope))
    case Failed(error) => Ends(Err(error))
  }

  /**
   The provider processes a token request: it mints.  The identity of an under-scoped exchange
   is not proved to anyone, so its tokens have no subject here.
   */
  function AfterGrant(pc: Pc, answer: Answer): Turn
    requires pc.Exchanging? || (pc.Holding? && pc.stage.Refreshing?)
  {
    match pc
    case Exchanging(_) =>
      var turn := GoesTo(Exchanging(Some(answer)));
      if answer.Granted? then Mints(turn, answer.success.subject) else turn
    case Holding(subject, stage) =>
      Mints(GoesTo(Holding(subject, stage.(granted := Some(answer)))),
            if answer.Granted? then answer.success.subject else subject)
  }

  /** `SubjectPermits::claim`. */
  function AfterClaim(held: set<string>, poisoned: bool, subject: string, job: Job): Turn {
    if poisoned then Ends(Err(Unavailable))
    else if subject in held || |held| >= MAX_SUBJECT_PERMITS then Ends(Err(Busy))
    else GoesTo(Holding(subject, Loading(job)))
  }

  /** The store access right after the permit: a load, or the delete. */
  function AfterLoad(store: map<string, Token>, subject: string, job: Job, fault: bool): Turn {
    if fault then Ends(Err(PersistenceFailed))
    else match job
      case Complete(success) => GoesTo(Holding(subject, Snapshotted(success, subject !in store)))
      case Refresh =>
        if subject !in store then Ends(Err(MissingRefreshToken))
        else if !WellShapedRefresh(store[subject]) then Ends(Err(PersistenceFailed))
        else GoesTo(Holding(subject, Refreshing(store[subject], None)))
      case RevokeGrant =>
        if subject !in store then Ends(Ok(()))
        else if !WellShapedRefresh(store[subject]) then Ends(Err(PersistenceFailed))
        else Sends(subject, store[subject], Revoking(store[subject], false), false)
      case DeleteTokens => Turn(Finished(Ok(())), Delete, None, None)
  }

  function Sends(subject: string, token: Token, stage: Stage, cleanup: bool): Turn {
    Turn(Holding(subject, stage), Keep, Some(Revoke(subject, token, cleanup)), None)
  }

  /** The synchronous tail of a completion or a refresh. */
  function AfterAct(subject: string, stage: Stage, fault: bool): Turn
    requires stage.Snapshotted? || stage.Stranded? || stage.Answered?
  {
    match stage
    case Snapshotted(success, empty) =>
      (match CompletionVerdict(success)
       case Err(error) => GoesTo(Holding(subject, Stranded(success, empty, error)))
       case Ok(token) =>
         if fault then GoesTo(Holding(subject, Stranded(success, empty, PersistenceFailed)))
         else Turn(Finished(Ok(())), Write(token), None, None))
    case Stranded(success, empty, error) =>
      if empty && RevokeHandle(success).Some? then
        Sends(subject, RevokeHandle(success).value, CleaningUp(error), true)
      else Ends(Err(error))
    case Answered(answer, _) =>
      var (effect, result) := RefreshPlan(subject, answer);
      if effect != Keep && fault then Ends(Err(PersistenceFailed)) else Turn(Finished(result), effect, None, None)
  }

  /** A revoke answer: cleanup ignores it; a disconnect retries once. */
  function AfterRevoke(subject: string, stage: Stage, confirmed: bool): Turn
    requires stage.CleaningUp? || stage.Revoking?
  {
    match stage
    case CleaningUp(error) => Ends(Err(error))
    case Revoking(token, last) =>
      if confirmed then Ends(Ok(()))
      else if last then Ends(Err(RevokeUnconfirmed))
      else Sends(subject, token, Revoking(token, true), false)
  }

  /** Carries a turn out; leaving `Holding` drops the operation's guard and frees its slot. */
  function Carry(w: World, o: nat, turn: Turn): World {
    var mine := AtStage(w, o);
    var freed := if mine then w.held - {w.ops[o].subject} else w.held;
    w.(ops := w.ops[o := turn.pc],
       held := if turn.pc.Holding? then freed + {turn.pc.subject} else freed,
       store := if !mine || turn.effect == Keep then w.store
                else if turn.effect == Delete then w.store - {w.ops[o].subject}
                else w.store[w.ops[o].subject := turn.effect.token],
       origin := if !mine || turn.effect == Keep then w.origin
                 else if turn.effect == Delete then w.origin - {w.ops[o].subject}
                 else w.origin[w.ops[o].subject := o],
       requests := if turn.send.Some? then w.requests[w.sent := Request(o, turn.send.value)] else w.requests,
       sent := if turn.send.Some? then w.sent + 1 else w.sent,
       minted := if turn.mint.Some? then w.minted + {Mint(turn.mint.value, From(o))} else w.minted)
  }

  function FateOf(w: World, m: Mint): Fate {
    if m in w.cleaned then CleanedUp else if m in w.disconnected then Disconnected else Live
  }

  /** Revocation is grant-wide: it ends every working token minted for its subject so far. */
  function Landed(w: World, revoke: Revoke): World {
    var ended := set m | m in w.minted && m.subject == revoke.subject && FateOf(w, m) == Live;
    if revoke.cleanup then w.(cleaned := w.cleaned + ended) else w.(disconnected := w.disconnected + ended)
  }

  function Next(w: World, e: Event): World
    requires Enabled(w, e)
  {
    match e
    case Poison => w.(poisoned := true)
    case Land(r) => Landed(w, w.requests[r].revoke).(requests := w.requests - {r})
    case Lose(r) => w.(requests := w.requests - {r})
    case _ => Carry(w, e.o, TurnOf(w, e))
  }

  // ----- Runs -----

  ghost predicate IsRun(w: World, events: seq<Event>)
    decreases |events|
  {
    events == [] || (Enabled(w, events[0]) && IsRun(Next(w, events[0]), events[1..]))
  }

  function Final(w: World, events: seq<Event>): World
    requires IsRun(w, events)
    decreases |events|
  {
    if events == [] then w else Final(Next(w, events[0]), events[1..])
  }

  /** A broker just built over a store with any contents, all of it working. */
  function Initial(store: map<string, Token>): World {
    World({}, false, store, map[], map[], 0, set s | s in store :: Mint(s, Earlier), {}, {}, map[])
  }

  // ----- The invariant -----

  predicate Holds(w: World, o: nat, subject: string) {
    AtStage(w, o) && w.ops[o].subject == subject
  }

  /** The permit set is exactly the subjects of the operations that hold a guard, one each. */
  ghost predicate PermitsMatch(w: World) {
    && (forall o, s :: Holds(w, o, s) ==> s in w.held)
    && (forall s :: s in w.held ==> exists o :: Holds(w, o, s))
    && (forall a, b, s :: Holds(w, a, s) && Holds(w, b, s) ==> a == b)
    && |w.held| <= MAX_SUBJECT_PERMITS
  }

  /** What an operation knows about the store while it holds its subject's permit. */
  predicate Knows(store: map<string, Token>, subject: string, stage: Stage) {
    match stage
    case Snapshotted(success, empty) => success.subject == subject && empty == (subject !in store)
    case Stranded(success, empty, error) => empty == (subject !in store) && error != ConsentRevoked
    case CleaningUp(error) => subject !in store && error != ConsentRevoked
    case Refreshing(loaded, _) => subject in store && store[subject] == loaded
    case Answered(answer, loaded) =>
      subject in store && store[subject] == loaded && (answer.Failed? ==> IsTokenFailure(answer.error))
    case Revoking(token, _) => WellShapedRefresh(token) && subject in store && store[subject] == token
    case Loading(job) => IsFor(job, subject)
  }

  /** A completion works under the subject its own response proved. */
  predicate IsFor(job: Job, subject: string) {
    job.Complete? ==> job.success.subject == subject
  }

  ghost predicate OpsKnow(w: World) {
    && (forall o :: AtStage(w, o) ==> Knows(w.store, w.ops[o].subject, w.ops[o].stage))
    && (forall o :: o in w.ops && w.ops[o].Claiming? ==> IsFor(w.ops[o].job, w.ops[o].subject))
  }

  predicate WellShaped(revoke: Revoke) {
    revoke.token != "" && |revoke.token| <= MAX_ACCESS_TOKEN_LEN
  }

  /** An operation sends only after it took its permit, and only about its own subject. */
  predicate FromSender(ops: map<nat, Pc>, request: Request) {
    && request.sender in ops
    && !ops[request.sender].Exchanging? && !ops[request.sender].Claiming?
    && (ops[request.sender].Holding? ==> ops[request.sender].subject == request.revoke.subject)
  }

  ghost predicate RequestsMatch(w: World) {
    forall r :: r in w.requests ==>
      r < w.sent && WellShaped(w.requests[r].revoke) && FromSender(w.ops, w.requests[r])
  }

  ghost predicate Inv(w: World) {
    PermitsMatch(w) && OpsKnow(w) && RequestsMatch(w)
  }

  /** What a turn must respect so that the invariant survives it. */
  ghost predicate Orderly(w: World, o: nat, turn: Turn) {
    var mine := AtStage(w, o);
    && (turn.effect != Keep ==> mine)
    && (turn.pc.Claiming? ==> IsFor(turn.pc.job, turn.pc.subject))
    && (turn.send.Some? ==>
          turn.pc.Holding? && WellShaped(turn.send.value) && turn.send.value.subject == turn.pc.subject)
    && (o in w.ops && !w.ops[o].Exchanging? && !w.ops[o].Claiming? ==>
          !turn.pc.Exchanging? && !turn.pc.Claiming? && (turn.pc.Holding? ==> mine))
    && (turn.pc.Holding? ==>
          && (if mine then turn.pc.subject == w.ops[o].subject
              else turn.pc.subject !in w.held && |w.held| < MAX_SUBJECT_PERMITS)
          && Knows(Carry(w, o, turn).store, turn.pc.subject, turn.pc.stage))
  }

  /** A turn changes only its own operation's guard. */
  lemma CarryHolders(w: World, o: nat, turn: Turn)
    ensures var v := Carry(w, o, turn);
      (forall p, s :: p != o ==> (Holds(v, p, s) <==> Holds(w, p, s)))
      && (forall s :: Holds(v, o, s) <==> turn.pc.Holding? && turn.pc.subject == s)
  {
  }

  lemma OrderlyKeepsGuards(w: World, o: nat, turn: Turn)
    requires PermitsMatch(w) && Orderly(w, o, turn)
    ensures var v := Carry(w, o, turn);
      (forall p, s :: Holds(v, p, s) ==> s in v.held)
      && (forall a, b, s :: Holds(v, a, s) && Holds(v, b, s) ==> a == b)
  {
    CarryHolders(w, o, turn);
    assert AtStage(w, o) ==> Holds(w, o, w.ops[o].subject);
  }

  lemma OrderlyKeepsSlots(w: World, o: nat, turn: Turn)
    requires PermitsMatch(w) && Orderly(w, o, turn)
    ensures var v := Carry(w, o, turn);
      (forall s :: s in v.held ==> exists p :: Holds(v, p, s)) && |v.held| <= MAX_SUBJECT_PERMITS
  {
    var v := Carry(w, o, turn);
    CarryHolders(w, o, turn);
    forall s | s in v.held
      ensures exists p :: Holds(v, p, s)
    {
      if turn.pc.Holding? && turn.pc.subject == s {
        assert Holds(v, o, s);
      } else {
        var p :| Holds(w, p, s);
        assert Holds(v, p, s);
      }
    }
    if AtStage(w, o) {
      assert Holds(w, o, w.ops[o].subject);
      SubsetCount(v.held, w.held);
    }
  }

  lemma OrderlyKeepsRequests(w: World, o: nat, turn: Turn)
    requires RequestsMatch(w) && Orderly(w, o, turn)
    ensures RequestsMatch(Carry(w, o, turn))
  {
    var v := Carry(w, o, turn);
    forall r | r in v.requests
      ensures r < v.sent && WellShaped(v.requests[r].revoke) && FromSender(v.ops, v.requests[r])
    {
      if r in w.requests && v.requests[r] == w.requests[r] {
        assert FromSender(w.ops, w.requests[r]);
      }
    }
  }

  lemma OrderlyKeepsKnowledge(w: World, o: nat, turn: Turn)
    requires PermitsMatch(w) && OpsKnow(w) && Orderly(w, o, turn)
    ensures OpsKnow(Carry(w, o, turn))
  {
    var v := Carry(w, o, turn);
    forall p | AtStage(v, p) && p != o
      ensures Knows(v.store, v.ops[p].subject, v.ops[p].stage)
    {
      var s := v.ops[p].subject;
      assert Holds(w, p, s) && Knows(w.store, s, w.ops[p].stage);
      assert !Holds(w, o, s);
    }
  }

  lemma ActIsOrderly(w: World, e: Event)
    requires Inv(w) && Enabled(w, e) && e.Act?
    ensures Orderly(w, e.o, TurnOf(w, e))
  {
    assert Knows(w.store, w.ops[e.o].subject, w.ops[e.o].stage);
  }

  lemma LoadIsOrderly(w: World, e: Event)
    requires Inv(w) && Enabled(w, e) && e.Load?
    ensures Orderly(w, e.o, TurnOf(w, e))
  {
    assert Knows(w.store, w.ops[e.o].subject, w.ops[e.o].stage);
  }

  lemma GrantIsOrderly(w: World, e: Event)
    requires Inv(w) && Enabled(w, e) && e.Grant?
    ensures Orderly(w, e.o, TurnOf(w, e))
  {
    assert AtStage(w, e.o) ==> Knows(w.store, w.ops[e.o].subject, w.ops[e.o].stage);
  }

  lemma AnswerIsOrderly(w: World, e: Event)
    requires Inv(w) && Enabled(w, e) && (e.AnswerRefresh? || e.AnswerRevoke?)
    ensures Orderly(w, e.o, TurnOf(w, e))
  {
    assert Knows(w.store, w.ops[e.o].subject, w.ops[e.o].stage);
  }

  lemma EventIsOrderly(w: World, e: Event)
    requires Inv(w) && Enabled(w, e) && OfOperation(e)
    ensures Orderly(w, e.o, TurnOf(w, e))
  {
    match e
    case Grant(_, _) => GrantIsOrderly(w, e);
    case Act(_, _) => ActIsOrderly(w, e);
    case Load(_, _) => LoadIsOrderly(w, e);
    case AnswerRefresh(_, _) => AnswerIsOrderly(w, e);
    case AnswerRevoke(_, _) => AnswerIsOrderly(w, e);
    case _ =>
  }

  lemma OrderlyKeepsInv(w: World, o: nat, turn: Turn)
    requires Inv(w) && Orderly(w, o, turn)
    ensures Inv(Carry(w, o, turn))
  {
    OrderlyKeepsGuards(w, o, turn);
    OrderlyKeepsSlots(w, o, turn);
    OrderlyKeepsKnowledge(w, o, turn);
    OrderlyKeepsRequests(w, o, turn);
  }

  lemma StepKeepsInv(w: World, e: Event)
    requires Inv(w) && Enabled(w, e)
    ensures Inv(Next(w, e))
  {
    StateKeepsInv(w, e, Next(w, e));
  }

  lemma StateKeepsInv(w: World, e: Event, v: World)
    requires Inv(w) && Enabled(w, e) && v == Next(w, e)
    ensures Inv(v)
  {
    if OfOperation(e) {
      OperationKeepsInv(w, e, v);
    } else {
      ProviderKeepsInv(w, v);
    }
  }

  lemma OperationKeepsInv(w: World, e: Event, v: World)
    requires Inv(w) && Enabled(w, e) && OfOperation(e) && v == Next(w, e)
    ensures Inv(v)
  {
    TurnKeepsInv(w, e, v);
  }

  lemma TurnKeepsInv(w: World, e: Event, v: World)
    requires Inv(w) && Enabled(w, e) && OfOperation(e) && v == Carry(w, e.o, TurnOf(w, e))
    ensures Inv(v)
  {
    EventIsOrderly(w, e);
    OrderlyKeepsInv(w, e.o, TurnOf(w, e));
  }

  /** What is not an operation's event changes no operation, no permit and no credential. */
  lemma ProviderKeepsInv(w: World, v: World)
    requires Inv(w)
    requires v.held == w.held && v.ops == w.ops && v.store == w.store && v.sent == w.sent
    requires forall r :: r in v.requests ==> r in w.requests && v.requests[r] == w.requests[r]
    ensures Inv(v)
  {
    assert forall o, s :: Holds(v, o, s) <==> Holds(w, o, s);
  }

  lemma {:induction false} RunKeepsInv(w: World, events: seq<Event>)
    requires IsRun(w, events) && Inv(w)
    ensures Inv(Final(w, events))
    decreases |events|
  {
    if events != [] {
      StepKeepsInv(w, events[0]);
      RunKeepsInv(Next(w, events[0]), events[1..]);
    }
  }

  /** The worlds some run of a fresh broker over some store reaches. */
  ghost predicate Reachable(w: World) {
    exists store: map<string, Token>, events: seq<Event> ::
      IsRun(Initial(store), events) && Final(Initial(store), events) == w
  }

  lemma ReachableInv(w: World)
    requires Reachable(w)
    ensures Inv(w)
  {
    var store: map<string, Token>, events: seq<Event> :|
      IsRun(Initial(store), events) && Final(Initial(store), events) == w;
    RunKeepsInv(Initial(store), events);
  }

  // ----- Permits -----

  /**
   Main result: the held slots are the subjects of the operations holding a guard, no two of
   which share a subject; however the others ended, no guard means no slot.
   */
  lemma SlotsFollowOperations(w: World)
    requires Reachable(w)
    ensures forall s :: s in w.held <==> exists o :: Holds(w, o, s)
    ensures forall a, b :: AtStage(w, a) && AtStage(w, b) && w.ops[a].subject == w.ops[b].subject ==> a == b
    ensures |w.held| <= 32
    ensures (forall o :: !AtStage(w, o)) ==> w.held == {}
  {
    ReachableInv(w);
    forall a, b | AtStage(w, a) && AtStage(w, b) && w.ops[a].subject == w.ops[b].subject
      ensures a == b
    {
      assert Holds(w, a, w.ops[a].subject) && Holds(w, b, w.ops[a].subject);
    }
  }

  // ----- Revocation -----

  /**
   Main result: a completion sends a revoke only while its subject has no stored credential,
   and only of a token its own answer minted.
   */
  lemma CleanupNeedsEmptyStore(w: World, e: Event, r: nat)
    requires Reachable(w) && Enabled(w, e)
    requires r !in w.requests && r in Next(w, e).requests && Next(w, e).requests[r].revoke.cleanup
    ensures var Request(o, revoke) := Next(w, e).requests[r];
      && revoke.subject !in w.store && Holds(w, o, revoke.subject) && w.ops[o].stage.Stranded?
      && revoke.token == ChosenToken(w.ops[o].stage.success)
  {
    ReachableInv(w);
    CleanupTurn(w, e);
    assert Knows(w.store, w.ops[e.o].subject, w.ops[e.o].stage);
  }

  /** The only turn that sends a cleanup revoke. */
  lemma CleanupTurn(w: World, e: Event)
    requires Enabled(w, e) && OfOperation(e)
    requires TurnOf(w, e).send.Some? && TurnOf(w, e).send.value.cleanup
    ensures e.Act? && w.ops[e.o].stage.Stranded? && w.ops[e.o].stage.empty
    ensures TurnOf(w, e).send.value == Revoke(w.ops[e.o].subject, ChosenToken(w.ops[e.o].stage.success), true)
    ensures TurnOf(w, e).pc.Holding? && TurnOf(w, e).pc.stage.CleaningUp?
  {
  }

  /** The rotated refresh token when it is well shaped, else the access token. */
  function ChosenToken(success: Success): Token {
    if success.rotated.Some? && 1 <= |success.rotated.value| <= MAX_REFRESH_TOKEN_LEN then success.rotated.value
    else success.access
  }

  // ----- Credentials -----

  /**
   Main result: a completion or refresh reports success only with its credential in the
   store: the one its answer rotated to, else the very one it loaded.
   */
  lemma SuccessIsStored(w: World, e: Event)
    requires Reachable(w) && Enabled(w, e) && e.Act?
    requires Next(w, e).ops[e.o] == Finished(Ok(()))
    ensures var stage := w.ops[e.o].stage;
      stage.Snapshotted? || (stage.Answered? && stage.answer.Granted?)
    ensures var stage, subject := w.ops[e.o].stage, w.ops[e.o].subject;
      var success := if stage.Snapshotted? then stage.success else stage.answer.success;
      && subject in Next(w, e).store
      && (success.rotated.Some? ==> Next(w, e).store[subject] == success.rotated.value)
      && (success.rotated.None? ==> stage.Answered? && Next(w, e).store == w.store && w.store[subject] == stage.loaded)
      && success.subject == subject && success.timely
      && |success.access| <= MAX_ACCESS_TOKEN_LEN && 1 <= success.seconds <= MAX_EXPIRES_IN_SECS
  {
    ReachableInv(w);
    assert Knows(w.store, w.ops[e.o].subject, w.ops[e.o].stage);
  }

  /** A stored credential goes only by a delete, or by a refresh the provider answered as revoked. */
  lemma CredentialsGoOnlyTwoWays(w: World, e: Event, s: string)
    requires Enabled(w, e) && s in w.store && s !in Next(w, e).store
    ensures Holds(w, e.o, s)
    ensures (e.Load? && w.ops[e.o].stage == Loading(DeleteTokens))
      || (e.Act? && w.ops[e.o].stage.Answered? && w.ops[e.o].stage.answer == Revoked
          && Next(w, e).ops[e.o] == Finished(Err(ConsentRevoked)))
  {
  }

  /** `ConsentRevoked` is reported only when the credential is gone. */
  lemma ConsentRevokedMeansGone(w: World, e: Event, o: nat)
    requires Reachable(w) && Enabled(w, e)
    requires o in Next(w, e).ops && Next(w, e).ops[o] == Finished(Err(ConsentRevoked))
    requires o in w.ops ==> w.ops[o] != Next(w, e).ops[o]
    ensures AtStage(w, o) && w.ops[o].subject !in Next(w, e).store
  {
    ReachableInv(w);
    assert o == e.o && OfOperation(e);
    assert AtStage(w, o) ==> Knows(w.store, w.ops[o].subject, w.ops[o].stage);
    ConsentRevokedTurn(w, e);
  }

  lemma ConsentRevokedTurn(w: World, e: Event)
    requires Enabled(w, e) && OfOperation(e)
    requires AtStage(w, e.o) ==> Knows(w.store, w.ops[e.o].subject, w.ops[e.o].stage)
    requires TurnOf(w, e).pc == Finished(Err(ConsentRevoked))
    ensures AtStage(w, e.o) && TurnOf(w, e).effect == Delete
  {
  }

  /** An identity mismatch writes nothing and sends nothing. */
  lemma MismatchChangesNothing(w: World, e: Event, o: nat)
    requires Reachable(w) && Enabled(w, e)
    requires o in Next(w, e).ops && Next(w, e).ops[o] == Finished(Err(IdentityMismatch))
    requires o in w.ops ==> w.ops[o] != Next(w, e).ops[o]
    ensures Next(w, e).store == w.store && Next(w, e).requests == w.requests
  {
    assert OfOperation(e) && o == e.o;
    MismatchTurn(w, e);
  }

  lemma MismatchTurn(w: World, e: Event)
    requires Enabled(w, e) && OfOperation(e) && TurnOf(w, e).pc == Finished(Err(IdentityMismatch))
    ensures TurnOf(w, e).effect == Keep && TurnOf(w, e).send.None?
  {
  }

  /** The refresh token an answer offers to store under `subject`, if any. */
  function Offered(stage: Stage, subject: string): Option<Token> {
    match stage
    case Snapshotted(success, _) => if success.subject == subject then success.rotated else None
    case Answered(Granted(success), _) => if success.subject == subject then success.rotated else None
    case Answered(UnderScoped(rotated), _) => rotated
    case _ => None
  }

  /**
   Main result: whatever the broker writes has 1 to 1024 bytes and is the refresh token of
   that very answer, stored under the identity the answer proved.
   */
  lemma WritesAreOfferedTokens(w: World, e: Event, s: string)
    requires Reachable(w) && Enabled(w, e) && s in Next(w, e).store
    requires s in w.store ==> Next(w, e).store[s] != w.store[s]
    ensures e.Act? && Holds(w, e.o, s)
    ensures Offered(w.ops[e.o].stage, s) == Some(Next(w, e).store[s])
    ensures WellShapedRefresh(Next(w, e).store[s]) && s in Next(w, e).origin && Next(w, e).origin[s] == e.o
  {
    ReachableInv(w);
    assert OfOperation(e);
    OfferedTurn(w, e, TurnOf(w, e), Next(w, e), s);
  }

  lemma OfferedTurn(w: World, e: Event, turn: Turn, v: World, s: string)
    requires Inv(w) && Enabled(w, e) && OfOperation(e) && turn == TurnOf(w, e) && v == Carry(w, e.o, turn)
    requires s in v.store && (s in w.store ==> v.store[s] != w.store[s])
    ensures e.Act? && Holds(w, e.o, s) && Offered(w.ops[e.o].stage, s) == Some(v.store[s])
    ensures WellShapedRefresh(v.store[s]) && s in v.origin && v.origin[s] == e.o
  {
    assert AtStage(w, e.o) ==> Knows(w.store, w.ops[e.o].subject, w.ops[e.o].stage);
    WriteTurn(w, e);
  }

  /** The only turn that writes a credential. */
  lemma WriteTurn(w: World, e: Event)
    requires Enabled(w, e) && OfOperation(e)
    requires AtStage(w, e.o) ==> Knows(w.store, w.ops[e.o].subject, w.ops[e.o].stage)
    ensures var turn := TurnOf(w, e);
      turn.effect.Write? ==>
        e.Act? && Offered(w.ops[e.o].stage, w.ops[e.o].subject) == Some(turn.effect.token)
        && WellShapedRefresh(turn.effect.token)
  {
  }

  /** No malformed token is ever sent for revocation. */
  lemma RequestsAreWellShaped(w: World, r: nat)
    requires Reachable(w) && r in w.requests
    ensures WellShaped(w.requests[r].revoke)
  {
    ReachableInv(w);
  }
}

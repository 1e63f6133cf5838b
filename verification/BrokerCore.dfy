/**
 The four lifecycle methods of adapters/token-broker-core/src/broker.rs as straight-line
 code, each proved to do what the turns of the `Broker` machine do when nothing else runs.

 Provider answers and store faults are parameters; `sent` logs the revokes sent.
 */
module BrokerCore {
  import opened Wrappers
  import opened BrokerErrors
  import opened Permits
  import opened Broker
  import opened BrokerOutcomes

  type Reply = Result<(), BrokerError>

  datatype Store = Store(tokens: map<string, Token>, sent: seq<Token>)

  /** A turn's effect on the credential of its subject, and the revoke it sends. */
  function Applied(store: Store, subject: string, turn: Turn): Store {
    Store(
      match turn.effect
      case Keep => store.tokens
      case Delete => store.tokens - {subject}
      case Write(token) => store.tokens[subject := token],
      if turn.send.Some? then store.sent + [turn.send.value.token] else store.sent)
  }

  // ----- One operation alone, turn by turn -----

  /** A completion after its permit: snapshot, verdict and store, then cleanup when it failed. */
  function CompleteHolding(store: Store, success: Success, loadFault: bool, writeFault: bool): (Store, Reply) {
    var subject := success.subject;
    var loaded := AfterLoad(store.tokens, subject, Complete(success), loadFault);
    if loaded.pc.Finished? then (store, loaded.pc.result)
    else
      var settled := AfterAct(subject, loaded.pc.stage, writeFault);
      var after := Applied(store, subject, settled);
      if settled.pc.Finished? then (after, settled.pc.result)
      else
        var cleaned := AfterAct(subject, settled.pc.stage, false);
        var last := Applied(after, subject, cleaned);
        if cleaned.pc.Finished? then (last, cleaned.pc.result)
        else (last, AfterRevoke(subject, cleaned.pc.stage, false).pc.result)
  }

  function RefreshHolding(store: Store, subject: string, answer: Answer, loadFault: bool, writeFault: bool)
    : (Store, Reply)
  {
    var loaded := AfterLoad(store.tokens, subject, Refresh, loadFault);
    if loaded.pc.Finished? then (store, loaded.pc.result)
    else
      var settled := AfterAct(subject, Answered(answer, loaded.pc.stage.loaded), writeFault);
      (Applied(store, subject, settled), settled.pc.result)
  }

  function RevokeHolding(store: Store, subject: string, first: bool, second: bool, loadFault: bool): (Store, Reply) {
    var loaded := AfterLoad(store.tokens, subject, RevokeGrant, loadFault);
    var once := Applied(store, subject, loaded);
    if loaded.pc.Finished? then (once, loaded.pc.result)
    else
      var answered := AfterRevoke(subject, loaded.pc.stage, first);
      var twice := Applied(once, subject, answered);
      if answered.pc.Finished? then (twice, answered.pc.result)
      else (twice, AfterRevoke(subject, answered.pc.stage, second).pc.result)
  }

  function DeleteHolding(store: Store, subject: string, fault: bool): (Store, Reply) {
    var done := AfterLoad(store.tokens, subject, DeleteTokens, fault);
    (Applied(store, subject, done), done.pc.result)
  }

  // ----- What one operation alone answers and leaves -----

  /** A completion alone: when it succeeds and stores, what it reports, and when it revokes. */
  lemma CompleteAlone(store: Store, success: Success, loadFault: bool, writeFault: bool)
    ensures var (after, r) := CompleteHolding(store, success, loadFault, writeFault);
      var s := success.subject;
      var stores := success.timely && Presentable(success) && success.rotated.Some? && Storable(success.rotated.value);
      var revokes := !loadFault && s !in store.tokens && Revocable(success);
      var failure :=
        if loadFault || stores then PersistenceFailed
        else if !success.timely then IdentityUnverified
        else if Presentable(success) && success.rotated.None? then MissingRefreshToken
        else MalformedResponse;
      && (r.Ok? <==> !loadFault && stores && !writeFault)
      && (r.Ok? ==> after == Store(store.tokens[s := success.rotated.value], store.sent))
      && (r.Err? ==> r.error == failure && after.tokens == store.tokens)
      && (r.Err? ==> after.sent == if revokes then store.sent + [ChosenToken(success)] else store.sent)
  {
  }

  /** A refresh alone sends nothing, and needs a usable stored credential and a usable answer. */
  lemma RefreshAlone(store: Store, subject: string, answer: Answer, loadFault: bool, writeFault: bool)
    ensures var (after, r) := RefreshHolding(store, subject, answer, loadFault, writeFault);
      var usable := !loadFault && subject in store.tokens && Storable(store.tokens[subject]);
      var rotation := OwnRotation(answer, subject);
      && after.sent == store.sent
      && (r.Ok? <==> usable && answer.Granted? && answer.success.subject == subject
                     && answer.success.timely && Presentable(answer.success)
                     && (rotation.Some? ==> Storable(rotation.value) && !writeFault))
      && after.tokens ==
           (if !usable || writeFault then store.tokens
            else if answer == Revoked then store.tokens - {subject}
            else if rotation.Some? && Storable(rotation.value) then store.tokens[subject := rotation.value]
            else store.tokens)
      && (r == Err(ConsentRevoked) ==> usable && (answer == Failed(ConsentRevoked) || subject !in after.tokens))
      && (!loadFault && subject !in store.tokens ==> r == Err(MissingRefreshToken))
      && (loadFault || (subject in store.tokens && !usable) ==> r == Err(PersistenceFailed))
  {
  }

  /** A disconnect alone: at most two attempts with the stored token, which stays. */
  lemma RevokeAlone(store: Store, subject: string, first: bool, second: bool, loadFault: bool)
    ensures var (after, r) := RevokeHolding(store, subject, first, second, loadFault);
      && after.tokens == store.tokens
      && (loadFault ==> r == Err(PersistenceFailed) && after.sent == store.sent)
      && (!loadFault && subject !in store.tokens ==> r == Ok(()) && after.sent == store.sent)
      && (!loadFault && subject in store.tokens ==>
            var token := store.tokens[subject];
            if !Storable(token) then r == Err(PersistenceFailed) && after.sent == store.sent
            else r == (if first || second then Ok(()) else Err(RevokeUnconfirmed))
                 && after.sent == store.sent + (if first then [token] else [token, token]))
  {
    if !loadFault && subject in store.tokens {
      var token := store.tokens[subject];
      assert store.sent + [token] + [token] == store.sent + [token, token];
    }
  }

  /** A delete alone removes the credential, present or not. */
  lemma DeleteAlone(store: Store, subject: string, fault: bool)
    ensures DeleteHolding(store, subject, fault)
      == if fault then (store, Err(PersistenceFailed)) else (Store(store.tokens - {subject}, store.sent), Ok(()))
  {
  }

  // ----- The methods -----

  class Core {
    const permits: SubjectPermits
    var tokens: map<string, Token>
    var sent: seq<Token>

    ghost function State(): Store
      reads this
    {
      Store(tokens, sent)
    }

    constructor (tokens: map<string, Token>)
      ensures fresh(permits) && permits.Valid() && permits.live == {} && State() == Store(tokens, [])
    {
      permits := new SubjectPermits();
      this.tokens, sent := tokens, [];
    }

    /** `revoke_stranded_grant`: only over an empty snapshot, only a well-shaped handle. */
    method RevokeStrandedGrant(empty: bool, success: Success)
      modifies this`sent
      ensures sent ==
        if empty && RevokeHandle(success).Some? then old(sent) + [RevokeHandle(success).value] else old(sent)
    {
      if !empty {
        return;
      }
      var handle := RevokeHandle(success);
      if handle.Some? {
        sent := sent + [handle.value];
      }
    }

    /** `complete_authorization` after a granted exchange. */
    method CompleteGranted(success: Success, loadFault: bool, writeFault: bool) returns (r: Reply)
      requires permits.Valid()
      modifies this, permits
      ensures permits.Valid() && permits.live == old(permits.live) && permits.poisoned == old(permits.poisoned)
      ensures !ValidSubject(success.subject) ==> r == Err(IdentityUnverified) && State() == old(State())
      ensures ValidSubject(success.subject) ==>
        var claim := AfterClaim(old(permits.held), permits.poisoned, success.subject, Complete(success));
        (State(), r) == if claim.pc.Finished? then (old(State()), claim.pc.result)
                        else CompleteHolding(old(State()), success, loadFault, writeFault)
    {
      if !ValidSubject(success.subject) {
        return Err(IdentityUnverified);
      }
      var permit := permits.Claim(success.subject);
      if permit.Err? {
        return Err(permit.error);
      }
      r := CompletePermitted(success, loadFault, writeFault);
      permits.Release(permit.value);
    }

    method CompletePermitted(success: Success, loadFault: bool, writeFault: bool) returns (r: Reply)
      modifies this
      ensures (State(), r) == CompleteHolding(old(State()), success, loadFault, writeFault)
    {
      if loadFault {
        return Err(PersistenceFailed);
      }
      var empty := success.subject !in tokens;
      if !success.timely {
        RevokeStrandedGrant(empty, success);
        return Err(IdentityUnverified);
      }
      var minted := MintCheck(success);
      if minted.Err? {
        RevokeStrandedGrant(empty, success);
        return minted;
      }
      if success.rotated.None? {
        RevokeStrandedGrant(empty, success);
        return Err(MissingRefreshToken);
      }
      var token := success.rotated.value;
      if token == "" || |token| > MAX_REFRESH_TOKEN_LEN {
        RevokeStrandedGrant(empty, success);
        return Err(MalformedResponse);
      }
      if writeFault {
        RevokeStrandedGrant(empty, success);
        return Err(PersistenceFailed);
      }
      tokens := tokens[success.subject := token];
      return Ok(());
    }

    /** `refresh_access_token`. */
    method RefreshAccessToken(subject: string, answer: Answer, loadFault: bool, writeFault: bool) returns (r: Reply)
      requires permits.Valid()
      modifies this, permits
      ensures permits.Valid() && permits.live == old(permits.live) && permits.poisoned == old(permits.poisoned)
      ensures !ValidSubject(subject) ==> r == Err(InvalidInput) && State() == old(State())
      ensures ValidSubject(subject) ==>
        var claim := AfterClaim(old(permits.held), permits.poisoned, subject, Refresh);
        (State(), r) == if claim.pc.Finished? then (old(State()), claim.pc.result)
                        else RefreshHolding(old(State()), subject, answer, loadFault, writeFault)
    {
      if !ValidSubject(subject) {
        return Err(InvalidInput);
      }
      var permit := permits.Claim(subject);
      if permit.Err? {
        return Err(permit.error);
      }
      r := RefreshPermitted(subject, answer, loadFault, writeFault);
      permits.Release(permit.value);
    }

    method RefreshPermitted(subject: string, answer: Answer, loadFault: bool, writeFault: bool) returns (r: Reply)
      modifies this
      ensures (State(), r) == RefreshHolding(old(State()), subject, answer, loadFault, writeFault)
    {
      if loadFault {
        return Err(PersistenceFailed);
      }
      if subject !in tokens {
        return Err(MissingRefreshToken);
      }
      if tokens[subject] == "" || |tokens[subject]| > MAX_REFRESH_TOKEN_LEN {
        return Err(PersistenceFailed);
      }
      match answer
      case Revoked =>
        if writeFault {
          return Err(PersistenceFailed);
        }
        tokens := tokens - {subject};
        return Err(ConsentRevoked);
      case Failed(error) =>
        return Err(error);
      case Granted(success) =>
        if success.subject != subject {
          return Err(IdentityMismatch);
        }
        if success.rotated.Some? {
          var rotated := success.rotated.value;
          if rotated == "" || |rotated| > MAX_REFRESH_TOKEN_LEN {
            return Err(MalformedResponse);
          }
          if writeFault {
            return Err(PersistenceFailed);
          }
          tokens := tokens[subject := rotated];
        }
        if !success.timely {
          return Err(IdentityUnverified);
        }
        return MintCheck(success);
      case UnderScoped(rotated) =>
        if rotated.Some? {
          if rotated.value == "" || |rotated.value| > MAX_REFRESH_TOKEN_LEN {
            return Err(MalformedResponse);
          }
          if writeFault {
            return Err(PersistenceFailed);
          }
          tokens := tokens[subject := rotated.value];
        }
        return Err(InsufficientScope);
    }

    /** `revoke_provider_grant`; `first` and `second` say whether each attempt is confirmed. */
    method RevokeProviderGrant(subject: string, first: bool, second: bool, loadFault: bool) returns (r: Reply)
      requires permits.Valid()
      modifies this, permits
      ensures permits.Valid() && permits.live == old(permits.live) && permits.poisoned == old(permits.poisoned)
      ensures !ValidSubject(subject) ==> r == Err(InvalidInput) && State() == old(State())
      ensures ValidSubject(subject) ==>
        var claim := AfterClaim(old(permits.held), permits.poisoned, subject, RevokeGrant);
        (State(), r) == if claim.pc.Finished? then (old(State()), claim.pc.result)
                        else RevokeHolding(old(State()), subject, first, second, loadFault)
    {
      if !ValidSubject(subject) {
        return Err(InvalidInput);
      }
      var permit := permits.Claim(subject);
      if permit.Err? {
        return Err(permit.error);
      }
      r := RevokePermitted(subject, first, second, loadFault);
      permits.Release(permit.value);
    }

    method RevokePermitted(subject: string, first: bool, second: bool, loadFault: bool) returns (r: Reply)
      modifies this`sent
      ensures (State(), r) == RevokeHolding(old(State()), subject, first, second, loadFault)
    {
      if loadFault {
        return Err(PersistenceFailed);
      }
      if subject !in tokens {
        return Ok(());
      }
      var token := tokens[subject];
      if token == "" || |token| > MAX_REFRESH_TOKEN_LEN {
        return Err(PersistenceFailed);
      }
      sent := sent + [token];
      if first {
        return Ok(());
      }
      sent := sent + [token];
      return if second then Ok(()) else Err(RevokeUnconfirmed);
    }

    /** `delete_stored_tokens`. */
    method DeleteStoredTokens(subject: string, fault: bool) returns (r: Reply)
      requires permits.Valid()
      modifies this, permits
      ensures permits.Valid() && permits.live == old(permits.live) && permits.poisoned == old(permits.poisoned)
      ensures !ValidSubject(subject) ==> r == Err(InvalidInput) && State() == old(State())
      ensures ValidSubject(subject) ==>
        var claim := AfterClaim(old(permits.held), permits.poisoned, subject, DeleteTokens);
        (State(), r) == if claim.pc.Finished? then (old(State()), claim.pc.result)
                        else DeleteHolding(old(State()), subject, fault)
    {
      if !ValidSubject(subject) {
        return Err(InvalidInput);
      }
      var permit := permits.Claim(subject);
      if permit.Err? {
        return Err(permit.error);
      }
      if fault {
        r := Err(PersistenceFailed);
      } else {
        tokens := tokens - {subject};
        r := Ok(());
      }
      permits.Release(permit.value);
    }
  }
}

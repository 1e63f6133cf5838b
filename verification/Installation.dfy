/**
 The refresh-token store of adapters/sync-runtime/src/installation.rs: an account registry
 and one database an account, proved to be the plain map from subject to token that the
 broker assumes.

 `fails` is the set of steps that fail.  No step is rolled back when a later one fails, so
 the state after a failing step is also the state a crash at that step leaves behind.
 */
module Installation {
  import opened Wrappers
  import opened AccountRegistry

  const MAX_STORED_TOKEN_LEN := 4096

  /** The binding row of an account database. */
  datatype AccountDb = AccountDb(subject: Option<string>, token: Option<string>)

  datatype Inst = Inst(entries: seq<Entry>, dirs: map<string, AccountDb>)

  datatype Step =
    | LockAllocation | Find | Capacity | Entropy | OpenNew | BindSubject | RegisterEntry
    | OpenAccount | AccessToken | ListAccounts | DeleteData | Unregister

  datatype Failure = Unavailable | UnknownAccount

  /** `is_valid_refresh_token`. */
  predicate ValidToken(token: string) {
    1 <= |token| <= MAX_STORED_TOKEN_LEN && forall i :: 0 <= i < |token| ==> '!' <= token[i] <= '~'
  }

  // ----- The operations on the state -----

  /** Opening an account's database creates it when it is missing. */
  function Open(inst: Inst, id: string): Inst {
    if id in inst.dirs then inst else inst.(dirs := inst.dirs[id := AccountDb(None, None)])
  }

  function SetToken(inst: Inst, id: string, token: Option<string>): Inst
    requires id in inst.dirs
  {
    inst.(dirs := inst.dirs[id := inst.dirs[id].(token := token)])
  }

  /** `account_for_subject_or_register`; `drawn` is the account id the entropy source would give. */
  function FindOrRegister(inst: Inst, subject: string, drawn: string, fails: set<Step>): (Inst, Option<string>) {
    if LockAllocation in fails || Find in fails then (inst, None)
    else if FindTag(inst.entries, Hmac(subject)).Some? then (inst, FindTag(inst.entries, Hmac(subject)))
    else if Capacity in fails || |inst.entries| >= MAX_ACCOUNTS || Entropy in fails || OpenNew in fails then
      (inst, None)
    else
      var ready := Open(inst, drawn);
      if BindSubject in fails then (ready, None)
      else
        var bound := ready.(dirs := ready.dirs[drawn := ready.dirs[drawn].(subject := Some(subject))]);
        var (entries, r) := Registering(bound.entries, drawn, Hmac(subject), RegisterEntry in fails);
        (bound.(entries := entries), if r.Ok? then Some(drawn) else None)
  }

  function Storing(inst: Inst, subject: string, token: string, drawn: string, fails: set<Step>)
    : (Inst, Result<(), Failure>)
  {
    var (found, account) := FindOrRegister(inst, subject, drawn, fails);
    if account.None? || OpenAccount in fails then (found, Err(Unavailable))
    else
      var ready := Open(found, account.value);
      if !ValidToken(token) || AccessToken in fails then (ready, Err(Unavailable))
      else (SetToken(ready, account.value, Some(token)), Ok(()))
  }

  function Loading(inst: Inst, subject: string, fails: set<Step>): (Inst, Result<Option<string>, Failure>) {
    if Find in fails then (inst, Err(Unavailable))
    else match FindTag(inst.entries, Hmac(subject))
      case None => (inst, Ok(None))
      case Some(id) =>
        if OpenAccount in fails then (inst, Err(Unavailable))
        else
          var ready := Open(inst, id);
          (ready, if AccessToken in fails then Err(Unavailable) else Ok(ready.dirs[id].token))
  }

  function Deleting(inst: Inst, subject: string, fails: set<Step>): (Inst, Result<(), Failure>) {
    if Find in fails then (inst, Err(Unavailable))
    else match FindTag(inst.entries, Hmac(subject))
      case None => (inst, Ok(()))
      case Some(id) =>
        if OpenAccount in fails then (inst, Err(Unavailable))
        else
          var ready := Open(inst, id);
          if AccessToken in fails then (ready, Err(Unavailable)) else (SetToken(ready, id, None), Ok(()))
  }

  /** `remove_account`: data first; `partly` says whether a failing deletion lost the database. */
  function Removing(inst: Inst, id: string, partly: bool, fails: set<Step>): (Inst, Result<(), Failure>) {
    if LockAllocation in fails || ListAccounts in fails then (inst, Err(Unavailable))
    else if !HasId(inst.entries, id) then (inst, Err(UnknownAccount))
    else
      var wiped := inst.(dirs := inst.dirs - {id});
      if DeleteData in fails then (if partly then wiped else inst, Err(Unavailable))
      else if Unregister in fails then (wiped, Err(Unavailable))
      else (wiped.(entries := Without(inst.entries, id)), Ok(()))
  }

  // ----- The store -----

  /** `Installation` together with its `InstallationTokens`. */
  class TokenStore {
    const registry: Registry
    var dirs: map<string, AccountDb>

    ghost predicate Valid()
      reads this, registry
    {
      registry.Valid()
    }

    ghost function State(): Inst
      reads this, registry
    {
      Inst(registry.entries, dirs)
    }

    constructor (registry: Registry)
      requires registry.Valid()
      ensures Valid() && this.registry == registry && dirs == map[]
    {
      this.registry, dirs := registry, map[];
    }

    /** `open_store_unchecked`: creates the directory and the database on first use. */
    method OpenStore(id: string)
      modifies this
      ensures State() == Open(old(State()), id)
    {
      if id !in dirs {
        dirs := dirs[id := AccountDb(None, None)];
      }
    }

    method AccountForSubjectOrRegister(subject: string, drawn: string, fails: set<Step>)
      returns (account: Option<string>)
      requires Valid()
      modifies this, registry
      ensures Valid() && (State(), account) == FindOrRegister(old(State()), subject, drawn, fails)
    {
      if LockAllocation in fails || Find in fails {
        return None;
      }
      account := registry.FindByTag(Hmac(subject));
      if account.Some? {
        return;
      }
      if Capacity in fails {
        return None;
      }
      var ids := registry.Accounts();
      if |ids| >= MAX_ACCOUNTS {
        return None;
      }
      if Entropy in fails || OpenNew in fails {
        return None;
      }
      OpenStore(drawn);
      if BindSubject in fails {
        return None;
      }
      dirs := dirs[drawn := dirs[drawn].(subject := Some(subject))];
      var registered := registry.Register(drawn, Hmac(subject), RegisterEntry in fails);
      account := if registered.Ok? then Some(drawn) else None;
    }

    method StoreToken(subject: string, token: string, drawn: string, fails: set<Step>)
      returns (r: Result<(), Failure>)
      requires Valid()
      modifies this, registry
      ensures Valid() && (State(), r) == Storing(old(State()), subject, token, drawn, fails)
    {
      var account := AccountForSubjectOrRegister(subject, drawn, fails);
      if account.None? || OpenAccount in fails {
        return Err(Unavailable);
      }
      OpenStore(account.value);
      if !ValidToken(token) || AccessToken in fails {
        return Err(Unavailable);
      }
      dirs := dirs[account.value := dirs[account.value].(token := Some(token))];
      return Ok(());
    }

    method LoadToken(subject: string, fails: set<Step>) returns (r: Result<Option<string>, Failure>)
      requires Valid()
      modifies this
      ensures Valid() && (State(), r) == Loading(old(State()), subject, fails)
    {
      if Find in fails {
        return Err(Unavailable);
      }
      var account := registry.FindByTag(Hmac(subject));
      if account.None? {
        return Ok(None);
      }
      if OpenAccount in fails {
        return Err(Unavailable);
      }
      OpenStore(account.value);
      if AccessToken in fails {
        return Err(Unavailable);
      }
      return Ok(dirs[account.value].token);
    }

    method DeleteToken(subject: string, fails: set<Step>) returns (r: Result<(), Failure>)
      requires Valid()
      modifies this
      ensures Valid() && (State(), r) == Deleting(old(State()), subject, fails)
    {
      if Find in fails {
        return Err(Unavailable);
      }
      var account := registry.FindByTag(Hmac(subject));
      if account.None? {
        return Ok(());
      }
      if OpenAccount in fails {
        return Err(Unavailable);
      }
      OpenStore(account.value);
      if AccessToken in fails {
        return Err(Unavailable);
      }
      dirs := dirs[account.value := dirs[account.value].(token := None)];
      return Ok(());
    }

    method RemoveAccount(id: string, partly: bool, fails: set<Step>) returns (r: Result<(), Failure>)
      requires Valid()
      modifies this, registry
      ensures Valid() && (State(), r) == Removing(old(State()), id, partly, fails)
    {
      if LockAllocation in fails || ListAccounts in fails {
        return Err(Unavailable);
      }
      var ids := registry.Accounts();
      ContainsId(registry.entries, ids, id);
      if id !in ids {
        return Err(UnknownAccount);
      }
      if DeleteData in fails {
        if partly {
          dirs := dirs - {id};
        }
        return Err(Unavailable);
      }
      dirs := dirs - {id};
      var removed := registry.Remove(id, Unregister in fails);
      if removed.Err? {
        return Err(Unavailable);
      }
      return Ok(());
    }
  }

  lemma {:induction false} ContainsId(entries: seq<Entry>, ids: seq<string>, id: string)
    requires |ids| == |entries| && forall i :: 0 <= i < |ids| ==> ids[i] == entries[i].id
    ensures id in ids <==> HasId(entries, id)
  {
    if entries != [] {
      assert ids == [ids[0]] + ids[1..];
      assert forall i :: 0 <= i < |ids[1..]| ==> ids[1..][i] == entries[1..][i].id;
      ContainsId(entries[1..], ids[1..], id);
    }
  }

  // ----- The map the broker sees -----

  function TokenOf(inst: Inst, subject: string): Option<string> {
    match FindTag(inst.entries, Hmac(subject))
    case None => None
    case Some(id) => if id in inst.dirs then inst.dirs[id].token else None
  }

  /** One account a subject; a token lives only in a registered account's database. */
  ghost predicate Sound(inst: Inst) {
    && Distinct(inst.entries) && |inst.entries| <= MAX_ACCOUNTS
    && (forall id :: id in inst.dirs && inst.dirs[id].token.Some? ==>
          HasId(inst.entries, id) && ValidToken(inst.dirs[id].token.value))
  }

  /** Two subjects never share an account. */
  lemma {:induction false} SubjectsHaveTheirOwnAccounts(entries: seq<Entry>, s: string, t: string)
    requires Distinct(entries) && s != t && FindTag(entries, Hmac(s)).Some?
    ensures FindTag(entries, Hmac(s)) != FindTag(entries, Hmac(t))
  {
    FoundIsThere(entries[1..], Hmac(s));
    FoundIsThere(entries[1..], Hmac(t));
    if entries[0].tag != Hmac(s) && entries[0].tag != Hmac(t) {
      SubjectsHaveTheirOwnAccounts(entries[1..], s, t);
    }
  }

  lemma {:induction false} FindAfterAppend(entries: seq<Entry>, last: Entry, tag: Tag)
    requires !HasTag(entries, last.tag)
    ensures FindTag(entries + [last], tag) == if tag == last.tag then Some(last.id) else FindTag(entries, tag)
  {
    if entries == [] {
      assert (entries + [last])[1..] == [];
    } else {
      assert (entries + [last])[1..] == entries[1..] + [last];
      FindAfterAppend(entries[1..], last, tag);
    }
  }

  /** Finding or registering an account never changes the map, wherever it stops. */
  lemma FindOrRegisterKeepsMap(inst: Inst, subject: string, drawn: string, fails: set<Step>)
    requires Sound(inst)
    ensures var (after, account) := FindOrRegister(inst, subject, drawn, fails);
      Sound(after) && (forall s :: TokenOf(after, s) == TokenOf(inst, s))
      && (account.Some? ==> FindTag(after.entries, Hmac(subject)) == account && HasId(after.entries, account.value))
  {
    FoundIsThere(inst.entries, Hmac(subject));
    var (after, account) := FindOrRegister(inst, subject, drawn, fails);
    if after.entries != inst.entries {
      NewAccountKeepsMap(inst, after, subject, drawn);
    }
  }

  /**
   Wherever registration stops, a newly registered account has its database, bound to its
   subject; and what it adds on the way is at most that one database.
   */
  lemma NewAccountIsBound(inst: Inst, subject: string, drawn: string, fails: set<Step>)
    ensures var (after, account) := FindOrRegister(inst, subject, drawn, fails);
      && (after.entries != inst.entries ==>
            after.entries == inst.entries + [Entry(drawn, Hmac(subject))] && account == Some(drawn)
            && drawn in after.dirs && after.dirs[drawn].subject == Some(subject))
      && (forall id :: id in after.dirs && id != drawn ==> id in inst.dirs && after.dirs[id] == inst.dirs[id])
      && inst.dirs.Keys <= after.dirs.Keys
  {
    RegistersExactly(inst.entries, drawn, Hmac(subject), RegisterEntry in fails);
  }

  /** A new account has no token of its own. */
  lemma NewAccountKeepsMap(inst: Inst, after: Inst, subject: string, drawn: string)
    requires Sound(inst) && !HasId(inst.entries, drawn) && !HasTag(inst.entries, Hmac(subject))
    requires |inst.entries| < MAX_ACCOUNTS && after.entries == inst.entries + [Entry(drawn, Hmac(subject))]
    requires after.dirs.Keys == inst.dirs.Keys + {drawn}
    requires forall id :: id in after.dirs ==>
      after.dirs[id].token == if id in inst.dirs then inst.dirs[id].token else None
    ensures Sound(after) && HasId(after.entries, drawn) && FindTag(after.entries, Hmac(subject)) == Some(drawn)
    ensures forall s :: TokenOf(after, s) == TokenOf(inst, s)
  {
    DistinctAppend(inst.entries, Entry(drawn, Hmac(subject)));
    forall s
      ensures TokenOf(after, s) == TokenOf(inst, s)
    {
      FindAfterAppend(inst.entries, Entry(drawn, Hmac(subject)), Hmac(s));
      FoundIsThere(inst.entries, Hmac(s));
    }
    FindAfterAppend(inst.entries, Entry(drawn, Hmac(subject)), Hmac(subject));
  }

  /** Main result: a store that succeeds sets one key of the map; a store that fails changes nothing. */
  lemma StoringRefinesMap(inst: Inst, subject: string, token: string, drawn: string, fails: set<Step>, s: string)
    requires Sound(inst)
    ensures var (after, r) := Storing(inst, subject, token, drawn, fails);
      Sound(after)
      && TokenOf(after, s) == if r.Ok? && s == subject then Some(token) else TokenOf(inst, s)
  {
    FindOrRegisterKeepsMap(inst, subject, drawn, fails);
    var (found, account) := FindOrRegister(inst, subject, drawn, fails);
    if account.Some? && s != subject {
      SubjectsHaveTheirOwnAccounts(found.entries, subject, s);
    }
  }

  /** Storing for a known subject succeeds exactly for a printable token of 1 to 4096 bytes when no step fails. */
  lemma KnownSubjectStoresExactly(inst: Inst, subject: string, token: string, drawn: string, fails: set<Step>)
    requires FindTag(inst.entries, Hmac(subject)).Some?
    ensures Storing(inst, subject, token, drawn, fails).1.Ok? <==>
      && fails !! {LockAllocation, Find, OpenAccount, AccessToken}
      && 1 <= |token| <= 4096 && forall i :: 0 <= i < |token| ==> '!' <= token[i] <= '~'
  {
  }

  /** Main result: a load that succeeds answers the map's value, and no load changes the map. */
  lemma LoadingRefinesMap(inst: Inst, subject: string, fails: set<Step>, s: string)
    requires Sound(inst)
    ensures var (after, r) := Loading(inst, subject, fails);
      Sound(after) && TokenOf(after, s) == TokenOf(inst, s)
      && (r.Ok? ==> r.value == TokenOf(inst, subject))
  {
  }

  /** Main result: a delete that succeeds removes one key, present or not. */
  lemma DeletingRefinesMap(inst: Inst, subject: string, fails: set<Step>, s: string)
    requires Sound(inst)
    ensures var (after, r) := Deleting(inst, subject, fails);
      Sound(after)
      && TokenOf(after, s) == if r.Ok? && s == subject then None else TokenOf(inst, s)
  {
    FoundIsThere(inst.entries, Hmac(subject));
    if s != subject && FindTag(inst.entries, Hmac(subject)).Some? {
      SubjectsHaveTheirOwnAccounts(inst.entries, subject, s);
    }
  }

  /** Main result: removing an account removes at most its own key, and when it fails it can be retried. */
  lemma RemovingRefinesMap(inst: Inst, id: string, partly: bool, fails: set<Step>, s: string)
    requires Sound(inst)
    ensures var (after, r) := Removing(inst, id, partly, fails);
      var own := FindTag(inst.entries, Hmac(s)) == Some(id);
      Sound(after)
      && (TokenOf(after, s) == TokenOf(inst, s) || (own && TokenOf(after, s) == None))
      && (r.Ok? && own ==> TokenOf(after, s) == None && FindTag(after.entries, Hmac(s)) == None)
      && (r.Err? ==> after.entries == inst.entries)
  {
    WithoutStaysDistinct(inst.entries, id);
    assert FindTag(Without(inst.entries, id), Hmac(s)) == Unless(FindTag(inst.entries, Hmac(s)), id);
  }

  // ----- The plain map, on its own state -----

  /** The token of each subject, and the account each known subject was given. */
  datatype Plain = Plain(owner: map<string, string>, tokens: map<string, string>)

  datatype Op =
    | Store(subject: string, token: string, drawn: string)
    | Load(subject: string)
    | Delete(subject: string)
    | Remove(id: string, partly: bool)

  datatype Call = Call(op: Op, fails: set<Step>)

  datatype Reply = Done | Loaded(token: Option<string>) | Failed(failure: Failure)

  function Lookup(m: map<string, string>, key: string): Option<string> {
    if key in m then Some(m[key]) else None
  }

  /** Whether a subject can be given the account `drawn` now. */
  predicate CanRegister(plain: Plain, drawn: string, fails: set<Step>) {
    fails !! {Capacity, Entropy, OpenNew, BindSubject, RegisterEntry}
    && |plain.owner| < MAX_ACCOUNTS && drawn !in plain.owner.Values
  }

  /** A store gives its subject an account if it must, then sets its key, or fails. */
  function PlainStore(plain: Plain, subject: string, token: string, drawn: string, fails: set<Step>): (Plain, Reply) {
    if LockAllocation in fails || Find in fails || (subject !in plain.owner && !CanRegister(plain, drawn, fails)) then
      (plain, Failed(Unavailable))
    else
      var known := if subject in plain.owner then plain else plain.(owner := plain.owner[subject := drawn]);
      if OpenAccount in fails || AccessToken in fails || !ValidToken(token) then (known, Failed(Unavailable))
      else (known.(tokens := known.tokens[subject := token]), Done)
  }

  function PlainLoad(plain: Plain, subject: string, fails: set<Step>): Reply {
    if Find in fails then Failed(Unavailable)
    else if subject !in plain.owner then Loaded(None)
    else if OpenAccount in fails || AccessToken in fails then Failed(Unavailable)
    else Loaded(Lookup(plain.tokens, subject))
  }

  function PlainDelete(plain: Plain, subject: string, fails: set<Step>): (Plain, Reply) {
    if Find in fails then (plain, Failed(Unavailable))
    else if subject !in plain.owner then (plain, Done)
    else if OpenAccount in fails || AccessToken in fails then (plain, Failed(Unavailable))
    else (plain.(tokens := plain.tokens - {subject}), Done)
  }

  /** A removal takes the key of the account's subject, then the account. */
  function PlainRemove(plain: Plain, id: string, partly: bool, fails: set<Step>): (Plain, Reply) {
    if LockAllocation in fails || ListAccounts in fails then (plain, Failed(Unavailable))
    else if id !in plain.owner.Values then (plain, Failed(UnknownAccount))
    else
      var subjects := set s | s in plain.owner && plain.owner[s] == id;
      var wiped := plain.(tokens := plain.tokens - subjects);
      if DeleteData in fails then (if partly then wiped else plain, Failed(Unavailable))
      else if Unregister in fails then (wiped, Failed(Unavailable))
      else (wiped.(owner := plain.owner - subjects), Done)
  }

  function PlainStep(plain: Plain, call: Call): (Plain, Reply) {
    match call.op
    case Store(subject, token, drawn) => PlainStore(plain, subject, token, drawn, call.fails)
    case Load(subject) => (plain, PlainLoad(plain, subject, call.fails))
    case Delete(subject) => PlainDelete(plain, subject, call.fails)
    case Remove(id, partly) => PlainRemove(plain, id, partly, call.fails)
  }

  function PlainRun(plain: Plain, calls: seq<Call>): seq<Reply>
    decreases |calls|
  {
    if calls == [] then []
    else var (next, reply) := PlainStep(plain, calls[0]); [reply] + PlainRun(next, calls[1..])
  }

  // ----- The composite answers as the plain map does -----

  function ReplyOf(r: Result<(), Failure>): Reply {
    match r
    case Ok(_) => Done
    case Err(failure) => Failed(failure)
  }

  function Perform(inst: Inst, call: Call): (Inst, Reply) {
    match call.op
    case Store(subject, token, drawn) =>
      var (after, r) := Storing(inst, subject, token, drawn, call.fails); (after, ReplyOf(r))
    case Load(subject) =>
      var (after, r) := Loading(inst, subject, call.fails);
      (after, match r case Ok(token) => Loaded(token) case Err(failure) => Failed(failure))
    case Delete(subject) => var (after, r) := Deleting(inst, subject, call.fails); (after, ReplyOf(r))
    case Remove(id, partly) => var (after, r) := Removing(inst, id, partly, call.fails); (after, ReplyOf(r))
  }

  function Replies(inst: Inst, calls: seq<Call>): seq<Reply>
    decreases |calls|
  {
    if calls == [] then []
    else var (next, reply) := Perform(inst, calls[0]); [reply] + Replies(next, calls[1..])
  }

  ghost predicate SameAccounts(entries: seq<Entry>, owner: map<string, string>) {
    && |entries| == |owner|
    && (forall s :: FindTag(entries, Hmac(s)) == Lookup(owner, s))
    && (forall id :: HasId(entries, id) <==> id in owner.Values)
  }

  /** The installation stands for the plain map. */
  ghost predicate Refines(inst: Inst, plain: Plain) {
    && Sound(inst) && SameAccounts(inst.entries, plain.owner)
    && (forall s :: TokenOf(inst, s) == Lookup(plain.tokens, s))
  }

  lemma StoreRefines(inst: Inst, plain: Plain, subject: string, token: string, drawn: string, fails: set<Step>)
    requires Refines(inst, plain)
    ensures var (after, r) := Storing(inst, subject, token, drawn, fails);
      var (next, reply) := PlainStore(plain, subject, token, drawn, fails);
      Refines(after, next) && ReplyOf(r) == reply
  {
    var (found, account) := FindOrRegister(inst, subject, drawn, fails);
    FindOrRegisterKeepsMap(inst, subject, drawn, fails);
    FindOrRegisterRefines(inst, plain, subject, drawn, fails);
    var (after, r) := Storing(inst, subject, token, drawn, fails);
    assert after.entries == found.entries;
    StoreTokens(inst, plain, subject, token, drawn, fails);
  }

  lemma StoreTokens(inst: Inst, plain: Plain, subject: string, token: string, drawn: string, fails: set<Step>)
    requires Refines(inst, plain)
    ensures var (after, r) := Storing(inst, subject, token, drawn, fails);
      var tokens := if r.Ok? then plain.tokens[subject := token] else plain.tokens;
      Sound(after) && forall s :: TokenOf(after, s) == Lookup(tokens, s)
  {
    StoringRefinesMap(inst, subject, token, drawn, fails, subject);
    var (after, r) := Storing(inst, subject, token, drawn, fails);
    forall s
      ensures TokenOf(after, s) == if r.Ok? && s == subject then Some(token) else Lookup(plain.tokens, s)
    {
      StoringRefinesMap(inst, subject, token, drawn, fails, s);
      assert TokenOf(inst, s) == Lookup(plain.tokens, s);
    }
  }

  lemma FindOrRegisterRefines(inst: Inst, plain: Plain, subject: string, drawn: string, fails: set<Step>)
    requires Refines(inst, plain)
    ensures var (found, account) := FindOrRegister(inst, subject, drawn, fails);
      && (account.None? <==>
            LockAllocation in fails || Find in fails
            || (subject !in plain.owner && !CanRegister(plain, drawn, fails)))
      && SameAccounts(found.entries,
                      if account.Some? && subject !in plain.owner then plain.owner[subject := drawn] else plain.owner)
  {
    FoundIsThere(inst.entries, Hmac(subject));
    assert FindTag(inst.entries, Hmac(subject)) == Lookup(plain.owner, subject);
    var (found, account) := FindOrRegister(inst, subject, drawn, fails);
    if account.Some? && subject !in plain.owner {
      AppendedAccounts(inst.entries, plain.owner, subject, drawn);
    }
  }

  lemma AppendedAccounts(entries: seq<Entry>, owner: map<string, string>, subject: string, drawn: string)
    requires SameAccounts(entries, owner) && Distinct(entries) && subject !in owner
    requires !HasId(entries, drawn) && !HasTag(entries, Hmac(subject))
    ensures SameAccounts(entries + [Entry(drawn, Hmac(subject))], owner[subject := drawn])
  {
    var last := Entry(drawn, Hmac(subject));
    var grown := owner[subject := drawn];
    forall s
      ensures FindTag(entries + [last], Hmac(s)) == Lookup(grown, s)
    {
      FindAfterAppend(entries, last, Hmac(s));
      assert FindTag(entries, Hmac(s)) == Lookup(owner, s);
    }
    forall id
      ensures HasId(entries + [last], id) <==> id in grown.Values
    {
      DistinctAppend(entries, last);
      GrownValues(owner, subject, drawn, id);
      assert HasId(entries, id) <==> id in owner.Values;
    }
  }

  lemma GrownValues(owner: map<string, string>, subject: string, drawn: string, id: string)
    requires subject !in owner
    ensures id in owner[subject := drawn].Values <==> id in owner.Values || id == drawn
  {
    var grown := owner[subject := drawn];
    assert grown[subject] == drawn;
    if id in owner.Values {
      var s :| s in owner && owner[s] == id;
      assert grown[s] == id;
    }
  }

  lemma DeleteRefines(inst: Inst, plain: Plain, subject: string, fails: set<Step>)
    requires Refines(inst, plain)
    ensures var (after, r) := Deleting(inst, subject, fails);
      var (next, reply) := PlainDelete(plain, subject, fails);
      Refines(after, next) && ReplyOf(r) == reply
  {
    var (after, r) := Deleting(inst, subject, fails);
    assert after.entries == inst.entries && FindTag(inst.entries, Hmac(subject)) == Lookup(plain.owner, subject);
    forall s
      ensures Sound(after) && TokenOf(after, s) == if r.Ok? && s == subject then None else TokenOf(inst, s)
    {
      DeletingRefinesMap(inst, subject, fails, s);
    }
    if subject !in plain.owner {
      assert Lookup(plain.tokens, subject) == TokenOf(inst, subject) == None;
    }
  }

  lemma LoadRefines(inst: Inst, plain: Plain, subject: string, fails: set<Step>)
    requires Refines(inst, plain)
    ensures var (after, r) := Loading(inst, subject, fails);
      && Refines(after, plain)
      && (match r case Ok(token) => Loaded(token) case Err(failure) => Failed(failure))
         == PlainLoad(plain, subject, fails)
  {
    var (after, r) := Loading(inst, subject, fails);
    assert after.entries == inst.entries && FindTag(inst.entries, Hmac(subject)) == Lookup(plain.owner, subject);
    forall s
      ensures Sound(after) && TokenOf(after, s) == TokenOf(inst, s)
      ensures r.Ok? ==> r.value == TokenOf(inst, subject)
    {
      LoadingRefinesMap(inst, subject, fails, s);
    }
    assert TokenOf(inst, subject) == Lookup(plain.tokens, subject);
  }

  lemma {:induction false} WithoutCount(entries: seq<Entry>, id: string)
    requires Distinct(entries)
    ensures |Without(entries, id)| == |entries| - (if HasId(entries, id) then 1 else 0)
  {
    if entries != [] {
      WithoutCount(entries[1..], id);
    }
  }

  /** Each account belongs to one subject, so removing it removes that subject only. */
  lemma RemovedAccounts(entries: seq<Entry>, owner: map<string, string>, id: string)
    requires SameAccounts(entries, owner) && Distinct(entries) && HasId(entries, id)
    ensures var subjects := set s | s in owner && owner[s] == id;
      SameAccounts(Without(entries, id), owner - subjects)
  {
    var subjects := set s | s in owner && owner[s] == id;
    var subject :| subject in owner && owner[subject] == id;
    forall s | s in subjects
      ensures s == subject
    {
      assert FindTag(entries, Hmac(s)) == Some(id) && FindTag(entries, Hmac(subject)) == Some(id);
      if s != subject {
        SubjectsHaveTheirOwnAccounts(entries, s, subject);
      }
    }
    assert subjects == {subject};
    WithoutCount(entries, id);
    WithoutStaysDistinct(entries, id);
    assert (owner - subjects).Keys == owner.Keys - {subject};
    assert |owner - subjects| == |owner| - 1;
    forall s
      ensures FindTag(Without(entries, id), Hmac(s)) == Lookup(owner - subjects, s)
    {
      assert FindTag(Without(entries, id), Hmac(s)) == Unless(FindTag(entries, Hmac(s)), id);
    }
    forall other
      ensures HasId(Without(entries, id), other) <==> other in (owner - subjects).Values
    {
      if other in owner.Values && other != id {
        var s :| s in owner && owner[s] == other;
        assert s in owner - subjects;
      }
    }
  }

  lemma RemoveRefines(inst: Inst, plain: Plain, id: string, partly: bool, fails: set<Step>)
    requires Refines(inst, plain)
    ensures var (after, r) := Removing(inst, id, partly, fails);
      var (next, reply) := PlainRemove(plain, id, partly, fails);
      Refines(after, next) && ReplyOf(r) == reply
  {
    if HasId(inst.entries, id) {
      RemovedAccounts(inst.entries, plain.owner, id);
    }
    RemovingRefinesMap(inst, id, partly, fails, "");
    forall s
      ensures TokenOf(Removing(inst, id, partly, fails).0, s)
        == Lookup(PlainRemove(plain, id, partly, fails).0.tokens, s)
    {
      RemovedToken(inst, plain, id, partly, fails, s);
    }
  }

  lemma RemovedToken(inst: Inst, plain: Plain, id: string, partly: bool, fails: set<Step>, s: string)
    requires Refines(inst, plain)
    ensures TokenOf(Removing(inst, id, partly, fails).0, s)
      == Lookup(PlainRemove(plain, id, partly, fails).0.tokens, s)
  {
    WipedToken(inst, plain, id, s);
    assert TokenOf(inst, s) == Lookup(plain.tokens, s);
    assert HasId(inst.entries, id) <==> id in plain.owner.Values;
  }

  /** Without the account's database its subject has no token, whether or not it is still registered. */
  lemma WipedToken(inst: Inst, plain: Plain, id: string, s: string)
    requires Refines(inst, plain)
    ensures var wiped := inst.(dirs := inst.dirs - {id});
      var tokens := plain.tokens - set t | t in plain.owner && plain.owner[t] == id;
      && TokenOf(wiped, s) == Lookup(tokens, s)
      && TokenOf(wiped.(entries := Without(inst.entries, id)), s) == Lookup(tokens, s)
  {
    WithoutStaysDistinct(inst.entries, id);
    assert FindTag(Without(inst.entries, id), Hmac(s)) == Unless(FindTag(inst.entries, Hmac(s)), id);
    assert FindTag(inst.entries, Hmac(s)) == Lookup(plain.owner, s) && TokenOf(inst, s) == Lookup(plain.tokens, s);
  }

  lemma StepRefines(inst: Inst, plain: Plain, call: Call)
    requires Refines(inst, plain)
    ensures Refines(Perform(inst, call).0, PlainStep(plain, call).0)
    ensures Perform(inst, call).1 == PlainStep(plain, call).1
  {
    match call.op
    case Store(subject, token, drawn) => StoreRefines(inst, plain, subject, token, drawn, call.fails);
    case Load(subject) => LoadRefines(inst, plain, subject, call.fails);
    case Delete(subject) => DeleteRefines(inst, plain, subject, call.fails);
    case Remove(id, partly) => RemoveRefines(inst, plain, id, partly, call.fails);
  }

  /**
   Main result: over any sequence of calls and failures the composite of registry and
   databases gives every answer that the plain map gives.
   */
  lemma {:induction false} InstallationIsAMap(inst: Inst, plain: Plain, calls: seq<Call>)
    requires Refines(inst, plain)
    ensures Replies(inst, calls) == PlainRun(plain, calls)
    decreases |calls|
  {
    if calls != [] {
      StepRefines(inst, plain, calls[0]);
      InstallationIsAMap(Perform(inst, calls[0]).0, PlainStep(plain, calls[0]).0, calls[1..]);
    }
  }

  /** A new installation is the empty map. */
  lemma NewInstallationIsEmpty(calls: seq<Call>)
    ensures Replies(Inst([], map[]), calls) == PlainRun(Plain(map[], map[]), calls)
  {
    InstallationIsAMap(Inst([], map[]), Plain(map[], map[]), calls);
  }
}

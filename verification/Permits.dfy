/**
 Single-flight permits of adapters/token-broker-core/src/permits.rs: at most one live guard
 a subject, at most 32 in all, released when the guard drops.
 */
module Permits {
  import opened Wrappers
  import opened Sets
  import opened BrokerErrors

  const MAX_SUBJECT_PERMITS := 32

  /** The guard; dropping it is `SubjectPermits.Release`. */
  class SubjectPermit {
    const subject: string

    constructor (subject: string)
      ensures this.subject == subject
    {
      this.subject := subject;
    }
  }

  /** The shared set.  `live` is the guards handed out and not yet dropped. */
  class SubjectPermits {
    var held: set<string>
    var poisoned: bool
    ghost var live: set<SubjectPermit>

    ghost predicate Valid()
      reads this
    {
      && held == (set p | p in live :: p.subject)
      && (forall p, q :: p in live && q in live && p.subject == q.subject ==> p == q)
      && |held| <= MAX_SUBJECT_PERMITS
    }

    constructor ()
      ensures Valid() && live == {} && !poisoned
    {
      held, poisoned, live := {}, false, {};
    }

    /** `claim`: never waits, and trusts no poisoned set. */
    method Claim(subject: string) returns (r: Result<SubjectPermit, BrokerError>)
      requires Valid()
      modifies this
      ensures Valid() && poisoned == old(poisoned)
      ensures r == Err(Unavailable) <==> poisoned
      ensures r == Err(Busy) <==> !poisoned && (subject in old(held) || |old(held)| >= 32)
      ensures r.Err? ==> r.error in {Unavailable, Busy} && held == old(held) && live == old(live)
      ensures r.Ok? ==> fresh(r.value) && r.value.subject == subject && live == old(live) + {r.value}
    {
      if poisoned {
        return Err(Unavailable);
      }
      if subject in held || |held| >= MAX_SUBJECT_PERMITS {
        return Err(Busy);
      }
      held := held + {subject};
      var permit := new SubjectPermit(subject);
      live := live + {permit};
      return Ok(permit);
    }

    /** A guard's drop: it frees its slot even through a poisoned lock. */
    method Release(permit: SubjectPermit)
      requires Valid() && permit in live
      modifies this
      ensures Valid() && poisoned == old(poisoned)
      ensures live == old(live) - {permit} && held == old(held) - {permit.subject}
    {
      held := held - {permit.subject};
      live := live - {permit};
      SubsetCount(held, old(held));
    }

    /** Another thread panics while it holds the lock. */
    method Poison()
      requires Valid()
      modifies this`poisoned
      ensures Valid() && poisoned
    {
      poisoned := true;
    }

    /** The slots in use are counted exactly by the live guards; with no guard the set is empty. */
    lemma SlotsAreGuards()
      requires Valid()
      ensures |live| == |held| <= 32
      ensures live == {} <==> held == {}
    {
      SameCount(live, held);
      if live != {} {
        var p :| p in live;
        assert p.subject in held;
      }
    }
  }

  lemma {:induction false} SameCount(guards: set<SubjectPermit>, subjects: set<string>)
    requires subjects == (set p | p in guards :: p.subject)
    requires forall p, q :: p in guards && q in guards && p.subject == q.subject ==> p == q
    ensures |guards| == |subjects|
    decreases guards
  {
    if guards != {} {
      var p :| p in guards;
      assert (set q | q in guards - {p} :: q.subject) == subjects - {p.subject};
      SameCount(guards - {p}, subjects - {p.subject});
    }
  }
}

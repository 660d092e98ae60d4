/**
 * The two bolt buckets of access.go as values, and each exported registry
 * operation as one read-modify-write step over them. `pending` is the
 * `__apiPending` bucket (only key presence matters), `active` the
 * `__apiAccess` bucket (key to stored grant record).
 */
module Registry {
  import opened AccessTypes

  datatype Buckets = Buckets(pending: set<string>, active: map<string, Record>)

  /** The error value an operation returns and the buckets it leaves behind. */
  datatype Step = Step(out: Outcome, next: Buckets)

  /** No key is both pending and active. */
  predicate Disjoint(b: Buckets) {
    b.pending !! b.active.Keys
  }

  /**
   * Check as written: the result of the active-bucket lookup is overwritten by
   * the pending-bucket lookup, so only `pending` decides.
   */
  function Check(b: Buckets, key: string): (r: Outcome)
    ensures r.Pass? <==> key != "" && key !in b.pending
    ensures key == "" ==> r == Fail(EmptyKey)
    ensures key != "" && r.Fail? ==> r == Fail(AlreadyPending)
  {
    if key == "" then Fail(EmptyKey)
    else
      var activeLookup := if key in b.active then Fail(ActiveInUse) else Pass;
      var pendingLookup := if key in b.pending then Fail(AlreadyPending) else Pass;
      pendingLookup
  }

  /** Pending reserves a key; it never consults the active bucket. */
  function Pending(b: Buckets, key: string): (s: Step)
    ensures s.out.Pass? <==> key != "" && key !in b.pending
    ensures key == "" ==> s.out == Fail(EmptyKey)
    ensures key != "" && s.out.Fail? ==> s.out == Fail(AlreadyPending)
    ensures s.out.Pass? ==> s.next == Buckets(b.pending + {key}, b.active)
    ensures s.out.Fail? ==> s.next == b
  {
    if key == "" then Step(Fail(EmptyKey), b)
    else if key in b.pending then Step(Fail(AlreadyPending), b)
    else Step(Pass, b.(pending := b.pending + {key}))
  }

  /** ClearPending deletes a key from the pending bucket if it is there. */
  function ClearPending(b: Buckets, key: string): (s: Step)
    ensures key == "" ==> s == Step(Fail(EmptyKey), b)
    ensures key != "" ==> s.out == Pass && s.next.active == b.active
    ensures key != "" ==> key !in s.next.pending
    ensures forall k :: k != key ==> (k in s.next.pending <==> k in b.pending)
  {
    if key == "" then Step(Fail(EmptyKey), b)
    else if key in b.pending then Step(Pass, b.(pending := b.pending - {key}))
    else Step(Pass, b)
  }

  /** ClearGrant deletes a key from the active bucket if it is there. */
  function ClearGrant(b: Buckets, key: string): (s: Step)
    ensures key == "" ==> s == Step(Fail(EmptyKey), b)
    ensures key != "" ==> s.out == Pass && s.next.pending == b.pending
    ensures key != "" ==> key !in s.next.active
    ensures forall k :: k != key ==> (k in s.next.active <==> k in b.active)
    ensures forall k :: k != key && k in b.active ==> s.next.active[k] == b.active[k]
  {
    if key == "" then Step(Fail(EmptyKey), b)
    else if key in b.active then Step(Pass, b.(active := b.active - {key}))
    else Step(Pass, b)
  }

  /**
   * updateGrant: decode the stored grant and ask the password collaborator
   * whether `password` matches it. A missing grant decodes to an error.
   */
  function UpdateGrant(b: Buckets, key: string, password: string,
                       verify: (Record, string) -> bool): (r: Outcome)
    ensures r.Pass? <==> key in b.active && verify(b.active[key], password)
    ensures key !in b.active ==> r == Fail(GrantUnreadable)
    ensures key in b.active && r.Fail? ==> r == Fail(Unauthorized)
  {
    if key !in b.active then Fail(GrantUnreadable)
    else if verify(b.active[key], password) then Pass
    else Fail(Unauthorized)
  }

  /**
   * The two bucket transactions of Grant, after the token has been issued.
   * The first stores `rec` unless an existing grant rejects the password; its
   * error is then overwritten by the second, which clears the pending entry,
   * so the step always passes.
   */
  function GrantCommit(b: Buckets, rec: Record, password: string,
                       verify: (Record, string) -> bool): (s: Step)
    ensures s.out == Pass
    ensures s.next.pending == b.pending - {rec.email}
    ensures rec.email in s.next.active
    ensures s.next.active ==
      if rec.email !in b.active || verify(b.active[rec.email], password)
      then b.active[rec.email := rec] else b.active
  {
    var updateTx :=
      if rec.email in b.active && UpdateGrant(b, rec.email, password, verify).Fail?
      then Fail(UpdateFailed(UpdateGrant(b, rec.email, password, verify).error))
      else Pass;
    var active := if updateTx.Pass? then b.active[rec.email := rec] else b.active;
    var pendingTx := Pass;
    Step(pendingTx, Buckets(b.pending - {rec.email}, active))
  }

  /** The bucket transaction of Login: the key must hold a grant that accepts the password. */
  function LoginLookup(b: Buckets, key: string, password: string,
                       verify: (Record, string) -> bool): (r: Outcome)
    ensures r.Pass? <==> key in b.active && verify(b.active[key], password)
    ensures key !in b.active ==> r == Fail(NotAuthorized)
    ensures key in b.active && r.Fail? ==> r == Fail(UpdateFailed(Unauthorized))
  {
    if key in b.active then
      var u := UpdateGrant(b, key, password, verify);
      if u.Fail? then Fail(UpdateFailed(u.error)) else Pass
    else Fail(NotAuthorized)
  }

  // ---------------------------------------------------------------------------
  // Properties of single steps and of sequences of steps
  // ---------------------------------------------------------------------------

  lemma ClearPendingIdempotent(b: Buckets, key: string)
    ensures ClearPending(ClearPending(b, key).next, key) == ClearPending(b, key)
  {
  }

  lemma ClearGrantIdempotent(b: Buckets, key: string)
    ensures ClearGrant(ClearGrant(b, key).next, key) == ClearGrant(b, key)
  {
  }

  /** A second reservation of the same key fails and changes nothing. */
  lemma PendingTwiceFails(b: Buckets, key: string)
    requires key != ""
    ensures var once := Pending(b, key).next;
            Pending(once, key) == Step(Fail(AlreadyPending), once)
  {
  }

  /** Neither Check nor Pending depends on the active bucket. */
  lemma CheckAndPendingIgnoreActive(p: set<string>, a1: map<string, Record>,
                                    a2: map<string, Record>, key: string)
    ensures Check(Buckets(p, a1), key) == Check(Buckets(p, a2), key)
    ensures Pending(Buckets(p, a1), key).out == Pending(Buckets(p, a2), key).out
  {
  }

  /** Deletions and Grant keep pending and active apart. */
  lemma ClearsAndGrantKeepDisjoint(b: Buckets, key: string, rec: Record, password: string,
                                   verify: (Record, string) -> bool)
    requires Disjoint(b)
    ensures Disjoint(ClearPending(b, key).next)
    ensures Disjoint(ClearGrant(b, key).next)
    ensures Disjoint(GrantCommit(b, rec, password, verify).next)
  {
  }

  /** A stored record is only ever replaced by a password the old one accepts. */
  lemma GrantReplacesOnlyVerified(b: Buckets, rec: Record, password: string,
                                  verify: (Record, string) -> bool)
    requires rec.email in b.active
    requires GrantCommit(b, rec, password, verify).next.active[rec.email] != b.active[rec.email]
    ensures verify(b.active[rec.email], password)
  {
  }

  /** Registration flow: reserve, then grant; the key ends active and no longer pending. */
  lemma ReserveThenGrant(b: Buckets, rec: Record, password: string,
                         verify: (Record, string) -> bool)
    requires rec.email != "" && rec.email !in b.pending && rec.email !in b.active
    ensures var reserved := Pending(b, rec.email);
            var granted := GrantCommit(reserved.next, rec, password, verify).next;
            reserved.out == Pass && rec.email !in granted.pending
            && rec.email in granted.active && granted.active[rec.email] == rec
  {
  }

  /** Revoking a grant makes its key available to Check again. */
  lemma RevokeThenCheck(b: Buckets, rec: Record, password: string,
                        verify: (Record, string) -> bool)
    requires rec.email != ""
    ensures var granted := GrantCommit(b, rec, password, verify).next;
            Check(ClearGrant(granted, rec.email).next, rec.email) == Pass
  {
  }

  /**
   * The same sequence against the intended Check: the grant makes the key
   * ActiveInUse, and revoking it makes the key available again. (The
   * as-written Check passes at both points, since it ignores `active`.)
   */
  lemma RevokeThenCheckIntended(b: Buckets, rec: Record, password: string,
                                verify: (Record, string) -> bool)
    requires rec.email != ""
    ensures var granted := GrantCommit(b, rec, password, verify).next;
            CheckIntended(granted, rec.email) == Fail(ActiveInUse)
            && CheckIntended(ClearGrant(granted, rec.email).next, rec.email) == Pass
  {
  }

  /** Login against a key that holds no grant fails for every password. */
  lemma LoginUnknownKey(b: Buckets, key: string, password: string,
                        verify: (Record, string) -> bool)
    requires key !in b.active
    ensures LoginLookup(b, key, password, verify) == Fail(NotAuthorized)
  {
  }

  // ---------------------------------------------------------------------------
  // Finding 1: Check lets an active key through (access.go:175-188)
  // ---------------------------------------------------------------------------

  /**
   * As written, Check followed by Pending admits a key that already holds a
   * grant, after which the key is both active and pending.
   */
  lemma CheckThenPendingBreaksDisjoint(b: Buckets, key: string)
    requires key != "" && key in b.active && key !in b.pending
    ensures Check(b, key) == Pass
    ensures Pending(b, key).out == Pass
    ensures !Disjoint(Pending(b, key).next)
  {
    assert key in Pending(b, key).next.pending;
  }

  /** Check as its doc comment describes it: either bucket holding the key is an error. */
  function CheckIntended(b: Buckets, key: string): (r: Outcome)
    ensures r.Pass? <==> key != "" && key !in b.pending && key !in b.active
    ensures key != "" && key in b.active ==> r == Fail(ActiveInUse)
  {
    if key == "" then Fail(EmptyKey)
    else if key in b.active then Fail(ActiveInUse)
    else if key in b.pending then Fail(AlreadyPending)
    else Pass
  }

  /** With the intended Check guarding Pending, the buckets stay disjoint. */
  lemma CheckIntendedThenPendingKeepsDisjoint(b: Buckets, key: string)
    requires Disjoint(b)
    requires CheckIntended(b, key) == Pass
    ensures Pending(b, key).out == Pass
    ensures Disjoint(Pending(b, key).next)
  {
  }

  // ---------------------------------------------------------------------------
  // Finding 2: Grant reports success when the password is rejected (access.go:77-98)
  // ---------------------------------------------------------------------------

  /**
   * As written, a Grant over an existing key with a wrong password keeps the old
   * record but still passes, so the caller receives the token already issued.
   */
  lemma GrantOverwritesDenial(b: Buckets, rec: Record, password: string,
                              verify: (Record, string) -> bool)
    requires rec.email in b.active && !verify(b.active[rec.email], password)
    ensures GrantCommit(b, rec, password, verify).out == Pass
    ensures GrantCommit(b, rec, password, verify).next.active == b.active
  {
  }

  /** Grant's transactions with the first transaction's error returned, as its doc comment promises. */
  function GrantCommitIntended(b: Buckets, rec: Record, password: string,
                               verify: (Record, string) -> bool): (s: Step)
    ensures s.out.Pass? <==> rec.email !in b.active || verify(b.active[rec.email], password)
    ensures s.out.Pass? ==> s.next == Buckets(b.pending - {rec.email}, b.active[rec.email := rec])
    ensures s.out.Fail? ==> s.next == b && s.out == Fail(UpdateFailed(Unauthorized))
  {
    if rec.email in b.active && UpdateGrant(b, rec.email, password, verify).Fail? then
      Step(Fail(UpdateFailed(UpdateGrant(b, rec.email, password, verify).error)), b)
    else
      Step(Pass, Buckets(b.pending - {rec.email}, b.active[rec.email := rec]))
  }

  /** The intended Grant passes exactly when the stored grant, if any, accepts the password. */
  lemma GrantIntendedFailsOnDenial(b: Buckets, rec: Record, password: string,
                                   verify: (Record, string) -> bool)
    requires rec.email in b.active && !verify(b.active[rec.email], password)
    ensures GrantCommitIntended(b, rec, password, verify) == Step(Fail(UpdateFailed(Unauthorized)), b)
  {
  }
}

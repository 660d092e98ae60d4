/**
 * The exported registry functions of access.go as methods of the store that
 * holds the two buckets. Each method performs its bucket transactions in
 * place and is proved against the matching step of module Registry.
 */
module Access {
  import opened AccessTypes
  import Registry
  import Issue
  import Tokens

  /**
   * The collaborators the core calls but does not define: user.New (derive),
   * user.IsUser (verify) and jwt.New (sign).
   */
  datatype Collaborators = Collaborators(
    derive: (string, string) -> Option<Credentials>,
    verify: (Record, string) -> bool,
    sign: map<string, Value> -> Option<string>)

  /** The grant record user.New produces for a key; it never holds a token. */
  function Derived(key: string, password: string, c: Collaborators): Option<Record> {
    match c.derive(key, password)
    case None => None
    case Some(cred) => Some(Record(key, cred.hash, cred.salt))
  }

  /** Grant and Login get past validation and derivation, up to the call of setToken. */
  predicate Derives(key: string, password: string, c: Collaborators) {
    key != "" && password != "" && Derived(key, password, c).Some?
  }

  /** Grant and Login get past validation, derivation and token issuance. */
  predicate Proceeds(key: string, password: string, now: int, cfg: Issue.Config, c: Collaborators) {
    Derives(key, password, c) && Issue.Issues(key, now, cfg, c.sign)
  }

  /**
   * As written, Login issues the token before it looks the key up: when the
   * lookup fails, the response already carries a signed token whose `access`
   * claim is the key, and the client reads it back as its next request.
   */
  lemma FailedLoginStillIssues(b: Registry.Buckets, key: string, password: string, now: int,
                               cfg: Issue.Config, c: Collaborators, remoteAddr: string)
    requires Proceeds(key, password, now, cfg, c)
    requires Registry.LoginLookup(b, key, password, c.verify).Fail?
    ensures var emits := Issue.IssueEmits(key, now, cfg, c.sign);
            var token := Issue.Signed(key, now, cfg, c.sign).value;
            |emits| == 1
            && Tokens.GetToken(Issue.Replay(emits[0], remoteAddr), cfg.tokenStore) == Ok(token)
            && c.sign(Issue.TokenClaims(key, Issue.ExpiresAt(now, cfg), cfg.customClaims)) == Some(token)
            && Issue.TokenClaims(key, Issue.ExpiresAt(now, cfg), cfg.customClaims)[ACCESS_CLAIM] == Str(key)
  {
    Issue.IssuedTokenReadsBack(key, now, cfg, c.sign, remoteAddr);
  }

  /**
   * Login as written, run on a store where the lookup fails: Login returns an
   * error, yet the response has gained exactly one emission, and the client's
   * next request carrying it yields the token signed for the key.
   */
  method FailedLoginWritesToken(s: Store, key: string, password: string, cfg: Issue.Config,
                                now: int, c: Collaborators, remoteAddr: string)
    returns (r: Result<Issue.APIAccess>)
    requires Proceeds(key, password, now, cfg, c)
    requires Registry.LoginLookup(s.Snapshot(), key, password, c.verify).Fail?
    modifies cfg.writer
    ensures r.Err? && r.error == Registry.LoginLookup(s.Snapshot(), key, password, c.verify).error
    ensures |cfg.writer.emitted| == |old(cfg.writer.emitted)| + 1
    ensures Tokens.GetToken(Issue.Replay(cfg.writer.emitted[|cfg.writer.emitted| - 1], remoteAddr),
                            cfg.tokenStore)
            == Ok(Issue.Signed(key, now, cfg, c.sign).value)
  {
    r := s.Login(key, password, cfg, now, c);
    Issue.IssuedTokenReadsBack(key, now, cfg, c.sign, remoteAddr);
  }

  /** The `__apiPending` and `__apiAccess` buckets. */
  class Store {
    var pending: set<string>
    var active: map<string, Record>

    constructor ()
      ensures pending == {} && active == map[]
    {
      pending, active := {}, map[];
    }

    function Snapshot(): Registry.Buckets
      reads this
    {
      Registry.Buckets(pending, active)
    }

    /** Check: two read-only transactions; the first one's result is overwritten. */
    method Check(key: string) returns (r: Outcome)
      ensures r == Registry.Check(Snapshot(), key)
    {
      if key == "" {
        return Fail(EmptyKey);
      }
      r := if key in active then Fail(ActiveInUse) else Pass;
      r := if key in pending then Fail(AlreadyPending) else Pass;
    }

    /** Pending: reserve `key` unless it is already pending. */
    method Pending(key: string) returns (r: Outcome)
      modifies this`pending
      ensures Registry.Step(r, Snapshot()) == Registry.Pending(old(Snapshot()), key)
    {
      if key == "" {
        return Fail(EmptyKey);
      }
      if key in pending {
        return Fail(AlreadyPending);
      }
      pending := pending + {key};
      r := Pass;
    }

    /** ClearPending: delete `key` from the pending bucket when it is there. */
    method ClearPending(key: string) returns (r: Outcome)
      modifies this`pending
      ensures Registry.Step(r, Snapshot()) == Registry.ClearPending(old(Snapshot()), key)
    {
      if key == "" {
        return Fail(EmptyKey);
      }
      if key in pending {
        pending := pending - {key};
      }
      r := Pass;
    }

    /** ClearGrant: delete `key` from the active bucket when it is there. */
    method ClearGrant(key: string) returns (r: Outcome)
      modifies this`active
      ensures Registry.Step(r, Snapshot()) == Registry.ClearGrant(old(Snapshot()), key)
    {
      if key == "" {
        return Fail(EmptyKey);
      }
      if key in active {
        active := active - {key};
      }
      r := Pass;
    }

    /** updateGrant: a read-only check of `password` against the stored grant. */
    method UpdateGrant(key: string, password: string, verify: (Record, string) -> bool)
      returns (r: Outcome)
      ensures r == Registry.UpdateGrant(Snapshot(), key, password, verify)
    {
      if key !in active {
        return Fail(GrantUnreadable);
      }
      var stored := active[key];
      if !verify(stored, password) {
        return Fail(Unauthorized);
      }
      r := Pass;
    }

    /**
     * Grant: validate, derive the record, issue the token, then run the two
     * bucket transactions of Registry.GrantCommit. The first transaction's
     * error is overwritten, so once the token is issued Grant succeeds.
     */
    method Grant(key: string, password: string, cfg: Issue.Config, now: int, c: Collaborators)
      returns (r: Result<Issue.APIAccess>)
      modifies this, cfg.writer
      ensures key == "" ==> r == Err(EmptyKey)
      ensures key != "" && password == "" ==> r == Err(EmptyPassword)
      ensures key != "" && password != "" && Derived(key, password, c).None? ==> r == Err(DeriveFailed)
      ensures r.Ok? <==> Proceeds(key, password, now, cfg, c)
      ensures r.Err? ==> pending == old(pending) && active == old(active)
      ensures Derives(key, password, c) && Issue.Collides(cfg.customClaims) ==>
                r.Err? && r.error.ClaimCollision?
                && r.error.claim in cfg.customClaims && r.error.claim in {EXP_CLAIM, ACCESS_CLAIM}
      ensures (Derives(key, password, c) && !Issue.Collides(cfg.customClaims)
               && Issue.Signed(key, now, cfg, c.sign).None?) ==> r == Err(SignFailed)
      ensures (Derives(key, password, c) && Issue.Signed(key, now, cfg, c.sign).Some?
               && cfg.tokenStore == Other) ==> r == Err(UnrecognizedTokenStore)
      ensures r.Ok? ==>
                fresh(r.value) && r.value.key == key
                && r.value.hash == Derived(key, password, c).value.hash
                && r.value.salt == Derived(key, password, c).value.salt
                && r.value.token == Issue.Signed(key, now, cfg, c.sign).value
                && Snapshot() == Registry.GrantCommit(old(Snapshot()), Derived(key, password, c).value,
                                                      password, c.verify).next
      ensures cfg.writer.emitted == old(cfg.writer.emitted) +
                (if Derives(key, password, c) then Issue.IssueEmits(key, now, cfg, c.sign) else [])
    {
      if key == "" {
        return Err(EmptyKey);
      }
      if password == "" {
        return Err(EmptyPassword);
      }
      var cred := c.derive(key, password);
      if cred.None? {
        return Err(DeriveFailed);
      }
      var rec := Record(key, cred.value.hash, cred.value.salt);
      var grant := new Issue.APIAccess(rec);
      var issued := grant.SetToken(cfg, now, c.sign);
      if issued.Fail? {
        return Err(issued.error);
      }

      // First transaction: store the record unless an existing grant rejects
      // the password. Its outcome is never read again.
      var updateTx := Pass;
      if rec.email in active {
        var u := UpdateGrant(key, password, c.verify);
        if u.Fail? {
          updateTx := Fail(UpdateFailed(u.error));
        }
      }
      if updateTx.Pass? {
        active := active[rec.email := rec];
      }

      // Second transaction: clear the pending reservation.
      if rec.email in pending {
        pending := pending - {rec.email};
      }
      r := Ok(grant);
    }

    /**
     * Login: validate, derive, issue the token, then look the key up. The
     * token is written to the response before the lookup, so it is written
     * even when the lookup fails. The buckets are only read.
     */
    method Login(key: string, password: string, cfg: Issue.Config, now: int, c: Collaborators)
      returns (r: Result<Issue.APIAccess>)
      modifies cfg.writer
      ensures key == "" ==> r == Err(EmptyKey)
      ensures key != "" && password == "" ==> r == Err(EmptyPassword)
      ensures key != "" && password != "" && Derived(key, password, c).None? ==> r == Err(DeriveFailed)
      ensures !Proceeds(key, password, now, cfg, c) ==> r.Err?
      ensures Derives(key, password, c) && Issue.Collides(cfg.customClaims) ==>
                r.Err? && r.error.ClaimCollision?
                && r.error.claim in cfg.customClaims && r.error.claim in {EXP_CLAIM, ACCESS_CLAIM}
      ensures (Derives(key, password, c) && !Issue.Collides(cfg.customClaims)
               && Issue.Signed(key, now, cfg, c.sign).None?) ==> r == Err(SignFailed)
      ensures (Derives(key, password, c) && Issue.Signed(key, now, cfg, c.sign).Some?
               && cfg.tokenStore == Other) ==> r == Err(UnrecognizedTokenStore)
      ensures Proceeds(key, password, now, cfg, c) ==>
                var lookup := Registry.LoginLookup(Snapshot(), key, password, c.verify);
                (r.Ok? <==> lookup.Pass?) && (r.Err? ==> r.error == lookup.error)
      ensures r.Ok? ==>
                fresh(r.value) && r.value.key == key
                && r.value.hash == Derived(key, password, c).value.hash
                && r.value.salt == Derived(key, password, c).value.salt
                && r.value.token == Issue.Signed(key, now, cfg, c.sign).value
      ensures cfg.writer.emitted == old(cfg.writer.emitted) +
                (if Derives(key, password, c) then Issue.IssueEmits(key, now, cfg, c.sign) else [])
    {
      if key == "" {
        return Err(EmptyKey);
      }
      if password == "" {
        return Err(EmptyPassword);
      }
      var cred := c.derive(key, password);
      if cred.None? {
        return Err(DeriveFailed);
      }
      var rec := Record(key, cred.value.hash, cred.value.salt);
      var grant := new Issue.APIAccess(rec);
      var issued := grant.SetToken(cfg, now, c.sign);
      if issued.Fail? {
        return Err(issued.error);
      }

      if rec.email in active {
        var u := UpdateGrant(key, password, c.verify);
        if u.Fail? {
          return Err(UpdateFailed(u.error));
        }
        return Ok(grant);
      }
      r := Err(NotAuthorized);
    }

    /**
     * Login as its doc comment describes it: the key is looked up first, and
     * a token is issued and written only when the lookup passes.
     */
    method LoginIntended(key: string, password: string, cfg: Issue.Config, now: int, c: Collaborators)
      returns (r: Result<Issue.APIAccess>)
      modifies cfg.writer
      ensures key == "" ==> r == Err(EmptyKey)
      ensures key != "" && password == "" ==> r == Err(EmptyPassword)
      ensures key != "" && password != "" && Derived(key, password, c).None? ==> r == Err(DeriveFailed)
      ensures Derives(key, password, c) ==>
                var lookup := Registry.LoginLookup(Snapshot(), key, password, c.verify);
                (lookup.Fail? ==> r == Err(lookup.error))
                && (lookup.Pass? ==> (r.Ok? <==> Issue.Issues(key, now, cfg, c.sign)))
      ensures r.Ok? ==>
                fresh(r.value) && r.value.key == key
                && r.value.hash == Derived(key, password, c).value.hash
                && r.value.salt == Derived(key, password, c).value.salt
                && r.value.token == Issue.Signed(key, now, cfg, c.sign).value
      ensures cfg.writer.emitted == old(cfg.writer.emitted) +
                (if Derives(key, password, c)
                    && Registry.LoginLookup(Snapshot(), key, password, c.verify).Pass?
                 then Issue.IssueEmits(key, now, cfg, c.sign) else [])
    {
      if key == "" {
        return Err(EmptyKey);
      }
      if password == "" {
        return Err(EmptyPassword);
      }
      var cred := c.derive(key, password);
      if cred.None? {
        return Err(DeriveFailed);
      }
      var rec := Record(key, cred.value.hash, cred.value.salt);
      if rec.email !in active {
        return Err(NotAuthorized);
      }
      var u := UpdateGrant(key, password, c.verify);
      if u.Fail? {
        return Err(UpdateFailed(u.error));
      }
      var grant := new Issue.APIAccess(rec);
      var issued := grant.SetToken(cfg, now, c.sign);
      if issued.Fail? {
        return Err(issued.error);
      }
      r := Ok(grant);
    }
  }
}

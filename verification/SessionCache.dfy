/**
 dispatcher/cfwrapper/factory.go and session.go: the validated cache of the Cloud Foundry session.
 What the client answers and what creating a session yields are inputs of every call.
 */
module SessionCache {
  import opened Common

  /** A wrapped session; hasClient is false for a wrapper around a nil client. */
  datatype Session = Session(id: nat, hasClient: bool)

  /** What the client says to the listing request that validates it. */
  datatype ClientAnswer = Listed | NotAuthorized | NotAuthenticated | OtherError(text: string)

  datatype Validity = Valid | Invalid | ValidationFailed(error: string)

  function IsValid(s: Session, answer: ClientAnswer): Validity {
    if !s.hasClient then Invalid
    else
      match answer
      case Listed => Valid
      case NotAuthorized => Invalid
      case NotAuthenticated => Invalid
      case OtherError(text) => if Contains(text, "oauth2: cannot fetch token") then Invalid else ValidationFailed(text)
  }

  /** Which answers make a session valid, invalid, or neither: a failed validation. */
  lemma ValidityExactly(s: Session, answer: ClientAnswer)
    ensures IsValid(s, answer) == Valid <==> s.hasClient && answer == Listed
    ensures IsValid(s, answer) == Invalid <==>
              || !s.hasClient || answer == NotAuthorized || answer == NotAuthenticated
              || (answer.OtherError? && exists a, b: string :: answer.text == a + "oauth2: cannot fetch token" + b)
    ensures IsValid(s, answer).ValidationFailed? ==> answer == OtherError(IsValid(s, answer).error)
  {
    if answer.OtherError? {
      ContainsExactly(answer.text, "oauth2: cannot fetch token");
    }
  }

  /** One call of GetSession: the world's part of it. */
  datatype Call = Call(answer: ClientAnswer, created: Result<Session>)

  predicate NeedsCreation(cached: Option<Session>, answer: ClientAnswer) {
    cached.None? || IsValid(cached.value, answer).Invalid?
  }

  /** The cache after the call. */
  function CacheAfter(cached: Option<Session>, c: Call): Option<Session> {
    if NeedsCreation(cached, c.answer) && c.created.Success? then Some(c.created.value) else cached
  }

  /** The call's result. */
  function Answer(cached: Option<Session>, c: Call): Result<Session> {
    if NeedsCreation(cached, c.answer) then c.created
    else
      match IsValid(cached.value, c.answer)
      case ValidationFailed(e) => Failure(e)
      case _ => Success(cached.value)
  }

  // ---- any sequence of calls ----

  function CacheOver(calls: seq<Call>): Option<Session> {
    if calls == [] then None else CacheAfter(CacheOver(calls[..|calls| - 1]), calls[|calls| - 1])
  }

  /** The creations made over the calls, in order. */
  function CreationsOver(calls: seq<Call>): seq<Result<Session>> {
    if calls == [] then []
    else
      var init, last := calls[..|calls| - 1], calls[|calls| - 1];
      CreationsOver(init) + if NeedsCreation(CacheOver(init), last.answer) then [last.created] else []
  }

  /** The last creation that succeeded, if any. */
  ghost predicate LastSuccess(creations: seq<Result<Session>>, s: Option<Session>) {
    match s
    case None => forall i :: 0 <= i < |creations| ==> creations[i].Failure?
    case Some(session) =>
      exists i :: 0 <= i < |creations| && creations[i] == Success(session)
               && forall j :: i < j < |creations| ==> creations[j].Failure?
  }

  class DefaultFactory {
    var cachedSession: Option<Session>
    /** Every call of GetSession so far, and the result of every call of createSession. */
    ghost var calls: seq<Call>
    ghost var creations: seq<Result<Session>>

    /** The cache is what the calls made of it. */
    ghost predicate Valid()
      reads this
    {
      cachedSession == CacheOver(calls) && creations == CreationsOver(calls)
    }

    constructor ()
      ensures Valid() && calls == []
    {
      cachedSession := None;
      calls, creations := [], [];
    }

    method RefreshCachedClient(created: Result<Session>) returns (err: Option<string>)
      modifies this`cachedSession, this`creations
      ensures creations == old(creations) + [created]
      ensures cachedSession == if created.Success? then Some(created.value) else old(cachedSession)
      ensures err == if created.Success? then None else Some(created.error)
    {
      creations := creations + [created];
      if created.Success? {
        cachedSession := Some(created.value);
        return None;
      }
      return Some(created.error);
    }

    method GetSession(c: Call) returns (r: Result<Session>)
      requires Valid()
      modifies this
      ensures Valid() && calls == old(calls) + [c]
      ensures r == Answer(old(cachedSession), c)
      ensures old(cachedSession).Some? && old(cachedSession).value.hasClient && c.answer == Listed ==>
                r == Success(old(cachedSession).value) && creations == old(creations)
      ensures old(cachedSession).Some? && IsValid(old(cachedSession).value, c.answer).ValidationFailed? ==>
                c.answer == OtherError(c.answer.text) && r == Failure(c.answer.text) && creations == old(creations)
      ensures old(cachedSession).None? || IsValid(old(cachedSession).value, c.answer) == Invalid ==>
                && creations == old(creations) + [c.created]
                && r == (if c.created.Success? then Success(c.created.value) else Failure(c.created.error))
      ensures r.Success? ==> cachedSession == Some(r.value)
      ensures r.Failure? ==> cachedSession == old(cachedSession)
      ensures |creations| <= |old(creations)| + 1
    {
      calls := calls + [c];
      assert calls[..|calls| - 1] == old(calls);
      var refreshSession := false;
      if cachedSession == None {
        refreshSession := true;
      } else {
        var validity := IsValid(cachedSession.value, c.answer);
        if validity.ValidationFailed? {
          assert creations == creations + [];
          return Failure(validity.error);
        } else if validity == Invalid {
          refreshSession := true;
        }
      }
      if refreshSession {
        var err := RefreshCachedClient(c.created);
        if err.Some? {
          return Failure(err.value);
        }
      }
      return Success(cachedSession.value);
    }
  }

  // ---- over any calls ----

  /** The cache always holds the last session that was created successfully. */
  lemma {:induction false} CacheHoldsLastCreated(calls: seq<Call>)
    ensures LastSuccess(CreationsOver(calls), CacheOver(calls))
    ensures |CreationsOver(calls)| <= |calls|
  {
    if calls != [] {
      var init, last := calls[..|calls| - 1], calls[|calls| - 1];
      CacheHoldsLastCreated(init);
      var before, after := CreationsOver(init), CreationsOver(calls);
      if NeedsCreation(CacheOver(init), last.answer) {
        assert after == before + [last.created];
        if last.created.Success? {
          assert after[|before|] == Success(last.created.value);
        } else if CacheOver(init).Some? {
          var i :| 0 <= i < |before| && before[i] == Success(CacheOver(init).value)
                && forall j :: i < j < |before| ==> before[j].Failure?;
          assert after[i] == Success(CacheOver(init).value);
        }
      } else {
        assert after == before;
      }
    }
  }

  /** A session is handed out only if this call validated it or created it. */
  lemma HandedOutIsCheckedOrFresh(calls: seq<Call>, i: nat)
    requires i < |calls|
    requires Answer(CacheOver(calls[..i]), calls[i]).Success?
    ensures
      var s := Answer(CacheOver(calls[..i]), calls[i]).value;
      && CacheOver(calls[..i + 1]) == Some(s)
      && (|| (CacheOver(calls[..i]) == Some(s) && IsValid(s, calls[i].answer) == Valid
              && CreationsOver(calls[..i + 1]) == CreationsOver(calls[..i]))
          || CreationsOver(calls[..i + 1]) == CreationsOver(calls[..i]) + [Success(s)])
  {
    assert calls[..i + 1][..i] == calls[..i];
  }

  /** A failed call leaves the cache as it was. */
  lemma FailureKeepsCache(calls: seq<Call>, i: nat)
    requires i < |calls|
    requires Answer(CacheOver(calls[..i]), calls[i]).Failure?
    ensures CacheOver(calls[..i + 1]) == CacheOver(calls[..i])
  {
    assert calls[..i + 1][..i] == calls[..i];
  }
}

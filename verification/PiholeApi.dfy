/** The client of one Pi-hole server: session handling and the calls the operator makes. */
module PiholeApi {
  import opened Wrappers
  import opened Domain
  import opened Environment
  import opened Backoff

  class APIClient {
    const baseURL: Url
    const password: string
    var sessionID: string
    var validity: int

    constructor (baseURL: Url, password: string)
      ensures this.baseURL == baseURL && this.password == password && sessionID == "" && validity == 0
    {
      this.baseURL, this.password := baseURL, password;
      sessionID, validity := "", 0;
    }

    /**
     * At most six requests; the session is the one the first accepted request grants, and an
     * authentication that fails leaves the old session as it was.
     */
    method Authenticate(replies: nat -> AuthReply, clock: nat -> int) returns (ok: bool, calls: nat, waits: seq<Duration>)
      modifies this`sessionID, this`validity
      ensures 1 <= calls <= 6 && forall i | 0 <= i < calls - 1 :: replies(i).Refused?
      ensures ok <==> replies(calls - 1).Granted?
      ensures ok ==> sessionID == replies(calls - 1).sid
                     && validity == clock(calls - 1) + replies(calls - 1).validity * SECOND
      ensures !ok ==> calls == 6 && sessionID == old(sessionID) && validity == old(validity)
      ensures |waits| == calls - 1 && OnSchedule(DEFAULT_CONFIG, waits) && Sum(waits) <= 12 * SECOND + 500 * MILLISECOND
    {
      var attempts := (i: nat) => if replies(i).Granted? then Succeeded else Failed("authentication");
      var outcome;
      outcome, calls, waits := RetryWithBackoff(DEFAULT_CONFIG, attempts, i => false);
      DefaultTotalWait(waits);
      forall i | 0 <= i < calls - 1
        ensures replies(i).Refused?
      {
        assert attempts(i).Failed?;
      }
      ok := outcome.Ok?;
      if ok {
        sessionID := replies(calls - 1).sid;
        validity := clock(calls - 1) + replies(calls - 1).validity * SECOND;
      }
    }

    /** A session still valid is used as it is; an expired one is renewed before the request. */
    method EnsureAuth(now: int, replies: nat -> AuthReply, clock: nat -> int) returns (ok: bool)
      modifies this`sessionID, this`validity
      ensures now <= old(validity) ==> ok && sessionID == old(sessionID) && validity == old(validity)
      ensures now > old(validity) ==>
                (ok <==> exists i | 0 <= i < 6 :: replies(i).Granted?) &&
                (ok ==> exists i | 0 <= i < 6 :: replies(i).Granted? && sessionID == replies(i).sid
                                                 && forall j | 0 <= j < i :: replies(j).Refused?)
    {
      ok := true;
      if now > validity {
        var calls, waits;
        ok, calls, waits := Authenticate(replies, clock);
      }
    }

    /** The session step every call starts with; when it fails, so does the call. */
    method Authorized(w: World, auth: AuthAnswers) returns (ok: bool)
      modifies this`sessionID, this`validity, w`failures
      ensures ok <==> Opens(auth, old(validity))
      ensures w.failures == old(w.failures) + if ok then 0 else 1
    {
      ok := EnsureAuth(auth.now, auth.replies, auth.clock);
      if !ok {
        w.failures := w.failures + 1;
      }
    }

    method GetAdLists(w: World, auth: AuthAnswers) returns (answer: Option<seq<AdList>>)
      modifies this`sessionID, this`validity, w`failures
      ensures w.failures == old(w.failures) + if answer.Some? then 0 else 1
      ensures answer.Some? ==> Opens(auth, old(validity)) && baseURL in w.lists && ListsExactly(answer.value, w.lists[baseURL])
    {
      answer := None;
      var ok := Authorized(w, auth);
      if ok {
        answer := w.ReadLists(baseURL);
      }
    }

    method PostAdList(w: World, address: Address, auth: AuthAnswers) returns (ok: bool)
      modifies this`sessionID, this`validity, w`failures, w`lists, w`events
      ensures w.failures == old(w.failures) + if ok then 0 else 1
      ensures ok ==> Opens(auth, old(validity))
      ensures ok ==> w.lists == Apply(old(w.lists), Posted(baseURL, address)) && w.events == old(w.events) + [Posted(baseURL, address)]
      ensures !ok ==> w.lists == old(w.lists) && w.events == old(w.events)
    {
      ok := Authorized(w, auth);
      if ok {
        ok := w.Send(Posted(baseURL, address));
      }
    }

    method DeleteAdList(w: World, address: Address, auth: AuthAnswers) returns (ok: bool)
      modifies this`sessionID, this`validity, w`failures, w`lists, w`events
      ensures w.failures == old(w.failures) + if ok then 0 else 1
      ensures ok ==> Opens(auth, old(validity))
      ensures ok ==> w.lists == Apply(old(w.lists), Deleted(baseURL, address)) && w.events == old(w.events) + [Deleted(baseURL, address)]
      ensures !ok ==> w.lists == old(w.lists) && w.events == old(w.events)
    {
      ok := Authorized(w, auth);
      if ok {
        ok := w.Send(Deleted(baseURL, address));
      }
    }

    method RunGravity(w: World, auth: AuthAnswers) returns (ok: bool)
      modifies this`sessionID, this`validity, w`failures, w`lists, w`events
      ensures w.failures == old(w.failures) + if ok then 0 else 1
      ensures ok ==> Opens(auth, old(validity))
      ensures w.lists == old(w.lists)
      ensures w.events == old(w.events) + if ok then [GravityRun(baseURL)] else []
    {
      ok := Authorized(w, auth);
      if ok {
        ok := w.Send(GravityRun(baseURL));
      }
    }

    method DownloadTeleporter(w: World, ghost pod: string, auth: AuthAnswers) returns (data: Option<Blob>)
      modifies this`sessionID, this`validity, w`failures, w`events
      ensures w.failures == old(w.failures) + if data.Some? then 0 else 1
      ensures data.Some? ==> Opens(auth, old(validity))
      ensures w.events == old(w.events) + if data.Some? then [Downloaded(pod, baseURL, data.value)] else []
    {
      data := None;
      var ok := Authorized(w, auth);
      if ok {
        data := w.ReadTeleporter(baseURL, pod);
      }
    }

    /**
     * It succeeds iff there is a session and one of six attempts is accepted before the context is
     * done at a wait.  The upload is recorded once; refused attempts change nothing.
     */
    method UploadTeleporter(w: World, data: Blob, auth: AuthAnswers, accepted: nat -> bool, cancelled: nat -> bool) returns (ok: bool)
      modifies this`sessionID, this`validity, w`failures, w`lists, w`events
      ensures ok <==> Opens(auth, old(validity))
                      && exists i | 0 <= i < 6 :: accepted(i) && forall j | 0 <= j < i :: !accepted(j) && !cancelled(j)
      ensures w.failures == old(w.failures) + if ok then 0 else 1
      ensures w.events == old(w.events) + if ok then [Uploaded(baseURL, data)] else []
      ensures w.lists.Keys == old(w.lists).Keys
      ensures forall u | u in w.lists && (u != baseURL || !ok) :: w.lists[u] == old(w.lists)[u]
    {
      ok := Authorized(w, auth);
      if ok {
        var attempts := (i: nat) => if accepted(i) then Succeeded else Failed("upload");
        var outcome, calls, waits := RetryWithBackoff(DEFAULT_CONFIG, attempts, cancelled);
        UploadOutcome(accepted, cancelled, attempts, outcome, calls);
        ok := outcome.Ok?;
        if ok {
          w.WriteTeleporter(baseURL, data);
        } else {
          w.failures := w.failures + 1;
        }
      }
    }

    /** Closing drops idle connections only; a closed client can still make calls. */
    method Close(ghost w: World)
      modifies w`closed
      ensures w.closed == old(w.closed) + {this}
    {
      w.closed := w.closed + {this};
    }
  }

  /** A session is there, or one of six requests for one is granted. */
  ghost predicate Opens(auth: AuthAnswers, validity: int) {
    auth.now <= validity || exists i | 0 <= i < 6 :: auth.replies(i).Granted?
  }

  /** What the retry loop makes of upload attempts. */
  lemma UploadOutcome<E>(accepted: nat -> bool, cancelled: nat -> bool, attempts: nat -> Attempt<E>, outcome: Outcome<E>, calls: nat)
    requires forall i: nat :: accepted(i) <==> attempts(i).Succeeded?
    requires 1 <= calls <= 6 && (outcome.Ok? <==> attempts(calls - 1).Succeeded?)
    requires forall i | 0 <= i < calls - 1 :: attempts(i).Failed? && !cancelled(i)
    requires outcome.Exhausted? ==> calls == 6
    requires outcome.Cancelled? ==> cancelled(calls - 1)
    ensures outcome.Ok? <==> exists i | 0 <= i < 6 :: accepted(i) && forall j | 0 <= j < i :: !accepted(j) && !cancelled(j)
  {
    assert accepted(calls - 1) <==> outcome.Ok?;
  }
}

/**
 * The credential runner: the identity in the configuration, the identity the client signs with, the stored credential
 * and the flag that says the credential in use was stored by this process.  The backend, the disk and the executor
 * answer arbitrarily; the ghost `trace` keeps the requests, the writes and the log lines of the whole process.
 */
module CredentialRunner {
  import opened Text

  datatype Identity = Identity(credential: string, secret: string, device: string) {
    /** What `SetIdentity` keeps. */
    function Trimmed(): Identity { Identity(TrimSpace(credential), TrimSpace(secret), TrimSpace(device)) }

    predicate CanSign() { credential != "" && secret != "" }

    /** What the store demands before it writes and after it reads. */
    predicate Valid() { TrimSpace(device) != "" && TrimSpace(credential) != "" && TrimSpace(secret) != "" }
  }

  const NOBODY := Identity("", "", "")

  datatype Status = Succeeded | Partial | Unsupported | Expired | Failed

  datatype Outcome = Outcome(command: string, claim: string, attempt: int, status: Status) {
    /** The sanitized replacement for a result the backend would not take. */
    function Fallback(): Outcome { this.(status := Failed) }

    predicate Complete() { TrimSpace(command) != "" && TrimSpace(claim) != "" }
  }

  datatype Error = Http(code: int) | Other

  predicate IsUnauthorized(e: Error) { e == Http(401) }

  predicate Unacceptable(e: Error) { e == Http(400) || e == Http(413) || e == Http(422) }

  datatype Result<T> = Ok(value: T) | Err(error: Error)

  datatype Beat = Beat(accepted: bool, device: string) {
    predicate Welcomes(id: Identity) { accepted && (device == "" || device == id.device) }
  }

  datatype Event =
    | Started
    | Loaded(id: Identity)
    | Enrolled(answer: Result<Identity>)
    | Written(id: Identity)
    | WriteFailed(id: Identity)
    | Beaten(signer: Identity, held: Identity, beat: Result<Beat>)
    | Confirmed(id: Identity, stored: Option<Identity>)
    | Tolerated(id: Identity)
    | Polled(signer: Identity, reply: Result<bool>)
    | Submitted(signer: Identity, result: Outcome, verdict: Result<()>)

  /** The credential in use, if this process stored it: enrolling and loading forget it, a successful write sets it. */
  ghost function StoredHere(trace: seq<Event>): (r: Option<Identity>) {
    if trace == [] then
      None
    else
      match trace[|trace| - 1]
      case Written(id) => Some(id)
      case Loaded(_) => None
      case Enrolled(answer) => if answer.Ok? then None else StoredHere(trace[..|trace| - 1])
      case _ => StoredHere(trace[..|trace| - 1])
  }

  /** The backend did its part: it answered, and with something the agent can use. */
  predicate Favourable(e: Event) {
    match e
    case Enrolled(answer) => answer.Ok? && answer.value.Trimmed().CanSign()
    case Beaten(_, held, beat) => beat.Ok? && beat.value.Welcomes(held)
    case Polled(_, reply) => reply.Ok?
    case Submitted(_, _, verdict) => verdict.Ok?
    case _ => true
  }

  /** How many runs were started, how often each kind of request was sent, and how often the answer was no use. */
  datatype Tally = Tally(starts: nat, enrolls: nat, beats: nat, polls: nat, submits: nat, setbacks: nat) {
    function Add(e: Event): Tally {
      var t := this.(setbacks := setbacks + if Favourable(e) then 0 else 1);
      match e
      case Started => t.(starts := starts + 1)
      case Enrolled(_) => t.(enrolls := enrolls + 1)
      case Beaten(_, _, _) => t.(beats := beats + 1)
      case Polled(_, _) => t.(polls := polls + 1)
      case Submitted(_, _, _) => t.(submits := submits + 1)
      case _ => t
    }

    predicate Within(before: Tally, enrollsMore: nat, beatsMore: nat, pollsMore: nat, submitsMore: nat) {
      && enrolls <= before.enrolls + enrollsMore && beats <= before.beats + beatsMore
      && polls <= before.polls + pollsMore && submits <= before.submits + submitsMore
      && setbacks >= before.setbacks
    }

    predicate Exactly(before: Tally, enrollsMore: nat, beatsMore: nat, pollsMore: nat, submitsMore: nat) {
      && starts == before.starts && enrolls == before.enrolls + enrollsMore && beats == before.beats + beatsMore
      && polls == before.polls + pollsMore && submits == before.submits + submitsMore
      && setbacks >= before.setbacks
    }
  }

  ghost function Count(trace: seq<Event>): (n: Tally) {
    if trace == [] then Tally(0, 0, 0, 0, 0, 0) else Count(trace[..|trace| - 1]).Add(trace[|trace| - 1])
  }

  ghost function Last(trace: seq<Event>): Event {
    if trace == [] then Started else trace[|trace| - 1]
  }

  /**
   * What every event says about the events before it.  A credential is confirmed only directly after a signed heartbeat
   * that the backend welcomed, when this process stored that very credential and the disk still holds it; a poll
   * directly follows a welcome with the same identity; a submit follows a poll that brought a command, or the rejected
   * submit it replaces; an enrollment opens a run or answers a 401.
   */
  ghost predicate MayFollow(before: seq<Event>, e: Event) {
    var last := Last(before);
    match e
    case Started => true
    case Loaded(id) => last.Started? && id.Valid()
    case Enrolled(_) => last.Started? || (last.Beaten? && last.beat == Err(Http(401)))
    case Written(id) => last == Enrolled(Ok(id)) && id.Valid()
    case WriteFailed(id) => last == Enrolled(Ok(id))
    case Beaten(signer, held, _) => signer.CanSign() && signer == held.Trimmed() && Identified(last)
    case Confirmed(id, stored) => Welcomed(last, id) && StoredHere(before) == Some(id) && stored == Some(id)
    case Tolerated(id) => Welcomed(last, id) && StoredHere(before) == None
    case Polled(signer, _) => (last.Confirmed? || last.Tolerated?) && signer == last.id.Trimmed() && signer.CanSign()
    case Submitted(signer, result, _) => MaySubmit(before, signer, result)
  }

  /** Nothing happened yet in this run, or it has just come by an identity. */
  predicate Identified(e: Event) {
    e.Started? || e.Loaded? || e.Enrolled? || e.Written? || e.WriteFailed?
  }

  ghost predicate MaySubmit(before: seq<Event>, signer: Identity, result: Outcome) {
    var last := Last(before);
    || (last.Polled? && last.reply == Ok(true) && last.signer == signer)
    || (last.Submitted? && last.signer == signer && last.verdict.Err? && Unacceptable(last.verdict.error)
        && result == last.result.Fallback() && |before| > 1 && before[|before| - 2].Polled?)
  }

  ghost predicate Welcomed(e: Event, id: Identity) {
    e.Beaten? && e.held == id && e.signer == id.Trimmed() && e.beat.Ok? && e.beat.value.Welcomes(id)
  }

  ghost predicate Orderly(trace: seq<Event>) {
    trace == [] || (Orderly(trace[..|trace| - 1]) && MayFollow(trace[..|trace| - 1], trace[|trace| - 1]))
  }

  lemma {:induction false} OrderlyAt(trace: seq<Event>, i: nat)
    requires Orderly(trace) && i < |trace|
    ensures MayFollow(trace[..i], trace[i])
  {
    if i < |trace| - 1 {
      OrderlyAt(trace[..|trace| - 1], i);
      assert trace[..|trace| - 1][..i] == trace[..i];
    }
  }

  lemma {:induction false} Append(trace: seq<Event>, e: Event)
    requires Orderly(trace) && MayFollow(trace, e)
    ensures Orderly(trace + [e])
  {
    assert (trace + [e])[..|trace|] == trace;
  }

  lemma {:induction false} Appended(trace: seq<Event>, e: Event)
    ensures Last(trace + [e]) == e
    ensures Count(trace + [e]) == Count(trace).Add(e)
    ensures StoredHere(trace + [e]) ==
            if e.Written? then Some(e.id)
            else if e.Loaded? || (e.Enrolled? && e.answer.Ok?) then None else StoredHere(trace)
  {
    assert (trace + [e])[..|trace|] == trace;
  }

  /** One submit, or, where the backend called the result unacceptable, a second one in its FAILED form. */
  ghost predicate Delivered(before: seq<Event>, after: seq<Event>, signer: Identity, result: Outcome, r: Result<()>) {
    if !result.Complete() then after == before && r == Err(Other)
    else
      exists first: Result<()> ::
        var sent := before + [Submitted(signer, result, first)];
        if first.Err? && Unacceptable(first.error) then after == sent + [Submitted(signer, result.Fallback(), r)]
        else after == sent && r == first
  }

  class Runner {
    const enrollmentToken: string
    const hasStore: bool
    /** Whether the credential file and the command executor may fail. */
    const faulty: bool
    var config: Identity
    var client: Identity
    var persisted: bool
    /** What a read of the credential file would yield; None when it is absent or unreadable. */
    var stored: Option<Identity>
    ghost var trace: seq<Event>

    constructor (enrollmentToken: string, hasStore: bool, faulty: bool, configured: Identity, stored: Option<Identity>)
      ensures Valid() && trace == [] && config == configured && client == configured.Trimmed() && this.stored == stored
      ensures this.enrollmentToken == enrollmentToken && this.hasStore == hasStore && this.faulty == faulty
    {
      this.enrollmentToken, this.hasStore, this.faulty := enrollmentToken, hasStore, faulty;
      config, client, persisted := configured, configured.Trimmed(), false;
      this.stored, trace := stored, [];
    }

    ghost predicate Valid()
      reads this
    {
      && (client == NOBODY || client == config.Trimmed())
      && (persisted ==> stored == Some(config))
      && StoredHere(trace) == (if persisted then Some(config) else None)
      && Orderly(trace)
      && (enrollmentToken == "" ==> Count(trace).enrolls == 0)
    }

    method Note(e: Event)
      requires Orderly(trace) && MayFollow(trace, e)
      modifies this`trace
      ensures trace == old(trace) + [e] && Orderly(trace) && Last(trace) == e
      ensures Count(trace) == Count(old(trace)).Add(e)
      ensures StoredHere(trace) ==
              if e.Written? then Some(e.id)
              else if e.Loaded? || (e.Enrolled? && e.answer.Ok?) then None else StoredHere(old(trace))
    {
      Append(trace, e);
      Appended(trace, e);
      trace := trace + [e];
    }

    /** The cold start: take over a stored credential, which this process did not write. */
    method HydrateFromStore(readable: bool)
      requires Valid() && Last(trace).Started?
      modifies this
      ensures Valid() && Count(trace) == Count(old(trace)) && stored == old(stored)
      ensures if readable && stored.Some? && stored.value.Valid()
              then Last(trace) == Loaded(config) && stored == Some(config)
                   && client == config.Trimmed() && client.CanSign() && !persisted
              else trace == old(trace) && client == old(client) && config == old(config) && persisted == old(persisted)
    {
      if !readable || stored.None? || !stored.value.Valid() {
        return;
      }
      Note(Loaded(stored.value));
      client, config, persisted := stored.value.Trimmed(), stored.value, false;
    }

    /** Enroll with the token, then try to store the credential; a failed write may have replaced the file or not. */
    method Enroll() returns (r: Result<()>)
      requires Valid() && (Last(trace).Started? || (Last(trace).Beaten? && Last(trace).beat == Err(Http(401))))
      modifies this
      ensures Valid() && Count(trace).Exactly(Count(old(trace)), if enrollmentToken == "" then 0 else 1, 0, 0, 0)
      ensures r.Ok? ==> client == config.Trimmed()
      ensures r.Ok? ==>
                Last(trace) ==
                  if persisted then Written(config)
                  else if hasStore then WriteFailed(config) else Enrolled(Ok(config))
      ensures r.Ok? ==> StoredIfPossible()
      ensures r.Err? ==> if enrollmentToken == "" then trace == old(trace) else Last(trace) == Enrolled(Err(r.error))
      ensures r.Err? ==> client == old(client) && config == old(config) && stored == old(stored)
      ensures enrollmentToken != "" && Count(trace).setbacks == Count(old(trace)).setbacks ==> r.Ok? && client.CanSign()
    {
      if enrollmentToken == "" {
        return Err(Other);
      }
      var answer: Result<Identity> := *;
      Note(Enrolled(answer));
      if answer.Err? {
        return Err(answer.error);
      }
      client, config, persisted := answer.value.Trimmed(), answer.value, false;
      if hasStore {
        Keep();
      }
      return Ok(());
    }

    /**
     * Write the credential to the store, which refuses an invalid one; a failed write may have replaced the file or
     * not.
     */
    method Keep()
      requires Valid() && Last(trace) == Enrolled(Ok(config)) && !persisted
      modifies this`stored, this`persisted, this`trace
      ensures Valid() && Count(trace) == Count(old(trace))
      ensures Last(trace) == if persisted then Written(config) else WriteFailed(config)
      ensures config.Valid() && !faulty ==> persisted
      ensures !config.Valid() ==> !persisted && stored == old(stored)
    {
      var works: bool := *;
      var replaced: bool := *;
      if config.Valid() && (works || replaced || !faulty) {
        stored := Some(config);
      }
      if config.Valid() && (works || !faulty) {
        Note(Written(config));
        persisted := true;
      } else {
        Note(WriteFailed(config));
      }
    }

    /** A signed heartbeat; it reports a confirmed credential only when it is also the stored one. */
    method Heartbeat() returns (r: Result<()>)
      requires Valid() && Identified(Last(trace))
      modifies this`trace
      ensures Valid() && Count(trace).Exactly(Count(old(trace)), 0, if client.CanSign() then 1 else 0, 0, 0)
      ensures r.Ok? ==> client == config.Trimmed() && client.CanSign()
      ensures r.Ok? ==> Last(trace) == if persisted then Confirmed(config, Some(config)) else Tolerated(config)
      ensures client.CanSign() && Count(trace).setbacks == Count(old(trace)).setbacks ==> r.Ok?
      ensures r == Err(Http(401)) ==> Last(trace).Beaten? && Last(trace).beat == Err(Http(401))
      ensures r.Err? ==>
                if client.CanSign() then Last(trace).Beaten? && !Welcomed(Last(trace), config)
                else trace == old(trace) && r == Err(Other)
    {
      if !client.CanSign() {
        return Err(Other);
      }
      var beat: Result<Beat> := *;
      Note(Beaten(client, config, beat));
      if beat.Err? {
        return Err(beat.error);
      }
      if !beat.value.Welcomes(config) {
        return Err(Other);
      }
      Report();
      return Ok(());
    }

    /** The log line after a welcome. */
    method Report()
      requires Valid() && Welcomed(Last(trace), config)
      modifies this`trace
      ensures Valid() && Count(trace) == Count(old(trace))
      ensures Last(trace) == if persisted then Confirmed(config, Some(config)) else Tolerated(config)
    {
      if persisted {
        Note(Confirmed(config, stored));
      } else {
        Note(Tolerated(config));
      }
    }

    method SubmitResult(result: Outcome) returns (r: Result<()>)
      requires Valid() && client.CanSign() && MaySubmit(trace, client, result)
      modifies this`trace
      ensures Valid()
      ensures if result.Complete()
              then trace == old(trace) + [Submitted(client, result, r)]
                   && Count(trace).Exactly(Count(old(trace)), 0, 0, 0, 1)
              else trace == old(trace) && r == Err(Other)
      ensures result.Complete() && Count(trace).setbacks == Count(old(trace)).setbacks ==> r.Ok?
    {
      if !result.Complete() {
        return Err(Other);
      }
      r := *;
      Note(Submitted(client, result, r));
    }

    /** Submit, and once more as FAILED when the backend calls the result itself unacceptable. */
    method SubmitResultWithFallback(result: Outcome) returns (r: Result<()>)
      requires Valid() && client.CanSign() && Last(trace).Polled? && Last(trace).reply == Ok(true)
      requires Last(trace).signer == client
      modifies this`trace
      ensures Valid() && Count(trace).Within(Count(old(trace)), 0, 0, 0, 2)
      ensures Count(trace).polls == Count(old(trace)).polls && Count(trace).starts == Count(old(trace)).starts
      ensures result.Complete() && Count(trace).setbacks == Count(old(trace)).setbacks ==> r.Ok?
      ensures Delivered(old(trace), trace, client, result, r)
    {
      r := SubmitResult(result);
      if r.Ok? || !Unacceptable(r.error) {
        return;
      }
      ghost var first := r;
      r := SubmitResult(result.Fallback());
      assert trace == old(trace) + [Submitted(client, result, first)] + [Submitted(client, result.Fallback(), r)];
    }

    /** A working store has the credential, if it is one the store takes. */
    predicate StoredIfPossible()
      reads this
    {
      hasStore && config.Valid() && !faulty ==> persisted
    }

    /** There is an identity at hand, in the store, or to be had for the token. */
    predicate CanStart()
      reads this
    {
      client.CanSign() || (hasStore && stored.Some? && stored.value.Valid()) || enrollmentToken != ""
    }

    /** An identity to start with: the one at hand, the stored one, or a new one. */
    method Acquire() returns (r: Result<()>)
      requires Valid() && Last(trace).Started?
      modifies this
      ensures Valid()
      ensures (Count(trace).Exactly(Count(old(trace)), 0, 0, 0, 0)
               || Count(trace).Exactly(Count(old(trace)), 1, 0, 0, 0))
      ensures r.Ok? && Count(trace).enrolls > Count(old(trace)).enrolls ==> StoredIfPossible()
      ensures r.Ok? ==> Identified(Last(trace))
      ensures r.Err? ==> !Last(trace).Beaten?
      ensures old(client).CanSign() ==> r.Ok? && trace == old(trace) && client == old(client)
      ensures !faulty && old(CanStart()) && Count(trace).setbacks == Count(old(trace)).setbacks ==>
                r.Ok? && client.CanSign()
    {
      if !client.CanSign() && hasStore {
        var readable: bool := *;
        HydrateFromStore(readable || !faulty);
      }
      if client.CanSign() {
        return Ok(());
      }
      r := Enroll();
    }

    /** Make sure of a credential the backend welcomes: hydrate, enroll, heartbeat, and re-enroll once after a 401. */
    method SignIn() returns (r: Result<()>)
      requires Valid() && Last(trace).Started?
      modifies this
      ensures Valid() && Count(trace).Within(Count(old(trace)), 2, 2, 0, 0)
      ensures Count(trace).polls == Count(old(trace)).polls && Count(trace).starts == Count(old(trace)).starts
      ensures r == Err(Http(401)) && Last(trace).Beaten? && enrollmentToken != "" ==>
                Count(trace).beats == Count(old(trace)).beats + 2
      ensures r.Ok? ==> client == config.Trimmed() && client.CanSign()
      ensures r.Ok? ==> Last(trace) == if persisted then Confirmed(config, Some(config)) else Tolerated(config)
      ensures r.Ok? && Count(trace).enrolls > Count(old(trace)).enrolls ==> StoredIfPossible()
      ensures !faulty && old(CanStart()) && Count(trace).setbacks == Count(old(trace)).setbacks ==> r.Ok?
    {
      r := Acquire();
      if r.Err? {
        return;
      }
      r := Heartbeat();
      if r.Ok? || !IsUnauthorized(r.error) || enrollmentToken == "" {
        return;
      }
      r := SignInAgain();
    }

    /** After a 401: forget the identity, enroll with the token, and send the heartbeat again. */
    method SignInAgain() returns (r: Result<()>)
      requires Valid() && enrollmentToken != "" && Last(trace).Beaten? && Last(trace).beat == Err(Http(401))
      modifies this
      ensures Valid()
      ensures (Count(trace).Exactly(Count(old(trace)), 1, 0, 0, 0)
               || Count(trace).Exactly(Count(old(trace)), 1, 1, 0, 0))
      ensures r == Err(Http(401)) && Last(trace).Beaten? ==> Count(trace).beats == Count(old(trace)).beats + 1
      ensures r.Ok? ==> client == config.Trimmed() && client.CanSign() && StoredIfPossible()
      ensures r.Ok? ==> Last(trace) == if persisted then Confirmed(config, Some(config)) else Tolerated(config)
    {
      client := NOBODY;
      r := Enroll();
      if r.Err? {
        return;
      }
      r := Heartbeat();
    }

    /**
     * One run of the agent: at most two enrollments, two heartbeats, one poll and two submits.  When nothing fails,
     * there is an identity to start with and every answer is of use, it polls and succeeds.
     */
    method RunOnce() returns (r: Result<()>)
      requires Valid()
      modifies this
      ensures Valid() && Count(trace).Within(Count(old(trace)), 2, 2, 1, 2)
      ensures Count(trace).starts == Count(old(trace)).starts + 1
      ensures r.Ok? ==> Count(trace).polls == Count(old(trace)).polls + 1
      ensures r.Ok? ==>
                (Last(trace).Polled? && Last(trace).reply == Ok(false))
                || (Last(trace).Submitted? && Last(trace).verdict == r)
      ensures !faulty && old(CanStart()) && Count(trace).setbacks == Count(old(trace)).setbacks ==> r.Ok?
    {
      Note(Started);
      r := SignIn();
      if r.Err? {
        return;
      }
      r := PollOnce();
    }

    /** One poll, and what comes of it. */
    method PollOnce() returns (r: Result<()>)
      requires Valid() && client.CanSign() && client == config.Trimmed()
      requires (Last(trace).Confirmed? || Last(trace).Tolerated?) && Last(trace).id == config
      modifies this`trace
      ensures Valid() && Count(trace).Within(Count(old(trace)), 0, 0, 1, 2)
      ensures Count(trace).polls == Count(old(trace)).polls + 1 && Count(trace).starts == Count(old(trace)).starts
      ensures r.Ok? ==>
                (Last(trace).Polled? && Last(trace).reply == Ok(false))
                || (Last(trace).Submitted? && Last(trace).verdict == r)
      ensures !faulty && Count(trace).setbacks == Count(old(trace)).setbacks ==> r.Ok?
    {
      var reply: Result<bool> := *;
      Note(Polled(client, reply));
      if reply.Err? {
        return Err(reply.error);
      }
      if !reply.value {
        return Ok(());
      }
      var result := Execute();
      r := SubmitResultWithFallback(result);
    }

    /** The executor: any result, and where nothing fails one that names its command and claim. */
    method Execute() returns (result: Outcome)
      ensures !faulty ==> result.Complete()
    {
      result := *;
      if !faulty && !result.Complete() {
        result := result.(command := "0", claim := "0");
        assert TrimSpace("0") == "0";
      }
    }

    /** `RunLoop`, for as many ticks as the context lives: what a run keeps, every sequence of runs keeps. */
    method RunLoop(ticks: nat)
      requires Valid() && trace == []
      modifies this
      ensures Valid() && Count(trace).starts == ticks
      ensures Count(trace).Within(Count([]), 2 * ticks, 2 * ticks, ticks, 2 * ticks)
    {
      var tick := 0;
      while tick < ticks
        invariant Valid() && tick <= ticks && Count(trace).starts == tick
        invariant Count(trace).Within(Count([]), 2 * tick, 2 * tick, tick, 2 * tick)
      {
        var _ := RunOnce();
        tick := tick + 1;
      }
    }
  }

  /** The credential was written at `w` and neither replaced nor reloaded since. */
  ghost predicate WrittenAt(trace: seq<Event>, w: nat, id: Identity)
    requires w < |trace|
  {
    && trace[w] == Written(id)
    && forall k | w < k < |trace| ::
        !trace[k].Loaded? && !trace[k].Written? && !(trace[k].Enrolled? && trace[k].answer.Ok?)
  }

  /** What an installer that waits for the confirmation line relies on; `w` is where the credential was stored. */
  lemma {:induction false} ConfirmedMeansStored(trace: seq<Event>, i: nat) returns (w: nat)
    requires Orderly(trace) && i < |trace| && trace[i].Confirmed?
    ensures i > 0 && Welcomed(trace[i - 1], trace[i].id) && trace[i].stored == Some(trace[i].id)
    ensures 0 < w < i && WrittenAt(trace[..i], w, trace[i].id)
    ensures trace[w - 1] == Enrolled(Ok(trace[i].id)) && trace[i].id.Valid()
  {
    OrderlyAt(trace, i);
    w := StoredSince(trace[..i]);
    WrittenAfterEnrolled(trace, w);
  }

  lemma {:induction false} WrittenAfterEnrolled(trace: seq<Event>, w: nat)
    requires Orderly(trace) && w < |trace| && trace[w].Written?
    ensures w > 0 && trace[w - 1] == Enrolled(Ok(trace[w].id)) && trace[w].id.Valid()
  {
    OrderlyAt(trace, w);
  }

  /** Where the credential that counts as stored was written. */
  lemma {:induction false} StoredSince(trace: seq<Event>) returns (w: nat)
    requires StoredHere(trace).Some?
    ensures w < |trace| && WrittenAt(trace, w, StoredHere(trace).value)
  {
    if trace[|trace| - 1].Written? {
      return |trace| - 1;
    }
    w := StoredSince(trace[..|trace| - 1]);
  }
}

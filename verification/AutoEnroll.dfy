/**
 * The auto-enroll runner: a loaded certificate, a persisted record and the wire.  The certificate provider, the clock
 * and the backend answer arbitrarily; the ghost `wire` keeps every request sent and how it was answered.
 */
module AutoEnroll {
  import opened Text

  // The persisted record.

  datatype Record = Record(deviceId: string, token: string, tokenExpires: Option<int>, thumbprint: string) {
    predicate IsZero() { deviceId == "" && token == "" }

    predicate Valid() {
      !IsZero() && deviceId != "" && thumbprint != "" && (token == "" <==> tokenExpires.None?)
    }

    predicate IsTokenless() { deviceId != "" && thumbprint != "" && token == "" }

    predicate TokenExpired(now: int) { tokenExpires.Some? && now >= tokenExpires.value }

    predicate TokenExpiringWithin(now: int, d: int) { tokenExpires.Some? && tokenExpires.value - now < d }

    predicate ThumbprintChanged(current: string) { thumbprint != "" && thumbprint != current }
  }

  // Certificates and replies.

  /** A loaded certificate; `handle` is its private-key handle where the signer has one to close. */
  datatype Cert = Cert(thumbprint: string, notAfter: Option<int>, handle: Option<nat>)

  const NO_CERT := Cert("", None, None)

  datatype EnrollReply = EnrollReply(deviceId: string, status: string, thumbprint: string)

  function Without(s: string, c: char): string {
    if s == "" then "" else if s[0] == c then Without(s[1..], c) else [s[0]] + Without(s[1..], c)
  }

  function NormalizeThumbprint(s: string): string {
    Without(Without(ToLower(TrimSpace(s)), ':'), ' ')
  }

  /** The tokenless enrollment contract: a device, a known status, and the very certificate that was presented. */
  predicate ValidReply(r: EnrollReply, presented: string) {
    && TrimSpace(r.deviceId) != ""
    && (r.status == "enrolled" || r.status == "already-enrolled")
    && NormalizeThumbprint(r.thumbprint) != "" && NormalizeThumbprint(r.thumbprint) == NormalizeThumbprint(presented)
  }

  // The wire.

  datatype Outcome = Answered | Denied | Broken(mentionsGrace: bool)

  /** What a heartbeat was answered; `graceUntil` is there while the backend's grace window is open. */
  datatype BeatReply = BeatReply(accepted: bool, graceUntil: Option<int>, serverTime: Option<int>)

  /** A heartbeat keeps what was on hand when it was sent, and the two clock readings its answer was judged by. */
  datatype Event =
    | EnrollSent(outcome: Outcome, reply: EnrollReply, presented: string)
    | RefreshSent(outcome: Outcome, token: string, expires: Option<int>)
    | HeartbeatSent(outcome: Outcome, bearer: string, held: Cert, stored: Record,
                    beat: BeatReply, graceAt: int, certAt: int)
    | PollSent(outcome: Outcome, bearer: string, full: bool)
    | SubmitSent(outcome: Outcome, bearer: string)

  /** The backend refused the certificate or the token, by status code or by accepted=false. */
  predicate AuthFails(e: Event) {
    e.outcome == Denied || (e.HeartbeatSent? && e.outcome == Answered && !e.beat.accepted)
  }

  /** The grace window is over by the backend's clock, or by ours where it gave none. */
  predicate GraceOver(e: Event)
    requires e.HeartbeatSent?
  {
    && e.beat.graceUntil.Some?
    && e.beat.graceUntil.value < (if e.beat.serverTime.Some? then e.beat.serverTime.value else e.graceAt)
  }

  predicate GraceEnds(e: Event) {
    e.HeartbeatSent? && e.outcome == Answered && e.beat.accepted && GraceOver(e)
  }

  /** A failed request whose error text speaks of the expired grace window; a failed refresh is not looked at. */
  predicate MentionsGrace(e: Event) {
    e.outcome == Broken(true) && !e.RefreshSent?
  }

  /** The error with which an event ends the loop, if it does. */
  function Fatal(e: Event): Option<Error> {
    if AuthFails(e) then Some(AuthFailure)
    else if GraceEnds(e) then Some(GraceExpired)
    else if MentionsGrace(e) then Some(Other(true))
    else None
  }

  predicate CleanBeat(e: Event) {
    && e.HeartbeatSent? && e.outcome == Answered && e.beat.accepted && !GraceOver(e)
    && (e.held.notAfter.Some? ==> e.certAt <= e.held.notAfter.value)
  }

  /** A refresh that was answered with neither a token nor an expiry. */
  predicate Stripped(e: Event) {
    e.RefreshSent? && e.outcome == Answered && e.token == "" && e.expires == None
  }

  /** The last event ends an iteration well: nothing was queued, or the result of what was queued is delivered. */
  predicate Completed(wire: seq<Event>) {
    && wire != []
    && var e := wire[|wire| - 1];
       e.outcome == Answered && ((e.PollSent? && !e.full) || e.SubmitSent?)
  }

  /** The backend did its part: it answered, and with something the agent can use. */
  predicate Favourable(e: Event) {
    e.outcome == Answered
    && match e
       case EnrollSent(_, reply, presented) => ValidReply(reply, presented)
       case RefreshSent(_, token, expires) => TrimSpace(token) != "" && expires.Some?
       case HeartbeatSent(_, _, _, _, _, _, _) => CleanBeat(e)
       case _ => true
  }

  predicate Favoured(before: seq<Event>, after: seq<Event>) {
    forall i | |before| <= i < |after| :: Favourable(after[i])
  }

  /** An event that ends the loop can only be the last thing on the wire. */
  predicate FatalIsLast(wire: seq<Event>) {
    forall i | 0 <= i < |wire| - 1 :: Fatal(wire[i]).None?
  }

  predicate NothingFatal(wire: seq<Event>) {
    forall i | 0 <= i < |wire| :: Fatal(wire[i]).None?
  }

  /**
   * Every heartbeat carries the credential of a valid stored record that is bound to the held certificate; every poll
   * directly follows a clean heartbeat with the same credential, every submit an answered poll.
   */
  predicate WellOrdered(wire: seq<Event>) {
    forall i | 0 <= i < |wire| :: MayFollow(wire[..i], wire[i])
  }

  predicate MayFollow(before: seq<Event>, e: Event) {
    match e
    case HeartbeatSent(_, bearer, held, stored, _, _, _) =>
      stored.Valid() && stored.thumbprint == held.thumbprint && stored.token == bearer
    case PollSent(_, bearer, _) =>
      before != [] && CleanBeat(before[|before| - 1]) && before[|before| - 1].bearer == bearer
    case SubmitSent(_, bearer) =>
      before != [] && AnsweredPoll(before[|before| - 1]) && before[|before| - 1].bearer == bearer
    case _ => true
  }

  predicate AnsweredPoll(e: Event) {
    e.PollSent? && e.outcome == Answered && e.full
  }

  lemma Append(wire: seq<Event>, e: Event)
    ensures NothingFatal(wire) ==> FatalIsLast(wire + [e]) && (NothingFatal(wire + [e]) <==> Fatal(e).None?)
    ensures WellOrdered(wire) && MayFollow(wire, e) ==> WellOrdered(wire + [e])
  {
    var longer := wire + [e];
    assert longer[|wire|] == e && longer[..|wire|] == wire;
    forall i | 0 <= i < |wire| ensures longer[i] == wire[i] && longer[..i] == wire[..i] {
    }
  }

  datatype Error = AuthFailure | GraceExpired | TokenlessUnsupported | NoCertMatch | Other(mentionsGrace: bool)

  predicate IsFatal(e: Error) {
    e == AuthFailure || e == GraceExpired || (e.Other? && e.mentionsGrace)
  }

  function ErrorOf(o: Outcome): Error
    requires o != Answered
  {
    if o == Denied then AuthFailure else Other(o.mentionsGrace)
  }

  datatype Result<T> = Ok(value: T) | Err(error: Error)

  /** What one call added to the wire: only its last event can be fatal, and the order law goes on. */
  ghost predicate Sound(before: seq<Event>, after: seq<Event>) {
    && before <= after
    && (NothingFatal(before) ==> FatalIsLast(after))
    && (WellOrdered(before) ==> WellOrdered(after))
  }

  /** The last event is fatal, and this is the error it stands for. */
  ghost predicate EndedBy<T>(wire: seq<Event>, r: Result<T>) {
    wire != [] && r.Err? && Fatal(wire[|wire| - 1]) == Some(r.error)
  }

  /**
   * A call reports a fatal error exactly when the last event it sent is fatal, and then that one; only where local
   * calls may fail can an error that speaks of the grace window have another cause.
   */
  ghost predicate Explained<T>(before: seq<Event>, after: seq<Event>, r: Result<T>, faulty: bool) {
    && (|after| > |before| && Fatal(after[|after| - 1]).Some? ==> r == Err(Fatal(after[|after| - 1]).value))
    && (r.Err? && IsFatal(r.error) ==>
          || (|after| > |before| && Fatal(after[|after| - 1]) == Some(r.error))
          || (faulty && r.error == Other(true)))
  }

  /** Two calls one after the other, the first of which succeeded. */
  lemma Sequel<T, U>(a: seq<Event>, b: seq<Event>, first: Result<T>, c: seq<Event>, r: Result<U>, faulty: bool)
    requires Sound(a, b) && Explained(a, b, first, faulty) && first.Ok?
    requires Sound(b, c) && Explained(b, c, r, faulty)
    ensures Sound(a, c) && Explained(a, c, r, faulty)
    ensures forall i | |a| <= i < |b| :: c[i] == b[i]
  {
    if NothingFatal(a) {
      NotFatalYet(a, b);
    }
  }

  lemma NotFatalYet(before: seq<Event>, after: seq<Event>)
    requires NothingFatal(before) && before <= after && FatalIsLast(after)
    requires |after| > |before| ==> Fatal(after[|after| - 1]).None?
    ensures NothingFatal(after)
  {
  }

  // The world outside: any functions.

  type Thumbprint = s: string | s != "" witness "0"

  /** How the backend answers a request; each kind of request looks at its own part. */
  datatype Answer = Answer(
    outcome: Outcome, enroll: EnrollReply, token: string, expires: Option<int>, beat: BeatReply, full: bool)

  /** A certificate the provider can find, and whether its signer has a handle to close. */
  datatype Offer = Offer(thumbprint: Thumbprint, notAfter: Option<int>, closable: bool)

  /** The answer to the n-th request, the n-th certificate found, the n-th reading of the clock. */
  datatype World = World(answer: nat -> Answer, offer: nat -> Offer, clock: nat -> int)

  /** The first request of these was a refresh. */
  predicate RefreshFirst(before: seq<Event>, after: seq<Event>) {
    |after| > |before| && after[|before|].RefreshSent?
  }

  predicate AnsweredSo(e: Event, a: Answer) {
    e == RefreshSent(a.outcome, a.token, a.expires)
  }

  /** The first request was a refresh that took the token away, and the record without it is stored. */
  predicate LostToken(before: seq<Event>, after: seq<Event>, was: Record, now: Record) {
    |after| > |before| && Stripped(after[|before|]) && now == was.(token := "", tokenExpires := None)
  }

  class Runner {
    const refreshWindow: int
    const world: World
    /** Whether the certificate provider, the store and the command executor may fail. */
    const faulty: bool
    var loaded: Cert
    var wired: bool
    var store: Record
    /** The process's open private-key handles, those dropped by `WaitForCert`, and the next fresh one. */
    var open: set<nat>
    var dropped: set<nat>
    var next: nat
    /** Every certificate the provider has returned; requests sent, clock readings taken, iterations begun. */
    var provided: seq<Cert>
    var sent: nat
    var readings: nat
    var passes: nat
    ghost var wire: seq<Event>

    constructor (refreshWindow: int, world: World, faulty: bool, store: Record)
      ensures Valid() && wire == [] && open == {} && dropped == {} && provided == [] && passes == 0 && readings == 0
      ensures loaded == NO_CERT && !wired && this.store == store
      ensures this.refreshWindow == refreshWindow && this.world == world && this.faulty == faulty
    {
      this.refreshWindow, this.world, this.faulty, this.store := refreshWindow, world, faulty, store;
      loaded, wired, wire := NO_CERT, false, [];
      open, dropped, next, provided, sent, readings, passes := {}, {}, 0, [], 0, 0, 0;
    }

    /** The open handles are the held certificate's, if it has one, and those that were dropped. */
    ghost predicate Valid()
      reads this
    {
      && open == dropped + Handle(loaded) && dropped !! Handle(loaded)
      && (forall h | h in open :: h < next)
      && (wired ==> loaded.thumbprint != "" && loaded in provided)
      && sent == |wire|
      && (forall i | 0 <= i < |provided| :: IsOffer(i, provided[i]))
    }

    predicate IsOffer(i: nat, c: Cert) {
      var offer := world.offer(i);
      c.thumbprint == offer.thumbprint && c.notAfter == offer.notAfter && (c.handle.Some? <==> offer.closable)
    }

    function Handle(c: Cert): set<nat> {
      if c.handle.Some? then {c.handle.value} else {}
    }

    // The certificate.

    /** The provider acquires a fresh handle with every certificate it returns. */
    method LoadEligibleCert() returns (r: Result<Cert>)
      modifies this`open, this`next, this`provided
      ensures !faulty ==> r.Ok?
      ensures r.Err? ==> open == old(open) && next == old(next) && provided == old(provided)
      ensures r.Err? ==> r.error == NoCertMatch || r.error.Other?
      ensures r.Ok? ==>
                open == old(open) + Handle(r.value) && next == old(next) + 1 && provided == old(provided) + [r.value]
      ensures r.Ok? ==> r.value.thumbprint != "" && IsOffer(|old(provided)|, r.value)
      ensures r.Ok? && r.value.handle.Some? ==> r.value.handle.value == old(next)
    {
      var found: bool := *;
      if faulty && !found {
        var missing: bool := *;
        var grace: bool := *;
        return Err(if missing then NoCertMatch else Other(grace));
      }
      var offer := world.offer(|provided|);
      var c := Cert(offer.thumbprint, offer.notAfter, if offer.closable then Some(next) else None);
      open, next, provided := open + Handle(c), next + 1, provided + [c];
      return Ok(c);
    }

    /** Closing asks that the handle be open: no handle is ever closed twice. */
    method CloseSigner(c: Cert)
      requires Handle(c) <= open
      modifies this`open
      ensures open == old(open) - Handle(c)
    {
      open := open - Handle(c);
    }

    /** Load, and on a new thumbprint build the clients and take the certificate over; every other way out closes it. */
    method EnsureCert() returns (r: Result<()>)
      requires Valid()
      modifies this`open, this`next, this`provided, this`loaded, this`wired
      ensures Valid() && (!faulty ==> r.Ok?)
      ensures r.Err? ==> loaded == old(loaded) && wired == old(wired) && open == old(open)
      ensures r.Err? ==> r.error == NoCertMatch || r.error.Other?
      ensures old(provided) <= provided && |provided| <= |old(provided)| + 1
      ensures r.Ok? ==> wired && |provided| == |old(provided)| + 1
      ensures r.Ok? ==>
                var offered := provided[|provided| - 1];
                if old(wired) && old(loaded).thumbprint == offered.thumbprint
                then loaded == old(loaded) && open == old(open) else loaded == offered
    {
      var got := LoadEligibleCert();
      if got.Err? {
        return Err(got.error);
      }
      var cert := got.value;
      if loaded.thumbprint == cert.thumbprint && wired {
        CloseSigner(cert);
        return Ok(());
      }
      var built: bool := *;
      if faulty && !built {
        var grace: bool := *;
        CloseSigner(cert);
        return Err(Other(grace));
      }
      var previous := loaded;
      loaded, wired := cert, true;
      CloseSigner(previous);
      return Ok(());
    }

    /** The first wait for a certificate: what it loads is neither kept nor closed. */
    method WaitForCert(patience: nat) returns (r: Result<()>)
      requires Valid()
      modifies this`open, this`next, this`dropped, this`provided
      ensures Valid() && (!faulty && patience > 0 ==> r.Ok?)
      ensures r.Err? ==> open == old(open) && dropped == old(dropped) && provided == old(provided) && r.error.Other?
      ensures r.Ok? ==>
                && |provided| == |old(provided)| + 1 && old(provided) <= provided
                && var offered := Handle(provided[|old(provided)|]);
                   offered !! old(open) && open == old(open) + offered && dropped == old(dropped) + offered
    {
      var attempt := 0;
      while attempt < patience
        invariant next == old(next) && open == old(open) && dropped == old(dropped) && provided == old(provided)
        invariant !faulty ==> attempt == 0
      {
        var got := LoadEligibleCert();
        if got.Ok? {
          dropped := dropped + Handle(got.value);
          return Ok(());
        }
        if got.error != NoCertMatch {
          return Err(got.error);
        }
        attempt := attempt + 1;
      }
      return Err(Other(false));
    }

    // Requests.

    method Send(e: Event)
      requires Valid()
      modifies this`wire, this`sent
      ensures Valid() && wire == old(wire) + [e]
      ensures NothingFatal(old(wire)) ==> FatalIsLast(wire) && (NothingFatal(wire) <==> Fatal(e).None?)
      ensures WellOrdered(old(wire)) && MayFollow(old(wire), e) ==> WellOrdered(wire)
    {
      Append(wire, e);
      wire, sent := wire + [e], sent + 1;
    }

    method ReadClock() returns (now: int)
      modifies this`readings
      ensures now == world.clock(old(readings)) && readings == old(readings) + 1
    {
      now := world.clock(readings);
      readings := readings + 1;
    }

    method WriteStore(record: Record) returns (ok: bool)
      requires record.Valid()
      modifies this`store
      ensures store == if ok then record else old(store)
      ensures !faulty ==> ok
    {
      ok := *;
      ok := ok || !faulty;
      if ok {
        store := record;
      }
    }

    /** Nothing enrolled yet, another certificate, or a token that has run out. */
    predicate NeedsReissue(persisted: Record, now: int)
      reads this`loaded
    {
      persisted.IsZero() || persisted.ThumbprintChanged(loaded.thumbprint) || persisted.TokenExpired(now)
    }

    /** `reconcileEnrollment`: after it succeeds the record is stored and bound to the loaded certificate. */
    method Reconcile(persisted: Record, now: int) returns (r: Result<Record>)
      requires Valid() && wired && (persisted.IsZero() || (persisted.Valid() && store == persisted))
      modifies this`wire, this`sent, this`store
      ensures Valid() && Sound(old(wire), wire) && Explained(old(wire), wire, r, faulty)
      ensures r.Ok? ==> r.value.Valid() && store == r.value && r.value.thumbprint == loaded.thumbprint
      ensures r.Ok? ==> !r.value.TokenExpired(now)
      ensures if NeedsReissue(persisted, now)
              then var a := world.answer(|old(wire)|);
                   wire == old(wire) + [EnrollSent(a.outcome, a.enroll, loaded.thumbprint)]
              else wire == old(wire) && r == Ok(persisted) && store == old(store)
      ensures r.Ok? && wire != old(wire) ==>
                var reply := wire[|old(wire)|].reply;
                ValidReply(reply, loaded.thumbprint) && r.value == Record(reply.deviceId, "", None, loaded.thumbprint)
      ensures !faulty && Favoured(old(wire), wire) ==> r.Ok?
      ensures r.Err? ==> r != Err(TokenlessUnsupported) && store == old(store)
    {
      var current := loaded.thumbprint;
      if !NeedsReissue(persisted, now) {
        return Ok(persisted);
      }
      var answer := world.answer(sent);
      Send(EnrollSent(answer.outcome, answer.enroll, current));
      if answer.outcome != Answered {
        return Err(ErrorOf(answer.outcome));
      }
      if !ValidReply(answer.enroll, current) {
        return Err(Other(false));
      }
      var record := Record(answer.enroll.deviceId, "", None, current);
      assert record.deviceId != "";
      var ok := WriteStore(record);
      if !ok {
        return Err(Other(false));
      }
      return Ok(record);
    }

    predicate RefreshDue(persisted: Record, now: int) {
      && !persisted.TokenExpired(now) && persisted.TokenExpiringWithin(now, refreshWindow)
      && TrimSpace(persisted.token) != ""
    }

    /**
     * `maybeRefreshToken`: a refusal is reported, any other failed request keeps the token that still works.  A reply
     * is taken when it has a token and an expiry, and also when it has neither.
     */
    method MaybeRefreshToken(persisted: Record, now: int) returns (r: Result<Record>)
      requires Valid() && persisted.Valid() && store == persisted && persisted.token != ""
      requires persisted.thumbprint == loaded.thumbprint
      modifies this`wire, this`sent, this`store
      ensures Valid() && Sound(old(wire), wire) && Explained(old(wire), wire, r, faulty)
      ensures r.Ok? ==> r.value.Valid() && store == r.value && r.value.thumbprint == loaded.thumbprint
      ensures r.Err? ==> r != Err(TokenlessUnsupported) && store == old(store)
      ensures if RefreshDue(persisted, now)
              then var a := world.answer(|old(wire)|);
                   && wire == old(wire) + [RefreshSent(a.outcome, a.token, a.expires)]
                   && (r.Ok? ==> r.value == Renewed(persisted, wire[|old(wire)|]))
                   && (r.Ok? ==> Kept(wire[|old(wire)|]))
                   && (!faulty && Kept(wire[|old(wire)|]) ==> r.Ok?)
              else wire == old(wire) && r == Ok(persisted)
    {
      if !RefreshDue(persisted, now) {
        return Ok(persisted);
      }
      var answer := world.answer(sent);
      Send(RefreshSent(answer.outcome, answer.token, answer.expires));
      if answer.outcome == Denied {
        return Err(AuthFailure);
      }
      if answer.outcome != Answered {
        return Ok(persisted);
      }
      var renewed := persisted.(token := answer.token, tokenExpires := answer.expires);
      if !renewed.Valid() {
        return Err(Other(false));
      }
      var ok := WriteStore(renewed);
      if !ok {
        return Err(Other(false));
      }
      return Ok(renewed);
    }

    /** The record after a refresh: a request that failed changes nothing. */
    function Renewed(persisted: Record, e: Event): Record
      requires e.RefreshSent?
    {
      if e.outcome == Answered then persisted.(token := e.token, tokenExpires := e.expires) else persisted
    }

    /**
     * The iteration goes on after this refresh: the request failed without a refusal, or both or neither field came.
     */
    predicate Kept(e: Event)
      requires e.RefreshSent?
    {
      e.outcome.Broken? || (e.outcome == Answered && (e.token == "" <==> e.expires == None))
    }

    /** `sendHeartbeat`: accepted=false is a refusal; an expired grace window or certificate stops the iteration. */
    method SendHeartbeat(bearer: string) returns (r: Result<()>)
      requires Valid() && store.Valid() && store.thumbprint == loaded.thumbprint && store.token == bearer
      modifies this`wire, this`sent, this`readings
      ensures Valid() && Sound(old(wire), wire) && Explained(old(wire), wire, r, faulty)
      ensures if bearer != "" && TrimSpace(bearer) == "" then wire == old(wire)
              else var a := world.answer(|old(wire)|);
                   wire == old(wire) + [HeartbeatSent(a.outcome, bearer, loaded, store, a.beat,
                                                      world.clock(old(readings)), world.clock(old(readings) + 1))]
      ensures r.Ok? <==> wire != old(wire) && CleanBeat(wire[|wire| - 1])
      ensures r != Err(TokenlessUnsupported)
    {
      if bearer != "" && TrimSpace(bearer) == "" {
        return Err(Other(false));
      }
      var answer := world.answer(sent);
      var graceAt := ReadClock();
      var certAt := ReadClock();
      Send(HeartbeatSent(answer.outcome, bearer, loaded, store, answer.beat, graceAt, certAt));
      if answer.outcome != Answered {
        return Err(ErrorOf(answer.outcome));
      }
      if !answer.beat.accepted {
        return Err(AuthFailure);
      }
      if answer.beat.graceUntil.Some? {
        var reference := if answer.beat.serverTime.Some? then answer.beat.serverTime.value else graceAt;
        if reference > answer.beat.graceUntil.value {
          return Err(GraceExpired);
        }
      }
      if loaded.notAfter.Some? && certAt > loaded.notAfter.value {
        return Err(Other(false));
      }
      return Ok(());
    }

    /** `pollAndExecuteInternal`: one poll, and a submit when there was a command. */
    method PollAndExecute(bearer: string) returns (r: Result<()>)
      requires Valid() && wire != [] && CleanBeat(wire[|wire| - 1]) && wire[|wire| - 1].bearer == bearer
      modifies this`wire, this`sent
      ensures Valid() && Sound(old(wire), wire) && Explained(old(wire), wire, r, faulty)
      ensures |wire| > |old(wire)| && wire[|old(wire)|].PollSent? && (r.Ok? ==> Completed(wire))
      ensures !faulty && Favoured(old(wire), wire) ==> r.Ok?
      ensures r != Err(TokenlessUnsupported)
    {
      var answer := world.answer(sent);
      Send(PollSent(answer.outcome, bearer, answer.full));
      if answer.outcome != Answered {
        return Err(ErrorOf(answer.outcome));
      }
      if !answer.full {
        return Ok(());
      }
      var complete: bool := *;
      if faulty && !complete {
        return Err(Other(false));
      }
      var submitted := world.answer(sent).outcome;
      Send(SubmitSent(submitted, bearer));
      assert wire[|old(wire)| + 1] == SubmitSent(submitted, bearer);
      if submitted != Answered {
        return Err(ErrorOf(submitted));
      }
      return Ok(());
    }

    /** Heartbeat, then poll: with the certificate alone where the bearer is empty. */
    method HeartbeatAndPoll(bearer: string) returns (r: Result<()>)
      requires Valid() && store.Valid() && store.thumbprint == loaded.thumbprint && store.token == bearer
      modifies this`wire, this`sent, this`readings
      ensures Valid() && Sound(old(wire), wire) && Explained(old(wire), wire, r, faulty)
      ensures r != Err(TokenlessUnsupported) && (r.Ok? ==> Completed(wire))
      ensures if bearer != "" && TrimSpace(bearer) == "" then wire == old(wire)
              else |wire| > |old(wire)| && wire[|old(wire)|].HeartbeatSent?
      ensures !faulty && (bearer == "" || TrimSpace(bearer) != "") && Favoured(old(wire), wire) ==> r.Ok?
    {
      var beat := SendHeartbeat(bearer);
      if beat.Err? {
        return beat;
      }
      ghost var mid := wire;
      r := PollAndExecute(bearer);
      Sequel(old(wire), mid, beat, wire, r, faulty);
    }

    /** The bearer-only tail of an iteration; it refuses exactly after a refresh that took the token away. */
    method TokenLifecycle(persisted: Record, now: int) returns (r: Result<()>)
      requires Valid() && persisted.Valid() && store == persisted && persisted.token != ""
      requires persisted.thumbprint == loaded.thumbprint
      modifies this`wire, this`sent, this`readings, this`store
      ensures Valid() && Sound(old(wire), wire) && Explained(old(wire), wire, r, faulty)
      ensures store == old(store) || store.Valid()
      ensures r.Ok? ==> store.Valid() && store.thumbprint == loaded.thumbprint && Completed(wire)
      ensures !faulty && TrimSpace(persisted.token) != "" && Favoured(old(wire), wire) ==> r.Ok?
      ensures RefreshFirst(old(wire), wire) <==> RefreshDue(persisted, now)
      ensures RefreshFirst(old(wire), wire) ==> AnsweredSo(wire[|old(wire)|], world.answer(|old(wire)|))
      ensures r == Err(TokenlessUnsupported) <==> LostToken(old(wire), wire, persisted, store)
      ensures !faulty && RefreshFirst(old(wire), wire) && Stripped(wire[|old(wire)|]) ==> r == Err(TokenlessUnsupported)
    {
      var refreshed := MaybeRefreshToken(persisted, now);
      if refreshed.Err? {
        return Err(refreshed.error);
      }
      if refreshed.value.token == "" {
        return Err(TokenlessUnsupported);
      }
      ghost var mid := wire;
      r := HeartbeatAndPoll(refreshed.value.token);
      Sequel(old(wire), mid, refreshed, wire, r, faulty);
    }

    /** The tail the record calls for. */
    method Continue(persisted: Record) returns (r: Result<()>)
      requires Valid() && persisted.Valid() && store == persisted && persisted.thumbprint == loaded.thumbprint
      modifies this`wire, this`sent, this`readings, this`store
      ensures Valid() && Sound(old(wire), wire) && Explained(old(wire), wire, r, faulty)
      ensures store == old(store) || store.Valid()
      ensures r.Ok? ==> store.Valid() && store.thumbprint == loaded.thumbprint && Completed(wire)
      ensures !faulty && Usable(persisted) && Favoured(old(wire), wire) ==> r.Ok?
      ensures RefreshFirst(old(wire), wire) <==>
                !persisted.IsTokenless() && RefreshDue(persisted, world.clock(old(readings)))
      ensures RefreshFirst(old(wire), wire) ==> AnsweredSo(wire[|old(wire)|], world.answer(|old(wire)|))
      ensures r == Err(TokenlessUnsupported) <==> LostToken(old(wire), wire, persisted, store)
      ensures !faulty && RefreshFirst(old(wire), wire) && Stripped(wire[|old(wire)|]) ==> r == Err(TokenlessUnsupported)
    {
      if persisted.IsTokenless() {
        r := HeartbeatAndPoll("");
      } else {
        var later := ReadClock();
        r := TokenLifecycle(persisted, later);
      }
    }

    /** Reconcile with the certificate in hand, then the tail the record calls for. */
    method Serve(found: Record) returns (r: Result<()>)
      requires Valid() && wired && store == found && (found.IsZero() || found.Valid())
      modifies this`wire, this`sent, this`readings, this`store
      ensures Valid() && Sound(old(wire), wire) && Explained(old(wire), wire, r, faulty)
      ensures store == old(store) || store.Valid()
      ensures r.Ok? ==> store.Valid() && store.thumbprint == loaded.thumbprint && Completed(wire)
      ensures !faulty && Usable(found) && Favoured(old(wire), wire) ==> r.Ok?
      ensures RefreshFirst(old(wire), wire) <==> Refreshes(found, old(readings))
      ensures RefreshFirst(old(wire), wire) ==> AnsweredSo(wire[|old(wire)|], world.answer(|old(wire)|))
      ensures r == Err(TokenlessUnsupported) <==> LostToken(old(wire), wire, found, store)
      ensures !faulty && RefreshFirst(old(wire), wire) && Stripped(wire[|old(wire)|]) ==> r == Err(TokenlessUnsupported)
    {
      var now := ReadClock();
      var reconciled := Reconcile(found, now);
      if reconciled.Err? {
        return Err(reconciled.error);
      }
      ghost var mid := wire;
      r := Continue(reconciled.value);
      Sequel(old(wire), mid, reconciled, wire, r, faulty);
    }

    /** The record found is kept at the first clock reading, and its token is up for a refresh at the second. */
    predicate Refreshes(found: Record, at: nat)
      reads this`loaded
    {
      && !NeedsReissue(found, world.clock(at)) && !found.IsTokenless()
      && RefreshDue(found, world.clock(at + 1))
    }

    /** A stored record an iteration can start from: none, or a valid one whose token, if any, is more than blanks. */
    predicate Usable(record: Record) {
      record.IsZero() || (record.Valid() && (record.token == "" || TrimSpace(record.token) != ""))
    }

    /**
     * One iteration: read, validate, ensure the certificate, reconcile, then heartbeat and poll.  When nothing fails
     * and the backend does its part, it completes.
     */
    method Iterate() returns (r: Result<()>)
      requires Valid()
      modifies this
      ensures Valid() && Sound(old(wire), wire) && Explained(old(wire), wire, r, faulty)
      ensures dropped == old(dropped) && passes == old(passes) + 1
      ensures old(provided) <= provided
      ensures store == old(store) || store.Valid()
      ensures r.Ok? ==> store.Valid() && store.thumbprint == loaded.thumbprint && Completed(wire)
      ensures !faulty && (old(store).IsZero() || old(store).Valid()) ==> wired
      ensures !faulty && Usable(old(store)) && Favoured(old(wire), wire) ==> r.Ok?
      ensures !faulty && old(store).Valid() ==>
                (RefreshFirst(old(wire), wire) <==> Refreshes(old(store), old(readings)))
      ensures RefreshFirst(old(wire), wire) ==> AnsweredSo(wire[|old(wire)|], world.answer(|old(wire)|))
      ensures r == Err(TokenlessUnsupported) <==> LostToken(old(wire), wire, old(store), store)
      ensures !faulty && RefreshFirst(old(wire), wire) && Stripped(wire[|old(wire)|]) ==> r == Err(TokenlessUnsupported)
    {
      passes := passes + 1;
      var readable: bool := *;
      if faulty && !readable {
        return Err(Other(false));
      }
      var persisted := store;
      if !persisted.IsZero() && !persisted.Valid() {
        return Err(Other(false));
      }
      var ensured := EnsureCert();
      if ensured.Err? {
        return ensured;
      }
      r := Serve(persisted);
    }

    /** One tick of the loop, and whether it ends it: the error is fatal. */
    method Tick() returns (stop: bool, r: Result<()>)
      requires Valid() && NothingFatal(wire) && WellOrdered(wire)
      modifies this
      ensures Valid() && WellOrdered(wire) && FatalIsLast(wire) && dropped == old(dropped) && passes == old(passes) + 1
      ensures old(provided) <= provided && (store == old(store) || store.Valid())
      ensures !faulty && (old(store).IsZero() || old(store).Valid()) ==> wired
      ensures !stop ==> NothingFatal(wire)
      ensures stop ==> EndedBy(wire, r) || (faulty && r == Err(Other(true)))
      ensures wire != [] && Fatal(wire[|wire| - 1]).Some? ==> stop && EndedBy(wire, r)
    {
      ghost var before := wire;
      r := Iterate();
      stop := r.Err? && IsFatal(r.error);
      if !stop {
        NotFatalYet(before, wire);
      }
    }

    /** The ticks, until a fatal error. */
    method Ticks(ticks: nat) returns (r: Result<()>)
      requires Valid() && NothingFatal(wire) && WellOrdered(wire) && passes == 0
      modifies this
      ensures Valid() && FatalIsLast(wire) && WellOrdered(wire) && dropped == old(dropped) && old(provided) <= provided
      ensures wire != [] && Fatal(wire[|wire| - 1]).Some? ==> EndedBy(wire, r)
      ensures passes <= ticks && (ticks > 0 ==> passes > 0) && (store == old(store) || store.Valid())
      ensures passes < ticks ==> (passes > 0 && EndedBy(wire, r)) || (faulty && r == Err(Other(true)))
      ensures !faulty && ticks > 0 && (old(store).IsZero() || old(store).Valid()) ==> wired
    {
      var tick := 0;
      while tick < ticks
        invariant passes == tick <= ticks && Valid() && NothingFatal(wire) && WellOrdered(wire)
        invariant dropped == old(dropped) && old(provided) <= provided && (store == old(store) || store.Valid())
        invariant !faulty && tick > 0 && (old(store).IsZero() || old(store).Valid()) ==> wired
      {
        var stop;
        stop, r := Tick();
        if stop {
          return;
        }
        tick := tick + 1;
      }
      return Err(Other(false));
    }

    /**
     * `RunLoop`, for as many ticks as the context lives: wait for a certificate, then iterate until a fatal error.  A
     * fatal event is the last thing on the wire and is what the loop returns; nothing else ends it early where no local
     * call fails.
     */
    method RunLoop(patience: nat, ticks: nat) returns (r: Result<()>)
      requires Valid() && wire == [] && dropped == {} && provided == [] && passes == 0
      modifies this
      ensures Valid() && FatalIsLast(wire) && WellOrdered(wire)
      ensures wire != [] && Fatal(wire[|wire| - 1]).Some? ==> EndedBy(wire, r)
      ensures passes <= ticks && (store == old(store) || store.Valid())
      ensures passes < ticks ==>
                || (provided == [] && wire == [] && (faulty || patience == 0))
                || (passes > 0 && EndedBy(wire, r))
                || (faulty && r == Err(Other(true)))
      ensures !faulty && patience > 0 ==> provided != [] && (ticks > 0 ==> passes > 0)
      ensures !faulty && patience > 0 && ticks > 0 && (old(store).IsZero() || old(store).Valid()) ==> wired
      ensures |open| == (if provided != [] then Count(provided[0]) else 0) + Count(loaded)
    {
      var waited := WaitForCert(patience);
      if waited.Err? {
        CountHandles(NO_CERT);
        return waited;
      }
      r := Ticks(ticks);
      CountHandles(provided[0]);
    }

    function Count(c: Cert): nat {
      if c.handle.Some? then 1 else 0
    }

    /** One open handle for the held certificate and one for the first wait's, each where it has one. */
    lemma CountHandles(waited: Cert)
      requires Valid() && dropped == Handle(waited)
      ensures |open| == Count(waited) + Count(loaded)
    {
      assert |Handle(waited)| == Count(waited) && |Handle(loaded)| == Count(loaded);
    }
  }
}

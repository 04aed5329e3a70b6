/** Two concrete runs of the auto-enroll runner in which no local call fails. */
module AutoEnrollExample {
  import opened Text
  import opened AutoEnroll

  const NO_REPLY := EnrollReply("", "", "")

  /** A backend that answers every request with the same empty reply. */
  const EMPTY_ANSWER := Answer(Answered, NO_REPLY, "", None, BeatReply(true, None, None), false)

  /** One certificate with a key handle, an idle backend, and a clock that stands still. */
  const STILL := World((n: nat) => EMPTY_ANSWER, (n: nat) => Offer("c", None, true), (n: nat) => 0)

  /** A stored token that runs out at time 50, looked at from time 0 with a window of 100. */
  const BACKED := Record("d", "t", Some(50), "c")

  lemma WorthRefreshing()
    ensures TrimSpace("t") == "t" && BACKED.Valid()
  {
  }

  /**
   * An empty refresh reply passes validation and is stored: the iteration ends with the error for tokenless records,
   * and the record that is left has neither token nor expiry.
   */
  method EmptyRefreshIsStored() returns (b: Runner, r: Result<()>)
    ensures b.Valid() && !b.faulty && b.wire != [] && Stripped(b.wire[0])
    ensures r == Err(TokenlessUnsupported) && b.store == Record("d", "", None, "c") && b.store.IsTokenless()
  {
    WorthRefreshing();
    b := new Runner(100, STILL, false, BACKED);
    r := b.Iterate();
    var i :| 0 <= i < |b.provided| && b.provided[i] == b.loaded;
    assert b.IsOffer(i, b.loaded);
    assert b.Refreshes(BACKED, 0);
    assert AnsweredSo(b.wire[0], EMPTY_ANSWER);
  }

  /** The leak: after the wait and one iteration two handles are open, the held certificate's and the waited one's. */
  method WaitedHandleStaysOpen() returns (b: Runner, r: Result<()>)
    ensures b.Valid() && !b.faulty && b.wired && |b.provided| > 0
    ensures b.provided[0].handle.Some? && b.loaded.handle.Some? && |b.open| == 2
  {
    WorthRefreshing();
    b := new Runner(100, STILL, false, BACKED);
    r := b.RunLoop(1, 1);
    assert b.IsOffer(0, b.provided[0]);
    var i :| 0 <= i < |b.provided| && b.provided[i] == b.loaded;
    assert b.IsOffer(i, b.provided[i]);
  }
}

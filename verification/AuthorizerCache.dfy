/**
 * The two caches of the remote bridge: the provider keeps one authorizer for the current device id, the PTY dispatcher
 * keeps one handler built over an authorizer it fetched.  The lock sections of both interleave freely; each method
 * below is one section.
 */
module AuthorizerCache {
  import opened Text

  /** Only the identity of an authorizer matters: it carries the per-session replay guard. */
  class Authorizer {
    constructor () {
    }
  }

  datatype Serve = Serve(id: string, authz: Authorizer)

  /** Ids that, once left, are never served again. */
  ghost predicate NeverReturns(served: seq<Serve>) {
    forall i, k, j | 0 <= i < k < j < |served| && served[i].id == served[j].id :: served[k].id == served[i].id
  }

  ghost predicate SameIdThroughout(served: seq<Serve>, i: int, j: int)
    requires 0 <= i <= j < |served|
  {
    forall k | i <= k <= j :: served[k].id == served[i].id
  }

  /** Two servings are of one instance exactly when the id did not change in between. */
  ghost predicate OneInstancePerStay(served: seq<Serve>) {
    forall i, j | 0 <= i <= j < |served| :: served[i].authz == served[j].authz <==> SameIdThroughout(served, i, j)
  }

  ghost predicate Shared(served: seq<Serve>) {
    forall i, j | 0 <= i <= j < |served| && served[i].id == served[j].id :: served[i].authz == served[j].authz
  }

  /** One id means one instance exactly when no id is ever returned to. */
  lemma SharedIffNeverReturns(served: seq<Serve>)
    requires OneInstancePerStay(served)
    ensures Shared(served) <==> NeverReturns(served)
  {
    if NeverReturns(served) {
      forall i, j | 0 <= i <= j < |served| && served[i].id == served[j].id
        ensures served[i].authz == served[j].authz
      {
        assert SameIdThroughout(served, i, j);
      }
    }
    if Shared(served) {
      forall i, k, j | 0 <= i < k < j < |served| && served[i].id == served[j].id
        ensures served[k].id == served[i].id
      {
        assert SameIdThroughout(served, i, j);
      }
    }
  }

  /** Adding a serving keeps the per-stay law when it repeats the last one, or is new under a different id. */
  lemma ServeAgain(served: seq<Serve>, s: Serve)
    requires OneInstancePerStay(served)
    requires (served != [] && s == served[|served| - 1])
          || ((forall i | 0 <= i < |served| :: served[i].authz != s.authz)
              && (served != [] ==> served[|served| - 1].id != s.id))
    ensures OneInstancePerStay(served + [s])
  {
    var all, n := served + [s], |served|;
    forall i, j | 0 <= i <= j < |all|
      ensures all[i].authz == all[j].authz <==> SameIdThroughout(all, i, j)
    {
      if j < n {
        assert served[i].authz == served[j].authz <==> SameIdThroughout(served, i, j);
        assert forall k | i <= k <= j :: all[k] == served[k];
      } else if i < n {
        assert served[i].authz == served[n - 1].authz <==> SameIdThroughout(served, i, n - 1);
        assert forall k | i <= k < n :: all[k] == served[k];
        if SameIdThroughout(all, i, j) {
          assert all[n - 1].id == all[i].id && all[n].id == all[i].id;
          assert SameIdThroughout(served, i, n - 1) by {
            forall k | i <= k <= n - 1
              ensures served[k].id == served[i].id
            {
              assert all[k].id == all[i].id;
            }
          }
        }
      }
    }
  }

  class Bridge {
    // The provider's cache.
    var deviceId: string
    var authz: Authorizer?
    // The PTY dispatcher's cache; `building` is what the section holding its lock has fetched so far.
    var handlerId: string
    var handlerAuthz: Authorizer?
    var building: Option<Serve>
    /** Every authorizer the provider has handed out, and every authorizer an operation was run with. */
    ghost var served: seq<Serve>
    ghost var used: seq<Serve>

    constructor ()
      ensures Valid() && served == [] && used == [] && building == None && handlerAuthz == null
    {
      deviceId, authz, handlerId, handlerAuthz, building := "", null, "", null, None;
      served, used := [], [];
    }

    ghost predicate Valid()
      reads this
    {
      && (authz == null <==> served == [])
      && (authz != null ==> served[|served| - 1] == Serve(deviceId, authz))
      && OneInstancePerStay(served)
      && (handlerAuthz != null ==> Serve(handlerId, handlerAuthz) in served)
      && (building.Some? ==> building.value in served)
      && (forall u | u in used :: u in served)
    }

    /** `authorizerFor`, under the provider's lock; building a verifier may fail. */
    method AuthorizerFor(id: string, verifierWorks: bool) returns (a: Authorizer?)
      requires Valid()
      modifies this`deviceId, this`authz, this`served
      ensures Valid()
      ensures a == null ==> served == old(served) && deviceId == old(deviceId) && authz == old(authz)
      ensures a != null ==> id != "" && served == old(served) + [Serve(id, a)] && deviceId == id && authz == a
      ensures a != null <==> id != "" && (verifierWorks || (old(authz) != null && old(deviceId) == id))
      ensures a != null && old(authz) != null && old(deviceId) == id ==> a == old(authz)
      ensures a != null && !(old(authz) != null && old(deviceId) == id) ==> fresh(a)
    {
      if id == "" {
        return null;
      }
      if authz != null && deviceId == id {
        ServeAgain(served, Serve(id, authz));
        served := served + [Serve(id, authz)];
        return authz;
      }
      if !verifierWorks {
        return null;
      }
      var built := new Authorizer();
      ServeAgain(served, Serve(id, built));
      authz, deviceId, served := built, id, served + [Serve(id, built)];
      return built;
    }

    /** VIEW_ONLY: snapshot the device id, refuse a blank or foreign permit, fetch, use. */
    method ViewOnly(snapshot: string, permitDevice: string, verifierWorks: bool) returns (a: Authorizer?)
      requires Valid()
      modifies this
      ensures Valid()
      ensures a != null ==>
                used == old(used) + [Serve(TrimSpace(snapshot), a)]
                && served == old(served) + [Serve(TrimSpace(snapshot), a)]
      ensures a == null ==> used == old(used) && served == old(served)
      ensures a != null <==> TrimSpace(snapshot) != "" && permitDevice == TrimSpace(snapshot)
                             && (verifierWorks || (old(authz) != null && old(deviceId) == TrimSpace(snapshot)))
      ensures a != null ==> deviceId == TrimSpace(snapshot)
                            && (if old(authz) != null && old(deviceId) == deviceId then a == old(authz) else fresh(a))
      ensures handlerId == old(handlerId) && handlerAuthz == old(handlerAuthz) && building == old(building)
    {
      var id := TrimSpace(snapshot);
      if id == "" || permitDevice != id {
        return null;
      }
      a := AuthorizerFor(id, verifierWorks);
      if a != null {
        used := used + [Serve(id, a)];
      }
    }

    /** PTY, first section: a cached handler for the id is used as it is. */
    method PtyCached(snapshot: string, permitDevice: string) returns (a: Authorizer?)
      requires Valid() && building.None?
      modifies this`used
      ensures Valid()
      ensures var id := TrimSpace(snapshot);
              a ==
                if id != "" && permitDevice == id && handlerAuthz != null && handlerId == id then handlerAuthz else null
      ensures used == if a != null then old(used) + [Serve(handlerId, a)] else old(used)
    {
      var id := TrimSpace(snapshot);
      if id == "" || permitDevice != id || handlerAuthz == null || handlerId != id {
        return null;
      }
      a := handlerAuthz;
      used := used + [Serve(handlerId, a)];
    }

    /** PTY, second section: no cached handler, so the shared authorizer is fetched. */
    method PtyFetch(id: string, verifierWorks: bool) returns (ok: bool)
      requires Valid() && building.None? && !(handlerAuthz != null && handlerId == id)
      modifies this
      ensures Valid() && used == old(used) && handlerId == old(handlerId) && handlerAuthz == old(handlerAuthz)
      ensures ok ==>
                building.Some? && building.value.id == id && served == old(served) + [building.value] && deviceId == id
      ensures id != "" && verifierWorks ==> ok
      ensures !ok ==> building.None? && served == old(served)
    {
      var a := AuthorizerFor(id, verifierWorks);
      ok := a != null;
      if ok {
        building := Some(Serve(id, a));
      }
    }

    /** PTY, third section: the handler over the fetched authorizer is installed and used, or building it fails. */
    method PtyInstall(handlerWorks: bool) returns (a: Authorizer?)
      requires Valid() && building.Some?
      modifies this
      ensures Valid() && building.None? && served == old(served) && deviceId == old(deviceId) && authz == old(authz)
      ensures a == if handlerWorks then old(building).value.authz else null
      ensures used == if handlerWorks then old(used) + [old(building).value] else old(used)
      ensures handlerWorks ==> handlerAuthz == a && handlerId == old(building).value.id
    {
      if handlerWorks {
        handlerId, handlerAuthz := building.value.id, building.value.authz;
        used := used + [building.value];
        a := handlerAuthz;
      } else {
        a := null;
      }
      building := None;
    }
  }

  /**
   * After any interleaving of the sections: if the provider never returned to an id it had left, all operations for one
   * device id ran with one authorizer, whichever path they took.
   */
  lemma OperationsShareAuthorizer(served: seq<Serve>, used: seq<Serve>, i: nat, j: nat)
    requires OneInstancePerStay(served) && (forall u | u in used :: u in served)
    requires NeverReturns(served)
    requires i < |used| && j < |used| && used[i].id == used[j].id
    ensures used[i].authz == used[j].authz
  {
    SharedIffNeverReturns(served);
    assert used[i] in served && used[j] in served;
    var a :| 0 <= a < |served| && served[a] == used[i];
    var b :| 0 <= b < |served| && served[b] == used[j];
    if a <= b {
      assert served[a].authz == served[b].authz;
    } else {
      assert served[b].authz == served[a].authz;
    }
  }

  /** The same of a bridge, however it came to its state. */
  lemma BridgeSharesAuthorizer(b: Bridge, i: nat, j: nat)
    requires b.Valid() && NeverReturns(b.served)
    requires i < |b.used| && j < |b.used| && b.used[i].id == b.used[j].id
    ensures b.used[i].authz == b.used[j].authz
  {
    OperationsShareAuthorizer(b.served, b.used, i, j);
  }

  /**
   * The hypothesis is needed: a bridge that served A by PTY, B by VIEW_ONLY and A by VIEW_ONLY has run operations for A
   * with two authorizers, the second PTY operation among them.
   */
  method ReturningSplitsTheGuard() returns (b: Bridge, pty: Authorizer, view: Authorizer)
    ensures b.Valid() && |b.served| == 3
    ensures b.served[0] == Serve("A", pty) && b.served[1].id == "B" && b.served[2] == Serve("A", view)
    ensures b.used == [Serve("A", pty), b.served[1], Serve("A", view), Serve("A", pty)]
    ensures pty != view && !NeverReturns(b.served)
  {
    b := new Bridge();
    assert TrimSpace("A") == "A" && TrimSpace("B") == "B";
    var ok := b.PtyFetch("A", true);
    var first := b.PtyInstall(true);
    var other := b.ViewOnly("B", "B", true);
    var again := b.ViewOnly("A", "A", true);
    var cached := b.PtyCached("A", "A");
    pty, view := cached, again;
    assert b.served[0].id == b.served[2].id && b.served[1].id != b.served[0].id;
  }
}

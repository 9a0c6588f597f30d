/** A sync that failed, followed some time later by one that completes: row and tables end as if the
    failed one had never been. */
module SyncReplay {
  import opened Text
  import opened ImportStore
  import opened ImportReplay
  import opened LaterReplay
  import opened Cursor

  lemma TailOfListing(listing: seq<Response>)
    requires WholeListing(listing) && |listing| > 1
    ensures listing[0].Page? && listing[0].nextPage != "" && WholeListing(listing[1..])
  {
    var chain, rest := listing[..|listing| - 1], listing[1..];
    assert chain[0] == listing[0];
    assert forall i :: 0 <= i < |rest| - 1 ==> rest[i] == chain[i + 1];
    assert rest[|rest| - 1] == listing[|listing| - 1];
  }

  // A whole listing whose events can all be applied is taken as it comes.
  lemma {:induction false} ListenWhole(
      s: Store, w: Setting, started: Option<string>, pages: seq<Response>, listing: seq<Response>, rest: seq<Response>)
    requires WholeListing(listing) && AppliedAll(s, w, EventsOn(listing)).ok
    ensures Listen(s, w, started, pages, listing + rest) ==
            Heard(true, started, pages + listing, EventsOn(listing), rest, AppliedAll(s, w, EventsOn(listing)).store)
    decreases |listing|
  {
    var first, answers := listing[0], listing + rest;
    assert listing[|listing| - 1].Page?;
    if |listing| > 1 {
      TailOfListing(listing);
      ApplyBoth(s, w, first.events, EventsOn(listing[1..]));
      ListenWhole(AppliedAll(s, w, first.events).store, w, started, pages + [first], listing[1..], rest);
      assert answers[1..] == listing[1..] + rest;
      assert pages + [first] + listing[1..] == pages + listing;
    } else {
      assert listing == [first] && listing[1..] == [] && EventsOn(listing[1..]) == [];
      assert first.events + [] == first.events && answers[1..] == rest;
    }
  }

  lemma CoveredAreReady(s: Store, b: Binding, p: seq<Event>, now: int, evs: seq<Event>, later: int)
    requires AllCovered(s, b, p, now, evs, later)
    ensures AllReady(s, b, p, now)
  {
    forall i | 0 <= i < |p| ensures Ready(s, b, p[i], now) {
      assert Covered(s, b, p[i], now, evs[i], later);
    }
  }

  // Main result: let a sync fail, because of an answer or of an event it could not apply, without
  // losing its token. When the next sync is given a whole listing that begins with the events the
  // failed one applied, as they are by then, it completes, and row and tables are as if the failed
  // one had never been.
  lemma FailedSyncLeavesNoTrace(
      s: Store, b: Binding, c: SyncColumns, now: int, answers: seq<Response>,
      later: int, listing: seq<Response>, rest: seq<Response>)
    requires Valid(s) && Imports(b) && WholeListing(listing) && AllReady(s, b, EventsOn(listing), later)
    requires var o := Listen(s, Setting(b, now), c.syncToken, [], answers);
             && !o.ok && EndsIn(answers, o.left) && !Rejected(Taken(answers, o.left))
             && AllCovered(s, b, o.applied, now, EventsOn(listing), later)
    ensures var failed, c1 :=
              Listen(s, Setting(b, now), c.syncToken, [], answers), Synced(c, s, Setting(b, now), answers, true);
            var w, script := Setting(b, later), listing + rest;
            var again, once := Listen(failed.store, w, c1.syncToken, [], script), Listen(s, w, c.syncToken, [], script);
            && again.ok && once.ok && SameTables(again.store, once.store)
            && again.applied == once.applied == EventsOn(listing)
            && Synced(c1, failed.store, w, script, true) == Synced(c, s, w, script, true)
  {
    var w, evs := Setting(b, later), EventsOn(listing);
    var failed := Listen(s, Setting(b, now), c.syncToken, [], answers);
    SyncTakesWholeListing(c, s, Setting(b, now), answers);
    CoveredAreReady(s, b, failed.applied, now, evs, later);
    LaterReplayConverges(s, b, failed.applied, now, evs, later);
    ListenWhole(failed.store, w, c.syncToken, [], listing, rest);
    ListenWhole(s, w, c.syncToken, [], listing, rest);
  }
}

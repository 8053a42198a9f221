/** One session of the store ends; the next one starts from its record. */
module Restart {
  import opened Feed
  import opened SyncRules
  import opened FeedSafety
  import opened Journal
  import opened Client
  import opened ClientRuns
  import opened StoreSteps
  import opened ConvStore
  import opened Consumption
  import Cache
  import Drafts

  /** The key orders of the two dictionaries that a record is built from. */
  ghost predicate Orders(s: State, order: seq<Id>, goneOrder: seq<Id>) {
    Cache.Enumerates(order, s.summaries.Keys) && Cache.Enumerates(goneOrder, s.gone)
  }

  lemma OrdersListed(s: State, order: seq<Id>, goneOrder: seq<Id>)
    requires Orders(s, order, goneOrder)
    ensures forall id | id in order :: id in s.summaries
    ensures forall id | id in goneOrder :: id in s.gone
  {
  }

  /** The launched state of an accepted record, in a journal that has grown meanwhile. */
  lemma LaunchedLater(w: World, r: Cache.Record, more: seq<Change>)
    requires r.pts >= 0 && WorldOk(Cache.RelaunchedWorld(w, r)) && Lawful(w.J + more)
    ensures RecordOk(w.J + more, r, Cache.Carried(w, r))
  {
    hide WorldOk, Lawful, Cache.HydrateState, Cache.AllTo, Cache.Carried;
    GrowthKeepsWorld(Cache.RelaunchedWorld(w, r), more);
  }

  /** Whatever state a store has reached, its record, read back, is one that the next launch can take. */
  lemma RecordOfStore(s: Store, order: seq<Id>, goneOrder: seq<Id>, drafts: map<Id, Drafts.Draft>, dirty: seq<Id>,
                      ok: Cache.Checks, more: seq<Change>)
    requires s.Valid() && s.conv.pts.Some? && Orders(s.conv, order, goneOrder) && Lawful(s.J + more)
    ensures forall id | id in order :: id in s.conv.summaries
    ensures var a := Cache.ReadBack(s.S(), order, goneOrder, drafts, dirty, ok);
      (a.Some? <==> s.conv.pts.value <= Cache.MAX_SAFE) &&
      (a.Some? ==> a.value.pts == s.conv.pts.value && RecordOk(s.J + more, a.value, Cache.Carried(s.W(), a.value)))
  {
    OrdersListed(s.conv, order, goneOrder);
    assert WorldOk(s.W());
    hide WorldOk, Cache.ReadBack, Cache.Relaunched, Cache.TakenFrom, Cache.RelaunchedWorld, Cache.Carried, RecordOk, Lawful, Cache.Enumerates;
    Cache.Relaunch(s.W(), order, goneOrder, drafts, dirty, ok);
    var a := Cache.ReadBack(s.S(), order, goneOrder, drafts, dirty, ok);
    if a.Some? {
      Cache.TakenPts(s.S(), a.value);
      LaunchedLater(s.W(), a.value, more);
    }
  }

  lemma FromNothing(r: Cache.Record)
    requires r.pts >= 0
    ensures Hydrated(Sys(EMPTY, map[]), r) == Cache.HydrateState(r)
  {
    hide Cache.HydrateState;
    assert map[] + Cache.HydrateState(r).feeds == Cache.HydrateState(r).feeds;
  }

  /** A store that starts from a record. */
  method Launch(windowed: bool, ghost journal: seq<Change>, rec: Cache.Record, ghost good: set<Id>) returns (next: Store)
    requires Lawful(journal) && RecordOk(journal, rec, good)
    ensures fresh(next) && next.Valid() && next.J == journal
    ensures rec.pts >= 0 && next.S() == Cache.HydrateState(rec) && next.sound == good && next.log == [Snapshot(rec.pts)]
  {
    assert rec.pts >= 0;
    FromNothing(rec);
    hide RecordOk, Lawful, Cache.HydrateState, Hydrated;
    next := new Store(windowed, journal);
    next.ConvHydrate(rec, good);
  }

  /** What the next session reads of this store. */
  method SaveAndRead(s: Store, order: seq<Id>, goneOrder: seq<Id>, drafts: map<Id, Drafts.Draft>, dirty: seq<Id>, ok: Cache.Checks)
    returns (read: Option<Cache.Record>)
    requires forall id | id in order :: id in s.conv.summaries
    ensures read == Cache.ReadBack(s.S(), order, goneOrder, drafts, dirty, ok)
  {
    hide Cache.BuildRecord, Cache.AcceptRecord;
    var built := Cache.BuildRecordByLoop(s.S(), order, goneOrder, drafts, dirty);
    read := if built.Some? then Cache.AcceptRecord(built.value, ok) else None;
  }

  /**
   * The app is closed in any state and started again: the record is built, read back and taken by a new store, which meets
   * every claim the old one made about feeds that came through whole, at the position of the record.
   */
  method Relaunch(s: Store, order: seq<Id>, goneOrder: seq<Id>, drafts: map<Id, Drafts.Draft>, dirty: seq<Id>,
                  ok: Cache.Checks, ghost more: seq<Change>) returns (next: Store)
    requires s.Valid() && Orders(s.conv, order, goneOrder) && Lawful(s.J + more)
    ensures fresh(next) && next.Valid() && next.J == s.J + more && forall id | id in order :: id in s.conv.summaries
    ensures s.conv.pts.None? || s.conv.pts.value > Cache.MAX_SAFE ==> next.S() == Sys(EMPTY, map[])
    ensures var a := Cache.ReadBack(s.S(), order, goneOrder, drafts, dirty, ok);
      s.conv.pts.Some? && s.conv.pts.value <= Cache.MAX_SAFE ==>
        a.Some? && a.value.pts == s.conv.pts.value && next.S() == Cache.HydrateState(a.value) &&
        next.sound == Cache.Carried(s.W(), a.value) && next.log == [Snapshot(a.value.pts)]
  {
    OrdersListed(s.conv, order, goneOrder);
    if s.conv.pts.Some? {
      RecordOfStore(s, order, goneOrder, drafts, dirty, ok, more);
    } else {
      NoListNoRecord(s.S(), order, goneOrder, drafts, dirty, ok);
    }
    hide Cache.ReadBack, Cache.HydrateState, Cache.Carried, RecordOk, Lawful, Orders;
    var read := SaveAndRead(s, order, goneOrder, drafts, dirty, ok);
    if read.Some? {
      next := Launch(s.windowed, s.J + more, read.value, Cache.Carried(s.W(), read.value));
    } else {
      next := new Store(s.windowed, s.J + more);
    }
  }

  lemma NoListNoRecord(sys: Sys, order: seq<Id>, goneOrder: seq<Id>, drafts: map<Id, Drafts.Draft>, dirty: seq<Id>, ok: Cache.Checks)
    requires (forall id | id in order :: id in sys.state.summaries) && sys.state.pts.None?
    ensures Cache.ReadBack(sys, order, goneOrder, drafts, dirty, ok).None?
  {
  }
}

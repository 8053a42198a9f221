/** The client's conversation state and the rules that merge what arrives into it. */
module SyncRules {
  import opened Feed

  datatype Summary = Summary(id: Id, former: bool, lastMessageAt: int, info: string)

  /** A conversation as the server names it: a summary, or "you left", perhaps with a read-only summary. */
  datatype Standing = Present(s: Summary) | Left(id: Id, former: Option<Summary>)

  /** A message as the server shows it to this person: its current view, or a tombstone. */
  datatype Delivered = Live(m: Msg) | Tomb(id: Id, conv: Id)

  /** One numbered journal event. */
  datatype Event = Event(pts: nat, standing: Standing, message: Option<Delivered>,
                         pins: Option<seq<string>>, scheduled: Option<seq<string>>)

  datatype Phase = Idle | Syncing | Live_

  datatype Window = Window(basePts: nat, hasMoreBefore: bool, hasMoreAfter: bool, stale: bool)

  /** A list that always arrives whole, with the number it is true at. */
  datatype Numbered = Numbered(pts: nat, list: seq<string>)

  datatype State = State(pts: Option<nat>, phase: Phase, buffer: seq<Event>,
                         summaries: map<Id, Summary>, summaryPts: map<Id, nat>,
                         windows: map<Id, Window>, msgPts: map<Id, nat>, gone: set<Id>,
                         pins: map<Id, Numbered>, scheduled: map<Id, Numbered>)

  type Feeds = map<Id, seq<Msg>>

  datatype ListReply = ListReply(pts: nat, conversations: seq<Summary>, former: seq<Summary>)

  datatype Page = Page(pts: nat, messages: seq<Msg>, hasMoreBefore: bool, hasMoreAfter: bool)

  datatype PageKind = Latest | Older | Newer | Jump

  /** A state and the feed of the conversation that the rule was about. */
  datatype Merged = Merged(state: State, list: Option<seq<Msg>>)

  const EMPTY: State :=
    State(None, Idle, [], map[], map[], map[], map[], {}, map[], map[])

  function Max(a: nat, b: nat): nat { if a > b then a else b }

  function PtsOf(s: State): nat { if s.pts.Some? then s.pts.value else 0 }

  function StandingId(s: Standing): Id { if s.Present? then s.s.id else s.id }

  function DeliveredId(d: Delivered): Id { if d.Live? then d.m.id else d.id }

  function DeliveredConv(d: Delivered): Id { if d.Live? then d.m.conv else d.conv }

  // ----- what to do with a live event -----

  datatype Decision = Apply | Skip | Gap | Buffer

  function EventDecision(s: State, P: nat): Decision {
    if s.phase != Live_ || s.pts.None? then Buffer
    else if P <= s.pts.value then Skip
    else if P == s.pts.value + 1 then Apply
    else Gap
  }

  function InsertEvent(s: seq<Event>, e: Event): (r: seq<Event>)
    ensures |r| == |s| + 1
    ensures forall x :: x in r <==> x in s || x == e
  {
    if s == [] then [e]
    else if e.pts < s[|s| - 1].pts then
      assert s == s[..|s| - 1] + [s[|s| - 1]];
      InsertEvent(s[..|s| - 1], e) + [s[|s| - 1]]
    else s + [e]
  }

  function SortEvents(s: seq<Event>): (r: seq<Event>)
    ensures |r| == |s|
    ensures forall x :: x in r <==> x in s
  {
    if s == [] then []
    else
      assert s == s[..|s| - 1] + [s[|s| - 1]];
      InsertEvent(SortEvents(s[..|s| - 1]), s[|s| - 1])
  }

  function BufferEvent(buffer: seq<Event>, ev: Event): seq<Event> {
    if exists b | b in buffer :: b.pts == ev.pts then buffer else SortEvents(buffer + [ev])
  }

  datatype Plan = Plan(apply: seq<Event>, rest: seq<Event>, gap: bool)

  function DrainSorted(cur: nat, sorted: seq<Event>): Plan
    decreases |sorted|
  {
    if sorted == [] then Plan([], [], false)
    else if sorted[0].pts <= cur then DrainSorted(cur, sorted[1..])
    else if sorted[0].pts != cur + 1 then Plan([], sorted, true)
    else
      var p := DrainSorted(cur + 1, sorted[1..]);
      Plan([sorted[0]] + p.apply, p.rest, p.gap)
  }

  function DrainPlan(pts: nat, buffer: seq<Event>): Plan {
    DrainSorted(pts, SortEvents(buffer))
  }

  // ----- summaries, pins, scheduled -----

  function Listed(res: ListReply): seq<Summary> {
    res.conversations + FormerOnly(res.former)
  }

  function FormerOnly(s: seq<Summary>): (r: seq<Summary>)
    ensures forall x :: x in r <==> x in s && x.former
  {
    if s == [] then []
    else
      assert s == s[..|s| - 1] + [s[|s| - 1]];
      FormerOnly(s[..|s| - 1]) + (if s[|s| - 1].former then [s[|s| - 1]] else [])
  }

  function SummaryIds(s: seq<Summary>): set<Id> {
    set x | x in s :: x.id
  }

  /** The last summary of `s` with this id. */
  function LastSummary(s: seq<Summary>, id: Id): (r: Summary)
    requires id in SummaryIds(s)
    ensures r in s && r.id == id
  {
    if s[|s| - 1].id == id then s[|s| - 1]
    else
      assert s == s[..|s| - 1] + [s[|s| - 1]];
      LastSummary(s[..|s| - 1], id)
  }

  /** The client's own summary of this conversation is newer than number `P`. */
  predicate OwnNewer(s: State, id: Id, P: nat) {
    id in s.summaryPts && s.summaryPts[id] > P
  }

  /** Conversations the client has after a full list. */
  function ListedIds(s: State, res: ListReply): set<Id> {
    (set x | x in Listed(res) && (OwnNewer(s, x.id, res.pts) ==> x.id in s.summaries) :: x.id)
    + (set id | id in s.summaries && OwnNewer(s, id, res.pts))
  }

  /** Every summary tag after a full list: the reply's conversations and the client's newer ones. */
  function ListedTags(s: State, res: ListReply): set<Id> {
    SummaryIds(Listed(res)) + (set id | id in s.summaries && OwnNewer(s, id, res.pts))
  }

  function ListedSummaries(s: State, res: ListReply): map<Id, Summary> {
    map id | id in ListedIds(s, res) ::
      if OwnNewer(s, id, res.pts) && id in s.summaries then s.summaries[id]
      else if id in SummaryIds(Listed(res)) then LastSummary(Listed(res), id) else Summary(id, false, 0, "")
  }

  function ListedNumbers(s: State, res: ListReply): map<Id, nat> {
    map id | id in ListedTags(s, res) :: if OwnNewer(s, id, res.pts) then s.summaryPts[id] else res.pts
  }

  function ApplyList(s: State, res: ListReply): State {
    s.(pts := Some(Max(PtsOf(s), res.pts)), summaries := ListedSummaries(s, res), summaryPts := ListedNumbers(s, res),
       windows := map id | id in s.windows && id in ListedTags(s, res) :: s.windows[id])
  }

  datatype SummaryStep = SummaryStep(state: State, dropped: Option<Id>)

  function ApplySummary(st: State, s: Standing, P: nat): SummaryStep {
    var id := StandingId(s);
    if id in st.summaryPts && P <= st.summaryPts[id] then SummaryStep(st, None)
    else if s.Left? && s.former.Some? && s.former.value.former && s.former.value.id == s.id then
      SummaryStep(st.(summaries := st.summaries[id := s.former.value], summaryPts := st.summaryPts[id := P]), None)
    else if s.Left? then
      SummaryStep(st.(summaries := st.summaries - {id}, windows := st.windows - {id},
                      summaryPts := st.summaryPts[id := P]), Some(id))
    else
      SummaryStep(st.(summaries := st.summaries[id := s.s], summaryPts := st.summaryPts[id := P]), None)
  }

  /** A whole list with number `P` replaces one that is older; the same rule for pins and for scheduled messages. */
  function Newest(lists: map<Id, Numbered>, c: Id, list: seq<string>, P: nat): map<Id, Numbered> {
    if c in lists && P <= lists[c].pts then lists else lists[c := Numbered(P, list)]
  }

  function ApplyPins(s: State, c: Id, list: seq<string>, P: nat): State {
    s.(pins := Newest(s.pins, c, list, P))
  }

  function ApplyScheduled(s: State, c: Id, list: seq<string>, P: nat): State {
    s.(scheduled := Newest(s.scheduled, c, list, P))
  }

  // ----- messages -----

  function TagOf(s: State, id: Id): nat { if id in s.msgPts then s.msgPts[id] else 0 }

  /** Does the message fall into the loaded part of the history? */
  predicate InsideWindow(list: seq<Msg>, win: Window, m: Msg) {
    if list == [] then !win.hasMoreBefore && !win.hasMoreAfter
    else
      !(win.hasMoreBefore && Before(m, list[0])) &&
      !(win.hasMoreAfter && Before(list[|list| - 1], m))
  }

  function Without(list: seq<Msg>, id: Id): seq<Msg> {
    Filter(list, (x: Msg) => x.id != id)
  }

  function WithoutOpt(list: Option<seq<Msg>>, id: Id): Option<seq<Msg>> {
    if list.Some? then Some(Without(list.value, id)) else None
  }

  function ApplyMessage(s: State, list: Option<seq<Msg>>, d: Delivered, P: nat): Merged {
    if d.Tomb? then
      Merged(s.(gone := s.gone + {d.id}),
             if list.Some? && IndexOf(list.value, d.id) >= 0 then WithoutOpt(list, d.id) else list)
    else
      var m := d.m;
      if m.id in s.gone then Merged(s, list)
      else if m.id in s.msgPts && P <= s.msgPts[m.id] then Merged(s, list)
      else if list.None? || m.conv !in s.windows then Merged(s, list)
      else
        var k := IndexOf(list.value, m.id);
        if k >= 0 then Merged(s.(msgPts := s.msgPts[m.id := P]), Some(list.value[k := m]))
        else if P <= s.windows[m.conv].basePts || !InsideWindow(list.value, s.windows[m.conv], m) then Merged(s, list)
        else Merged(s.(msgPts := s.msgPts[m.id := P]), Some(Sort(list.value + [m])))
  }

  /** The view the client holds of this message is newer than the page. */
  predicate Newer_(s: State, page: Page, id: Id) {
    id in s.msgPts && s.msgPts[id] > page.pts
  }

  /** What one message of a page contributes: nothing, the client's newer view, or itself. */
  function Taken(s: State, have: seq<Msg>, page: Page, m: Msg): seq<Msg> {
    if m.id in s.gone then []
    else if Newer_(s, page, m.id) then
      (var k := IndexOf(have, m.id); if k >= 0 then [have[k]] else [])
    else [m]
  }

  function IncomingOf(s: State, have: seq<Msg>, page: Page, ms: seq<Msg>): seq<Msg> {
    if ms == [] then [] else IncomingOf(s, have, page, ms[..|ms| - 1]) + Taken(s, have, page, ms[|ms| - 1])
  }

  function Incoming(s: State, have: seq<Msg>, page: Page): seq<Msg> {
    IncomingOf(s, have, page, page.messages)
  }

  /** Ids of page messages whose page view is taken; they get the number of the page. */
  function Retagged(s: State, page: Page): set<Id> {
    set m | m in page.messages && m.id !in s.gone && !Newer_(s, page, m.id) :: m.id
  }

  function PageTags(s: State, page: Page): map<Id, nat> {
    s.msgPts + map id | id in Retagged(s, page) :: page.pts
  }

  /** Feed messages newer than the page that the page does not carry: events that came during the request. */
  function NewerThanPage(s: State, have: seq<Msg>, page: Page, incoming: seq<Msg>): seq<Msg> {
    Filter(have, (x: Msg) => TagOf(s, x.id) > page.pts && x.id !in Ids(incoming))
  }

  /** The old window reaches the first message of the page. */
  predicate Joins(s: State, have: seq<Msg>, page: Page, first: Msg) {
    exists x | x in have :: TagOf(s, x.id) <= page.pts && !Before(x, first)
  }

  function OlderPart(s: State, have: seq<Msg>, c: Id, page: Page, incoming: seq<Msg>): seq<Msg> {
    if incoming != [] && Joins(s, have, page, incoming[0]) && page.hasMoreBefore &&
       !(c in s.windows && s.windows[c].stale)
    then Filter(have, (x: Msg) => Before(x, incoming[0]))
    else []
  }

  /** The pieces of the merged feed in the order they are joined. */
  function MergeParts(s: State, have: seq<Msg>, c: Id, page: Page, kind: PageKind, incoming: seq<Msg>): seq<Msg> {
    if kind == Jump then
      incoming + (if page.hasMoreAfter then [] else NewerThanPage(s, have, page, incoming))
    else if kind == Latest || c !in s.windows then
      OlderPart(s, have, c, page, incoming) + incoming + NewerThanPage(s, have, page, incoming)
    else if kind == Older then incoming + have
    else have + incoming
  }

  function MergedList(s: State, have: seq<Msg>, c: Id, page: Page, kind: PageKind): seq<Msg> {
    Dedupe(MergeParts(s, have, c, page, kind, Incoming(s, have, page)))
  }

  function MergedWindow(s: State, have: seq<Msg>, c: Id, page: Page, kind: PageKind): Window {
    if kind == Jump then Window(page.pts, page.hasMoreBefore, page.hasMoreAfter, false)
    else if kind == Latest || c !in s.windows then
      var older := OlderPart(s, have, c, page, Incoming(s, have, page));
      Window(Max(if c in s.windows then s.windows[c].basePts else 0, page.pts),
             if older != [] && c in s.windows then s.windows[c].hasMoreBefore else page.hasMoreBefore,
             page.hasMoreAfter, false)
    else if kind == Older then s.windows[c].(hasMoreBefore := page.hasMoreBefore)
    else
      s.windows[c].(hasMoreAfter := page.hasMoreAfter,
                    basePts := if page.hasMoreAfter then s.windows[c].basePts else Max(s.windows[c].basePts, page.pts))
  }

  function Have(list: Option<seq<Msg>>): seq<Msg> { if list.Some? then list.value else [] }

  function ApplyPage(s: State, list: Option<seq<Msg>>, c: Id, page: Page, kind: PageKind): Merged {
    Merged(s.(msgPts := PageTags(s, page),
              windows := s.windows[c := MergedWindow(s, Have(list), c, page, kind)]),
           Some(MergedList(s, Have(list), c, page, kind)))
  }

  datatype Side = Top | Bottom

  function TrimWindow(s: State, list: seq<Msg>, c: Id, side: Side, count: int): Merged {
    if c !in s.windows || count <= 0 || count >= |list| then Merged(s, Some(list))
    else
      var cut := if side == Top then list[..count] else list[|list| - count..];
      var next := if side == Top then list[count..] else list[..|list| - count];
      var win := s.windows[c];
      Merged(s.(msgPts := s.msgPts - Ids(cut),
                windows := s.windows[c := if side == Top then win.(hasMoreBefore := true) else win.(hasMoreAfter := true)]),
             Some(next))
  }

  function ApplySent(s: State, list: Option<seq<Msg>>, m: Msg): Merged {
    if list.None? || m.id in s.gone || IndexOf(list.value, m.id) >= 0 then Merged(s, list)
    else Merged(s.(msgPts := s.msgPts[m.id := TagOf(s, m.id)]), Some(Sort(list.value + [m])))
  }

  /** An edit reply replaces the listed message unless the listed edit is at least as late; reactions stay. */
  function Edited_(x: Msg, m: Msg): Msg {
    if x.id != m.id then x
    else if x.edit.editedAt.Some? && m.edit.editedAt.Some? && x.edit.editedAt.value >= m.edit.editedAt.value then x
    else m.(reactions := x.reactions)
  }

  function ApplyEdited(list: seq<Msg>, m: Msg): (r: seq<Msg>)
    ensures |r| == |list|
  {
    seq(|list|, i requires 0 <= i < |list| => Edited_(list[i], m))
  }

  function ApplyRemoved(s: State, list: Option<seq<Msg>>, id: Id): Merged {
    Merged(s.(gone := s.gone + {id}), WithoutOpt(list, id))
  }

  /** Messages of a page taken from another instance: unknown and not gone. */
  function FreshVia(s: State, list: seq<Msg>, messages: seq<Msg>): seq<Msg> {
    Filter(messages, (m: Msg) => m.id !in Ids(list) && m.id !in s.gone)
  }

  function ApplyViaPage(s: State, list: Option<seq<Msg>>, c: Id, messages: seq<Msg>): Merged {
    if list.None? || c !in s.windows || s.windows[c].hasMoreAfter then Merged(s, list)
    else
      var added := FreshVia(s, list.value, messages);
      if added == [] then Merged(s, list)
      else Merged(s.(msgPts := s.msgPts + map id | id in Ids(added) :: TagOf(s, id)),
                  Some(Dedupe(Sort(list.value + added))))
  }
}

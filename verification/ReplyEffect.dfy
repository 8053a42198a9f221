/** What a delivered view, the replies to own actions and a page from another instance change, message by message. */
module ReplyEffect {
  import opened Feed
  import opened SyncRules
  import FeedSafety

  /** Numbers of all other messages stay. */
  ghost predicate OtherNumbers(s: State, t: State, id: Id) {
    forall k | k != id :: (k in t.msgPts <==> k in s.msgPts) && (k in s.msgPts ==> t.msgPts[k] == s.msgPts[k])
  }

  /** A view is news: the message is not gone, and nothing as new is known of it. */
  predicate News(s: State, m: Msg, P: nat) {
    m.id !in s.gone && (m.id in s.msgPts ==> s.msgPts[m.id] < P)
  }

  /** The window has room for a message that is not listed: it lies inside, and came after the tail snapshot. */
  predicate HasRoom(list: seq<Msg>, win: Window, m: Msg, P: nat) {
    P > win.basePts && (list == [] ==> !win.hasMoreBefore && !win.hasMoreAfter) &&
    (list != [] && win.hasMoreBefore ==> !Before(m, list[0])) && (list != [] && win.hasMoreAfter ==> !Before(list[|list| - 1], m))
  }

  /**
   * A view of a message: listed in the place of the old one, or where it belongs if the window has room for it; its number
   * is kept with it. What is no news, or has no room, changes nothing.
   */
  lemma ViewTakes(s: State, list: seq<Msg>, m: Msg, P: nat, x: Msg)
    requires FeedOk(list) && m.conv in s.windows && (forall y | y in list && y.id == m.id :: y.sortKey == m.sortKey)
    ensures var r := ApplyMessage(s, Some(list), Live(m), P);
      r.list.Some? && FeedOk(r.list.value) &&
      var taken := News(s, m, P) && (m.id in Ids(list) || HasRoom(list, s.windows[m.conv], m, P));
      (!taken ==> r == Merged(s, Some(list))) &&
      (taken ==>
        (x in r.list.value <==> x == m || (x in list && x.id != m.id)) &&
        m.id in r.state.msgPts && r.state.msgPts[m.id] == P && OtherNumbers(s, r.state, m.id) &&
        r.state == s.(msgPts := r.state.msgPts))
  {
    hide Sort, Before, IdLess;
    var k := IndexOf(list, m.id);
    if k >= 0 {
      assert list[k] in list;
      FeedSafety.ReplaceKeepsFeed(list, k, m);
    } else {
      assert m.id !in Ids(list);
      FeedSafety.AppendSortKeepsFeed(list, m);
    }
    hide IndexOf, FeedOk;
  }

  /** A tombstone removes the message and is remembered for good. */
  lemma TombTakes(s: State, list: seq<Msg>, id: Id, c: Id, P: nat, x: Msg)
    requires FeedOk(list)
    ensures var r := ApplyMessage(s, Some(list), Tomb(id, c), P);
      r.state == s.(gone := s.gone + {id}) && r.list.Some? && FeedOk(r.list.value) && (x in r.list.value <==> x in list && x.id != id)
  {
    FilterKeepsFeed(list, (y: Msg) => y.id != id);
    if IndexOf(list, id) < 0 && x in list { assert x.id in Ids(list); }
    hide FeedOk;
  }

  /** Without a feed only deletions leave a trace. */
  lemma NoFeedKeepsDeletions(s: State, d: Delivered, P: nat)
    ensures ApplyMessage(s, None, d, P) == Merged(if d.Tomb? then s.(gone := s.gone + {d.id}) else s, None)
  {
  }

  /** A confirmed deletion: the message goes, and is remembered, listed or not. */
  lemma RemovalTakes(s: State, list: seq<Msg>, id: Id, x: Msg)
    requires FeedOk(list)
    ensures var r := ApplyRemoved(s, Some(list), id);
      r.state == s.(gone := s.gone + {id}) && r.list.Some? && FeedOk(r.list.value) && (x in r.list.value <==> x in list && x.id != id)
    ensures ApplyRemoved(s, None, id) == Merged(s.(gone := s.gone + {id}), None)
  {
    FilterKeepsFeed(list, (y: Msg) => y.id != id);
    hide FeedOk;
  }

  /**
   * The reply to an own edit: of the listed view and the reply the later edit is shown, the listed one if they are as late;
   * reactions stay as they are listed, and no other message changes.
   */
  lemma EditReplyTakes(list: seq<Msg>, m: Msg, i: nat)
    requires i < |list|
    ensures var r, x := ApplyEdited(list, m), list[i];
      |r| == |list| && r[i].reactions == x.reactions && r[i].id == x.id && (x.id != m.id ==> r[i] == x) &&
      (x.id == m.id && m.edit.editedAt.Some? && x.edit.editedAt.Some? ==>
        r[i].edit.editedAt == Some(if x.edit.editedAt.value >= m.edit.editedAt.value then x.edit.editedAt.value else m.edit.editedAt.value)) &&
      (x.id == m.id && m.edit.editedAt.Some? && x.edit.editedAt.Some? && x.edit.editedAt.value >= m.edit.editedAt.value ==> r[i] == x) &&
      (x.id == m.id && (m.edit.editedAt.None? || x.edit.editedAt.None? || x.edit.editedAt.value < m.edit.editedAt.value) ==>
        r[i].edit == m.edit)
  {
  }

  /** The reply to an own send: listed where it belongs, unless it is gone or listed already; its number stays what it was. */
  lemma SentTakes(s: State, list: seq<Msg>, m: Msg, x: Msg)
    requires FeedOk(list)
    ensures var r := ApplySent(s, Some(list), m);
      r.list.Some? && FeedOk(r.list.value) &&
      (m.id in s.gone || m.id in Ids(list) ==> r == Merged(s, Some(list))) &&
      (m.id !in s.gone && m.id !in Ids(list) ==>
        (x in r.list.value <==> x in list || x == m) && OtherNumbers(s, r.state, m.id) && m.id in r.state.msgPts &&
        r.state.msgPts[m.id] == (if m.id in s.msgPts then s.msgPts[m.id] else 0) && r.state == s.(msgPts := r.state.msgPts))
    ensures ApplySent(s, None, m) == Merged(s, None)
  {
    hide Sort, Before;
    if m.id !in Ids(list) { FeedSafety.AppendSortKeepsFeed(list, m); }
    var k := IndexOf(list, m.id);
    if k >= 0 { assert list[k] in list; }
    hide IndexOf, FeedOk;
  }

  /**
   * A page from another instance, for a window at the tail: everything listed stays, and what the page has besides is
   * added unless it is gone; it gets no number of its own. Any other window is left alone.
   */
  lemma ViaTakes(s: State, list: seq<Msg>, c: Id, messages: seq<Msg>, x: Msg)
    requires FeedOk(list) && UniqueIds(messages)
    ensures var r := ApplyViaPage(s, Some(list), c, messages);
      r.list.Some? && FeedOk(r.list.value) &&
      (!(c in s.windows && !s.windows[c].hasMoreAfter) ==> r == Merged(s, Some(list))) &&
      (c in s.windows && !s.windows[c].hasMoreAfter ==>
        (x in r.list.value <==> x in list || (x in messages && x.id !in Ids(list) && x.id !in s.gone)) &&
        (x in messages && x.id !in Ids(list) && x.id !in s.gone ==>
          x.id in r.state.msgPts && r.state.msgPts[x.id] == (if x.id in s.msgPts then s.msgPts[x.id] else 0)) &&
        r.state == s.(msgPts := r.state.msgPts))
  {
    var added := FreshVia(s, list, messages);
    var all := list + added;
    if c in s.windows && !s.windows[c].hasMoreAfter && added != [] {
      FreshUnique(s, list, messages);
      assert UniqueIds(all) by {
        forall i, j | 0 <= i < j < |all| ensures all[i].id != all[j].id {
          if i < |list| && j >= |list| { assert all[i] in list && added[j - |list|] in added; }
        }
      }
      SortMakesFeed(all);
      DedupeMakesFeed(Sort(all));
      AllLast(Sort(all), x);
      hide Sort, Dedupe, FreshVia, IsLast, FeedOk;
      assert x in all <==> x in list || x in added;
      assert forall y | y in added :: y.id in Ids(added);
    } else {
      HasMember(added);
    }
  }

  lemma {:induction false} FreshUnique(s: State, list: seq<Msg>, messages: seq<Msg>)
    requires UniqueIds(messages)
    ensures UniqueIds(FreshVia(s, list, messages))
  {
    if messages != [] {
      var t := messages[1..];
      FreshUnique(s, list, t);
      var r := FreshVia(s, list, t);
      forall y | y in r ensures y.id != messages[0].id { var i :| 0 <= i < |t| && t[i] == y; assert messages[i + 1] == y; }
    }
  }

  /** With one entry an id every entry is the last of its id. */
  lemma AllLast(s: seq<Msg>, x: Msg)
    requires UniqueIds(s)
    ensures IsLast(s, x) <==> x in s
  {
    if x in s { var i :| 0 <= i < |s| && s[i] == x; assert IsLast(s, x); }
  }
}

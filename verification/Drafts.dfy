/** Drafts on this device and on the server: what is written, what a remote draft may overwrite, and the writer. */
module Drafts {
  import opened Feed

  /** Strings as the source measures and cuts them: UTF-16 code units. */
  newtype CodeUnit = x: int | 0 <= x < 0x1_0000

  type Text = seq<CodeUnit>

  datatype Draft = Draft(text: Text, replyTo: Option<string>)

  const SERVER_MAX: nat := 4000
  const SAVE_MS := 2_000
  const MAX_WAIT_MS := 10_000
  const RETRY_MS := 15_000

  /** What `trim` takes off. */
  predicate IsSpace(u: CodeUnit) {
    9 <= u <= 13 || u == 32 || u == 0xA0 || u == 0x1680 || 0x2000 <= u <= 0x200A || u == 0x2028 || u == 0x2029 ||
    u == 0x202F || u == 0x205F || u == 0x3000 || u == 0xFEFF
  }

  predicate Blank(text: Text) {
    forall i | 0 <= i < |text| :: IsSpace(text[i])
  }

  predicate NoReply(replyTo: Option<string>) {
    replyTo.None? || replyTo.value == ""
  }

  // ----- the text that goes to the server -----

  predicate HighSurrogate(u: CodeUnit) { 0xD800 <= u <= 0xDBFF }

  predicate LowSurrogate(u: CodeUnit) { 0xDC00 <= u <= 0xDFFF }

  /** Every surrogate is half of a pair. */
  predicate Paired(text: Text) {
    if text == [] then true
    else if HighSurrogate(text[0]) then |text| > 1 && LowSurrogate(text[1]) && Paired(text[2..])
    else !LowSurrogate(text[0]) && Paired(text[1..])
  }

  function ForServer(text: Text): Text {
    if |text| <= SERVER_MAX then text
    else if HighSurrogate(text[SERVER_MAX - 1]) then text[..SERVER_MAX - 1]
    else text[..SERVER_MAX]
  }

  /** A paired text cut anywhere but after a high surrogate stays paired. */
  lemma {:induction false} CutKeepsPairs(text: Text, n: nat)
    requires Paired(text) && n <= |text| && (n > 0 ==> !HighSurrogate(text[n - 1]))
    ensures Paired(text[..n])
  {
    if n > 0 {
      if HighSurrogate(text[0]) {
        assert n >= 2;
        CutKeepsPairs(text[2..], n - 2);
        assert text[..n][2..] == text[2..][..n - 2];
      } else {
        CutKeepsPairs(text[1..], n - 1);
        assert text[..n][1..] == text[1..][..n - 1];
      }
    }
  }

  /** In a paired text a high surrogate never follows a high surrogate. */
  lemma {:induction false} NoTwoHigh(text: Text, i: nat)
    requires Paired(text) && i + 1 < |text| && HighSurrogate(text[i + 1])
    ensures !HighSurrogate(text[i])
  {
    if i > 0 {
      if HighSurrogate(text[0]) {
        if i > 1 { NoTwoHigh(text[2..], i - 2); }
      } else {
        NoTwoHigh(text[1..], i - 1);
      }
    }
  }

  /** The server gets the longest beginning of at most 4000 units that splits no pair: all of it, or at most one unit less. */
  lemma ServerTextIsLongestCut(text: Text)
    requires Paired(text)
    ensures var t := ForServer(text);
      |t| <= SERVER_MAX && t <= text && Paired(t) && (t == text <==> |text| <= SERVER_MAX) &&
      (|text| > SERVER_MAX ==> |t| == SERVER_MAX || (|t| == SERVER_MAX - 1 && !Paired(text[..SERVER_MAX])))
  {
    if |text| > SERVER_MAX {
      if HighSurrogate(text[SERVER_MAX - 1]) {
        NoTwoHigh(text, SERVER_MAX - 2);
        CutKeepsPairs(text, SERVER_MAX - 1);
        LoneHighAtEnd(text[..SERVER_MAX]);
      } else {
        CutKeepsPairs(text, SERVER_MAX);
      }
    }
  }

  lemma {:induction false} LoneHighAtEnd(text: Text)
    requires text != [] && HighSurrogate(text[|text| - 1])
    ensures !Paired(text)
    decreases |text|
  {
    if |text| > 2 {
      LoneHighAtEnd(text[1..]);
      LoneHighAtEnd(text[2..]);
    }
  }

  // ----- local drafts -----

  function Lookup(drafts: map<Id, Draft>, c: Id): Option<Draft> {
    if c in drafts then Some(drafts[c]) else None
  }

  /** A blank draft without a reply is no draft. */
  function Normal(text: Text, replyTo: Option<string>): Option<Draft> {
    if Blank(text) && NoReply(replyTo) then None else Some(Draft(text, replyTo))
  }

  function UpdateDrafts(drafts: map<Id, Draft>, c: Id, text: Text, replyTo: Option<string>): map<Id, Draft> {
    var empty := Blank(text) && NoReply(replyTo);
    if (if empty then c !in drafts else c in drafts && drafts[c].text == text && drafts[c].replyTo == replyTo) then drafts
    else if empty then drafts - {c}
    else drafts[c := Draft(text, replyTo)]
  }

  /** The draft becomes what was typed (none if blank), all others stay; nothing changes exactly when it was that already. */
  lemma UpdateSetsOne(drafts: map<Id, Draft>, c: Id, text: Text, replyTo: Option<string>)
    ensures var r := UpdateDrafts(drafts, c, text, replyTo);
      Lookup(r, c) == Normal(text, replyTo) && (forall k | k != c :: Lookup(r, k) == Lookup(drafts, k)) &&
      (r == drafts <==> Lookup(drafts, c) == Normal(text, replyTo)) &&
      (Lookup(r, c).None? <==> Blank(text) && (replyTo.None? || replyTo == Some("")))
  {
    hide Blank;
    var r := UpdateDrafts(drafts, c, text, replyTo);
    if r == drafts { assert Lookup(r, c) == Lookup(drafts, c); }
  }

  // ----- drafts from other devices -----

  /** The draft of a summary: the server does not keep drafts, there is none, or one written by a device. */
  datatype Remote = NotKept | Nothing | Written(text: Text, replyTo: Option<string>, device: string)

  datatype Choice = Leave | Put(draft: Option<Draft>)

  function RemoteDraft(remote: Remote): Option<Draft> {
    if remote.Written? then Normal(remote.text, remote.replyTo) else None
  }

  function RemoteChoice(remote: Remote, local: Option<Draft>, dirty: bool, device: string): Choice {
    if remote.NotKept? || dirty then Leave
    else if remote.Written? && remote.device == device then Leave
    else if RemoteDraft(remote) == local then Leave
    else Put(RemoteDraft(remote))
  }

  function TakeRemote(drafts: map<Id, Draft>, c: Id, choice: Choice): map<Id, Draft> {
    if choice.Leave? then drafts
    else if choice.draft.None? then UpdateDrafts(drafts, c, [], None)
    else UpdateDrafts(drafts, c, choice.draft.value.text, choice.draft.value.replyTo)
  }

  /**
   * A remote draft is shown exactly when nothing typed here waits to be written and it is no echo of this device; in
   * every other case the local draft stays, and no other conversation is touched.
   */
  lemma RemoteWinsOnlyWhenClean(drafts: map<Id, Draft>, c: Id, remote: Remote, dirty: bool, device: string)
    ensures var r := TakeRemote(drafts, c, RemoteChoice(remote, Lookup(drafts, c), dirty, device));
      (forall k | k != c :: Lookup(r, k) == Lookup(drafts, k)) &&
      Lookup(r, c) == if remote.NotKept? || dirty || (remote.Written? && remote.device == device) then Lookup(drafts, c)
                      else RemoteDraft(remote)
  {
    var choice := RemoteChoice(remote, Lookup(drafts, c), dirty, device);
    if choice.Put? {
      if choice.draft.None? { UpdateSetsOne(drafts, c, [], None); }
      else { UpdateSetsOne(drafts, c, choice.draft.value.text, choice.draft.value.replyTo); }
    }
    hide Blank, UpdateDrafts;
  }

  // ----- the writer -----

  /** What a write carries. */
  datatype Payload = Payload(text: Text, replyTo: Option<string>)

  function PayloadOf(d: Option<Draft>): Payload {
    if d.None? then Payload([], None) else Payload(ForServer(d.value.text), d.value.replyTo)
  }

  /** A write carries the draft as it is, but for what lies beyond the server's limit; no draft is an empty text. */
  lemma PayloadCarries(d: Option<Draft>)
    ensures d.None? ==> PayloadOf(d) == Payload([], None)
    ensures d.Some? ==> PayloadOf(d).replyTo == d.value.replyTo && PayloadOf(d).text <= d.value.text
    ensures d.Some? && |d.value.text| <= 4000 ==> PayloadOf(d).text == d.value.text
  {
  }

  datatype Flight = Flight(gen: nat, c: Id, sent: Option<Draft>)

  datatype Outcome = Acked | Refused | Failed

  /** The draft counts as saved: refused for good, or acknowledged and not changed since. */
  predicate Cleans(outcome: Outcome, current: Option<Draft>, sent: Option<Draft>) {
    outcome == Refused || (outcome == Acked && current == sent)
  }

  /** The draft is written once more at once: a save was asked for meanwhile, or an acknowledged draft has changed. */
  predicate GoesAgain(outcome: Outcome, current: Option<Draft>, sent: Option<Draft>, asked: bool) {
    asked || (outcome == Acked && current != sent)
  }

  /** The marks after the answer to a write of conversation `c`. */
  function MarksAfter(dirty: set<Id>, c: Id, outcome: Outcome, current: Option<Draft>, sent: Option<Draft>): set<Id> {
    if Cleans(outcome, current, sent) then dirty - {c} else dirty
  }

  /** What an answer does to the mark, and whether the draft is written again, case by case. */
  lemma AnswerDecides(dirty: set<Id>, c: Id, outcome: Outcome, current: Option<Draft>, sent: Option<Draft>, asked: bool)
    ensures var kept, next := MarksAfter(dirty, c, outcome, current, sent), GoesAgain(outcome, current, sent, asked);
      (outcome == Acked && current == sent ==> kept == dirty - {c} && next == asked) &&
      (outcome == Acked && current != sent ==> kept == dirty && next) &&
      (outcome == Refused ==> kept == dirty - {c} && next == asked) && (outcome == Failed ==> kept == dirty && next == asked)
  {
  }

  /**
   * What was typed while a write was on its way keeps its mark, so it will be written, exactly when the write was not
   * refused; no other conversation loses its mark.
   */
  lemma ChangeKeepsMarkIff(dirty: set<Id>, c: Id, outcome: Outcome, current: Option<Draft>, sent: Option<Draft>)
    requires c in dirty && current != sent
    ensures c in MarksAfter(dirty, c, outcome, current, sent) <==> outcome != Refused
    ensures forall k | k != c :: k in MarksAfter(dirty, c, outcome, current, sent) <==> k in dirty
  {
  }

  function DraftsAfterRecord(drafts: map<Id, Draft>, recDrafts: map<Id, Draft>): map<Id, Draft> {
    if recDrafts == map[] then drafts else recDrafts
  }

  function MarksAfterRecord(dirty: set<Id>, recDirty: set<Id>): set<Id> {
    if recDirty == {} then dirty else recDirty
  }

  /**
   * What was typed before the record arrived survives it, text and mark, exactly when the record has no drafts or the same
   * ones, and no marks or at least these.
   */
  lemma RecordKeepsTypedIff(drafts: map<Id, Draft>, dirty: set<Id>, recDrafts: map<Id, Draft>, recDirty: set<Id>)
    ensures (forall c | c in dirty ::
        Lookup(DraftsAfterRecord(drafts, recDrafts), c) == Lookup(drafts, c) && c in MarksAfterRecord(dirty, recDirty)) <==>
      (recDrafts == map[] || forall c | c in dirty :: Lookup(recDrafts, c) == Lookup(drafts, c)) &&
      (recDirty == {} || dirty <= recDirty)
  {
    hide Lookup;
    if recDirty != {} && forall c | c in dirty :: c in MarksAfterRecord(dirty, recDirty) { assert dirty <= recDirty; }
  }

  function Min(a: int, b: int): int { if a < b then a else b }

  function Max(a: int, b: int): int { if a > b then a else b }

  class Writer {
    const device: string
    var drafts: map<Id, Draft>
    var dirty: set<Id>
    /** When the timer of a conversation fires. */
    var timers: map<Id, int>
    var firstDirty: map<Id, int>
    var inFlight: set<Id>
    var again: set<Id>
    var gen: nat
    /** The server keeps drafts and conversations are on. */
    var enabled: bool
    var flights: map<nat, Flight>
    var nextId: nat
    /** The last acknowledged write of a conversation. */
    ghost var acked: map<Id, Payload>
    /** Conversations whose draft was last changed by typing here: no refusal, remote draft or record since. */
    ghost var own: set<Id>
    ghost var flightOf: map<Id, nat>

    /** At most one write a conversation is on its way. */
    ghost predicate OneFlight()
      reads this`flights, this`nextId, this`gen, this`inFlight, this`flightOf
    {
      flightOf.Keys == inFlight &&
      (forall c | c in flightOf :: flightOf[c] in flights && flights[flightOf[c]].gen == gen && flights[flightOf[c]].c == c) &&
      (forall f | f in flights :: f < nextId && flights[f].gen <= gen &&
        (flights[f].gen == gen ==> flights[f].c in flightOf && flightOf[flights[f].c] == f))
    }

    /** An unsaved draft typed here has a timer or a write on its way, but for `skip`. */
    ghost predicate Awake(skip: set<Id>)
      reads this`dirty, this`own, this`timers, this`inFlight
    {
      forall c | c in dirty && c in own && c !in skip :: c in timers || c in inFlight
    }

    /** A write on its way is for an unsaved draft; a saved draft typed here is what the server acknowledged last. */
    ghost predicate Settled()
      reads this`drafts, this`dirty, this`own, this`inFlight, this`acked
    {
      (forall c | c in inFlight && c in own :: c in dirty) &&
      (forall c | c in own && c !in dirty :: c in acked && acked[c] == PayloadOf(Lookup(drafts, c)))
    }

    ghost predicate ValidBut(skip: set<Id>)
      reads this`drafts, this`dirty, this`timers, this`inFlight, this`gen, this`enabled, this`flights, this`nextId
      reads this`acked, this`own, this`flightOf
    {
      OneFlight() && Awake(skip) && Settled() && (own != {} ==> enabled)
    }

    ghost predicate Valid()
      reads this`drafts, this`dirty, this`timers, this`inFlight, this`gen, this`enabled, this`flights, this`nextId
      reads this`acked, this`own, this`flightOf
    {
      ValidBut({})
    }

    constructor (device: string)
      ensures Valid() && drafts == map[] && dirty == {} && !enabled
      ensures timers == map[] && inFlight == {} && again == {} && flights == map[] && gen == 0 && nextId == 0
    {
      this.device := device;
      drafts, dirty, timers, firstDirty, inFlight, again := map[], {}, map[], map[], {}, {};
      gen, enabled, flights, nextId := 0, false, map[], 0;
      acked, own, flightOf := map[], {}, map[];
    }

    /** What the property comes to for one conversation whose draft was typed here. */
    lemma NoLostWakeUp(c: Id)
      requires Valid() && c in own
      ensures c in dirty ==> c in timers || c in inFlight
      ensures c in inFlight ==> c in dirty
      ensures c !in dirty ==> c in acked && acked[c] == PayloadOf(Lookup(drafts, c))
    {
    }

    /** Two writes on their way in this generation are for different conversations. */
    lemma OneWriteEach(f: nat, g: nat)
      requires Valid() && f in flights && g in flights && flights[f].gen == gen && flights[g].gen == gen && flights[f].c == flights[g].c
      ensures f == g
    {
    }

    lemma FreshFlight()
      requires Valid()
      ensures nextId !in flights
    {
    }

    method Arm(c: Id, due: int)
      modifies this`timers
      ensures timers == old(timers)[c := due]
    {
      timers := timers[c := due];
    }

    /** Typing: the save is due after the pause, but not later than ten seconds after the first unsaved letter. */
    method Schedule(c: Id, now: int, pause: int)
      requires pause >= 0
      modifies this`timers, this`firstDirty
      ensures c in firstDirty && firstDirty == old(firstDirty)[c := if c in old(firstDirty) then old(firstDirty)[c] else now]
      ensures c in timers && timers == old(timers)[c := timers[c]]
      ensures timers[c] <= now + pause && timers[c] <= Max(now, firstDirty[c] + 10_000)
      ensures timers[c] == if now + pause <= firstDirty[c] + 10_000 then now + pause else Max(now, firstDirty[c] + 10_000)
    {
      var first := if c in firstDirty then firstDirty[c] else now;
      firstDirty := firstDirty[c := first];
      Arm(c, now + Min(pause, Max(0, first + MAX_WAIT_MS - now)));
    }

    /** The draft was changed here. */
    method SetDraft(c: Id, text: Text, replyTo: Option<string>, now: int)
      requires Valid()
      modifies this`drafts, this`dirty, this`timers, this`firstDirty, this`own
      ensures Valid() && drafts == UpdateDrafts(old(drafts), c, text, replyTo)
      ensures drafts == old(drafts) || !enabled ==> dirty == old(dirty) && timers == old(timers)
      ensures drafts != old(drafts) && enabled ==>
        dirty == old(dirty) + {c} && own == old(own) + {c} && c in timers && timers == old(timers)[c := timers[c]] &&
        timers[c] <= now + (if c in drafts then 2_000 else 0)
      ensures drafts != old(drafts) && enabled && c !in old(firstDirty) ==> timers[c] == now + (if c in drafts then 2_000 else 0)
    {
      hide UpdateDrafts, OneFlight, PayloadOf, Normal, Blank;
      UpdateSetsOne(drafts, c, text, replyTo);
      var next := UpdateDrafts(drafts, c, text, replyTo);
      if next != drafts {
        drafts := next;
        if enabled {
          dirty := dirty + {c};
          own := own + {c};
          Schedule(c, now, if c in drafts then SAVE_MS else 0);
        } else {
          assert own == {};
        }
      }
    }

    /** A write leaves, with the draft as it is now. */
    method Launch(c: Id)
      requires OneFlight() && Settled() && c !in inFlight && c in dirty
      modifies this`inFlight, this`flights, this`nextId, this`flightOf
      ensures OneFlight() && Settled() && inFlight == old(inFlight) + {c}
      ensures flights == old(flights)[old(nextId) := Flight(gen, c, Lookup(drafts, c))]
    {
      inFlight := inFlight + {c};
      flights := flights[nextId := Flight(gen, c, Lookup(drafts, c))];
      flightOf := flightOf[c := nextId];
      nextId := nextId + 1;
    }

    /** One write a conversation at a time: a second one waits for the first. */
    method Save(c: Id)
      requires ValidBut({c})
      modifies this`timers, this`firstDirty, this`inFlight, this`again, this`flights, this`nextId, this`flightOf
      ensures Valid() && timers == old(timers) - {c}
      ensures !(enabled && c in dirty) || c in old(inFlight) ==> flights == old(flights) && inFlight == old(inFlight)
      ensures again == if enabled && c in dirty && c in old(inFlight) then old(again) + {c} else old(again)
      ensures enabled && c in dirty && c !in old(inFlight) ==>
        inFlight == old(inFlight) + {c} && flights == old(flights)[old(nextId) := Flight(gen, c, Lookup(drafts, c))]
      ensures firstDirty == if enabled && c in dirty && c !in old(inFlight) then old(firstDirty) - {c} else old(firstDirty)
    {
      hide OneFlight, Lookup, PayloadOf, Settled;
      timers := timers - {c};
      if enabled && c in dirty {
        if c in inFlight {
          again := again + {c};
        } else {
          firstDirty := firstDirty - {c};
          Launch(c);
        }
      }
    }

    method TimerFires(c: Id)
      requires Valid() && c in timers
      modifies this`timers, this`firstDirty, this`inFlight, this`again, this`flights, this`nextId, this`flightOf
      ensures Valid() && timers == old(timers) - {c}
      ensures enabled && c in dirty ==> c in inFlight
      ensures !(enabled && c in dirty) || c in old(inFlight) ==> flights == old(flights) && inFlight == old(inFlight)
      ensures again == if enabled && c in dirty && c in old(inFlight) then old(again) + {c} else old(again)
      ensures enabled && c in dirty && c !in old(inFlight) ==>
        flights == old(flights)[old(nextId) := Flight(gen, c, Lookup(drafts, c))] && inFlight == old(inFlight) + {c}
    {
      Save(c);
    }

    /** The answer to a write of an earlier generation has no effect. */
    method WriteOutdated(f: nat)
      requires Valid() && f in flights && flights[f].gen != gen
      modifies this`flights
      ensures Valid() && flights == old(flights) - {f}
    {
      flights := flights - {f};
    }

    /** A write of this generation ends; what was typed meanwhile is written at once if it asked for that. */
    method WriteEnds(f: nat, c: Id, sent: Option<Draft>, outcome: Outcome, now: int)
      requires Valid() && f in flights && flights[f] == Flight(gen, c, sent)
      modifies this`dirty, this`timers, this`firstDirty, this`inFlight, this`again, this`flights, this`nextId, this`flightOf
      modifies this`acked, this`own
      ensures Valid() && again == old(again) - {c}
      ensures acked == (if outcome == Acked then old(acked)[c := PayloadOf(sent)] else old(acked))
      ensures own == if outcome == Refused then old(own) - {c} else old(own)
      ensures dirty == MarksAfter(old(dirty), c, outcome, Lookup(drafts, c), sent)
      ensures timers == if GoesAgain(outcome, Lookup(drafts, c), sent, c in old(again)) then old(timers) - {c}
                        else if outcome == Failed then old(timers)[c := now + RETRY_MS] else old(timers)
      ensures if GoesAgain(outcome, Lookup(drafts, c), sent, c in old(again)) && enabled && c in dirty
        then flights == (old(flights) - {f})[old(nextId) := Flight(gen, c, Lookup(drafts, c))]
          && inFlight == old(inFlight) + {c} && firstDirty == old(firstDirty) - {c}
        else flights == old(flights) - {f} && inFlight == old(inFlight) - {c} && firstDirty == old(firstDirty)
      // Acknowledged as it is now, the draft is saved, and unless a save was asked for meanwhile the writer rests.
      ensures outcome == Acked && Lookup(drafts, c) == sent ==> dirty == old(dirty) - {c}
      ensures outcome == Acked && Lookup(drafts, c) == sent && c !in old(again) ==>
        c !in inFlight && flights == old(flights) - {f} && timers == old(timers)
      // Acknowledged as it was, it stays marked and is written again at once.
      ensures outcome == Acked && Lookup(drafts, c) != sent ==> dirty == old(dirty)
      ensures outcome == Acked && Lookup(drafts, c) != sent && enabled && c in old(dirty) ==>
        c in inFlight && flights == (old(flights) - {f})[old(nextId) := Flight(gen, c, Lookup(drafts, c))]
      // Refused, it is given up; failed, it stays marked and is tried again later, or at once if that was asked for.
      ensures outcome == Refused ==> dirty == old(dirty) - {c}
      ensures outcome == Failed ==> dirty == old(dirty)
      ensures outcome == Failed && c !in old(again) ==>
        timers == old(timers)[c := now + 15_000] && c !in inFlight && flights == old(flights) - {f}
    {
      AnswerDecides(dirty, c, outcome, Lookup(drafts, c), sent, c in again);
      hide ValidBut, PayloadOf, MarksAfter, Lookup, GoesAgain, Cleans;
      Land(f, c);
      Conclude(c, sent, outcome, now);
      GoOn(c);
    }

    /** Whoever asked for another write gets it now. */
    method GoOn(c: Id)
      requires ValidBut({c}) && c !in inFlight && (c in dirty && c in own && c !in again ==> c in timers)
      modifies this`timers, this`firstDirty, this`inFlight, this`again, this`flights, this`nextId, this`flightOf
      ensures Valid() && again == old(again) - {c}
      ensures timers == if c in old(again) then old(timers) - {c} else old(timers)
      ensures if c in old(again) && enabled && c in dirty
        then flights == old(flights)[old(nextId) := Flight(gen, c, Lookup(drafts, c))] && inFlight == old(inFlight) + {c}
          && firstDirty == old(firstDirty) - {c}
        else flights == old(flights) && inFlight == old(inFlight) && firstDirty == old(firstDirty)
    {
      hide ValidBut, PayloadOf, Lookup;
      if c in again {
        again := again - {c};
        Save(c);
      } else {
        StaysAwake(c);
      }
    }

    lemma StaysAwake(c: Id)
      requires ValidBut({c}) && (c in dirty && c in own ==> c in timers)
      ensures Valid()
    {
      hide OneFlight, Settled;
    }

    /** The write is no longer on its way. */
    method Land(f: nat, c: Id)
      requires Valid() && f in flights && flights[f].gen == gen && flights[f].c == c
      modifies this`inFlight, this`flights, this`flightOf
      ensures ValidBut({c}) && (c in own ==> c in dirty)
      ensures inFlight == old(inFlight) - {c} && flights == old(flights) - {f}
    {
      inFlight, flights, flightOf := inFlight - {c}, flights - {f}, flightOf - {c};
    }

    /** What the outcome says about the draft. */
    method Conclude(c: Id, sent: Option<Draft>, outcome: Outcome, now: int)
      requires ValidBut({c}) && c !in inFlight && (c in own ==> c in dirty)
      modifies this`dirty, this`timers, this`again, this`acked, this`own
      ensures ValidBut({c}) && (c in dirty && c in own && c !in again ==> c in timers)
      ensures acked == (if outcome == Acked then old(acked)[c := PayloadOf(sent)] else old(acked))
      ensures own == if outcome == Refused then old(own) - {c} else old(own)
      ensures dirty == MarksAfter(old(dirty), c, outcome, Lookup(drafts, c), sent)
      ensures again == if GoesAgain(outcome, Lookup(drafts, c), sent, c in old(again)) then old(again) + {c} else old(again)
      ensures timers == if outcome == Failed then old(timers)[c := now + RETRY_MS] else old(timers)
    {
      hide OneFlight;
      match outcome
      case Acked =>
        acked := acked[c := PayloadOf(sent)];
        if Lookup(drafts, c) == sent {
          dirty := dirty - {c};
        } else {
          again := again + {c};
        }
      case Refused =>
        dirty, own := dirty - {c}, own - {c};
      case Failed =>
        Arm(c, now + RETRY_MS);
    }

    /** The gateway is ready, or the app goes to the background: everything unsaved is written now. */
    method SaveAll()
      requires Valid()
      modifies this`timers, this`firstDirty, this`inFlight, this`again, this`flights, this`nextId, this`flightOf
      ensures Valid()
      ensures enabled ==> dirty <= inFlight
    {
      var todo := dirty;
      while todo != {}
        invariant Valid() && todo <= dirty && (enabled ==> dirty - todo <= inFlight)
        decreases todo
      {
        var c :| c in todo;
        Save(c);
        todo := todo - {c};
      }
    }

    /** A summary from the server may bring the draft of another device. */
    method TakeSummary(c: Id, remote: Remote)
      requires Valid()
      modifies this`drafts, this`own
      ensures Valid()
      ensures drafts == if enabled then TakeRemote(old(drafts), c, RemoteChoice(remote, Lookup(old(drafts), c), c in dirty, device)) else old(drafts)
      ensures c in dirty || !enabled ==> drafts == old(drafts) && own == old(own)
    {
      var choice := if enabled then RemoteChoice(remote, Lookup(drafts, c), c in dirty, device) else Leave;
      RemoteWinsOnlyWhenClean(drafts, c, remote, c in dirty, device);
      hide OneFlight;
      if choice.Put? {
        drafts, own := TakeRemote(drafts, c, choice), own - {c};
        hide TakeRemote, RemoteChoice;
      }
    }

    /** Conversations are on and the server keeps drafts. */
    method Enable()
      requires Valid()
      modifies this`enabled
      ensures Valid() && enabled
    {
      enabled := true;
    }

    /** The record from disk replaces drafts and marks, each only if it has any. */
    method TakeRecord(recDrafts: map<Id, Draft>, recDirty: set<Id>)
      requires Valid()
      modifies this`drafts, this`dirty, this`own
      ensures Valid() && own == {}
      ensures drafts == DraftsAfterRecord(old(drafts), recDrafts) && dirty == MarksAfterRecord(old(dirty), recDirty)
    {
      own := {};
      if recDrafts != map[] { drafts := recDrafts; }
      if recDirty != {} { dirty := recDirty; }
    }

    /** Sign-out or another instance: no timer, no mark, and no write of before counts. */
    method Reset(stillEnabled: bool)
      requires Valid()
      modifies this`drafts, this`dirty, this`timers, this`firstDirty, this`inFlight, this`again, this`gen, this`enabled
      modifies this`acked, this`own, this`flightOf
      ensures Valid() && drafts == map[] && dirty == {} && timers == map[] && firstDirty == map[] && inFlight == {} && again == {}
      ensures gen == old(gen) + 1 && enabled == stillEnabled && acked == map[] && own == {}
    {
      hide OneFlight, Awake, Settled;
      NextGeneration();
      drafts, dirty, timers, firstDirty, again := map[], {}, map[], map[], {};
      enabled, acked, own := stillEnabled, map[], {};
      NothingTyped();
    }

    lemma NothingTyped()
      requires OneFlight() && own == {}
      ensures Valid()
    {
      hide OneFlight;
    }

    method NextGeneration()
      requires OneFlight()
      modifies this`inFlight, this`gen, this`flightOf
      ensures OneFlight() && gen == old(gen) + 1 && inFlight == {}
    {
      gen, inFlight, flightOf := gen + 1, {}, map[];
    }
  }

  // ----- two short histories -----

  const ONE := Draft([97], None)
  const TWO := Draft([97, 98], None)

  /** One letter is typed, and its write leaves. */
  method OneOnItsWay() returns (w: Writer)
    ensures fresh(w) && w.Valid() && w.enabled && w.gen == 0 && w.drafts == map["c" := ONE] && w.dirty == {"c"}
    ensures w.flights == map[0 := Flight(0, "c", Some(ONE))] && w.timers == map[] && w.again == {}
  {
    hide UpdateDrafts, Writer.Valid, Writer.ValidBut, PayloadOf;
    w := new Writer("d");
    w.Enable();
    OneTyped();
    w.SetDraft("c", [97], None, 0);
    w.TimerFires("c");
    assert w.timers == map[];
  }

  lemma OneTyped()
    ensures UpdateDrafts(map[], "c", [97], None) == map["c" := ONE]
    ensures UpdateDrafts(map["c" := ONE], "c", [97, 98], None) == map["c" := TWO]
  {
    assert !IsSpace([97][0]) && !IsSpace([97, 98][0]);
    assert !Blank([97]) && !Blank([97, 98]);
    assert [97][0] == 97 && |[97, 98]| == 2;
  }

  /**
   * In any state with no write of this conversation on its way something is typed, its timer fires, and the server
   * acknowledges the write: the writer rests, with no mark, no timer and no write for the conversation, and the server has
   * what was typed.
   */
  method TypedAndSaved(w: Writer, c: Id, text: Text, replyTo: Option<string>, typed: int, now: int)
    requires w.Valid() && w.enabled && c !in w.inFlight && c !in w.again && Normal(text, replyTo) != Lookup(w.drafts, c)
    modifies w
    ensures w.Valid() && Lookup(w.drafts, c) == Normal(text, replyTo)
    ensures c !in w.dirty && c !in w.timers && c !in w.inFlight && w.flights == old(w.flights)
    ensures c in w.acked && w.acked[c] == PayloadOf(Normal(text, replyTo))
  {
    hide UpdateDrafts, Normal, Writer.Valid, Writer.ValidBut, PayloadOf, MarksAfter, Lookup, GoesAgain;
    UpdateSetsOne(w.drafts, c, text, replyTo);
    w.SetDraft(c, text, replyTo, typed);
    ghost var before := w.flights;
    var f := w.nextId;
    w.FreshFlight();
    w.TimerFires(c);
    w.WriteEnds(f, c, Lookup(w.drafts, c), Acked, now);
    assert w.flights == before;
  }

  /**
   * In any state in which a write is on its way something else is typed, and then the answer comes: the draft is what was
   * typed, and it will be written (it is marked, and a timer or a write is there for it) exactly when the write was not
   * refused. Nobody else's draft or mark changes.
   */
  method ChangeMeetsAnswer(w: Writer, f: nat, c: Id, sent: Option<Draft>, text: Text, replyTo: Option<string>, typed: int,
                           outcome: Outcome, now: int)
    requires w.Valid() && w.enabled && f in w.flights && w.flights[f] == Flight(w.gen, c, sent)
    requires Normal(text, replyTo) != Lookup(w.drafts, c) && Normal(text, replyTo) != sent
    modifies w
    ensures w.Valid() && Lookup(w.drafts, c) == Normal(text, replyTo)
    ensures c in w.dirty && (c in w.timers || c in w.inFlight) <==> outcome != Refused
    ensures outcome == Refused ==> c !in w.dirty && c !in w.inFlight
    ensures forall k | k != c :: Lookup(w.drafts, k) == old(Lookup(w.drafts, k)) && (k in w.dirty <==> k in old(w.dirty))
  {
    hide UpdateDrafts, Normal, Writer.Valid, Writer.ValidBut, PayloadOf, MarksAfter, Lookup;
    UpdateSetsOne(w.drafts, c, text, replyTo);
    w.SetDraft(c, text, replyTo, typed);
    ghost var marked := w.dirty;
    ChangeKeepsMarkIff(marked, c, outcome, Lookup(w.drafts, c), sent);
    w.WriteEnds(f, c, sent, outcome, now);
  }

  /**
   * In any state something is typed, and then the record arrives: the letter keeps text and mark exactly when the record
   * has no drafts or this one, and no marks or this one. Any other draft, marked or saved, stays exactly when the record
   * has no drafts or the same one for it.
   */
  method RecordMeetsTyping(w: Writer, c: Id, text: Text, replyTo: Option<string>, now: int, recDrafts: map<Id, Draft>, recDirty: set<Id>)
    requires w.Valid() && w.enabled && Normal(text, replyTo) != Lookup(w.drafts, c)
    modifies w
    ensures w.Valid()
    ensures Lookup(w.drafts, c) == Normal(text, replyTo) && c in w.dirty <==>
      (recDrafts == map[] || Lookup(recDrafts, c) == Normal(text, replyTo)) && (recDirty == {} || c in recDirty)
    ensures forall k | k != c ::
      Lookup(w.drafts, k) == old(Lookup(w.drafts, k)) <==> recDrafts == map[] || Lookup(recDrafts, k) == old(Lookup(w.drafts, k))
  {
    hide UpdateDrafts, Normal, Writer.Valid, Writer.ValidBut, PayloadOf, Lookup;
    UpdateSetsOne(w.drafts, c, text, replyTo);
    w.SetDraft(c, text, replyTo, now);
    w.TakeRecord(recDrafts, recDirty);
  }

  /**
   * Another letter is typed while the write is on its way; the write is refused. Its timer fires, and the second letter is
   * neither marked nor on its way.
   */
  method RefusedForgetsChange() returns (w: Writer)
    ensures fresh(w) && w.Valid() && w.enabled && w.drafts == map["c" := TWO]
    ensures w.dirty == {} && w.flights == map[] && w.timers == map[]
  {
    hide UpdateDrafts, Writer.Valid, Writer.ValidBut, PayloadOf;
    w := OneOnItsWay();
    OneTyped();
    w.SetDraft("c", [97, 98], None, 1);
    w.WriteEnds(0, "c", Some(ONE), Refused, 2);
    w.TimerFires("c");
    assert w.timers == map[];
  }

  /** A letter is typed before the record arrives; the record has another draft and its mark, and the letter is gone. */
  method RecordForgetsTyped() returns (w: Writer)
    ensures fresh(w) && w.Valid() && w.enabled && w.drafts == map["k" := Draft([98], None)] && w.dirty == {"k"}
  {
    w := new Writer("d");
    w.Enable();
    w.SetDraft("c", [97], None, 0);
    w.TakeRecord(map["k" := Draft([98], None)], {"k"});
    assert "k" in map["k" := Draft([98], None)] && "k" in {"k"};
  }
}

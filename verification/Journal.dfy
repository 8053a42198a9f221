/**
 * The server's side: one person's journal of numbered changes, and what each message looks like after every number.
 * Entry `J[n - 1]` is the change numbered `n`.
 */
module Journal {
  import opened Feed
  import opened SyncRules

  datatype Change =
    | Sent(m: Msg)
    | EditedTo(id: Id, edit: Edit)
    | Reacted(id: Id, reactions: string)
    | Deleted(id: Id)
    | OtherChange

  datatype View = Absent | Alive(m: Msg) | Erased

  predicate Concerns(ch: Change, id: Id) {
    match ch
    case Sent(m) => m.id == id
    case EditedTo(i, _) => i == id
    case Reacted(i, _) => i == id
    case Deleted(i) => i == id
    case OtherChange => false
  }

  function After(v: View, ch: Change, id: Id): View {
    if !Concerns(ch, id) then v
    else match ch
      case Sent(m) => if v.Absent? then Alive(m) else v
      case EditedTo(_, e) => if v.Alive? then Alive(v.m.(edit := e)) else v
      case Reacted(_, r) => if v.Alive? then Alive(v.m.(reactions := r)) else v
      case Deleted(_) => if v.Alive? then Erased else v
      case OtherChange => v
  }

  /** Change number `n` of the journal is about this message. */
  predicate Touches(J: seq<Change>, n: nat, id: Id) {
    1 <= n <= |J| && Concerns(J[n - 1], id)
  }

  /** What the server shows for this message once the first `n` changes have happened. */
  function ViewAt(J: seq<Change>, id: Id, n: nat): View
    requires n <= |J|
  {
    if n == 0 then Absent else After(ViewAt(J, id, n - 1), J[n - 1], id)
  }

  predicate EditedLater(x: Edit, e: Edit) {
    e.editedAt.Some? && (x.editedAt.Some? ==> x.editedAt.value <= e.editedAt.value)
  }

  /**
   * An id is sent once and before anything else happens to it, a new message gets the largest key of its conversation,
   * edit times never go back.
   */
  ghost predicate LawfulAt(J: seq<Change>, n: nat)
    requires n < |J|
  {
    match J[n]
    case Sent(m) =>
      ViewAt(J, m.id, n).Absent? &&
      forall k | 0 <= k < n && J[k].Sent? && J[k].m.conv == m.conv :: J[k].m.sortKey < m.sortKey
    case EditedTo(id, e) =>
      !ViewAt(J, id, n).Absent? && (ViewAt(J, id, n).Alive? ==> EditedLater(ViewAt(J, id, n).m.edit, e))
    case Reacted(id, _) => !ViewAt(J, id, n).Absent?
    case Deleted(id) => !ViewAt(J, id, n).Absent?
    case OtherChange => true
  }

  ghost predicate Lawful(J: seq<Change>) {
    forall n | 0 <= n < |J| :: LawfulAt(J, n)
  }

  ghost predicate IsBirth(J: seq<Change>, n: nat) {
    1 <= n <= |J| && J[n - 1].Sent?
  }

  ghost function BirthMsg(J: seq<Change>, n: nat): Msg
    requires IsBirth(J, n)
  {
    J[n - 1].m
  }

  /** Change number `n` is the birth of message `id`. */
  ghost predicate BornAt(J: seq<Change>, id: Id, n: nat) {
    IsBirth(J, n) && BirthMsg(J, n).id == id
  }

  /** Nothing in the whole journal deletes this message. */
  ghost predicate Lasting(J: seq<Change>, id: Id) {
    ViewAt(J, id, |J|).Alive?
  }

  ghost predicate SameKey(a: Msg, b: Msg) {
    a.id == b.id && a.sortKey == b.sortKey && a.conv == b.conv
  }

  // ----- facts -----

  lemma {:induction false} ViewsOfPrefix(J: seq<Change>, J': seq<Change>, id: Id, n: nat)
    requires n <= |J| <= |J'| && J == J'[..|J|]
    ensures ViewAt(J, id, n) == ViewAt(J', id, n)
  {
    if n > 0 {
      ViewsOfPrefix(J, J', id, n - 1);
      assert J[n - 1] == J'[n - 1];
    }
  }

  /** Between two numbers with no change to a message its view is the same. */
  lemma {:induction false} ViewStays(J: seq<Change>, id: Id, a: nat, b: nat)
    requires a <= b <= |J|
    requires forall n | a < n <= b :: !Touches(J, n, id)
    ensures ViewAt(J, id, a) == ViewAt(J, id, b)
  {
    if a < b {
      ViewStays(J, id, a, b - 1);
      assert !Touches(J, b, id);
    }
  }

  lemma {:induction false} ViewNeverComesBack(J: seq<Change>, id: Id, a: nat, b: nat)
    requires a <= b <= |J|
    ensures ViewAt(J, id, a).Erased? ==> ViewAt(J, id, b).Erased?
    ensures ViewAt(J, id, b).Absent? ==> ViewAt(J, id, a).Absent?
    ensures ViewAt(J, id, b).Alive? && !ViewAt(J, id, a).Absent? ==> ViewAt(J, id, a).Alive?
  {
    if a < b { ViewNeverComesBack(J, id, a, b - 1); }
  }

  /** Key and conversation are what the message was born with; it is born no later than it is seen. */
  lemma {:induction false} ViewHasBirth(J: seq<Change>, id: Id, n: nat) returns (b: nat)
    requires n <= |J| && !ViewAt(J, id, n).Absent?
    ensures b <= n && BornAt(J, id, b)
    ensures ViewAt(J, id, n).Alive? ==> SameKey(ViewAt(J, id, n).m, BirthMsg(J, b))
    ensures ViewAt(J, id, b - 1).Absent?
  {
    if ViewAt(J, id, n - 1).Absent? {
      b := n;
    } else {
      b := ViewHasBirth(J, id, n - 1);
    }
  }

  /** In a lawful journal an id is born once, and before that it is absent. */
  lemma BirthUnique(J: seq<Change>, id: Id, a: nat, b: nat)
    requires Lawful(J) && BornAt(J, id, a) && BornAt(J, id, b)
    ensures a == b
  {
    assert LawfulAt(J, a - 1) && LawfulAt(J, b - 1);
    hide Lawful;
    assert After(ViewAt(J, id, a - 1), J[a - 1], id).Alive?;
    assert After(ViewAt(J, id, b - 1), J[b - 1], id).Alive?;
    if a < b { ViewNeverComesBack(J, id, a, b - 1); }
    if b < a { ViewNeverComesBack(J, id, b, a - 1); }
  }

  lemma AliveFromBirth(J: seq<Change>, id: Id, b: nat, n: nat)
    requires Lawful(J) && BornAt(J, id, b) && b <= n <= |J|
    ensures !ViewAt(J, id, n).Absent?
    ensures Lasting(J, id) ==> ViewAt(J, id, n).Alive?
    ensures ViewAt(J, id, b - 1).Absent?
  {
    assert LawfulAt(J, b - 1);
    hide Lawful;
    assert ViewAt(J, id, b).Alive?;
    ViewNeverComesBack(J, id, b, n);
    ViewNeverComesBack(J, id, n, |J|);
  }

  /** Nothing happens to a message before it is born. */
  lemma NoChangeBeforeBirth(J: seq<Change>, id: Id, b: nat, n: nat)
    requires Lawful(J) && BornAt(J, id, b) && Touches(J, n, id)
    ensures b <= n
  {
    assert LawfulAt(J, n - 1);
    AliveFromBirth(J, id, b, b);
    if J[n - 1].Sent? { BirthUnique(J, id, b, n); }
    hide Lawful;
    if n < b { ViewNeverComesBack(J, id, n - 1, b - 1); }
  }

  lemma BirthsInOrder(J: seq<Change>, a: nat, b: nat)
    requires Lawful(J) && IsBirth(J, a) && IsBirth(J, b) && BirthMsg(J, a).conv == BirthMsg(J, b).conv
    ensures BirthMsg(J, a).sortKey < BirthMsg(J, b).sortKey <==> a < b
    ensures BirthMsg(J, a).sortKey == BirthMsg(J, b).sortKey ==> a == b
  {
    assert LawfulAt(J, a - 1) && LawfulAt(J, b - 1);
    hide ViewAt;
  }

  /** In one conversation, feed order is the order of birth. */
  lemma BeforeIsBornEarlier(J: seq<Change>, x: Msg, y: Msg, a: nat, b: nat)
    requires Lawful(J) && IsBirth(J, a) && IsBirth(J, b) && x.conv == y.conv
    requires SameKey(x, BirthMsg(J, a)) && SameKey(y, BirthMsg(J, b))
    ensures Before(x, y) <==> a < b
  {
    BirthsInOrder(J, a, b);
    if a == b { IdTrichotomy(x.id, y.id); }
  }

  lemma {:induction false} EditTimesGrow(J: seq<Change>, id: Id, a: nat, b: nat)
    requires Lawful(J) && a <= b <= |J|
    requires ViewAt(J, id, a).Alive? && ViewAt(J, id, b).Alive?
    ensures var x, y := ViewAt(J, id, a).m.edit.editedAt, ViewAt(J, id, b).m.edit.editedAt;
      x.Some? ==> y.Some? && x.value <= y.value
  {
    if a < b {
      ViewNeverComesBack(J, id, a, b - 1);
      ViewNeverComesBack(J, id, b - 1, b);
      EditTimesGrow(J, id, a, b - 1);
      assert LawfulAt(J, b - 1);
    }
  }

  // ----- freshness of what a client shows -----

  /** The edit part, and the place, of `x` is what the server showed after change `a`. */
  ghost predicate ShowsEdit(J: seq<Change>, x: Msg, a: nat) {
    a <= |J| && ViewAt(J, x.id, a).Alive? && ViewAt(J, x.id, a).m.edit == x.edit && SameKey(ViewAt(J, x.id, a).m, x)
  }

  ghost predicate ShowsReactions(J: seq<Change>, x: Msg, b: nat) {
    b <= |J| && ViewAt(J, x.id, b).Alive? && ViewAt(J, x.id, b).m.reactions == x.reactions
  }

  /** `x` contains every change to it numbered up to `P` (and perhaps some later ones). */
  ghost predicate Fresh(J: seq<Change>, x: Msg, P: nat) {
    (exists a | P <= a <= |J| :: ShowsEdit(J, x, a)) && (exists b | P <= b <= |J| :: ShowsReactions(J, x, b))
  }

  lemma ViewIsFresh(J: seq<Change>, x: Msg, P: nat)
    requires P <= |J| && ViewAt(J, x.id, P) == Alive(x)
    ensures Fresh(J, x, P)
  {
    assert ShowsEdit(J, x, P) && ShowsReactions(J, x, P);
  }

  lemma FreshWeakens(J: seq<Change>, x: Msg, P: nat, Q: nat)
    requires Fresh(J, x, P) && Q <= P
    ensures Fresh(J, x, Q)
  {
    hide ShowsEdit, ShowsReactions;
  }

  /** No change to `x` in `(P, Q]`: what was fresh at `P` is fresh at `Q`. */
  lemma FreshAdvances(J: seq<Change>, x: Msg, P: nat, Q: nat)
    requires Fresh(J, x, P) && P <= Q <= |J|
    requires forall n | P < n <= Q :: !Touches(J, n, x.id)
    ensures Fresh(J, x, Q)
  {
    var a :| P <= a <= |J| && ShowsEdit(J, x, a);
    var b :| P <= b <= |J| && ShowsReactions(J, x, b);
    if a < Q {
      ViewStays(J, x.id, a, Q);
      assert ShowsEdit(J, x, Q);
    }
    if b < Q {
      ViewStays(J, x.id, b, Q);
      assert ShowsReactions(J, x, Q);
    }
  }

  lemma FreshInLonger(J: seq<Change>, J': seq<Change>, x: Msg, P: nat)
    requires |J| <= |J'| && J == J'[..|J|] && Fresh(J, x, P)
    ensures Fresh(J', x, P)
  {
    var a :| P <= a <= |J| && ShowsEdit(J, x, a);
    var b :| P <= b <= |J| && ShowsReactions(J, x, b);
    ViewsOfPrefix(J, J', x.id, a);
    ViewsOfPrefix(J, J', x.id, b);
    assert ShowsEdit(J', x, a) && ShowsReactions(J', x, b);
  }

  /** What is fresh at the end of the journal is exactly what the server shows. */
  lemma FreshAtEnd(J: seq<Change>, x: Msg)
    requires Fresh(J, x, |J|)
    ensures ViewAt(J, x.id, |J|) == Alive(x)
  {
    var a :| |J| <= a <= |J| && ShowsEdit(J, x, a);
    var b :| |J| <= b <= |J| && ShowsReactions(J, x, b);
    hide ViewAt;
  }

  lemma FreshHasBirth(J: seq<Change>, x: Msg, P: nat) returns (b: nat)
    requires Fresh(J, x, P)
    ensures BornAt(J, x.id, b) && SameKey(x, BirthMsg(J, b))
  {
    var a :| P <= a <= |J| && ShowsEdit(J, x, a);
    b := ViewHasBirth(J, x.id, a);
  }

  /** A reply to an edit that is later than the listed edit makes the listed message no less fresh. */
  lemma EditedReplyIsFresh(J: seq<Change>, x: Msg, m: Msg, P: nat, c: nat)
    requires Lawful(J) && Fresh(J, x, P) && P <= |J| && c <= |J|
    requires ViewAt(J, m.id, c) == Alive(m) && m.edit.editedAt.Some?
    ensures Fresh(J, Edited_(x, m), P)
  {
    if Edited_(x, m) != x {
      var a :| P <= a <= |J| && ShowsEdit(J, x, a);
      var b :| P <= b <= |J| && ShowsReactions(J, x, b);
      var y := m.(reactions := x.reactions);
      assert c > a by {
        if c <= a { EditTimesGrow(J, m.id, c, a); }
      }
      assert ShowsEdit(J, y, c);
      assert ShowsReactions(J, y, b);
    }
  }
}

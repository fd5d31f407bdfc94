/**
 * Membership notifications, which the relay may replay in any order: a bounded memory of
 * event ids drops exact repeats, and a per-channel watermark drops what is out of date.
 */
module Membership {
  import opened Prelude

  type Channel = nat
  type Id = string

  /** Ids per generation of the memory. */
  const GENERATION := 1000

  datatype Note = Note(channel: Channel, ts: nat, id: Id, added: bool)

  /** A delivery; `ok` says whether a subscription, if one is needed, can be made. */
  datatype Delivery = Delivery(note: Note, ok: bool)

  datatype State = State(
    newest: map<Channel, nat>,
    current: set<Id>,
    previous: set<Id>,
    removed: set<Channel>,
    subscribed: set<Channel>)

  /** At start-up nothing is known but the channels subscribed then. */
  function Initial(subscribed: set<Channel>): State {
    State(map[], {}, {}, {}, subscribed)
  }

  predicate Seen(s: State, id: Id) {
    id in s.current || id in s.previous
  }

  /** Remembers an id; a full generation becomes the previous one. */
  function Remember(s: State, id: Id): State {
    var current := s.current + {id};
    if |current| >= GENERATION then s.(current := {}, previous := current) else s.(current := current)
  }

  predicate Stale(s: State, n: Note) {
    n.channel in s.newest && n.ts < s.newest[n.channel]
  }

  function Applied(s: State, n: Note, ok: bool): State {
    var t := s.(newest := s.newest[n.channel := n.ts]);
    if n.added then
      t.(removed := s.removed - {n.channel}, subscribed := if ok then s.subscribed + {n.channel} else s.subscribed)
    else t.(removed := s.removed + {n.channel}, subscribed := s.subscribed - {n.channel})
  }

  function Next(s: State, d: Delivery): State {
    if Seen(s, d.note.id) then s
    else if Stale(s, d.note) then Remember(s, d.note.id)
    else Applied(Remember(s, d.note.id), d.note, d.ok)
  }

  function Run(start: set<Channel>, ds: seq<Delivery>): State {
    if ds == [] then Initial(start) else Next(Run(start, ds[..|ds| - 1]), ds[|ds| - 1])
  }

  /** The delivery is new and not out of date. */
  predicate TakesEffect(s: State, d: Delivery) {
    !Seen(s, d.note.id) && !(d.note.channel in s.newest && d.note.ts < s.newest[d.note.channel])
  }

  /** What the last delivery that took effect on the channel's subscription says; a failed subscription says nothing. */
  function Subscribes(start: set<Channel>, ds: seq<Delivery>, ch: Channel): bool {
    if ds == [] then ch in start
    else
      var n := |ds| - 1;
      var d := ds[n];
      if TakesEffect(Run(start, ds[..n]), d) && d.note.channel == ch && (d.ok || !d.note.added) then d.note.added
      else Subscribes(start, ds[..n], ch)
  }

  /** In every run a channel is subscribed as the last delivery in effect says, or as it was at the start. */
  lemma {:induction false} SubscribedAsSaid(start: set<Channel>, ds: seq<Delivery>, ch: Channel)
    ensures ch in Run(start, ds).subscribed <==> Subscribes(start, ds, ch)
    decreases ds
  {
    if ds != [] {
      SubscribedAsSaid(start, ds[..|ds| - 1], ch);
      NextSubscribes(Run(start, ds[..|ds| - 1]), ds[|ds| - 1], ch);
    }
  }

  lemma NextSubscribes(s: State, d: Delivery, ch: Channel)
    ensures ch in Next(s, d).subscribed <==>
      if TakesEffect(s, d) && d.note.channel == ch && (d.ok || !d.note.added) then d.note.added else ch in s.subscribed
  {
  }

  // -------------------------------------------------------------- the bounded memory

  /** The ids taken in, in order: those not remembered when they came. */
  function Taken(start: set<Channel>, ds: seq<Delivery>): seq<Id> {
    if ds == [] then []
    else
      var before := ds[..|ds| - 1];
      var id := ds[|ds| - 1].note.id;
      if Seen(Run(start, before), id) then Taken(start, before) else Taken(start, before) + [id]
  }

  function SetOf(ids: seq<Id>): set<Id> {
    set i | 0 <= i < |ids| :: ids[i]
  }

  /** The ids taken in: forgotten ones, those of the previous generation, those of the current one. */
  datatype Ages = Ages(forgotten: seq<Id>, older: seq<Id>, young: seq<Id>)

  ghost predicate Memory(ids: seq<Id>, a: Ages, s: State) {
    && ids == a.forgotten + a.older + a.young
    && |s.current| == |a.young| < GENERATION
    && s.current == SetOf(a.young) && s.previous == SetOf(a.older)
    && (|a.older| == GENERATION || (a.older == [] && a.forgotten == []))
  }

  lemma SetOfSnoc(ids: seq<Id>, id: Id)
    ensures SetOf(ids + [id]) == SetOf(ids) + {id}
  {
    var longer := ids + [id];
    assert longer[|ids|] == id;
    forall x | x in SetOf(ids) ensures x in SetOf(longer) {
      var i :| 0 <= i < |ids| && ids[i] == x;
      assert longer[i] == x;
    }
  }

  lemma RememberKeeps(ids: seq<Id>, a: Ages, s: State, id: Id) returns (next: Ages)
    requires Memory(ids, a, s) && !Seen(s, id)
    ensures Memory(ids + [id], next, Remember(s, id))
  {
    var young := a.young + [id];
    SetOfSnoc(a.young, id);
    assert s.current + {id} == SetOf(young) && |s.current + {id}| == |young|;
    if |young| < GENERATION {
      next := a.(young := young);
      assert ids + [id] == a.forgotten + a.older + young;
    } else {
      next := Ages(a.forgotten + a.older, young, []);
      assert ids + [id] == a.forgotten + a.older + young + [];
      assert SetOf([]) == {};
    }
  }

  lemma {:induction false} MemoryHolds(start: set<Channel>, ds: seq<Delivery>) returns (a: Ages)
    ensures Memory(Taken(start, ds), a, Run(start, ds))
    decreases ds
  {
    if ds == [] {
      a := Ages([], [], []);
    } else {
      var before := ds[..|ds| - 1];
      var id := ds[|ds| - 1].note.id;
      var s := Run(start, before);
      a := MemoryHolds(start, before);
      if !Seen(s, id) {
        var ids := Taken(start, before);
        a := RememberKeeps(ids, a, s, id);
        NextMemory(ids + [id], a, s, ds[|ds| - 1]);
      }
    }
  }

  /** Only the remembering matters to the memory. */
  lemma NextMemory(ids: seq<Id>, a: Ages, s: State, d: Delivery)
    requires Memory(ids, a, Remember(s, d.note.id)) && !Seen(s, d.note.id)
    ensures Memory(ids, a, Next(s, d))
  {
  }

  /** The thousand ids taken in last, or all of them when there are fewer, are always remembered. */
  lemma RemembersLastThousand(start: set<Channel>, ds: seq<Delivery>, i: nat)
    requires var ids := Taken(start, ds); |ids| - 1_000 <= i < |ids|
    ensures Seen(Run(start, ds), Taken(start, ds)[i])
  {
    var a := MemoryHolds(start, ds);
    MemoryHas(Taken(start, ds), a, Run(start, ds), i);
  }

  lemma MemoryHas(ids: seq<Id>, a: Ages, s: State, i: nat)
    requires Memory(ids, a, s) && |ids| - GENERATION <= i < |ids|
    ensures Seen(s, ids[i])
  {
    var from := |a.forgotten|;
    if i >= from + |a.older| {
      assert ids[i] == a.young[i - from - |a.older|];
    } else {
      assert ids[i] == a.older[i - from];
    }
  }

  /** Nothing is remembered that was not taken in among the last 1,999 ids. */
  lemma ForgetsTheRest(start: set<Channel>, ds: seq<Delivery>, id: Id)
    requires Seen(Run(start, ds), id)
    ensures exists i :: 0 <= i < |Taken(start, ds)| && i >= |Taken(start, ds)| - 1_999 && Taken(start, ds)[i] == id
  {
    var a := MemoryHolds(start, ds);
    var i := MemoryFrom(Taken(start, ds), a, Run(start, ds), id);
  }

  lemma MemoryFrom(ids: seq<Id>, a: Ages, s: State, id: Id) returns (i: nat)
    requires Memory(ids, a, s) && Seen(s, id)
    ensures |ids| - 2 * GENERATION + 1 <= i < |ids| && ids[i] == id
  {
    var from := |a.forgotten|;
    if id in s.current {
      var k :| 0 <= k < |a.young| && a.young[k] == id;
      i := from + |a.older| + k;
    } else {
      var k :| 0 <= k < |a.older| && a.older[k] == id;
      i := from + k;
    }
  }

  // --------------------------------------------------------------------- convergence

  /** An id stands for one notification. */
  ghost predicate Honest(ds: seq<Delivery>) {
    forall i, j :: 0 <= i < |ds| && 0 <= j < |ds| && ds[i].note.id == ds[j].note.id ==> ds[i].note == ds[j].note
  }

  ghost predicate Mentions(ds: seq<Delivery>, ch: Channel) {
    exists i :: 0 <= i < |ds| && ds[i].note.channel == ch
  }

  /** Delivery `i` is a newest notification of its channel. */
  ghost predicate Newest(ds: seq<Delivery>, i: nat) {
    && i < |ds|
    && forall j :: 0 <= j < |ds| && ds[j].note.channel == ds[i].note.channel ==> ds[j].note.ts <= ds[i].note.ts
  }

  /** The state of a channel is what delivery `i`, one of its newest, says. */
  ghost predicate Reflects(s: State, ds: seq<Delivery>, ch: Channel, i: nat) {
    && Newest(ds, i) && ds[i].note.channel == ch
    && ch in s.newest && s.newest[ch] == ds[i].note.ts
    && (ch in s.removed <==> !ds[i].note.added)
  }

  ghost predicate Tracks(s: State, ds: seq<Delivery>, ch: Channel) {
    if Mentions(ds, ch) then exists i :: Reflects(s, ds, ch, i)
    else ch !in s.newest && ch !in s.removed
  }

  ghost predicate SeenOnly(s: State, ds: seq<Delivery>) {
    forall id :: Seen(s, id) ==> exists i :: 0 <= i < |ds| && ds[i].note.id == id
  }

  lemma {:induction false} SeenWasDelivered(start: set<Channel>, ds: seq<Delivery>)
    ensures SeenOnly(Run(start, ds), ds)
    decreases ds
  {
    if ds != [] {
      var n := |ds| - 1;
      SeenWasDelivered(start, ds[..n]);
      assert forall i :: 0 <= i < n ==> ds[..n][i] == ds[i];
      forall id | Seen(Run(start, ds), id) ensures exists i :: 0 <= i < |ds| && ds[i].note.id == id {
        if id == ds[n].note.id {
          assert ds[n].note.id == id;
        } else {
          assert Seen(Run(start, ds[..n]), id);
        }
      }
    }
  }

  /** A delivery of another channel leaves what is tracked. */
  lemma OtherChannel(s: State, ds: seq<Delivery>, d: Delivery, ch: Channel)
    requires Tracks(s, ds, ch) && d.note.channel != ch
    ensures Tracks(Next(s, d), ds + [d], ch)
  {
    var longer := ds + [d];
    assert forall i :: 0 <= i < |ds| ==> longer[i] == ds[i];
    if Mentions(ds, ch) {
      var i: nat :| Reflects(s, ds, ch, i);
      assert Reflects(Next(s, d), longer, ch, i);
      assert longer[i].note.channel == ch;
    }
  }

  /** A delivery that is dropped is no newer than what is tracked. */
  lemma Dropped(s: State, t: State, ds: seq<Delivery>, d: Delivery, ch: Channel, i: nat)
    requires Reflects(s, ds, ch, i) && d.note.channel == ch && d.note.ts <= ds[i].note.ts
    requires t.newest == s.newest && t.removed == s.removed
    ensures Tracks(t, ds + [d], ch)
  {
    var longer := ds + [d];
    assert forall i :: 0 <= i < |ds| ==> longer[i] == ds[i];
    assert Reflects(t, longer, ch, i);
    assert longer[i].note.channel == ch;
  }

  lemma Landed(s: State, ds: seq<Delivery>, d: Delivery, ch: Channel)
    requires Tracks(s, ds, ch) && d.note.channel == ch && !Stale(s, d.note)
    ensures Tracks(Applied(Remember(s, d.note.id), d.note, d.ok), ds + [d], ch)
  {
    var longer := ds + [d];
    var n := |ds|;
    assert longer[n] == d;
    if Mentions(ds, ch) {
      var i: nat :| Reflects(s, ds, ch, i);
      assert forall j :: 0 <= j < n && ds[j].note.channel == ch ==> ds[j].note.ts <= ds[i].note.ts;
    }
    assert forall j :: 0 <= j < n ==> longer[j] == ds[j];
    assert Newest(longer, n);
    assert Reflects(Applied(Remember(s, d.note.id), d.note, d.ok), longer, ch, n);
  }

  lemma {:induction false} TracksAlways(start: set<Channel>, ds: seq<Delivery>, ch: Channel)
    requires Honest(ds)
    ensures Tracks(Run(start, ds), ds, ch)
    decreases ds
  {
    if ds != [] {
      var n := |ds| - 1;
      var before, d := ds[..n], ds[n];
      var s := Run(start, before);
      assert ds == before + [d];
      assert forall i :: 0 <= i < n ==> before[i] == ds[i];
      TracksAlways(start, before, ch);
      SeenWasDelivered(start, before);
      if d.note.channel != ch {
        OtherChannel(s, before, d, ch);
      } else if Seen(s, d.note.id) {
        var k: nat :| 0 <= k < n && before[k].note.id == d.note.id;
        assert ds[k].note == ds[n].note;
        assert Mentions(before, ch);
        var i: nat :| Reflects(s, before, ch, i);
        Dropped(s, s, before, d, ch, i);
      } else if Stale(s, d.note) {
        assert Mentions(before, ch);
        var i: nat :| Reflects(s, before, ch, i);
        Dropped(s, Remember(s, d.note.id), before, d, ch, i);
      } else {
        Landed(s, before, d, ch);
      }
    }
  }

  ghost predicate Has(ds: seq<Delivery>, n: Note) {
    exists i :: 0 <= i < |ds| && ds[i].note == n
  }

  /** A notification of its channel that no other one is newer than. */
  ghost predicate NewestNote(ds: seq<Delivery>, n: Note) {
    Has(ds, n) && forall m :: Has(ds, m) && m.channel == n.channel ==> m.ts <= n.ts
  }

  /** The channel's newest notifications say the same. */
  ghost predicate NewestAgree(ds: seq<Delivery>, ch: Channel) {
    forall m, n :: NewestNote(ds, m) && NewestNote(ds, n) && m.channel == ch == n.channel ==> m.added == n.added
  }

  /** The note that decides a channel is one of its newest. */
  lemma Decider(ds: seq<Delivery>, s: State, ch: Channel) returns (n: Note)
    requires Tracks(s, ds, ch) && Mentions(ds, ch)
    ensures NewestNote(ds, n) && n.channel == ch && (ch in s.removed <==> !n.added)
    ensures ch in s.newest && s.newest[ch] == n.ts
  {
    var i: nat :| Reflects(s, ds, ch, i);
    n := ds[i].note;
    forall m | Has(ds, m) && m.channel == ch ensures m.ts <= n.ts {
      var j: nat :| j < |ds| && ds[j].note == m;
    }
  }

  lemma HasMentions(ds: seq<Delivery>, n: Note)
    requires Has(ds, n)
    ensures Mentions(ds, n.channel)
  {
  }

  lemma MentionsHas(ds: seq<Delivery>, ch: Channel) returns (n: Note)
    requires Mentions(ds, ch)
    ensures Has(ds, n) && n.channel == ch
  {
    var i: nat :| i < |ds| && ds[i].note.channel == ch;
    n := ds[i].note;
  }

  /**
   * However the notifications of a channel are ordered and however often each is
   * repeated, the channel ends up removed exactly when its newest one is a removal, as
   * long as those with the newest timestamp agree; older ones may disagree. The memory
   * of ids is not needed for it.
   */
  lemma Converges(start: set<Channel>, ds: seq<Delivery>, n: Note)
    requires Honest(ds) && NewestNote(ds, n) && NewestAgree(ds, n.channel)
    ensures n.channel in Run(start, ds).removed <==> !n.added
  {
    TracksAlways(start, ds, n.channel);
    HasMentions(ds, n);
    var m := Decider(ds, Run(start, ds), n.channel);
  }

  /** The same notifications, each any number of times, in whatever order. */
  ghost predicate SameNotes(a: seq<Delivery>, b: seq<Delivery>) {
    forall n :: Has(a, n) <==> Has(b, n)
  }

  lemma SameNotesHonest(a: seq<Delivery>, b: seq<Delivery>)
    requires Honest(a) && SameNotes(a, b)
    ensures Honest(b)
  {
    forall i, j | 0 <= i < |b| && 0 <= j < |b| && b[i].note.id == b[j].note.id ensures b[i].note == b[j].note {
      assert Has(b, b[i].note) && Has(b, b[j].note);
      assert Has(a, b[i].note) && Has(a, b[j].note);
      var k: nat :| k < |a| && a[k].note == b[i].note;
      var l: nat :| l < |a| && a[l].note == b[j].note;
    }
  }

  /** Two deliveries of the same notifications agree on a channel whose newest ones do. */
  lemma {:induction false} OrderDoesNotMatter(start: set<Channel>, a: seq<Delivery>, b: seq<Delivery>, ch: Channel)
    requires Honest(a) && SameNotes(a, b) && NewestAgree(a, ch)
    ensures ch in Run(start, a).removed <==> ch in Run(start, b).removed
  {
    SameNotesHonest(a, b);
    TracksAlways(start, a, ch);
    TracksAlways(start, b, ch);
    if Mentions(a, ch) {
      var m := Decider(a, Run(start, a), ch);
      HasMentions(b, m);
      var n := Decider(b, Run(start, b), ch);
      SameNewest(a, b, n);
    } else if Mentions(b, ch) {
      var n := MentionsHas(b, ch);
      HasMentions(a, n);
    }
  }

  lemma SameNewest(a: seq<Delivery>, b: seq<Delivery>, n: Note)
    requires SameNotes(a, b) && NewestNote(b, n)
    ensures NewestNote(a, n)
  {
    assert Has(a, n) <==> Has(b, n);
    forall m | Has(a, m) && m.channel == n.channel ensures m.ts <= n.ts {
      assert Has(b, m);
    }
  }

  /** The deliveries of other notifications. */
  function Others(ds: seq<Delivery>, n: Note): seq<Delivery> {
    if ds == [] then []
    else
      var before, last := Others(ds[..|ds| - 1], n), ds[|ds| - 1];
      if last.note == n then before else before + [last]
  }

  lemma HasSnoc(ds: seq<Delivery>, d: Delivery, n: Note)
    ensures Has(ds + [d], n) <==> Has(ds, n) || d.note == n
  {
    var longer := ds + [d];
    assert longer[|ds|] == d && forall i :: 0 <= i < |ds| ==> longer[i] == ds[i];
  }

  lemma {:induction false} OthersHas(ds: seq<Delivery>, n: Note, m: Note)
    ensures Has(Others(ds, n), m) <==> Has(ds, m) && m != n
    decreases ds
  {
    if ds != [] {
      var before, last := ds[..|ds| - 1], ds[|ds| - 1];
      OthersHas(before, n, m);
      assert ds == before + [last];
      HasSnoc(before, last, m);
      HasSnoc(Others(before, n), last, m);
    }
  }

  /** Every other notification, then this one. */
  function EndingWith(ds: seq<Delivery>, d: Delivery): seq<Delivery> {
    Others(ds, d.note) + [d]
  }

  lemma EndingWithSame(ds: seq<Delivery>, d: Delivery)
    requires Has(ds, d.note)
    ensures SameNotes(ds, EndingWith(ds, d))
  {
    forall m ensures Has(ds, m) <==> Has(EndingWith(ds, d), m) {
      OthersHas(ds, d.note, m);
      HasSnoc(Others(ds, d.note), d, m);
    }
  }

  /** A newest notification that comes last decides its channel. */
  lemma LastNewestDecides(start: set<Channel>, ds: seq<Delivery>, d: Delivery)
    requires Honest(ds) && NewestNote(ds, d.note)
    ensures d.note.channel in Run(start, EndingWith(ds, d)).removed <==> !d.note.added
  {
    var ch, before := d.note.channel, Others(ds, d.note);
    var s := Run(start, before);
    OthersHonest(ds, d.note);
    TracksAlways(start, before, ch);
    NotSeenYet(start, ds, d.note);
    if Mentions(before, ch) {
      var m := Decider(before, s, ch);
      OthersHas(ds, d.note, m);
    }
    assert !Stale(s, d.note);
    assert EndingWith(ds, d)[..|before|] == before;
  }

  lemma OthersHonest(ds: seq<Delivery>, n: Note)
    requires Honest(ds)
    ensures Honest(Others(ds, n))
  {
    var o := Others(ds, n);
    forall i, j | 0 <= i < |o| && 0 <= j < |o| && o[i].note.id == o[j].note.id ensures o[i].note == o[j].note {
      OthersHas(ds, n, o[i].note);
      OthersHas(ds, n, o[j].note);
      SameIdSameNote(ds, o[i].note, o[j].note);
    }
  }

  lemma SameIdSameNote(ds: seq<Delivery>, m: Note, n: Note)
    requires Honest(ds) && Has(ds, m) && Has(ds, n) && m.id == n.id
    ensures m == n
  {
    var i: nat :| i < |ds| && ds[i].note == m;
    var j: nat :| j < |ds| && ds[j].note == n;
  }

  lemma NotSeenYet(start: set<Channel>, ds: seq<Delivery>, n: Note)
    requires Honest(ds) && Has(ds, n)
    ensures !Seen(Run(start, Others(ds, n)), n.id)
  {
    var o := Others(ds, n);
    SeenWasDelivered(start, o);
    if Seen(Run(start, o), n.id) {
      var i :| 0 <= i < |o| && o[i].note.id == n.id;
      OthersHas(ds, n, o[i].note);
      SameIdSameNote(ds, o[i].note, n);
    }
  }

  /** Two deliveries of these notifications leave the channel in different states. */
  ghost predicate OrderDecides(start: set<Channel>, ds: seq<Delivery>, ch: Channel) {
    exists a, b :: SameNotes(ds, a) && SameNotes(ds, b) && Differ(Run(start, a), Run(start, b), ch)
  }

  predicate Differ(s: State, t: State, ch: Channel) {
    (ch in s.removed) != (ch in t.removed)
  }

  lemma DisagreementDecides(start: set<Channel>, ds: seq<Delivery>, m: Note, n: Note)
    requires Honest(ds) && NewestNote(ds, m) && NewestNote(ds, n)
    requires m.channel == n.channel && m.added != n.added
    ensures OrderDecides(start, ds, m.channel)
  {
    var a, b := EndingWith(ds, Delivery(m, true)), EndingWith(ds, Delivery(n, true));
    EndingWithSame(ds, Delivery(m, true));
    EndingWithSame(ds, Delivery(n, true));
    LastNewestDecides(start, ds, Delivery(m, true));
    LastNewestDecides(start, ds, Delivery(n, true));
    assert Differ(Run(start, a), Run(start, b), m.channel);
  }

  /**
   * For any notifications, each repeated any number of times: the order decides whether
   * the channel ends up removed if and only if two of its newest notifications disagree.
   */
  lemma {:induction false} OrderDecidesIff(start: set<Channel>, ds: seq<Delivery>, ch: Channel)
    requires Honest(ds)
    ensures OrderDecides(start, ds, ch) <==> !NewestAgree(ds, ch)
  {
    if NewestAgree(ds, ch) {
      forall a, b | SameNotes(ds, a) && SameNotes(ds, b) ensures !Differ(Run(start, a), Run(start, b), ch) {
        OrderDoesNotMatter(start, ds, a, ch);
        OrderDoesNotMatter(start, ds, b, ch);
      }
    } else {
      var m, n :| NewestNote(ds, m) && NewestNote(ds, n) && m.channel == ch == n.channel && m.added != n.added;
      DisagreementDecides(start, ds, m, n);
    }
  }

  /** Two different notifications of a channel: their order matters exactly when they disagree within one second. */
  lemma OrderMattersIff(start: set<Channel>, a: Delivery, b: Delivery)
    requires a.note.channel == b.note.channel && a.note.id != b.note.id
    ensures var ch := a.note.channel;
      (ch in Run(start, [a, b]).removed) != (ch in Run(start, [b, a]).removed) <==>
      (a.note.ts == b.note.ts && a.note.added != b.note.added)
  {
    PairEndsWith(start, a, b);
    PairEndsWith(start, b, a);
  }

  lemma PairEndsWith(start: set<Channel>, a: Delivery, b: Delivery)
    requires a.note.channel == b.note.channel && a.note.id != b.note.id
    ensures a.note.channel in Run(start, [a, b]).removed <==>
      !(if b.note.ts < a.note.ts then a.note.added else b.note.added)
  {
    assert [a, b][..1] == [a] && [a, b][1] == b;
    FirstNote(start, a);
    SecondNote(Run(start, [a]), a.note, b);
  }

  lemma SecondNote(s: State, a: Note, b: Delivery)
    requires s.newest == map[a.channel := a.ts] && s.current == {a.id} && s.previous == {}
    requires a.channel in s.removed <==> !a.added
    requires a.channel == b.note.channel && a.id != b.note.id
    ensures a.channel in Next(s, b).removed <==> !(if b.note.ts < a.ts then a.added else b.note.added)
  {
  }

  lemma FirstNote(start: set<Channel>, a: Delivery)
    ensures var s := Run(start, [a]);
      && s.newest == map[a.note.channel := a.note.ts] && s.current == {a.note.id} && s.previous == {}
      && (a.note.channel in s.removed <==> !a.note.added)
  {
    assert [a][..0] == [] && [a][0] == a;
    assert Run(start, [a][..0]) == Initial(start);
    assert |{} + {a.note.id}| == 1;
  }

  // ----------------------------------------------------------- subscriptions follow

  lemma {:induction false} NeverBoth(start: set<Channel>, ds: seq<Delivery>)
    ensures Run(start, ds).subscribed !! Run(start, ds).removed
    decreases ds
  {
    if ds != [] {
      NeverBoth(start, ds[..|ds| - 1]);
      NextApart(Run(start, ds[..|ds| - 1]), ds[|ds| - 1]);
    }
  }

  lemma NextApart(s: State, d: Delivery)
    requires s.subscribed !! s.removed
    ensures Next(s, d).subscribed !! Next(s, d).removed
  {
  }

  /** When subscribing never fails, the channels notified about are subscribed exactly when not removed. */
  lemma {:induction false} SubscribedUnlessRemoved(start: set<Channel>, ds: seq<Delivery>, ch: Channel)
    requires forall i :: 0 <= i < |ds| ==> ds[i].ok
    ensures Follows(start, Run(start, ds), ch)
    decreases ds
  {
    if ds != [] {
      var n := |ds| - 1;
      assert forall i :: 0 <= i < n ==> ds[..n][i] == ds[i];
      SubscribedUnlessRemoved(start, ds[..n], ch);
      NextSubscribed(start, Run(start, ds[..n]), ds[n], ch);
    }
  }

  predicate Follows(start: set<Channel>, s: State, ch: Channel) {
    if ch in s.newest then ch in s.subscribed <==> ch !in s.removed
    else ch !in s.removed && (ch in s.subscribed <==> ch in start)
  }

  lemma NextSubscribed(start: set<Channel>, s: State, d: Delivery, ch: Channel)
    requires d.ok && Follows(start, s, ch)
    ensures Follows(start, Next(s, d), ch)
  {
  }

  // ------------------------------------------------------------------- the component

  class MembershipTracker {
    var newest: map<Channel, nat>
    var current: set<Id>
    var previous: set<Id>
    var removed: set<Channel>
    var subscribed: set<Channel>

    ghost function Model(): State reads this { State(newest, current, previous, removed, subscribed) }

    constructor (start: set<Channel>)
      ensures Model() == Initial(start)
    {
      newest, current, previous, removed, subscribed := map[], {}, {}, {}, start;
    }

    /** `resolves`: some rule gives the channel a filter; `accepted`: the relay takes the subscription. */
    method OnNotification(n: Note, resolves: bool, accepted: bool)
      modifies this
      ensures Model() == Next(old(Model()), Delivery(n, n.channel in old(subscribed) || (resolves && accepted)))
    {
      if n.id in current || n.id in previous {
        return;
      }
      current := current + {n.id};
      if |current| >= GENERATION {
        previous, current := current, {};
      }
      if n.channel in newest && n.ts < newest[n.channel] {
        return;
      }
      newest := newest[n.channel := n.ts];
      if n.added {
        removed := removed - {n.channel};
        if n.channel !in subscribed && resolves && accepted {
          subscribed := subscribed + {n.channel};
        }
        assert n.channel in old(subscribed) ==> subscribed == old(subscribed) + {n.channel};
      } else {
        subscribed := subscribed - {n.channel};
        removed := removed + {n.channel};
      }
    }
  }
}

/**
 The structure of the scheduler (what internal/gateway/presence_schedule_test.go:39-97 samples), section by section.
 */
module PresenceInvariants {
  import opened Common
  import opened DueHeap
  import opened PresenceModel
  import opened Sums

  type Subs = map<Id, Sub>
  type Owners = map<Conn, Id>
  type Index = map<string, set<Conn>>

  // ---------------------------------------------------------------- the invariants

  /** A connection's subscription is its own, and it is active exactly while its set is not empty. */
  ghost predicate Own(subs: Subs, onlineSub: Owners, active: Owners) {
    && (forall c :: c in onlineSub ==> onlineSub[c] in subs && subs[onlineSub[c]].client == c)
    && (forall c :: c in active ==> c in onlineSub && active[c] == onlineSub[c])
    && (forall c :: c in onlineSub ==> (c in active <==> subs[onlineSub[c]].users != {}))
  }

  /** No connection ever owns two subscription objects, and a live one on a running node still owns its own. */
  ghost predicate Unique(subs: Subs, onlineSub: Owners, dead: set<Conn>, stopped: bool) {
    && (forall x, y :: x in subs && y in subs && x != y ==> subs[x].client != subs[y].client)
    && (!stopped ==> forall x :: x in subs && subs[x].client !in dead ==>
         subs[x].client in onlineSub && onlineSub[subs[x].client] == x)
  }

  /** A queued subscription is active, not reading, and not due before its minimum interval is over. */
  ghost predicate Waiting(sub: Sub, x: Id, active: Owners, r: Rank, order: nat) {
    sub.client in active && active[sub.client] == x && !sub.reading && sub.nextAttempt <= r.readyAt && r.order < order
  }

  ghost predicate Queue(subs: Subs, active: Owners, due: map<Id, Rank>, order: nat) {
    && (forall x :: x in due ==> x in subs && Waiting(subs[x], x, active, due[x], order))
    && (forall x, y :: x in due && y in due && x != y ==> due[x].order != due[y].order)
  }

  /** Who watches whom. */
  type Sets = map<Conn, set<string>>

  ghost function SetsOf(subs: Subs, active: Owners): Sets {
    map c | c in active :: if active[c] in subs then subs[active[c]].users else {}
  }

  /** byUser is the exact inverse of the active sets, without empty entries. */
  ghost predicate Inverse(w: Sets, byUser: Index) {
    && (forall u :: u in byUser ==> byUser[u] != {})
    && (forall u, c :: c in Watchers(byUser, u) <==> c in w && u in w[c])
  }

  ghost function Sizes(w: Sets): map<Conn, int> { map c | c in w :: |w[c]| }

  ghost predicate Counted(w: Sets, refs: int) { refs == Sum(Sizes(w)) && refs <= MAX_REFS }

  ghost function FlightSet(jobs: seq<Job>, running: set<Job>): set<Id> {
    (set i | 0 <= i < |jobs| :: jobs[i].sub) + (set j | j in running :: j.sub)
  }

  ghost function ReadingSet(subs: Subs): set<Id> { set x | x in subs && subs[x].reading }

  /** No subscription has two reads, neither waiting in the channel nor running. */
  ghost predicate OneEach(jobs: seq<Job>, running: set<Job>) {
    && (forall i, j :: 0 <= i < j < |jobs| ==> jobs[i].sub != jobs[j].sub)
    && (forall a, b :: a in running && b in running && a.sub == b.sub ==> a == b)
    && (forall i, b :: 0 <= i < |jobs| && b in running ==> jobs[i].sub != b.sub)
  }

  /** A subscription is reading exactly while it has a job. */
  ghost predicate Flights(subs: Subs, jobs: seq<Job>, running: set<Job>) {
    OneEach(jobs, running) && FlightSet(jobs, running) == ReadingSet(subs)
  }

  /** Every slot in use is one job, so a job is only ever sent to a channel with room. */
  ghost predicate Slots(jobs: seq<Job>, running: set<Job>, slots: nat) {
    slots == |jobs| + |running| && slots <= WORKERS
  }

  /** A marker is only held while the read that will carry it is in flight. */
  ghost predicate RemarkOk(sub: Sub, dead: set<Conn>, over: bool) {
    sub.remark ==> sub.users != {} && (sub.reading || over || sub.client in dead)
  }

  ghost predicate Remarks(subs: Subs, dead: set<Conn>, over: bool) {
    forall x :: x in subs ==> RemarkOk(subs[x], dead, over)
  }

  /** Every live active subscription is queued or reading, apart from x. */
  ghost predicate Live(subs: Subs, active: Owners, due: map<Id, Rank>, dead: set<Conn>, x: Option<Id>) {
    forall c :: c in active && c !in dead && active[c] in subs && Some(active[c]) != x ==>
      active[c] in due || subs[active[c]].reading
  }

  ghost predicate RegOk(p: Reg, dead: set<Conn>, stopped: bool, over: bool) {
    && Own(p.subs, p.onlineSub, p.active) && Unique(p.subs, p.onlineSub, dead, stopped)
    && Queue(p.subs, p.active, p.due, p.order)
    && Inverse(SetsOf(p.subs, p.active), p.byUser) && Counted(SetsOf(p.subs, p.active), p.refs)
    && Remarks(p.subs, dead, over)
  }

  ghost predicate StructOk(s: State) {
    && RegOk(s.reg, s.dead, s.stopped, Over(s))
    && Flights(s.reg.subs, s.pool.jobs, s.pool.running) && Slots(s.pool.jobs, s.pool.running, s.pool.slots)
  }

  ghost predicate LiveBut(s: State, x: Option<Id>) { !Over(s) ==> Live(s.reg.subs, s.reg.active, s.reg.due, s.dead, x) }

  // ---------------------------------------------------------------- the reverse index

  lemma UnwatchIs(byUser: Index, users: set<string>, c: Conn)
    requires forall u :: u in byUser ==> byUser[u] != {}
    ensures forall u :: u in Unwatch(byUser, users, c) ==> Unwatch(byUser, users, c)[u] != {}
    ensures forall u :: Watchers(Unwatch(byUser, users, c), u)
                        == if u in users then Watchers(byUser, u) - {c} else Watchers(byUser, u)
  {}

  lemma WatchIs(byUser: Index, users: set<string>, c: Conn)
    requires forall u :: u in byUser ==> byUser[u] != {}
    ensures forall u :: u in Watch(byUser, users, c) ==> Watch(byUser, users, c)[u] != {}
    ensures forall u :: Watchers(Watch(byUser, users, c), u)
                        == if u in users then Watchers(byUser, u) + {c} else Watchers(byUser, u)
  {}

  // ---------------------------------------------------------------- one connection's set is replaced

  /** Replacing the set of connection c, whose subscription is x: x's row changes, c leaves or (re)enters active. */
  ghost predicate Replaces(subs: Subs, onlineSub: Owners, active: Owners, c: Conn, x: Id, users: set<string>,
                           subs': Subs, onlineSub': Owners, active': Owners)
  {
    && (x in subs' && subs' == subs[x := subs'[x]] && subs'[x].client == c && subs'[x].users == users)
    && (c in onlineSub ==> onlineSub[c] == x)
    && (forall y :: y in subs && y != x ==> subs[y].client != c)
    && (x in subs ==> subs[x].client == c)
    && onlineSub' == onlineSub[c := x]
    && active' == (if users == {} then active - {c} else active[c := x])
  }

  lemma ReplaceOwn(subs: Subs, onlineSub: Owners, active: Owners, c: Conn, x: Id, users: set<string>,
                   subs': Subs, onlineSub': Owners, active': Owners, dead: set<Conn>)
    requires Own(subs, onlineSub, active) && Unique(subs, onlineSub, dead, false)
    requires Replaces(subs, onlineSub, active, c, x, users, subs', onlineSub', active')
    ensures Own(subs', onlineSub', active') && Unique(subs', onlineSub', dead, false)
  {}

  lemma ReplaceSets(subs: Subs, onlineSub: Owners, active: Owners, c: Conn, x: Id, users: set<string>,
                    subs': Subs, onlineSub': Owners, active': Owners)
    requires Own(subs, onlineSub, active)
    requires Replaces(subs, onlineSub, active, c, x, users, subs', onlineSub', active')
    ensures SetsOf(subs', active')
            == if users == {} then SetsOf(subs, active) - {c} else SetsOf(subs, active)[c := users]
  {
    forall d | d in active && d != c ensures active[d] != x { assert subs[active[d]].client == d; }
  }

  lemma InverseLeave(w: Sets, byUser: Index, c: Conn)
    requires Inverse(w, byUser) && c in w
    ensures Inverse(w - {c}, Unwatch(byUser, w[c], c))
  {
    UnwatchIs(byUser, w[c], c);
  }

  lemma InverseEnter(w: Sets, byUser: Index, c: Conn, users: set<string>)
    requires Inverse(w, byUser) && c !in w
    ensures Inverse(w[c := users], Watch(byUser, users, c))
  {
    WatchIs(byUser, users, c);
  }

  lemma CountedLeave(w: Sets, refs: int, c: Conn)
    requires Counted(w, refs) && c in w
    ensures Counted(w - {c}, refs - |w[c]|)
  {
    SumTake(Sizes(w), c);
    assert Sizes(w) - {c} == Sizes(w - {c});
  }

  lemma CountedEnter(w: Sets, refs: int, c: Conn, users: set<string>)
    requires refs == Sum(Sizes(w)) && c !in w && refs + |users| <= MAX_REFS
    ensures Counted(w[c := users], refs + |users|)
  {
    SumAdd(Sizes(w), c, |users|);
    assert Sizes(w)[c := |users|] == Sizes(w[c := users]);
  }

  lemma LeaveSets(w: Sets, byUser: Index, refs: int, c: Conn, before: set<string>)
    requires Inverse(w, byUser) && Counted(w, refs)
    requires if c in w then w[c] == before else before == {}
    ensures Inverse(w - {c}, if c in w then Unwatch(byUser, before, c) else byUser) && Counted(w - {c}, refs - |before|)
  {
    if c in w { InverseLeave(w, byUser, c); CountedLeave(w, refs, c); } else { assert w - {c} == w; }
  }

  lemma EnterSets(w: Sets, byUser: Index, refs: int, c: Conn, users: set<string>)
    requires Inverse(w - {c}, byUser) && Counted(w - {c}, refs) && refs + |users| <= MAX_REFS
    ensures Inverse(w[c := users], Watch(byUser, users, c)) && Counted(w[c := users], refs + |users|)
  {
    PutAgain(w, c, users);
    InverseEnter(w - {c}, byUser, c, users);
    CountedEnter(w - {c}, refs, c, users);
  }

  lemma PutAgain<K, V>(m: map<K, V>, k: K, v: V)
    ensures (m - {k})[k := v] == m[k := v]
  {}

  // ---------------------------------------------------------------- setOnlineSubscriptions before its mark

  /** What Refused leaves for setOnlineSubscriptions to work on. */
  ghost predicate CanSettle(p: Reg, dead: set<Conn>, c: Conn, spare: Id, users: set<string>) {
    && c !in dead && (c in p.onlineSub || spare !in p.subs)
    && p.refs - |SubOf(p, c, spare).users| + |users| <= MAX_REFS
  }

  lemma DropFields(p: Reg, x: Id)
    requires x in p.subs
    ensures var sub := p.subs[x]; var c := sub.client;
            Drop(p, x) == Reg(
              p.subs[x := sub.(remark := false)], p.onlineSub, p.active - {c},
              if c in p.active then Unwatch(p.byUser, sub.users, c) else p.byUser,
              p.refs - (if c in p.active then |sub.users| else 0), p.due - {x}, p.order, p.wake)
  {}

  lemma PutTwice<K, V>(m: map<K, V>, k: K, u: V, v: V)
    ensures m[k := u][k := v] == m[k := v]
  {}

  lemma SubOfIs(p: Reg, c: Conn, spare: Id)
    requires Own(p.subs, p.onlineSub, p.active) && (c in p.onlineSub || spare !in p.subs)
    ensures var o := SubOf(p, c, spare);
            o.client == c && (c !in p.active ==> o.users == {})
              && (c in p.active ==> SetsOf(p.subs, p.active)[c] == o.users)
  {}

  function Left(p: Reg, c: Conn, o: Sub): Index { if c in p.active then Unwatch(p.byUser, o.users, c) else p.byUser }

  lemma RevisedFields(p: Reg, c: Conn, spare: Id, revision: int, users: set<string>)
    requires SubOf(p, c, spare).client == c && (c !in p.active ==> SubOf(p, c, spare).users == {})
    ensures var x, o := SubIdOf(p, c, spare), SubOf(p, c, spare);
            Revised(p, c, spare, revision, users) == Reg(
              p.subs[x := o.(revision := revision, users := users, remark := false, lastSuccess := 0)],
              p.onlineSub[c := x],
              p.active - {c}, Left(p, c, o), p.refs - |o.users|, p.due - {x}, p.order, p.wake)
  {
    var x, o := SubIdOf(p, c, spare), SubOf(p, c, spare);
    DropFields(SetSub(p, x, o), x);
    PutTwice(p.subs, x, o, o.(remark := false));
    PutTwice(p.subs, x, o.(remark := false),
      o.(revision := revision, users := users, remark := false, lastSuccess := 0));
  }

  lemma SettledFields(p: Reg, c: Conn, spare: Id, revision: int, users: set<string>)
    requires SubOf(p, c, spare).client == c && (c !in p.active ==> SubOf(p, c, spare).users == {})
    ensures var x, o := SubIdOf(p, c, spare), SubOf(p, c, spare);
            Settled(p, c, spare, revision, users) == Reg(
                 p.subs[x := o.(revision := revision, users := users, remark := false, lastSuccess := 0)],
                 p.onlineSub[c := x],
                 if users == {} then p.active - {c} else p.active[c := x],
                 if users == {} then Left(p, c, o) else Watch(Left(p, c, o), users, c),
                 p.refs - |o.users| + |users|, p.due - {x}, p.order, p.wake)
  {
    RevisedFields(p, c, spare, revision, users);
    PutAgain(p.active, c, SubIdOf(p, c, spare));
  }

  /** q is p with the set of c, whose subscription x had the row o, replaced by users. */
  ghost predicate Shape(p: Reg, q: Reg, c: Conn, x: Id, o: Sub, o': Sub, users: set<string>) {
    && o.client == c && (c !in p.active ==> o.users == {}) && (c in p.active ==> SetsOf(p.subs, p.active)[c] == o.users)
    && (x in p.subs ==> p.subs[x] == o) && (x !in p.subs ==> !o.reading)
    && o'.client == c && o'.users == users && o'.reading == o.reading && !o'.remark
    && q == Reg(p.subs[x := o'], p.onlineSub[c := x],
                if users == {} then p.active - {c} else p.active[c := x],
                if users == {} then Left(p, c, o) else Watch(Left(p, c, o), users, c),
                p.refs - |o.users| + |users|, p.due - {x}, p.order, p.wake)
  }

  lemma SettledShape(p: Reg, dead: set<Conn>, c: Conn, spare: Id, revision: int, users: set<string>)
    requires Own(p.subs, p.onlineSub, p.active) && CanSettle(p, dead, c, spare, users)
    ensures var o := SubOf(p, c, spare);
            Shape(p, Settled(p, c, spare, revision, users), c, SubIdOf(p, c, spare), o,
                  o.(revision := revision, users := users, remark := false, lastSuccess := 0), users)
  {
    SubOfIs(p, c, spare);
    SettledFields(p, c, spare, revision, users);
  }

  lemma ShapeReplaces(p: Reg, q: Reg, c: Conn, x: Id, o: Sub, o': Sub, users: set<string>, dead: set<Conn>)
    requires Unique(p.subs, p.onlineSub, dead, false) && c !in dead && Shape(p, q, c, x, o, o', users)
    requires c in p.onlineSub ==> p.onlineSub[c] == x
    ensures Replaces(p.subs, p.onlineSub, p.active, c, x, users, q.subs, q.onlineSub, q.active)
  {}

  lemma ShapeCounted(p: Reg, q: Reg, c: Conn, x: Id, o: Sub, o': Sub, users: set<string>)
    requires Shape(p, q, c, x, o, o', users) && q.refs <= MAX_REFS
    requires SetsOf(q.subs, q.active)
             == if users == {} then SetsOf(p.subs, p.active) - {c} else SetsOf(p.subs, p.active)[c := users]
    requires Inverse(SetsOf(p.subs, p.active), p.byUser) && Counted(SetsOf(p.subs, p.active), p.refs)
    ensures Inverse(SetsOf(q.subs, q.active), q.byUser) && Counted(SetsOf(q.subs, q.active), q.refs)
  {
    var w := SetsOf(p.subs, p.active);
    LeaveSets(w, p.byUser, p.refs, c, o.users);
    if users != {} { EnterSets(w, Left(p, c, o), p.refs - |o.users|, c, users); }
  }

  lemma SettleKeeps(p: Reg, dead: set<Conn>, c: Conn, spare: Id, revision: int, users: set<string>)
    requires RegOk(p, dead, false, false) && CanSettle(p, dead, c, spare, users)
    ensures RegOk(Settled(p, c, spare, revision, users), dead, false, false)
  {
    var x, o := SubIdOf(p, c, spare), SubOf(p, c, spare);
    var o' := o.(revision := revision, users := users, remark := false, lastSuccess := 0);
    SettledShape(p, dead, c, spare, revision, users);
    ShapeKeeps(p, Settled(p, c, spare, revision, users), c, x, o, o', users, dead);
  }

  /** Apart from x and c, rows and places in active are as before. */
  ghost predicate Elsewhere(p: Reg, q: Reg, c: Conn, x: Id) {
    && (forall y :: y in p.subs && y != x ==> y in q.subs && q.subs[y] == p.subs[y])
    && (forall d :: d in p.active && d != c ==> d in q.active && q.active[d] == p.active[d])
    && q.due == p.due - {x} && q.order == p.order
  }

  lemma ShapeElsewhere(p: Reg, q: Reg, c: Conn, x: Id, o: Sub, o': Sub, users: set<string>)
    requires Shape(p, q, c, x, o, o', users)
    ensures Elsewhere(p, q, c, x)
  {}

  lemma ElsewhereQueue(p: Reg, q: Reg, c: Conn, x: Id)
    requires Elsewhere(p, q, c, x) && Queue(p.subs, p.active, p.due, p.order)
    requires forall y :: y in p.subs && y != x ==> p.subs[y].client != c
    ensures Queue(q.subs, q.active, q.due, q.order)
  {}

  lemma RowRemarks(subs: Subs, x: Id, o: Sub, dead: set<Conn>, over: bool)
    requires Remarks(subs, dead, over) && RemarkOk(o, dead, over)
    ensures Remarks(subs[x := o], dead, over)
  {}

  lemma ShapeKeeps(p: Reg, q: Reg, c: Conn, x: Id, o: Sub, o': Sub, users: set<string>, dead: set<Conn>)
    requires RegOk(p, dead, false, false) && c !in dead && Shape(p, q, c, x, o, o', users)
    requires q.refs <= MAX_REFS && (c in p.onlineSub ==> p.onlineSub[c] == x)
    ensures RegOk(q, dead, false, false)
  {
    ShapeReplaces(p, q, c, x, o, o', users, dead);
    assert Own(q.subs, q.onlineSub, q.active) && Unique(q.subs, q.onlineSub, dead, false) by {
      ReplaceOwn(p.subs, p.onlineSub, p.active, c, x, users, q.subs, q.onlineSub, q.active, dead);
    }
    assert Inverse(SetsOf(q.subs, q.active), q.byUser) && Counted(SetsOf(q.subs, q.active), q.refs) by {
      ReplaceSets(p.subs, p.onlineSub, p.active, c, x, users, q.subs, q.onlineSub, q.active);
      ShapeCounted(p, q, c, x, o, o', users);
    }
    assert Queue(q.subs, q.active, q.due, q.order) by {
      ShapeElsewhere(p, q, c, x, o, o', users);
      ElsewhereQueue(p, q, c, x);
    }
    assert Remarks(q.subs, dead, false) by { RowRemarks(p.subs, x, o', dead, false); }
  }

  // ---------------------------------------------------------------- rows that keep their owner and their set

  lemma RowOwn(subs: Subs, onlineSub: Owners, active: Owners, x: Id, o: Sub)
    requires Own(subs, onlineSub, active) && x in subs && o.client == subs[x].client && o.users == subs[x].users
    ensures Own(subs[x := o], onlineSub, active)
  {}

  lemma RowUnique(subs: Subs, onlineSub: Owners, dead: set<Conn>, stopped: bool, x: Id, o: Sub)
    requires Unique(subs, onlineSub, dead, stopped) && x in subs && o.client == subs[x].client
    ensures Unique(subs[x := o], onlineSub, dead, stopped)
  {}

  lemma RowSets(subs: Subs, active: Owners, x: Id, o: Sub)
    requires x in subs && o.users == subs[x].users
    ensures SetsOf(subs[x := o], active) == SetsOf(subs, active)
  {}

  lemma RowQueue(subs: Subs, active: Owners, due: map<Id, Rank>, order: nat, x: Id, o: Sub)
    requires Queue(subs, active, due, order) && x in subs && o.client == subs[x].client
    requires x in due ==> !o.reading && o.nextAttempt <= due[x].readyAt
    ensures Queue(subs[x := o], active, due, order)
  {}

  lemma RowKeeps(p: Reg, x: Id, o: Sub, dead: set<Conn>, stopped: bool, over: bool)
    requires RegOk(p, dead, stopped, over) && x in p.subs && o.client == p.subs[x].client && o.users == p.subs[x].users
    requires x in p.due ==> !o.reading && o.nextAttempt <= p.due[x].readyAt
    requires RemarkOk(o, dead, over)
    ensures RegOk(SetSub(p, x, o), dead, stopped, over)
  {
    RowOwn(p.subs, p.onlineSub, p.active, x, o);
    RowUnique(p.subs, p.onlineSub, dead, stopped, x, o);
    RowSets(p.subs, p.active, x, o);
    RowQueue(p.subs, p.active, p.due, p.order, x, o);
    RowRemarks(p.subs, x, o, dead, over);
  }

  lemma QueueShrinks(subs: Subs, active: Owners, due: map<Id, Rank>, order: nat, x: Id)
    requires Queue(subs, active, due, order)
    ensures Queue(subs, active, due - {x}, order)
  {}

  // ---------------------------------------------------------------- requeue and mark

  lemma QueuePut(subs: Subs, active: Owners, due: map<Id, Rank>, order: nat, x: Id, r: Rank, order': nat)
    requires Queue(subs, active, due, order) && order <= order'
    requires x in subs && Waiting(subs[x], x, active, r, order')
    requires forall y :: y in due && y != x ==> due[y].order != r.order
    ensures Queue(subs, active, due[x := r], order')
  {}

  /** The entry a requeue leaves: the same one, an earlier time in its old place, or a new place. */
  function Entry(p: Reg, x: Id, at: nat): Rank
    requires x in p.subs
  {
    var at := Max(at, p.subs[x].nextAttempt);
    if x !in p.due then Rank(at, p.order) else if at >= p.due[x].readyAt then p.due[x] else Rank(at, p.due[x].order)
  }

  lemma RequeueFields(p: Reg, x: Id, at: nat)
    requires x in p.subs
    ensures var q := Requeue(p, x, at);
            q == p.(due := p.due[x := Entry(p, x, at)], order := if x in p.due then p.order else p.order + 1,
                    wake := q.wake)
  {}

  lemma RequeueKeeps(p: Reg, x: Id, at: nat, dead: set<Conn>, stopped: bool, over: bool)
    requires RegOk(p, dead, stopped, over) && x in p.subs && !p.subs[x].reading
    requires p.subs[x].client in p.active && p.active[p.subs[x].client] == x
    ensures RegOk(Requeue(p, x, at), dead, stopped, over)
  {
    RequeueFields(p, x, at);
    assert x in p.due ==> Waiting(p.subs[x], x, p.active, p.due[x], p.order);
    QueuePut(p.subs, p.active, p.due, p.order, x, Entry(p, x, at), if x in p.due then p.order else p.order + 1);
  }

  lemma MarkKeeps(p: Reg, x: Id, now: nat, dead: set<Conn>, stopped: bool, over: bool)
    requires RegOk(p, dead, stopped, over) && x in p.subs
    requires p.subs[x].client in p.active && p.active[p.subs[x].client] == x
    ensures RegOk(Mark(p, x, now), dead, stopped, over)
  {
    if p.subs[x].reading { RowKeeps(p, x, p.subs[x].(remark := true), dead, stopped, over); }
    else { RequeueKeeps(p, x, now, dead, stopped, over); }
  }

  lemma {:induction false} MarkAllKeeps(p: Reg, cs: seq<Conn>, now: nat, dead: set<Conn>, stopped: bool, over: bool)
    requires RegOk(p, dead, stopped, over)
    ensures RegOk(MarkAll(p, cs, now), dead, stopped, over)
  {
    if cs != [] {
      var q := MarkAll(p, cs[..|cs|-1], now);
      MarkAllKeeps(p, cs[..|cs|-1], now, dead, stopped, over);
      var c := cs[|cs|-1];
      if c in q.active && q.active[c] in q.subs { MarkKeeps(q, q.active[c], now, dead, stopped, over); }
    }
  }

  // ---------------------------------------------------------------- unsubscribe

  lemma ForgetOwn(subs: Subs, onlineSub: Owners, active: Owners, c: Conn, o: Sub)
    requires Own(subs, onlineSub, active) && c in onlineSub && o.client == c
    ensures Own(subs[onlineSub[c] := o], onlineSub - {c}, active - {c})
  {}

  lemma ForgetUnique(subs: Subs, onlineSub: Owners, dead: set<Conn>, stopped: bool, c: Conn, o: Sub)
    requires Unique(subs, onlineSub, dead, stopped) && c in onlineSub && onlineSub[c] in subs
             && subs[onlineSub[c]].client == c
    requires o.client == c && (stopped || c in dead)
    ensures Unique(subs[onlineSub[c] := o], onlineSub - {c}, dead, stopped)
  {}

  lemma ForgetSets(subs: Subs, onlineSub: Owners, active: Owners, c: Conn, o: Sub)
    requires Own(subs, onlineSub, active) && c in onlineSub
    ensures SetsOf(subs[onlineSub[c] := o], active - {c}) == SetsOf(subs, active) - {c}
  {}

  lemma ForgetQueue(subs: Subs, onlineSub: Owners, active: Owners, due: map<Id, Rank>, order: nat, c: Conn, o: Sub)
    requires Own(subs, onlineSub, active) && Queue(subs, active, due, order) && c in onlineSub
    ensures Queue(subs[onlineSub[c] := o], active - {c}, due - {onlineSub[c]}, order)
  {}

  /** removeOnlineSubscriptions: only once the connection's context is over (or the node has stopped). */
  lemma UnsubscribeKeeps(p: Reg, c: Conn, dead: set<Conn>, stopped: bool, over: bool)
    requires RegOk(p, dead, stopped, over) && (stopped || c in dead)
    ensures RegOk(Unsubscribe(p, c), dead, stopped, over)
  {
    if c in p.onlineSub {
      var x := p.onlineSub[c];
      var o := p.subs[x].(remark := false);
      DropFields(p, x);
      SubOfIs(p, c, 0);
      ForgetOwn(p.subs, p.onlineSub, p.active, c, o);
      ForgetUnique(p.subs, p.onlineSub, dead, stopped, c, o);
      ForgetSets(p.subs, p.onlineSub, p.active, c, o);
      LeaveSets(SetsOf(p.subs, p.active), p.byUser, p.refs, c, o.users);
      ForgetQueue(p.subs, p.onlineSub, p.active, p.due, p.order, c, o);
      RowRemarks(p.subs, x, o, dead, over);
    }
  }

  lemma {:induction false} DropAllKeeps(p: Reg, cs: seq<Conn>, dead: set<Conn>)
    requires RegOk(p, dead, true, true)
    ensures RegOk(DropAll(p, cs), dead, true, true)
  {
    if cs != [] {
      var q := DropAll(p, cs[..|cs|-1]);
      DropAllKeeps(p, cs[..|cs|-1], dead);
      var c := cs[|cs|-1];
      if c in q.active { UnsubscribeKeeps(q, c, dead, true, true); }
    }
  }
}

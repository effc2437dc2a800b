/** Exact delivery over whole runs, and resuming without loss or repetition. */
module StreamProof {
  import opened Util
  import opened MessageLog
  import opened RestartProof
  import opened DeliveryProof
  import D = Delivery

  // ---- slices stay in order ----------------------------------------------------------------

  ghost predicate SliceOk(ms: seq<Entry>, nextId: nat, clock: int) {
    Ordered(ms) && forall e :: e in ms ==> e.id <= nextId && 0 <= e.ts <= clock
  }

  ghost predicate OrderOk(h: D.Hub) {
    && h.clock >= 0
    && h.msgs.Keys <= h.expire.Keys
    && forall c :: c in h.msgs ==> SliceOk(h.msgs[c], h.nextId, h.clock)
  }

  lemma SliceLater(ms: seq<Entry>, nextId: nat, clock: int, nextId': nat, clock': int)
    requires SliceOk(ms, nextId, clock) && nextId <= nextId' && clock <= clock'
    ensures SliceOk(ms, nextId', clock')
  {
  }

  lemma SlicePost(ms: seq<Entry>, e: Entry, nextId: nat, clock: int, keep: nat)
    requires SliceOk(ms, nextId, clock) && e.id == nextId + 1 && e.ts >= clock >= 0
    ensures SliceOk(Trimmed(ms + [e], keep), e.id, e.ts)
  {
    var all := ms + [e];
    assert forall i :: 0 <= i < |ms| ==> ms[i] in ms;
    assert SliceOk(all, e.id, e.ts);
    SliceSuffix(all, |all| - |Trimmed(all, keep)|, e.id, e.ts);
  }

  lemma SliceSuffix(ms: seq<Entry>, k: nat, nextId: nat, clock: int)
    requires SliceOk(ms, nextId, clock) && k <= |ms|
    ensures SliceOk(ms[k..], nextId, clock)
  {
  }

  lemma SliceErase(ms: seq<Entry>, id: nat, actor: string, nextId: nat, clock: int)
    requires SliceOk(ms, nextId, clock)
    ensures SliceOk(Erased(ms, id, actor), nextId, clock)
  {
    var r := Erased(ms, id, actor);
    forall e | e in r ensures e.id <= nextId && 0 <= e.ts <= clock {
      var i :| 0 <= i < |r| && r[i] == e;
      assert ms[i] in ms;
    }
  }

  lemma MemOk(h: D.Hub, c: int)
    requires OrderOk(h)
    ensures SliceOk(h.Mem(c), h.nextId, h.clock)
  {
  }

  ghost predicate SameMessages(h: D.Hub, h': D.Hub) {
    h'.msgs == h.msgs && h'.nextId == h.nextId && h'.clock == h.clock && h'.expire == h.expire
  }

  lemma UnsubUntouched(h: D.Hub, s: int, c: int, quiet: bool)
    requires s in h.sessions
    ensures SameMessages(h, D.Unsub(h, s, c, quiet))
  {
  }

  lemma SubUntouched(h: D.Hub, s: int, c: int, since: int, now: int)
    requires s in h.sessions
    ensures SameMessages(h.(clock := now), D.HandleSub(h, s, c, since, now))
  {
  }

  lemma {:induction false} MsgsUntouched(h: D.Hub, order: seq<int>, c: int, why: string, quiet: bool)
    requires forall s :: s in order ==> s in h.sessions
    ensures SameMessages(h, D.UnsubAll(h, order, c, why, quiet))
  {
    if order != [] {
      var front, s := order[..|order| - 1], order[|order| - 1];
      assert s in order && forall x :: x in front ==> x in order;
      MsgsUntouched(h, front, c, why, quiet);
      UnsubUntouched(D.UnsubAll(h, front, c, why, quiet), s, c, quiet);
    }
  }

  lemma {:induction false} LeaveUntouched(h: D.Hub, s: int, order: seq<int>)
    requires s in h.sessions
    ensures SameMessages(h, D.Leave(h, s, order))
  {
    if order != [] {
      LeaveUntouched(h, s, order[..|order| - 1]);
      UnsubUntouched(D.Leave(h, s, order[..|order| - 1]), s, order[|order| - 1], false);
    }
  }

  function MsgsAfter(h: D.Hub, st: D.Step): map<int, seq<Entry>>
    requires D.Enabled(h, st)
  {
    match st
    case DoPost(c, file, from, body, fid, now) =>
      h.msgs[c := Trimmed(h.Mem(c) + [D.Announced(h, c, file, from, body, fid, now)], h.keep)]
    case DoErase(c, id, actor) => if CanErase(h.Mem(c), id) then h.msgs[c := Erased(h.Mem(c), id, actor)] else h.msgs
    case DoExpire(c, now) =>
      if |Fresh(h.Mem(c), h.expire[c], now)| == |h.Mem(c)| then h.msgs
        else h.msgs[c := Fresh(h.Mem(c), h.expire[c], now)]
    case DoDeleteChannel(c) => h.msgs - {c}
    case _ => h.msgs
  }

  function ExpireAfter(h: D.Hub, st: D.Step): map<int, int> {
    match st
    case DoNewChannel(c, sec) => h.expire[c := sec]
    case DoSetExpire(c, sec) => h.expire[c := sec]
    case DoDeleteChannel(c) => h.expire - {c}
    case _ => h.expire
  }

  /** The message part of the state after a step. */
  lemma ApplyMsgs(h: D.Hub, st: D.Step)
    requires D.Enabled(h, st)
    ensures D.Apply(h, st).nextId == (if st.DoPost? then h.nextId + 1 else h.nextId)
    ensures D.Apply(h, st).clock == (if st.DoPost? || st.DoSub? || st.DoExpire? then st.now else h.clock)
    ensures D.Apply(h, st).msgs == MsgsAfter(h, st)
    ensures D.Apply(h, st).expire == ExpireAfter(h, st)
  {
    match st
    case DoClose(s, order) => LeaveUntouched(h, s, order);
    case DoSub(s, c, since, now) => SubUntouched(h, s, c, since, now);
    case DoUnsub(s, c) => UnsubUntouched(h, s, c, false);
    case DoUnsubUser(user, order, c, why, quiet) =>
      assert forall x :: x in order ==> x in D.Elems(order);
      MsgsUntouched(h, order, c, why, quiet);
    case _ =>
  }

  /** One channel's slice after a step. */
  function SliceAfter(h: D.Hub, st: D.Step, c: int): seq<Entry>
    requires D.Enabled(h, st)
  {
    var ms := h.Mem(c);
    match st
    case DoPost(d, file, from, body, fid, now) =>
      if d == c then Trimmed(ms + [D.Announced(h, c, file, from, body, fid, now)], h.keep) else ms
    case DoErase(d, id, actor) => if d == c then Erased(ms, id, actor) else ms
    case DoExpire(d, now) => if d == c then Fresh(ms, h.expire[c], now) else ms
    case DoDeleteChannel(d) => if d == c then [] else ms
    case _ => ms
  }

  lemma ApplySlice(h: D.Hub, st: D.Step, c: int)
    requires D.Enabled(h, st)
    ensures D.Apply(h, st).Mem(c) == SliceAfter(h, st, c)
  {
    ApplyMsgs(h, st);
  }

  lemma SliceOkAfter(h: D.Hub, st: D.Step, c: int, nextId: nat, clock: int)
    requires OrderOk(h) && D.Enabled(h, st)
    requires nextId == (if st.DoPost? then h.nextId + 1 else h.nextId)
    requires clock == (if st.DoPost? || st.DoSub? || st.DoExpire? then st.now else h.clock)
    ensures SliceOk(SliceAfter(h, st, c), nextId, clock)
  {
    MemOk(h, c);
    var ms := h.Mem(c);
    SliceLater(ms, h.nextId, h.clock, nextId, clock);
    match st
    case DoPost(d, file, from, body, fid, now) =>
      SlicePost(ms, D.Announced(h, c, file, from, body, fid, now), h.nextId, h.clock, h.keep);
    case DoErase(_, id, actor) => SliceErase(ms, id, actor, h.nextId, h.clock);
    case DoExpire(d, now) =>
      if d == c { SliceSuffix(ms, |ms| - |Fresh(ms, h.expire[c], now)|, nextId, clock); }
    case _ =>
  }

  lemma ApplyOrder(h: D.Hub, st: D.Step)
    requires OrderOk(h) && D.Enabled(h, st)
    ensures OrderOk(D.Apply(h, st))
  {
    var h' := D.Apply(h, st);
    ApplyMsgs(h, st);
    forall d | d in h'.msgs ensures SliceOk(h'.msgs[d], h'.nextId, h'.clock) {
      ApplySlice(h, st, d);
      SliceOkAfter(h, st, d, h'.nextId, h'.clock);
      assert h'.msgs[d] == h'.Mem(d);
    }
  }

  lemma {:induction false} RunClock(h: D.Hub, steps: seq<D.Step>)
    requires D.Possible(h, steps)
    ensures D.Run(h, steps).clock >= h.clock
    decreases |steps|
  {
    if steps != [] {
      ApplyMsgs(h, steps[0]);
      RunClock(D.Apply(h, steps[0]), steps[1..]);
    }
  }

  lemma {:induction false} RunOrder(h: D.Hub, steps: seq<D.Step>)
    requires OrderOk(h) && D.Possible(h, steps)
    ensures OrderOk(D.Run(h, steps)) && D.Run(h, steps).nextId >= h.nextId
    decreases |steps|
  {
    if steps != [] {
      ApplyMsgs(h, steps[0]);
      ApplyOrder(h, steps[0]);
      RunOrder(D.Apply(h, steps[0]), steps[1..]);
    }
  }

  /** Posts get ids beyond everything before them. */
  lemma {:induction false} PostedOrder(h: D.Hub, steps: seq<D.Step>, c: int)
    requires D.Possible(h, steps)
    ensures Increasing(PostedIn(h, steps, c))
    ensures forall e :: e in PostedIn(h, steps, c) ==> e.id > h.nextId
    decreases |steps|
  {
    if steps != [] {
      ApplyMsgs(h, steps[0]);
      PostedOrder(D.Apply(h, steps[0]), steps[1..], c);
      var rest := PostedIn(D.Apply(h, steps[0]), steps[1..], c);
      assert forall i :: 0 <= i < |rest| ==> rest[i] in rest;
    }
  }

  lemma {:induction false} PostedBelow(h: D.Hub, steps: seq<D.Step>, c: int)
    requires D.Possible(h, steps)
    ensures D.Run(h, steps).nextId >= h.nextId
    ensures forall e :: e in PostedIn(h, steps, c) ==> e.id <= D.Run(h, steps).nextId
    decreases |steps|
  {
    if steps != [] {
      ApplyMsgs(h, steps[0]);
      PostedBelow(D.Apply(h, steps[0]), steps[1..], c);
    }
  }

  // ---- exact delivery --------------------------------------------------------------------------

  ghost predicate RisesAbove(ms: seq<Entry>, floor: int) {
    Increasing(ms) && forall e :: e in ms ==> e.id > floor
  }

  lemma RiseConcat(a: seq<Entry>, b: seq<Entry>, top: int)
    requires Increasing(a) && Increasing(b)
    requires forall e :: e in a ==> e.id <= top
    requires forall e :: e in b ==> e.id > top
    ensures Increasing(a + b)
  {
    assert forall i :: 0 <= i < |a| ==> a[i] in a;
    assert forall i :: 0 <= i < |b| ==> b[i] in b;
  }

  lemma WindowFacts(ms: seq<Entry>, since: int, sec: int, now: int)
    requires Ordered(ms)
    ensures Increasing(D.Window(ms, since, sec, now))
    ensures forall e :: e in D.Window(ms, since, sec, now) ==> e in ms && e.id > since
  {
    WindowSuffix(ms, since, sec, now);
    BeyondSwitches(ms, since);
  }

  /** The state right after session `s` subscribes to `c`. */
  function Subbed(h: D.Hub, s: int, c: int, since: int, now: int): D.Hub
    requires D.Enabled(h, D.DoSub(s, c, since, now))
  {
    D.HandleSub(h, s, c, since, now)
  }

  lemma SubbedFacts(h: D.Hub, s: int, c: int, since: int, now: int)
    requires OrderOk(h) && D.Enabled(h, D.DoSub(s, c, since, now))
    ensures Subbed(h, s, c, since, now).Subscribed(s, c)
    ensures Subbed(h, s, c, since, now).msgs == h.msgs && Subbed(h, s, c, since, now).expire == h.expire
    ensures Subbed(h, s, c, since, now).nextId == h.nextId && Subbed(h, s, c, since, now).clock == now
    ensures Got(Subbed(h, s, c, since, now), s, c) == Got(h, s, c) + D.Window(h.Mem(c), since, h.expire[c], now)
    ensures OrderOk(Subbed(h, s, c, since, now))
  {
    ApplyMsgs(h, D.DoSub(s, c, since, now));
    ApplyOrder(h, D.DoSub(s, c, since, now));
    var me := h.sessions[s];
    var back := h.(sessions := h.sessions[s := me.(subs := me.subs - {c})],
      presence := D.Bump(h.presence, c, me.user, -1));
    SubscribeStream(if c in me.subs then back else h, s, c, since, now, s, c);
  }

  /** Exact delivery. From a `sub` on, and for as long as the session stays subscribed, the content
      frames it is sent on that channel are the last 400 or fewer retained, unexpired entries beyond
      `since`, followed by every later post; and their ids strictly rise from beyond `since`. */
  lemma ExactDelivery(h: D.Hub, s: int, c: int, since: int, now: int, steps: seq<D.Step>)
    requires OrderOk(h) && D.Enabled(h, D.DoSub(s, c, since, now))
    requires D.Possible(Subbed(h, s, c, since, now), steps) && Stays(Subbed(h, s, c, since, now), steps, s, c)
    ensures var h1 := Subbed(h, s, c, since, now);
            var sent := LastN(Wanted(h.Mem(c), since, h.expire[c], now), D.REPLAY_CAP) + PostedIn(h1, steps, c);
            && s in D.Run(h1, steps).sessions
            && Got(D.Run(h1, steps), s, c) == Got(h, s, c) + sent
            && Increasing(sent)
            && (since <= h.nextId ==> RisesAbove(sent, since))
  {
    var h1 := Subbed(h, s, c, since, now);
    SubbedFacts(h, s, c, since, now);
    StreamRun(h1, steps, s, c);
    MemOk(h, c);
    WindowExact(h.Mem(c), since, h.expire[c], now);
    WindowFacts(h.Mem(c), since, h.expire[c], now);
    PostedOrder(h1, steps, c);
    var w, p := D.Window(h.Mem(c), since, h.expire[c], now), PostedIn(h1, steps, c);
    RiseConcat(w, p, h.nextId);
    Reassociate(Got(h, s, c), w, p);
  }

  // ---- resuming -----------------------------------------------------------------------------------

  /** The same entry, or its tombstone: who and when, but nothing of what it said. */
  predicate SameOrErased(a: Entry, b: Entry) {
    || a == b
    || (&& a.kind == Deleted && a.body == "" && a.fid == ""
        && a.id == b.id && a.ts == b.ts && a.cid == b.cid && a.from == b.from)
  }

  ghost predicate AllSameOrErased(a: seq<Entry>, b: seq<Entry>) {
    |a| == |b| && forall i :: 0 <= i < |a| ==> SameOrErased(a[i], b[i])
  }

  /** `a` is what is left of `b`: its newest entries, some of them turned into tombstones. */
  ghost predicate Tail(a: seq<Entry>, b: seq<Entry>) {
    |a| <= |b| && AllSameOrErased(a, b[|b| - |a|..])
  }

  lemma TailSuffix(a: seq<Entry>, b: seq<Entry>, k: nat)
    requires Tail(a, b) && k <= |a|
    ensures Tail(a[k..], b)
  {
    var t := b[|b| - |a|..];
    assert b[|b| - |a[k..]|..] == t[k..];
    forall i | 0 <= i < |a| - k ensures SameOrErased(a[k..][i], t[k..][i]) {
      assert SameOrErased(a[i + k], t[i + k]);
    }
  }

  lemma TailPost(a: seq<Entry>, b: seq<Entry>, e: Entry, keep: nat)
    requires Tail(a, b)
    ensures Tail(Trimmed(a + [e], keep), b + [e])
  {
    var t := b[|b| - |a|..];
    assert (b + [e])[|b + [e]| - |a + [e]|..] == t + [e];
    assert Tail(a + [e], b + [e]);
    TailSuffix(a + [e], b + [e], |a + [e]| - |Trimmed(a + [e], keep)|);
  }

  lemma TailErase(a: seq<Entry>, b: seq<Entry>, id: nat, actor: string)
    requires Tail(a, b)
    ensures Tail(Erased(a, id, actor), b)
  {
    var t, r := b[|b| - |a|..], Erased(a, id, actor);
    forall i | 0 <= i < |r| ensures SameOrErased(r[i], t[i]) {
      assert SameOrErased(a[i], t[i]);
    }
  }

  lemma TailAfter(h: D.Hub, st: D.Step, c: int, b: seq<Entry>)
    requires D.Enabled(h, st) && Tail(h.Mem(c), b) && !(st.DoPost? && st.c == c)
    ensures Tail(SliceAfter(h, st, c), b)
  {
    var ms := h.Mem(c);
    if st.DoErase? && st.c == c {
      TailErase(ms, b, st.id, st.actor);
    } else if st.DoExpire? && st.c == c {
      TailSuffix(ms, b, |ms| - |Fresh(ms, h.expire[c], st.now)|);
    }
  }

  /** Whatever happens to a channel, what is retained is the end of what was there and what was posted. */
  lemma StepTail(h: D.Hub, st: D.Step, c: int, b: seq<Entry>)
    requires D.Enabled(h, st) && Tail(h.Mem(c), b)
    ensures Tail(D.Apply(h, st).Mem(c), b + PostedBy(h, st, c))
  {
    ApplySlice(h, st, c);
    if st.DoPost? && st.c == c {
      var e := D.Announced(h, c, st.file, st.from, st.body, st.fid, st.now);
      assert PostedBy(h, st, c) == [e];
      TailPost(h.Mem(c), b, e, h.keep);
    } else {
      TailAfter(h, st, c, b);
      assert b + PostedBy(h, st, c) == b;
    }
  }

  lemma {:induction false} RunTail(h: D.Hub, steps: seq<D.Step>, c: int, b: seq<Entry>)
    requires D.Possible(h, steps) && Tail(h.Mem(c), b)
    ensures Tail(D.Run(h, steps).Mem(c), b + PostedIn(h, steps, c))
    decreases |steps|
  {
    if steps == [] {
      assert b + PostedIn(h, steps, c) == b;
    } else {
      var h', p := D.Apply(h, steps[0]), PostedBy(h, steps[0], c);
      StepTail(h, steps[0], c, b);
      RunTail(h', steps[1..], c, b + p);
      Reassociate(b, p, PostedIn(h', steps[1..], c));
    }
  }

  /** Nothing of `ms` would be replayed: it is within `last` or expired. */
  ghost predicate Settled(ms: seq<Entry>, last: int, sec: int, now: int) {
    forall e :: e in ms ==> e.id <= last || Stale(e, sec, now)
  }

  /** Everything missed is still there, unexpired and within the cap. */
  ghost predicate AllThere(ms: seq<Entry>, posted: seq<Entry>, sec: int, now: int) {
    |posted| <= D.REPLAY_CAP && |posted| <= |ms| && forall e :: e in posted ==> !Stale(e, sec, now)
  }

  /** The retained entries that were posted, and those that were there before. */
  lemma TailSplit(ms: seq<Entry>, old1: seq<Entry>, posted: seq<Entry>, k: nat)
    requires Tail(ms, old1 + posted) && |ms| == k + |posted|
    ensures k <= |old1| && AllSameOrErased(ms[..k], old1[|old1| - k..]) && AllSameOrErased(ms[k..], posted)
  {
    var all := (old1 + posted)[|old1| - k..];
    assert all[..k] == old1[|old1| - k..] && all[k..] == posted;
    forall i | 0 <= i < k ensures SameOrErased(ms[..k][i], all[..k][i]) {
      assert SameOrErased(ms[i], all[i]);
    }
    forall i | 0 <= i < |posted| ensures SameOrErased(ms[k..][i], all[k..][i]) {
      assert SameOrErased(ms[k + i], all[k + i]);
    }
  }

  lemma SettledTail(a: seq<Entry>, b: seq<Entry>, last: int, sec: int, now: int)
    requires AllSameOrErased(a, b) && Settled(b, last, sec, now)
    ensures forall j :: 0 <= j < |a| ==> a[j].id <= last || Stale(a[j], sec, now)
  {
    forall j | 0 <= j < |a| ensures a[j].id <= last || Stale(a[j], sec, now) {
      assert SameOrErased(a[j], b[j]) && b[j] in b;
    }
  }

  lemma MissedTail(a: seq<Entry>, posted: seq<Entry>, last: int, sec: int, now: int)
    requires AllSameOrErased(a, posted) && forall e :: e in posted ==> e.id > last && !Stale(e, sec, now)
    ensures forall j :: 0 <= j < |a| ==> a[j].id > last && !Stale(a[j], sec, now)
  {
    forall j | 0 <= j < |a| ensures a[j].id > last && !Stale(a[j], sec, now) {
      assert SameOrErased(a[j], posted[j]) && posted[j] in posted;
    }
  }

  lemma WantedRest(ms: seq<Entry>, old1: seq<Entry>, posted: seq<Entry>, last: int, sec: int, now: int)
    requires Tail(ms, old1 + posted) && |posted| <= |ms| && Settled(old1, last, sec, now)
    requires forall e :: e in posted ==> e.id > last && !Stale(e, sec, now)
    ensures var k := |ms| - |posted|; Wanted(ms, last, sec, now) == ms[k..] && AllSameOrErased(ms[k..], posted)
  {
    var k := |ms| - |posted|;
    TailSplit(ms, old1, posted, k);
    SettledTail(ms[..k], old1[|old1| - k..], last, sec, now);
    MissedTail(ms[k..], posted, last, sec, now);
    assert forall j :: 0 <= j < k ==> ms[j] == ms[..k][j];
    assert forall j :: k <= j < |ms| ==> ms[j] == ms[k..][j - k];
    WantedSuffix(ms, last, sec, now, k);
  }

  lemma SameTimes(w: seq<Entry>, posted: seq<Entry>, sec: int, now: int)
    requires AllSameOrErased(w, posted) && forall x :: x in w ==> !Stale(x, sec, now)
    ensures forall e :: e in posted ==> !Stale(e, sec, now)
  {
    forall e | e in posted ensures !Stale(e, sec, now) {
      var i :| 0 <= i < |posted| && posted[i] == e;
      assert SameOrErased(w[i], posted[i]) && w[i] in w;
    }
  }

  lemma LastOnes(r: seq<Entry>, n: nat)
    ensures |LastN(r, n)| <= n && forall x :: x in LastN(r, n) ==> x in r
  {
  }

  lemma ReplayedUnexpired(ms: seq<Entry>, posted: seq<Entry>, last: int, sec: int, now: int)
    requires Ordered(ms) && forall e :: e in ms ==> e.ts >= 0
    requires AllSameOrErased(D.Window(ms, last, sec, now), posted)
    ensures AllThere(ms, posted, sec, now)
  {
    WindowExact(ms, last, sec, now);
    LastOnes(Wanted(ms, last, sec, now), D.REPLAY_CAP);
    WindowSuffix(ms, last, sec, now);
    SameTimes(D.Window(ms, last, sec, now), posted, sec, now);
  }

  lemma ReplayExact(ms: seq<Entry>, old1: seq<Entry>, posted: seq<Entry>, last: int, sec: int, now: int)
    requires Ordered(ms) && forall e :: e in ms ==> e.ts >= 0
    requires Tail(ms, old1 + posted) && Settled(old1, last, sec, now)
    requires forall e :: e in posted ==> e.id > last
    ensures AllSameOrErased(D.Window(ms, last, sec, now), posted) <==> AllThere(ms, posted, sec, now)
  {
    if AllThere(ms, posted, sec, now) {
      WantedRest(ms, old1, posted, last, sec, now);
      WindowExact(ms, last, sec, now);
    } else if AllSameOrErased(D.Window(ms, last, sec, now), posted) {
      ReplayedUnexpired(ms, posted, last, sec, now);
    }
  }

  /** A subscriber that comes back from `last`, with nothing left behind that is unexpired, is replayed
      exactly what was posted since, deleted ones as tombstones, if and only if that was at most 400
      entries and none of them has been trimmed or has expired. */
  lemma ResumeReplaysTheGap(h: D.Hub, steps: seq<D.Step>, c: int, last: int, now: int)
    requires OrderOk(h) && D.Possible(h, steps) && c in D.Run(h, steps).expire && last <= h.nextId
    requires Settled(h.Mem(c), last, D.Run(h, steps).expire[c], now)
    ensures var h', p := D.Run(h, steps), PostedIn(h, steps, c);
            AllSameOrErased(D.Window(h'.Mem(c), last, h'.expire[c], now), p) <==>
            AllThere(h'.Mem(c), p, h'.expire[c], now)
  {
    var h', ms := D.Run(h, steps), h.Mem(c);
    assert ms[0..] == ms && Tail(ms, ms);
    RunTail(h, steps, c, ms);
    PostedOrder(h, steps, c);
    RunOrder(h, steps);
    MemOk(h', c);
    ReplayExact(h'.Mem(c), ms, PostedIn(h, steps, c), last, h'.expire[c], now);
  }

  // ---- two sessions ------------------------------------------------------------------------------

  /** The id a client resumes from: the last one it was sent, or the `since` it came with. */
  function LastGot(since: int, got: seq<Entry>): int {
    if got == [] then since else got[|got| - 1].id
  }

  lemma LastGotSplit(since: int, w: seq<Entry>, p: seq<Entry>)
    ensures LastGot(LastGot(since, w), p) == LastGot(since, w + p)
  {
    if p == [] {
      assert w + p == w;
    }
  }

  lemma EmptyWindow(ms: seq<Entry>, since: int, sec: int, now: int)
    requires Ordered(ms) && (forall e :: e in ms ==> e.ts >= 0) && D.Window(ms, since, sec, now) == []
    ensures Settled(ms, since, sec, now)
  {
    WindowSuffix(ms, since, sec, now);
    if StalePrefix(ms, D.Cut(sec, now)) < |ms| {
      BeyondSwitches(ms, since);
    } else {
      StaleSwitches(ms, D.Cut(sec, now));
    }
  }

  lemma NewestTops(ms: seq<Entry>)
    requires Ordered(ms) && ms != []
    ensures forall e :: e in ms ==> e.id <= ms[|ms| - 1].id
  {
  }

  /** What a replay leaves out is within what was sent, or expired. */
  lemma WindowSettles(ms: seq<Entry>, since: int, sec: int, now: int)
    requires Ordered(ms) && forall e :: e in ms ==> e.ts >= 0
    ensures Settled(ms, LastGot(since, D.Window(ms, since, sec, now)), sec, now)
  {
    if D.Window(ms, since, sec, now) == [] {
      EmptyWindow(ms, since, sec, now);
    } else {
      WindowSuffix(ms, since, sec, now);
      NewestTops(ms);
    }
  }

  /** What an expiry of `sec` hid from the first replay stays hidden under `sec2`: the expiry was not raised
      meanwhile, or the newest entry was not hidden. */
  predicate NothingUncovered(ms: seq<Entry>, since: int, sec: int, now: int, sec2: int) {
    !Raises(sec, sec2) || ms == [] || ms[|ms| - 1].id <= since || !Stale(ms[|ms| - 1], sec, now)
  }

  lemma ReplaySettles(ms: seq<Entry>, since: int, sec: int, now: int, sec2: int, now2: int)
    requires Ordered(ms) && (forall e :: e in ms ==> e.ts >= 0) && now2 >= now
    requires NothingUncovered(ms, since, sec, now, sec2)
    ensures Settled(ms, LastGot(since, D.Window(ms, since, sec, now)), sec2, now2)
  {
    WindowSettles(ms, since, sec, now);
    if Raises(sec, sec2) && ms != [] {
      NewestTops(ms);
      WindowSuffix(ms, since, sec, now);
    }
  }

  /** After a run, what is left of the old entries is still settled, and so is what was sent since. */
  lemma SettledAfter(a: seq<Entry>, ms: seq<Entry>, p: seq<Entry>, l: int, top: int, sec: int, now: int)
    requires Tail(a, ms + p) && Settled(ms, l, sec, now) && Increasing(p)
    requires (forall e :: e in ms ==> e.id <= top) && forall e :: e in p ==> e.id > top
    ensures Settled(a, LastGot(l, p), sec, now)
  {
    var t := (ms + p)[|ms + p| - |a|..];
    forall e | e in a ensures e.id <= LastGot(l, p) || Stale(e, sec, now) {
      var i :| 0 <= i < |a| && a[i] == e;
      assert SameOrErased(a[i], t[i]) && t[i] in ms + p;
      if p != [] {
        assert p[|p| - 1] in p;
        assert t[i] in p ==> t[i].id <= p[|p| - 1].id;
      }
    }
  }

  /** What the first session was sent, and that nothing unexpired was left behind when it went away. */
  lemma FirstLeg(h: D.Hub, h1: D.Hub, h2: D.Hub, s: int, c: int, since: int, now: int, steps: seq<D.Step>,
                 sent: seq<Entry>, sec2: int, now2: int)
    requires OrderOk(h) && D.Enabled(h, D.DoSub(s, c, since, now)) && since <= h.nextId && now2 >= now
    requires NothingUncovered(h.Mem(c), since, h.expire[c], now, sec2)
    requires h1 == Subbed(h, s, c, since, now)
    requires D.Possible(h1, steps) && Stays(h1, steps, s, c) && h2 == D.Run(h1, steps)
    requires sent == D.Window(h.Mem(c), since, h.expire[c], now) + PostedIn(h1, steps, c)
    ensures s in h2.sessions && Got(h2, s, c) == Got(h, s, c) + sent && OrderOk(h2)
    ensures Settled(h2.Mem(c), LastGot(since, sent), sec2, now2) && LastGot(since, sent) <= h2.nextId
  {
    var ms, w, p := h.Mem(c), D.Window(h.Mem(c), since, h.expire[c], now), PostedIn(h1, steps, c);
    SubbedFacts(h, s, c, since, now);
    StreamRun(h1, steps, s, c);
    Reassociate(Got(h, s, c), w, p);
    MemOk(h, c);
    ReplaySettles(ms, since, h.expire[c], now, sec2, now2);
    WindowFacts(ms, since, h.expire[c], now);
    assert ms[0..] == ms && Tail(ms, ms);
    RunTail(h1, steps, c, ms);
    PostedOrder(h1, steps, c);
    SettledAfter(h2.Mem(c), ms, p, LastGot(since, w), h.nextId, sec2, now2);
    LastGotSplit(since, w, p);
    RunOrder(h1, steps);
    PostedBelow(h1, steps, c);
  }

  /** Reconnecting loses and repeats nothing. A session subscribes from `since`, is sent `sent`, and
      goes away; a later session resumes with the last id of `sent`. Its replay is exactly what was posted
      meanwhile, in order, if and only if that was at most 400 entries and none of them has been trimmed or
      has expired. What it already had may have gone. */
  lemma ResumeLosesNothing(h: D.Hub, h1: D.Hub, h2: D.Hub, h3: D.Hub, s: int, c: int, since: int, now: int,
                           steps: seq<D.Step>, away: seq<D.Step>, s2: int, now2: int, sent: seq<Entry>)
    requires OrderOk(h) && D.Enabled(h, D.DoSub(s, c, since, now)) && since <= h.nextId
    requires h1 == Subbed(h, s, c, since, now)
    requires D.Possible(h1, steps) && Stays(h1, steps, s, c) && h2 == D.Run(h1, steps)
    requires D.Possible(h2, away) && h3 == D.Run(h2, away)
    requires sent == D.Window(h.Mem(c), since, h.expire[c], now) + PostedIn(h1, steps, c)
    requires D.Enabled(h3, D.DoSub(s2, c, LastGot(since, sent), now2))
    requires NothingUncovered(h.Mem(c), since, h.expire[c], now, h3.expire[c])
    ensures s in h2.sessions && Got(h2, s, c) == Got(h, s, c) + sent
    ensures var replay, missed := D.Window(h3.Mem(c), LastGot(since, sent), h3.expire[c], now2), PostedIn(h2, away, c);
            var h4 := Subbed(h3, s2, c, LastGot(since, sent), now2);
            && s2 in h4.sessions
            && Got(h4, s2, c) == Got(h3, s2, c) + replay
            && (AllSameOrErased(replay, missed) <==> AllThere(h3.Mem(c), missed, h3.expire[c], now2))
  {
    RunClock(h1, steps);
    RunClock(h2, away);
    SubbedFacts(h, s, c, since, now);
    FirstLeg(h, h1, h2, s, c, since, now, steps, sent, h3.expire[c], now2);
    RunOrder(h2, away);
    ResumeReplaysTheGap(h2, away, c, LastGot(since, sent), now2);
    SubbedFacts(h3, s2, c, LastGot(since, sent), now2);
  }

  /** Every state that a run from the first start reaches meets the condition of the theorems above. */
  lemma OrderFromStart(keep: nat, steps: seq<D.Step>)
    requires D.Possible(D.Init(keep), steps)
    ensures OrderOk(D.Run(D.Init(keep), steps))
  {
    RunOrder(D.Init(keep), steps);
  }

  // ---- resuming after a restart of the hub ---------------------------------------------------------

  /** The newest entry is replayed exactly when its id is beyond `since`. */
  lemma NewestReplayed(ms: seq<Entry>, since: int, sec: int, now: int)
    requires Ordered(ms) && ms != [] && ms[|ms| - 1].ts == now >= 0
    ensures ms[|ms| - 1] in D.Window(ms, since, sec, now) <==> ms[|ms| - 1].id > since
  {
    var e, i := ms[|ms| - 1], Max(D.ReplayStart(ms, since), StalePrefix(ms, D.Cut(sec, now)));
    WindowSuffix(ms, since, sec, now);
    BeyondSwitches(ms, since);
    StaleSwitches(ms, D.Cut(sec, now));
    if e.id > since {
      assert i <= |ms| - 1 && ms[i..][|ms| - 1 - i] == e;
    }
  }

  lemma PostedNewest(st: Store, c: int, e: Entry)
    requires Valid(st) && c in st.expire && e.cid == c && e.kind != Del && e.ts >= st.clock && e.id == st.nextId + 1
    ensures var ms := Post(st, c, e).Mem(c); Ordered(ms) && ms != [] && ms[|ms| - 1] == e
  {
    PostValid(st, c, e);
    assert Tracks(Post(st, c, e), c);
    SliceFromLog(Post(st, c, e), c);
  }

  lemma CounterAfter(st: Store, now: int, ok0: bool, ok1: bool, ok2: bool, last: nat)
    ensures Restart(st, now, ok0, ok1, ok2).nextId >= last <==> last == 0 || exists x :: x in st.log && x.id >= last
  {
    assert Restart(st, now, ok0, ok1, ok2).nextId == MaxId(st.log);
  }

  /** A client that has everything up to `last` resumes after a restart. The first message posted since is
      replayed to it exactly when the log still had a record of `last` or of a newer id: otherwise ids are
      handed out again from below, and the client takes the new message for an old one. */
  lemma RestartResumeExact(st: Store, now: int, ok0: bool, ok1: bool, ok2: bool, c: int, e: Entry, last: nat)
    requires Valid(st) && now >= st.clock && c in st.expire && now >= 0
    requires e.cid == c && e.kind != Del && e.ts == now && e.id == Restart(st, now, ok0, ok1, ok2).nextId + 1
    ensures var ms := Post(Restart(st, now, ok0, ok1, ok2), c, e).Mem(c);
            e in D.Window(ms, last, st.expire[c], now) <==> last == 0 || exists x :: x in st.log && x.id >= last
  {
    var st' := Restart(st, now, ok0, ok1, ok2);
    ApplyValid(st, DoRestart(now, ok0, ok1, ok2));
    RestartMem(st, now, ok0, ok1, ok2, c);
    assert st'.clock == now;
    PostedNewest(st', c, e);
    NewestReplayed(Post(st', c, e).Mem(c), last, st.expire[c], now);
    CounterAfter(st, now, ok0, ok1, ok2, last);
  }
}

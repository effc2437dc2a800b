/** The hub's message fields and the loops that work on them, each method proved to take the
    snapshot of the fields from one `Store` to the next exactly as MessageLog says. */
module MessageStoreClass {
  import opened Util
  import opened MessageLog
  import opened RestartProof
  import opened DeletionProof

  lemma TotalUpdate(m: map<int, seq<Entry>>, c: int, v: seq<Entry>)
    ensures Total(m[c := v]) == Total(m) - (if c in m then |m[c]| else 0) + |v|
  {
    TotalSplit(m[c := v], c);
    if c in m {
      TotalSplit(m, c);
      assert m[c := v] - {c} == m - {c};
    } else {
      assert m[c := v] - {c} == m;
    }
  }

  // ---- loops over the map, one channel at a time -----------------------------------

  ghost function SweptBut(st: Store, now: int, todo: set<int>): map<int, seq<Entry>> {
    map c | c in st.msgs ::
      if c in st.expire && c !in todo then Fresh(st.msgs[c], st.expire[c], now) else st.msgs[c]
  }

  lemma SweptStep(st: Store, now: int, todo: set<int>, c: int)
    requires c in todo && c in st.expire
    ensures SweptBut(st, now, todo - {c}) ==
            if c in st.msgs then SweptBut(st, now, todo)[c := Fresh(st.msgs[c], st.expire[c], now)]
            else SweptBut(st, now, todo)
  {
  }

  ghost function Replayed(st: Store): map<int, seq<Entry>> {
    map c | c in st.expire && Replay(st.log, c) != [] :: Replay(st.log, c)
  }

  lemma LoadedIsCut(st: Store)
    ensures (map c | c in Replayed(st) :: LastN(Replayed(st)[c], st.keep)) == Loaded(st)
  {
  }

  /** One more record of the log. */
  lemma ReadNext(log: seq<Entry>, i: nat)
    requires i < |log|
    ensures MaxId(log[..i + 1]) == Max(MaxId(log[..i]), log[i].id)
    ensures forall c :: Replay(log[..i + 1], c) == (
                          if log[i].cid != c then Replay(log[..i], c)
                          else if log[i].kind == Del then Erased(Replay(log[..i], c), log[i].id, log[i].actor)
                          else Replay(log[..i], c) + [log[i]])
  {
    assert log[..i + 1][..i] == log[..i];
  }

  ghost function CutBut(m: map<int, seq<Entry>>, keep: nat, todo: set<int>): map<int, seq<Entry>> {
    map c | c in m :: if c in todo then m[c] else LastN(m[c], keep)
  }

  ghost function CutDone(m: map<int, seq<Entry>>, keep: nat, todo: set<int>): map<int, seq<Entry>> {
    map c | c in m && c !in todo :: LastN(m[c], keep)
  }

  lemma CutStep(m: map<int, seq<Entry>>, keep: nat, todo: set<int>, c: int)
    requires c in todo && c in m
    ensures CutBut(m, keep, todo - {c}) == CutBut(m, keep, todo)[c := LastN(m[c], keep)]
    ensures CutDone(m, keep, todo - {c}) == CutDone(m, keep, todo)[c := LastN(m[c], keep)]
    ensures Total(CutDone(m, keep, todo - {c})) == Total(CutDone(m, keep, todo)) + |LastN(m[c], keep)|
  {
    assert CutDone(m, keep, todo - {c}) == CutDone(m, keep, todo)[c := LastN(m[c], keep)];
    TotalUpdate(CutDone(m, keep, todo), c, LastN(m[c], keep));
  }

  // ---- what the caller of a step finds --------------------------------------------

  /** The message is the last of its slice, its id is beyond every logged one, and the slice is bounded. */
  ghost predicate Newest(was: Store, st: Store, c: int, m: Entry) {
    && st.Mem(c) != [] && st.Mem(c)[|st.Mem(c)| - 1] == m && |st.Mem(c)| <= st.keep + st.keep / 4
    && forall e :: e in was.log ==> e.id < m.id
  }

  lemma PostDone(st: Store, c: int, m: Entry)
    requires Valid(st) && c in st.expire && m.cid == c && m.kind != Del && m.id == st.nextId + 1 && m.ts >= st.clock
    ensures Valid(MessageLog.Post(st, c, m)) && Newest(st, MessageLog.Post(st, c, m), c, m)
  {
    PostValid(st, c, m);
  }

  lemma EraseDone(st: Store, c: int, id: nat, actor: string)
    requires Valid(st) && c in st.expire
    ensures Valid(Erase(st, c, id, actor))
    ensures CanErase(st.Mem(c), id) ==> Blanked(st, Erase(st, c, id, actor), c, id, actor)
  {
    EraseValid(st, c, id, actor);
    if CanErase(st.Mem(c), id) {
      assert Tracks(st, c);
      SliceFromLog(st, c);
      EraseBlanks(st, c, id, actor, Find(st.Mem(c), id));
    }
  }

  /** Every channel whose expiry was not raised has what it had, less the cut to `keep` and what expired. */
  ghost predicate Survives(was: Store, st: Store, now: int) {
    forall c :: c in was.expire && c !in was.raised ==>
      st.Mem(c) == Fresh(LastN(was.Mem(c), was.keep), was.expire[c], now)
  }

  lemma RestartDone(st: Store, now: int, ok0: bool, ok1: bool, ok2: bool)
    requires Valid(st) && now >= st.clock
    ensures Valid(MessageLog.Restart(st, now, ok0, ok1, ok2)) &&
            Survives(st, MessageLog.Restart(st, now, ok0, ok1, ok2), now)
  {
    LoadValid(st, ok0);
    SweepValid(Load(st, ok0), now, ok1, ok2);
    forall c | c in st.expire && c !in st.raised
      ensures MessageLog.Restart(st, now, ok0, ok1, ok2).Mem(c) == Fresh(LastN(st.Mem(c), st.keep), st.expire[c], now)
    {
      RestartKeeps(st, now, ok0, ok1, ok2, c);
    }
  }

  class MessageStore {
    const keep: nat
    var nextId: nat
    var nextChan: int
    var msgs: map<int, seq<Entry>>
    var log: seq<Entry>
    var expire: map<int, int>
    var removed: nat
    var lastComp: Option<int>
    ghost var clock: int
    ghost var raised: set<int>

    ghost function Snap(): Store
      reads this
    {
      Store(keep, nextId, nextChan, clock, msgs, log, expire, removed, lastComp, raised)
    }

    constructor (keep: nat)
      requires keep >= 1
      ensures Snap() == Init(keep) && Valid(Snap())
    {
      this.keep := keep;
      nextId, nextChan, msgs, log, expire := 0, 1, map[], [], map[];
      removed, lastComp, clock, raised := 0, None, 0, {};
    }

    function Slice(c: int): seq<Entry>
      reads this
    {
      if c in msgs then msgs[c] else []
    }

    /** Assign the next id, keep at most a quarter more than `keep`, append to the log. */
    method Post(c: int, file: bool, from: string, body: string, fid: string, now: int) returns (m: Entry)
      requires Valid(Snap()) && c in expire && now >= clock
      modifies this
      ensures m == Entry(if file then File else Text, c, old(nextId) + 1, now, from, "", body, fid)
      ensures Snap() == MessageLog.Post(old(Snap()), c, m)
      ensures Valid(Snap()) && Newest(old(Snap()), Snap(), c, m)
    {
      PostDone(Snap(), c, Posted(Snap(), c, if file then File else Text, from, body, fid, now));
      m := Append(c, file, from, body, fid, now);
    }

    method Append(c: int, file: bool, from: string, body: string, fid: string, now: int) returns (m: Entry)
      modifies this
      ensures m == Posted(old(Snap()), c, if file then File else Text, from, body, fid, now)
      ensures Snap() == MessageLog.Post(old(Snap()), c, m)
    {
      nextId := nextId + 1;
      m := Entry(if file then File else Text, c, nextId, now, from, "", body, fid);
      var ms := Slice(c) + [m];
      if |ms| > keep + keep / 4 {
        ms := ms[|ms| - keep..];
      }
      msgs := msgs[c := ms];
      log := log + [m];
      clock := now;
    }

    /** Newest first, as the source scans; tombstones are left alone. */
    method TombstoneInMem(c: int, id: nat, actor: string) returns (orig: Option<Entry>)
      modifies this`msgs
      ensures orig.Some? <==> CanErase(old(Slice(c)), id)
      ensures orig.Some? ==> orig.value == old(Slice(c))[Find(old(Slice(c)), id)]
      ensures msgs == if orig.Some? then old(msgs)[c := Erased(old(Slice(c)), id, actor)] else old(msgs)
      ensures orig.Some? ==> exists i :: LiveAt(old(Slice(c)), i, id) && BlankedAt(old(Slice(c)), Slice(c), i, actor)
    {
      var ms := Slice(c);
      var i := |ms| - 1;
      while i >= 0
        invariant -1 <= i < |ms|
        invariant forall j :: i < j < |ms| ==> ms[j].id != id
        invariant msgs == old(msgs)
      {
        if ms[i].id == id {
          assert Find(ms, id) == i;
          if ms[i].kind == Deleted {
            return None;
          }
          msgs := msgs[c := ms[i := TombstoneOf(ms[i], actor)]];
          assert LiveAt(ms, i, id) && BlankedAt(ms, Slice(c), i, actor);
          return Some(ms[i]);
        }
        i := i - 1;
      }
      orig := None;
    }

    method Tombstone(c: int, id: nat, actor: string) returns (orig: Option<Entry>)
      requires Valid(Snap()) && c in expire
      modifies this
      ensures Snap() == Erase(old(Snap()), c, id, actor)
      ensures orig.Some? <==> CanErase(old(Slice(c)), id)
      ensures Valid(Snap()) && (orig.Some? ==> Blanked(old(Snap()), Snap(), c, id, actor))
    {
      EraseDone(Snap(), c, id, actor);
      orig := EraseAndLog(c, id, actor);
    }

    method EraseAndLog(c: int, id: nat, actor: string) returns (orig: Option<Entry>)
      modifies this
      ensures Snap() == Erase(old(Snap()), c, id, actor)
      ensures orig.Some? <==> CanErase(old(Slice(c)), id)
    {
      orig := TombstoneInMem(c, id, actor);
      if orig.Some? {
        log := log + [DelRecord(c, id, actor)];
      }
    }

    /** Gather every slice, in whatever order the map yields them, and write the sorted whole. */
    method CompactLog(ok: bool)
      requires Sliced(msgs)
      modifies this`log, this`raised
      ensures Snap() == Rewrite(old(Snap()), ok)
    {
      var all: seq<Entry>, todo := [], msgs.Keys;
      while todo != {}
        invariant todo <= msgs.Keys
        invariant forall e :: e in all ==> e.cid in msgs && e.cid !in todo
        invariant forall e :: e in all <==> InSome(e, msgs) && e.cid !in todo
        invariant DistinctIds(all)
        invariant Snap() == old(Snap())
        decreases todo
      {
        var c := Any(todo);
        DistinctConcat(all, msgs[c]);
        all := all + msgs[c];
        todo := todo - {c};
      }
      if !ok {
        return;
      }
      SortIncreases(all);
      MergedReplays(msgs, 0);
      IncreasingUnique(SortById(all), Merged(msgs));
      log := SortById(all);
      raised := {};
    }

    method ExpireMessages(now: int, ok: bool)
      requires Valid(Snap()) && now >= clock
      modifies this
      ensures Snap() == Janitor(old(Snap()), now, ok)
      ensures Valid(Snap())
    {
      ghost var was := Snap();
      JanitorValid(was, now, ok);
      ExpireSlices(now);
      clock := now;
      assert Snap() == ExpireOnly(was, now);
      ExpireValid(was, now);
      MemFromLog(Snap());
      if removed > 1000 || (removed > 0 && (lastComp.None? || now - lastComp.value > 10 * 60 * 1000)) {
        CompactLog(ok);
        removed, lastComp := 0, Some(now);
      }
    }

    method ExpireSlices(now: int)
      modifies this`msgs, this`removed
      ensures msgs == Swept(old(Snap()), now)
      ensures removed + Total(msgs) == old(removed) + Total(old(msgs)) && removed >= old(removed)
    {
      ghost var was := Snap();
      var todo := expire.Keys;
      assert msgs == SweptBut(was, now, todo);
      while todo != {}
        invariant todo <= expire.Keys
        invariant msgs == SweptBut(was, now, todo)
        invariant removed + Total(msgs) == was.removed + Total(was.msgs) && removed >= was.removed
        decreases todo
      {
        var c := Any(todo);
        SweptStep(was, now, todo, c);
        todo := todo - {c};
        DropStale(c, now);
      }
      assert msgs == Swept(was, now);
    }

    /** One channel of the sweep: walk past the stale prefix and keep the rest. */
    method DropStale(c: int, now: int)
      requires c in expire
      modifies this`msgs, this`removed
      ensures msgs == if c in old(msgs) then old(msgs)[c := Fresh(old(msgs)[c], expire[c], now)] else old(msgs)
      ensures removed + Total(msgs) == old(removed) + Total(old(msgs)) && removed >= old(removed)
    {
      assert c in msgs ==> msgs[c][0..] == msgs[c] && msgs[c := msgs[c]] == msgs;
      if expire[c] <= 0 {
        return;
      }
      var cut, ms := now - expire[c] * 1000, Slice(c);
      var i := CountStale(ms, cut);
      if i == 0 {
        return;
      }
      TotalUpdate(msgs, c, ms[i..]);
      msgs := msgs[c := ms[i..]];
      removed := removed + i;
    }

    static method CountStale(ms: seq<Entry>, cut: int) returns (i: nat)
      ensures i == StalePrefix(ms, cut)
    {
      i := 0;
      while i < |ms| && ms[i].ts < cut
        invariant 0 <= i <= |ms|
        invariant forall j :: 0 <= j < i ==> ms[j].ts < cut
      {
        i := i + 1;
      }
      StalePrefixSplit(ms, i, cut);
    }

    method Sweep(now: int, ok1: bool, ok2: bool)
      requires Valid(Snap()) && now >= clock
      modifies this
      ensures Snap() == MessageLog.Sweep(old(Snap()), now, ok1, ok2)
      ensures Valid(Snap())
    {
      SweepValid(Snap(), now, ok1, ok2);
      ExpireMessages(now, ok1);
      MemFromLog(Snap());
      if removed > 0 {
        CompactLog(ok2);
        removed, lastComp := 0, Some(now);
      }
    }

    method DeleteChannel(c: int, ok: bool)
      requires Valid(Snap()) && c in expire
      modifies this
      ensures Snap() == MessageLog.DeleteChannel(old(Snap()), c, ok)
      ensures Valid(Snap())
    {
      DeleteChannelValid(Snap(), c, ok);
      MemFromLog(Snap());
      msgs, expire := msgs - {c}, expire - {c};
      CompactLog(ok);
    }

    /** One log line: any id raises the counter; content and deletions count for live channels only. */
    method LoadRecord(m: Entry)
      modifies this`msgs, this`nextId
      ensures nextId == Max(old(nextId), m.id)
      ensures msgs.Keys <= old(msgs).Keys + (if m.cid in expire then {m.cid} else {})
      ensures forall c :: c in msgs && c in expire && (c in old(msgs) ==> old(msgs)[c] != []) ==> msgs[c] != []
      ensures forall c :: c in expire ==>
        Slice(c) == if m.cid != c then old(Slice(c))
                    else if m.kind == Del then Erased(old(Slice(c)), m.id, m.actor)
                    else old(Slice(c)) + [m]
    {
      if m.id > nextId {
        nextId := m.id;
      }
      if m.cid in expire {
        if m.kind == Del {
          var _ := TombstoneInMem(m.cid, m.id, m.actor);
        } else {
          msgs := msgs[m.cid := Slice(m.cid) + [m]];
        }
      }
    }

    /** Read the whole log, oldest record first. */
    method ReadLog()
      requires msgs == map[] && nextId == 0
      modifies this`msgs, this`nextId
      ensures nextId == MaxId(log)
      ensures msgs == Replayed(Snap())
    {
      var i := 0;
      while i < |log|
        invariant 0 <= i <= |log|
        invariant nextId == MaxId(log[..i])
        invariant msgs.Keys <= expire.Keys
        invariant forall c :: c in expire ==> Slice(c) == Replay(log[..i], c)
        invariant forall c :: c in msgs ==> msgs[c] != []
      {
        ReadNext(log, i);
        LoadRecord(log[i]);
        i := i + 1;
      }
      assert log[..|log|] == log;
    }

    /** A new process: everything but the log and the channel table starts empty. */
    method ReadSlices() returns (kept: nat)
      modifies this
      ensures Snap() == Reloaded(old(Snap()))
      ensures kept == Total(msgs)
    {
      ghost var was := Snap();
      msgs, nextId, removed, lastComp, raised := map[], 0, 0, None, {};
      ReadLog();
      kept := CutToKeep();
      LoadedIsCut(was);
    }

    method LoadMessages(ok: bool)
      requires Valid(Snap())
      modifies this
      ensures Snap() == Load(old(Snap()), ok)
      ensures Valid(Snap())
    {
      LoadValid(Snap(), ok);
      LoadedValid(Snap());
      MemFromLog(Reloaded(Snap()));
      var kept := ReadSlices();
      if |log| > kept + kept / 2 + 200 {
        CompactLog(ok);
      }
    }

    method CutToKeep() returns (kept: nat)
      modifies this`msgs
      ensures msgs == map c | c in old(msgs) :: LastN(old(msgs)[c], keep)
      ensures kept == Total(msgs)
    {
      ghost var was := msgs;
      kept := 0;
      var todo := msgs.Keys;
      assert msgs == CutBut(was, keep, todo) && CutDone(was, keep, todo).Keys == {};
      while todo != {}
        invariant todo <= was.Keys
        invariant msgs == CutBut(was, keep, todo)
        invariant kept == Total(CutDone(was, keep, todo))
        decreases todo
      {
        var c := Any(todo);
        CutStep(was, keep, todo, c);
        todo := todo - {c};
        var ms := msgs[c];
        if |ms| > keep {
          ms := ms[|ms| - keep..];
          msgs := msgs[c := ms];
        }
        kept := kept + |ms|;
      }
      assert msgs == CutDone(was, keep, {});
    }

    /** Start-up. The results in RestartProof are about this state. */
    method Restart(now: int, ok0: bool, ok1: bool, ok2: bool)
      requires Valid(Snap()) && now >= clock
      modifies this
      ensures Snap() == MessageLog.Restart(old(Snap()), now, ok0, ok1, ok2)
      ensures Valid(Snap())
      ensures Survives(old(Snap()), Snap(), now)
    {
      RestartDone(Snap(), now, ok0, ok1, ok2);
      LoadMessages(ok0);
      Sweep(now, ok1, ok2);
    }
  }
}

/** The reference-count invariant over whole runs, and what it is for: a file stays as long as a
    retained message refers to it. */
module ReferenceRuns {
  import opened Util
  import opened Files
  import opened ReferenceProof
  import L = MessageLog
  import R = RestartProof
  import A = AccountingProof

  // ---- start-up -----------------------------------------------------------------------------

  lemma {:induction false} RefAllCounts(h: Hub, ms: seq<L.Entry>, c: int)
    requires Positive(h)
    ensures Positive(RefAll(h, ms, c))
    ensures forall g, d :: RefAll(h, ms, c).RefCount(g, d) == h.RefCount(g, d) + if d == c then Mentions(ms, g) else 0
  {
    if ms != [] {
      var front, e := ms[..|ms| - 1], ms[|ms| - 1];
      RefAllCounts(h, front, c);
      RefCounts(RefAll(h, front, c), e.fid, c);
    }
  }

  lemma {:induction false} IndexRefsCounts(h: Hub, order: seq<int>)
    requires h.refs == map[] && NoDup(order)
    ensures Positive(IndexRefs(h, order))
    ensures forall g, d :: IndexRefs(h, order).RefCount(g, d) == if d in order then Mentions(h.store.Mem(d), g) else 0
  {
    if order != [] {
      var front, c := order[..|order| - 1], order[|order| - 1];
      assert order == front + [c] && c !in front;
      IndexRefsCounts(h, front);
      RefAllCounts(IndexRefs(h, front), h.store.Mem(c), c);
    }
  }

  /** The state `indexFiles` starts from, once the byte accounting is rebuilt. */
  function Blank(h: Hub, fids: seq<string>): Hub {
    h.(hashes := IndexHashes(h.files, fids), used := IndexUsed(h.files, fids), total := IndexTotal(h.files, fids),
       refs := map[], uploads := map[], uploading := map[], trimmed := multiset{})
  }

  /** Start-up re-establishes the counts, with no trimmed part. */
  lemma IndexedOk(h: Hub, fids: seq<string>, cids: seq<int>)
    requires L.Valid(h.store) && Lists(cids, h.store.msgs.Keys)
    ensures RefsOk(Indexed(h, fids, cids))
    ensures Indexed(h, fids, cids).trimmed == multiset{} && Indexed(h, fids, cids).files == h.files
    ensures Indexed(h, fids, cids).store == h.store
  {
    var b, h' := Blank(h, fids), Indexed(h, fids, cids);
    A.IndexRefsBooks(b, cids);
    IndexRefsCounts(b, cids);
    forall g, d ensures h'.RefCount(g, d) == Mentions(h'.store.Mem(d), g) + h'.trimmed[(g, d)] {
      if d !in cids { assert h.store.Mem(d) == []; }
    }
  }

  lemma SweptCounts(h: Hub, order: seq<int>, now: int, ok1: bool, ok2: bool)
    requires RefsOk(h) && Lists(order, h.store.expire.Keys) && now >= h.store.clock
    ensures var h' := ExpireRefs(h, order, now).(store := L.Sweep(h.store, now, ok1, ok2));
            RefsOk(h') && Shrinks(h, h') && h'.trimmed == h.trimmed
  {
    var h1, st := ExpireRefs(h, order, now), L.Sweep(h.store, now, ok1, ok2);
    var h' := h1.(store := st);
    R.SweepValid(h.store, now, ok1, ok2);
    ExpireCounts(h, order, now);
    A.ExpireUploads(h, order, now);
    ShrinksAgain(h, h1, h');
    forall fid, c ensures h'.RefCount(fid, c) == Mentions(st.Mem(c), fid) + h'.trimmed[(fid, c)] {
      assert h'.RefCount(fid, c) == h1.RefCount(fid, c);
      assert h.RefCount(fid, c) == Mentions(h.store.Mem(c), fid) + h.trimmed[(fid, c)];
      if c in h.store.expire {
        R.SweepMem(h.store, now, ok1, ok2, c);
        StaleMentions(h.store.Mem(c), h.store.expire[c], now, fid);
      } else {
        assert c !in h.store.msgs && c !in st.msgs;
      }
    }
  }

  // ---- the counts, in every run --------------------------------------------------------------

  ghost predicate CountsOk(h: Hub) {
    RefsOk(h) && A.Accounted(h) && A.UploadersTold(h) && "" !in h.files
  }

  /** Whatever goes is referred to by nothing, and new references are to stored files. */
  ghost predicate Keeps(h: Hub, h': Hub) {
    Sheds(h, h') && forall fid, c :: h'.RefCount(fid, c) > h.RefCount(fid, c) ==> fid in h'.files
  }

  lemma RestartedOk(h: Hub, s: Step)
    requires RefsOk(h) && s.DoRestart? && Enabled(h, s)
    ensures RefsOk(Apply(h, s)) && Apply(h, s).trimmed == multiset{}
    ensures Apply(h, s).files.Keys <= h.files.Keys && Sheds(h, Apply(h, s))
    ensures Apply(h, s).store == L.Restart(h.store, s.now, s.ok0, s.ok1, s.ok2)
  {
    var h0 := h.(store := L.Load(h.store, s.ok0));
    R.LoadValid(h.store, s.ok0);
    IndexedOk(h0, s.fids, s.cids);
    SweptCounts(Indexed(h0, s.fids, s.cids), s.order, s.now, s.ok1, s.ok2);
  }

  lemma CommitOk(h: Hub, id: int, fid: string, sum: string, from: string, name: string, now: int)
    requires RefsOk(h) && A.Accounted(h) && "" !in h.files && fid !in h.files && fid != ""
    requires id in h.uploads && h.uploads[id].cid in h.store.expire && now >= h.store.clock
    requires h.uploads[id].guest <==> h.uploads[id].user < 0
    ensures RefsOk(Commit(h, id, fid, sum, from, name, now))
    ensures "" !in Commit(h, id, fid, sum, from, name, now).files
  {
    var up := h.uploads[id];
    A.StoreAccounted(h, up, fid, sum);
    var h1, as1 := Stored(h, up, fid, sum), StoredAs(h, fid, sum);
    assert as1 != "";
    assert RefsOk(h1) by { StoredRefs(h, h1); }
    FileOk(h1, L.Posted(h1.store, up.cid, L.File, from, name, as1, now));
    var h3 := Ref(PostMsg(h1, L.Posted(h1.store, up.cid, L.File, from, name, as1, now)), as1, up.cid);
    StoredRefs(h3, Commit(h, id, fid, sum, from, name, now));
  }

  lemma RefKeeps(h: Hub, h2: Hub, h': Hub, fid: string, c: int)
    requires Positive(h2) && h2.refs == h.refs && h'.refs == Ref(h2, fid, c).refs
    requires h.files.Keys <= h'.files.Keys && fid in h'.files
    ensures Keeps(h, h')
  {
    RefCounts(h2, fid, c);
    forall g, d | h'.RefCount(g, d) > h.RefCount(g, d) ensures g in h'.files {
      assert h'.RefCount(g, d) == Ref(h2, fid, c).RefCount(g, d);
      assert h2.RefCount(g, d) == h.RefCount(g, d);
    }
  }

  lemma CommitKeeps(h: Hub, id: int, fid: string, sum: string, from: string, name: string, now: int)
    requires Positive(h) && id in h.uploads && h.uploads[id].cid in h.store.expire
    ensures Keeps(h, Commit(h, id, fid, sum, from, name, now))
  {
    var up := h.uploads[id];
    var h1, as1 := Stored(h, up, fid, sum), StoredAs(h, fid, sum);
    var h2 := PostMsg(h1, L.Posted(h1.store, up.cid, L.File, from, name, as1, now));
    RefKeeps(h, h2, Commit(h, id, fid, sum, from, name, now), as1, up.cid);
  }

  lemma StoredRefs(h: Hub, h': Hub)
    requires RefsOk(h) && h'.store == h.store && h'.refs == h.refs && h'.trimmed == h.trimmed
    ensures RefsOk(h')
  {
    forall fid, c ensures h'.RefCount(fid, c) == Mentions(h'.store.Mem(c), fid) + h'.trimmed[(fid, c)] {
      assert h'.RefCount(fid, c) == h.RefCount(fid, c);
    }
  }

  lemma {:induction false} PruneShrinks(h: Hub, order: seq<string>)
    requires Positive(h)
    ensures Shrinks(h, Pruned(h, order)) && Pruned(h, order).refs == h.refs
  {
    if order != [] {
      PruneShrinks(h, order[..|order| - 1]);
      var h1, fid := Pruned(h, order[..|order| - 1]), order[|order| - 1];
      assert Positive(h1);
      assert fid in h1.refs ==> !Unreferenced(h1, fid) by {
        if fid in h1.refs { var c := Pick(h1.refs[fid].Keys); }
      }
    }
  }

  /** Pruning deletes exactly the files that nothing refers to. */
  lemma {:induction false} PruneExact(h: Hub, order: seq<string>)
    requires Positive(h)
    ensures forall fid :: fid in Pruned(h, order).files <==> fid in h.files && (fid in order ==> fid in h.refs)
  {
    if order != [] {
      var front, fid := order[..|order| - 1], order[|order| - 1];
      assert order == front + [fid];
      PruneExact(h, front);
      PruneShrinks(h, front);
      assert fid in h.refs ==> !Unreferenced(Pruned(h, front), fid) by {
        if fid in h.refs { var c := Pick(h.refs[fid].Keys); }
      }
    }
  }

  lemma StoreStepOk(h: Hub, h': Hub)
    requires RefsOk(h) && L.Valid(h'.store) && h'.refs == h.refs && h'.trimmed == h.trimmed &&
             h'.store.msgs == h.store.msgs
    ensures RefsOk(h')
  {
    forall fid, c ensures h'.RefCount(fid, c) == Mentions(h'.store.Mem(c), fid) + h'.trimmed[(fid, c)] {
      assert h'.RefCount(fid, c) == h.RefCount(fid, c);
      assert h.RefCount(fid, c) == Mentions(h.store.Mem(c), fid) + h.trimmed[(fid, c)];
    }
  }

  lemma SameKeeps(h: Hub, h': Hub)
    requires h'.refs == h.refs && Sheds(h, h')
    ensures Keeps(h, h')
  {
    forall fid, c ensures h'.RefCount(fid, c) == h.RefCount(fid, c) {}
  }

  lemma ShrinksKeeps(h: Hub, h': Hub)
    requires Shrinks(h, h')
    ensures Keeps(h, h')
  {
  }

  /** Any step other than a restart keeps the counts exact and refers to stored files only. */
  lemma StepOk(h: Hub, s: Step)
    requires CountsOk(h) && Enabled(h, s) && !s.DoRestart?
    ensures RefsOk(Apply(h, s)) && Keeps(h, Apply(h, s)) && "" !in Apply(h, s).files
  {
    var h' := Apply(h, s);
    match s
    case DoText(c, from, body, now) => TextOk(h, L.Posted(h.store, c, L.Text, from, body, "", now)); SameKeeps(h, h');
    case DoErase(c, id, actor) => EraseOk(h, c, id, actor); ShrinksKeeps(h, h');
    case DoJanitor(order, now, ok) => ExpiredOk(h, order, now, ok); ShrinksKeeps(h, h');
    case DoNewChannel(sec) => R.NewChannelValid(h.store, sec); StoreStepOk(h, h'); SameKeeps(h, h');
    case DoSetExpire(c, sec) => R.SetExpireValid(h.store, c, sec); StoreStepOk(h, h'); SameKeeps(h, h');
    case DoDeleteChannel(c, ok) => DeletedOk(h, c, ok); ShrinksKeeps(h, h');
    case DoPrune(fids) => PruneShrinks(h, fids); A.PruneUploads(h, fids); StoredRefs(h, h'); ShrinksKeeps(h, h');
    case DoAdmit(_, _, _, _, _, _, _) => StoredRefs(h, h'); SameKeeps(h, h');
    case DoFail(_) => StoredRefs(h, h'); SameKeeps(h, h');
    case DoCommit(id, fid, sum, from, name, now) =>
      if h.uploads[id].cid in h.store.expire {
        CommitOk(h, id, fid, sum, from, name, now);
        CommitKeeps(h, id, fid, sum, from, name, now);
      } else {
        StoredRefs(h, h');
        SameKeeps(h, h');
      }
    case DoRelease(_) => StoredRefs(h, h'); SameKeeps(h, h');
  }

  lemma ApplyOk(h: Hub, s: Step)
    requires CountsOk(h) && Enabled(h, s)
    ensures CountsOk(Apply(h, s)) && Sheds(h, Apply(h, s))
  {
    A.ApplyAccounted(h, s);
    if s.DoRestart? { RestartedOk(h, s); } else { StepOk(h, s); }
  }

  lemma {:induction false} RunOk(h: Hub, steps: seq<Step>)
    requires CountsOk(h) && Possible(h, steps)
    ensures CountsOk(Run(h, steps))
    decreases |steps|
  {
    if steps != [] {
      ApplyOk(h, steps[0]);
      RunOk(Apply(h, steps[0]), steps[1..]);
    }
  }

  lemma InitOk(keep: nat, lim: Limits)
    requires keep >= 1
    ensures CountsOk(Init(keep, lim))
  {
    var h := Init(keep, lim);
    assert h.files.Keys == {};
    assert forall u :: A.Bytes(h.files, A.OwnedBy(u)) == 0;
    assert A.Bytes(h.files, A.Everyone()) == 0;
  }

  /** In every run each count is the retained file messages plus those the trim dropped. */
  lemma CountsExact(keep: nat, lim: Limits, steps: seq<Step>, fid: string, c: int)
    requires keep >= 1 && Possible(Init(keep, lim), steps)
    ensures var h := Run(Init(keep, lim), steps);
            h.RefCount(fid, c) == Mentions(h.store.Mem(c), fid) + h.trimmed[(fid, c)]
  {
    InitOk(keep, lim);
    RunOk(Init(keep, lim), steps);
  }

  /** No step of any run deletes a file that a message retained afterwards refers to. */
  lemma ReferredFilesStay(keep: nat, lim: Limits, steps: seq<Step>, s: Step, c: int, e: L.Entry, fid: string)
    requires keep >= 1 && Possible(Init(keep, lim), steps) && Enabled(Run(Init(keep, lim), steps), s)
    requires fid in Run(Init(keep, lim), steps).files
    requires e in Apply(Run(Init(keep, lim), steps), s).store.Mem(c) && RefersTo(e, fid)
    ensures fid in Apply(Run(Init(keep, lim), steps), s).files
  {
    InitOk(keep, lim);
    RunOk(Init(keep, lim), steps);
    var h := Run(Init(keep, lim), steps);
    ApplyOk(h, s);
    ReferredCounted(Apply(h, s), c, e, fid);
  }

  lemma ReferredCounted(h: Hub, c: int, e: L.Entry, fid: string)
    requires Counted(h, h.store) && e in h.store.Mem(c) && RefersTo(e, fid)
    ensures h.RefCount(fid, c) > 0
  {
    assert h.RefCount(fid, c) == Mentions(h.store.Mem(c), fid) + h.trimmed[(fid, c)];
    MentionsSome(h.store.Mem(c), fid);
  }

  // ---- retained file messages have their files -------------------------------------------------

  ghost predicate BackedIn(h: Hub, c: int) {
    forall fid :: h.RefCount(fid, c) > 0 ==> fid in h.files
  }

  /** Entries that a restart brings back although memory no longer holds them. */
  ghost predicate Revives(st: L.Store, c: int, now: int, e: L.Entry)
    requires c in st.expire
  {
    e in L.Fresh(L.LastN(L.Replay(st.log, c), st.keep), st.expire[c], now) && e !in st.Mem(c)
  }

  ghost predicate RevivesOnlyStored(h: Hub, c: int, now: int)
    requires c in h.store.expire
  {
    forall e :: Revives(h.store, c, now, e) && e.kind == L.File && e.fid != "" ==> e.fid in h.files
  }

  /** A restart leaves every file message of a channel its file exactly when each file message it
      brings back still has one. */
  lemma RestartBackedExact(h: Hub, s: Step, c: int)
    requires CountsOk(h) && BackedIn(h, c) && s.DoRestart? && Enabled(h, s) && c in h.store.expire
    ensures BackedIn(Apply(h, s), c) <==> RevivesOnlyStored(h, c, s.now)
  {
    RestartedOk(h, s);
    R.RestartMem(h.store, s.now, s.ok0, s.ok1, s.ok2, c);
    var h' := Apply(h, s);
    if BackedIn(h', c) {
      forall e | Revives(h.store, c, s.now, e) && e.kind == L.File && e.fid != "" ensures e.fid in h.files {
        ReferredCounted(h', c, e, e.fid);
      }
    }
    if RevivesOnlyStored(h, c, s.now) {
      forall fid | h'.RefCount(fid, c) > 0 ensures fid in h'.files {
        assert h'.RefCount(fid, c) == Mentions(h'.store.Mem(c), fid) + h'.trimmed[(fid, c)];
        MentionsSome(h'.store.Mem(c), fid);
        var e :| e in h'.store.Mem(c) && RefersTo(e, fid);
        if e in h.store.Mem(c) {
          ReferredCounted(h, c, e, fid);
        } else {
          assert Revives(h.store, c, s.now, e);
        }
      }
    }
  }

  lemma SuffixMentions(ms: seq<L.Entry>, keep: nat, sec: int, now: int, fid: string)
    ensures Mentions(L.Fresh(L.LastN(ms, keep), sec, now), fid) <= Mentions(ms, fid)
  {
    var last := L.LastN(ms, keep);
    assert last == ms[|ms| - |last|..];
    MentionsSplit(ms, |ms| - |last|, fid);
    StaleMentions(last, sec, now, fid);
  }

  /** While the channel's expiry has not been raised since the log last agreed with memory, a restart
      brings nothing back. */
  lemma RestartMentions(st: L.Store, now: int, ok0: bool, ok1: bool, ok2: bool, fid: string, c: int)
    requires L.Valid(st) && c !in st.raised && now >= st.clock
    ensures Mentions(L.Restart(st, now, ok0, ok1, ok2).Mem(c), fid) <= Mentions(st.Mem(c), fid)
  {
    if c in st.expire {
      R.RestartKeeps(st, now, ok0, ok1, ok2, c);
      SuffixMentions(st.Mem(c), st.keep, st.expire[c], now, fid);
    }
  }

  lemma RestartBacked(h: Hub, s: Step, c: int)
    requires CountsOk(h) && BackedIn(h, c) && s.DoRestart? && Enabled(h, s) && c !in h.store.raised
    ensures BackedIn(Apply(h, s), c)
  {
    RestartedOk(h, s);
    var h' := Apply(h, s);
    forall fid | h'.RefCount(fid, c) > 0 ensures fid in h'.files {
      RestartMentions(h.store, s.now, s.ok0, s.ok1, s.ok2, fid, c);
      assert h'.RefCount(fid, c) == Mentions(h'.store.Mem(c), fid) + h'.trimmed[(fid, c)];
      assert h.RefCount(fid, c) == Mentions(h.store.Mem(c), fid) + h.trimmed[(fid, c)];
    }
  }

  lemma StepBacked(h: Hub, s: Step, c: int)
    requires CountsOk(h) && BackedIn(h, c) && Enabled(h, s) && (s.DoRestart? ==> c !in h.store.raised)
    ensures BackedIn(Apply(h, s), c)
  {
    if s.DoRestart? {
      RestartBacked(h, s, c);
    } else {
      StepOk(h, s);
      var h' := Apply(h, s);
      forall fid | h'.RefCount(fid, c) > 0 ensures fid in h'.files {
        assert h'.RefCount(fid, c) > h.RefCount(fid, c) || h.RefCount(fid, c) > 0;
      }
    }
  }

  /** No restart happens while the channel's expiry has been raised since the log last agreed with memory. */
  ghost predicate CleanRestarts(h: Hub, steps: seq<Step>, c: int)
    requires Possible(h, steps)
    decreases |steps|
  {
    steps == [] ||
    ((steps[0].DoRestart? ==> c !in h.store.raised) && CleanRestarts(Apply(h, steps[0]), steps[1..], c))
  }

  lemma {:induction false} RunBacked(h: Hub, steps: seq<Step>, c: int)
    requires CountsOk(h) && BackedIn(h, c) && Possible(h, steps) && CleanRestarts(h, steps, c)
    ensures CountsOk(Run(h, steps)) && BackedIn(Run(h, steps), c)
    decreases |steps|
  {
    if steps != [] {
      ApplyOk(h, steps[0]);
      StepBacked(h, steps[0], c);
      RunBacked(Apply(h, steps[0]), steps[1..], c);
    }
  }

  /** A file that a retained message of the channel refers to is stored. */
  lemma RetainedFilesStay(keep: nat, lim: Limits, steps: seq<Step>, c: int, e: L.Entry, fid: string)
    requires keep >= 1 && Possible(Init(keep, lim), steps) && CleanRestarts(Init(keep, lim), steps, c)
    requires e in Run(Init(keep, lim), steps).store.Mem(c) && RefersTo(e, fid)
    ensures fid in Run(Init(keep, lim), steps).files
  {
    InitOk(keep, lim);
    RunBacked(Init(keep, lim), steps, c);
    ReferredCounted(Run(Init(keep, lim), steps), c, e, fid);
  }
}

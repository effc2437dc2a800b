/** A run in which a restart brings a message back whose file is gone: why RetainedFilesStay asks for
    restarts only while the channel's expiry was not raised since the log last agreed with memory. */
module LostFile {
  import opened Util
  import opened Files
  import opened ReferenceRuns
  import L = MessageLog
  import R = RestartProof

  const LIMITS := Limits(map[], 0, map[], 5, 0)

  const SHARED := L.Entry(L.File, 1, 2, 61001, "ann", "", "plan", "f")

  /** A text in a one-minute channel expires and the log is rewritten; a file is uploaded and expires too,
      with its bytes, but within ten minutes of the rewriting; then expiry is turned off. */
  const EARLY := [DoNewChannel(60), DoText(1, "ann", "one", 0), DoJanitor([1], 61001, true)]
  const UPLOAD := [DoAdmit(1, 7, false, 1, 5, true, true), DoCommit(1, "f", "sum", "ann", "plan", 61001), DoRelease(1)]
  const LATE := [DoJanitor([1], 122002, true), DoSetExpire(1, 0)]

  /** States with the given messages, log and clock, in which account 7 owns whatever is stored. */
  function Quiet(ms: seq<L.Entry>, log: seq<L.Entry>, sec: int, now: int, nextId: nat, removed: nat,
      raised: set<int>): L.Store {
    L.Store(10, nextId, 2, now, map[1 := ms], log, map[1 := sec], removed, Some(61001), raised)
  }

  const EMPTY := Hub(R.AFTER_EXPIRY, LIMITS, map[], map[], map[], map[], 0, map[], map[], multiset{})

  const HELD := Hub(Quiet([SHARED], [SHARED], 60, 61001, 2, 0, {}), LIMITS,
    map["f" := Meta("sum", 5, 7)], map["sum" := "f"], map["f" := map[1 := 1]], map[7 := 5], 5,
    map[], map[7 := 0], multiset{})

  const GONE := Hub(Quiet([], [SHARED], 0, 122002, 2, 1, {1}), LIMITS,
    map[], map[], map[], map[7 := 0], 0, map[], map[7 := 0], multiset{})

  const OPENED := Init(10, LIMITS).(store := L.Store(10, 0, 2, 0, map[], [], map[1 := 60], 0, None, {}))

  const TOLD := OPENED.(store := R.AFTER_FIRST)

  lemma Opens()
    ensures Enabled(Init(10, LIMITS), EARLY[0]) && Apply(Init(10, LIMITS), EARLY[0]) == OPENED
  {
  }

  lemma Tells()
    ensures Enabled(OPENED, EARLY[1]) && Apply(OPENED, EARLY[1]) == TOLD
  {
    assert OPENED.store.Mem(1) + [R.FIRST] == [R.FIRST] && OPENED.store.log + [R.FIRST] == [R.FIRST];
    assert [R.FIRST][..0] == [];
  }

  /** One channel's share of a sweep in which everything is stale. */
  lemma AllSwept(h: Hub, ms: seq<L.Entry>, e: L.Entry, now: int)
    requires ms == [e] && h.store.Mem(1) == ms && h.store.expire == map[1 := 60] && e.ts < now - 60000
    ensures ExpireRefs(h, [1], now) == UnrefAll(h, [e], 1)
  {
    assert L.StalePrefix(ms, now - 60000) == 1 && ms[..1] == [e];
    assert [1][..0] == [] && ExpireRefs(h, [], now) == h;
  }

  lemma Expires()
    ensures Enabled(TOLD, EARLY[2]) && Apply(TOLD, EARLY[2]) == EMPTY
  {
    R.FirstExpires();
    AllSwept(TOLD, [R.FIRST], R.FIRST, 61001);
    assert [R.FIRST][..0] == [];
    assert UnrefAll(TOLD, [R.FIRST], 1) == TOLD;
  }

  lemma EarlyRun()
    ensures Possible(Init(10, LIMITS), EARLY) && Run(Init(10, LIMITS), EARLY) == EMPTY
  {
    Opens();
    Tells();
    Expires();
    ThreeSteps(Init(10, LIMITS), EARLY[0], EARLY[1], EARLY[2], OPENED, TOLD, EMPTY);
  }

  const ADMITTED := EMPTY.(uploads := map[1 := Upload(7, false, 1, 5, true)], uploading := map[7 := 1])

  const STORED := ADMITTED.(files := HELD.files, hashes := HELD.hashes, used := HELD.used, total := 5)

  const POSTED := HELD.(uploads := map[1 := Upload(7, false, 1, 5, false)], uploading := map[7 := 1])

  lemma Admits()
    ensures Enabled(EMPTY, UPLOAD[0]) && Apply(EMPTY, UPLOAD[0]) == ADMITTED
  {
  }

  lemma Posts()
    ensures PostMsg(STORED, SHARED) == STORED.(store := HELD.store)
  {
    assert STORED.store.Mem(1) + [SHARED] == [SHARED] && STORED.store.log + [SHARED] == [SHARED];
    assert [SHARED][..0] == [];
  }

  lemma Stores()
    ensures Stored(ADMITTED, ADMITTED.uploads[1], "f", "sum") == STORED && StoredAs(ADMITTED, "f", "sum") == "f"
  {
  }

  lemma Refers()
    ensures Fail(Ref(STORED.(store := HELD.store), "f", 1), 1) == POSTED
  {
  }

  lemma CommitsNow()
    ensures Enabled(ADMITTED, UPLOAD[1])
  {
    assert Mentions([], "f") == 0;
  }

  lemma Commits()
    ensures Enabled(ADMITTED, UPLOAD[1]) && Apply(ADMITTED, UPLOAD[1]) == POSTED
  {
    CommitsNow();
    Stores();
    Posts();
    Refers();
    assert Apply(ADMITTED, UPLOAD[1]) == Commit(ADMITTED, 1, "f", "sum", "ann", "plan", 61001);
  }

  lemma Releases()
    ensures Enabled(POSTED, UPLOAD[2]) && Apply(POSTED, UPLOAD[2]) == HELD
  {
  }

  lemma UploadRun()
    ensures Possible(EMPTY, UPLOAD) && Run(EMPTY, UPLOAD) == HELD
  {
    Admits();
    Commits();
    Releases();
    ThreeSteps(EMPTY, UPLOAD[0], UPLOAD[1], UPLOAD[2], ADMITTED, POSTED, HELD);
  }

  // ---- the file expires, its log record stays ----------------------------------------------

  const SWEPT := GONE.(store := Quiet([], [SHARED], 60, 122002, 2, 1, {}))

  lemma SharedExpires()
    ensures L.Janitor(HELD.store, 122002, true) == SWEPT.store
  {
    assert L.StalePrefix([SHARED], 62002) == 1 && [SHARED][1..] == [];
    var w := L.Swept(HELD.store, 122002);
    assert w.Keys == {1} && w[1] == [];
    assert w == map[1 := []];
    L.TotalSplit(HELD.store.msgs, 1);
    L.TotalSplit(w, 1);
    R.NoSlices(HELD.store.msgs - {1});
    R.NoSlices(w - {1});
  }

  lemma FileGoes()
    ensures UnrefAll(HELD, [SHARED], 1) == SWEPT.(store := HELD.store)
  {
    assert [SHARED][..0] == [] && UnrefAll(HELD, [], 1) == HELD;
    assert RefsLess(HELD.refs, "f", 1) == map[];
    assert DeleteFile(HELD.(refs := map[]), "f") == SWEPT.(store := HELD.store);
  }

  lemma Sweeps()
    ensures Enabled(HELD, LATE[0]) && Apply(HELD, LATE[0]) == SWEPT
  {
    SharedExpires();
    AllSwept(HELD, [SHARED], SHARED, 122002);
    FileGoes();
  }

  lemma Raises()
    ensures Enabled(SWEPT, LATE[1]) && Apply(SWEPT, LATE[1]) == GONE
  {
  }

  lemma LateRun()
    ensures Possible(HELD, LATE) && Run(HELD, LATE) == GONE
  {
    Sweeps();
    Raises();
    assert [LATE[1]][1..] == [] && Possible(SWEPT, [LATE[1]]) && Run(SWEPT, [LATE[1]]) == GONE;
    assert LATE[1..] == [LATE[1]];
  }

  /** Posted, shared, swept, and expiry turned off: nothing is left, neither messages nor bytes. */
  lemma WholeRun()
    ensures Possible(Init(10, LIMITS), EARLY + UPLOAD + LATE) && Run(Init(10, LIMITS), EARLY + UPLOAD + LATE) == GONE
  {
    EarlyRun();
    UploadRun();
    LateRun();
    RunConcat(Init(10, LIMITS), EARLY, UPLOAD, EARLY + UPLOAD);
    RunConcat(Init(10, LIMITS), EARLY + UPLOAD, LATE, EARLY + UPLOAD + LATE);
  }

  const RESTART := DoRestart([], [1], [1], 122002, true, true, true)

  lemma RestartNow()
    ensures Enabled(GONE, RESTART)
  {
    R.LoadMem(GONE.store, true, 1);
    assert L.Replay([SHARED], 1) == [SHARED];
  }

  lemma RestartRevives(h: Hub)
    requires CountsOk(h) && h == GONE && Enabled(h, RESTART)
    ensures Apply(h, RESTART).store.Mem(1) == [SHARED] && "f" !in Apply(h, RESTART).files
  {
    RestartedOk(h, RESTART);
    R.RestartMem(h.store, 122002, true, true, true, 1);
    assert L.Replay([SHARED], 1) == [SHARED];
  }

  /** The restart brings the message back without its file. */
  lemma RestartLosesFile()
    ensures Possible(Init(10, LIMITS), EARLY + UPLOAD + LATE) && Enabled(GONE, RESTART)
    ensures Run(Init(10, LIMITS), EARLY + UPLOAD + LATE) == GONE
    ensures Apply(GONE, RESTART).store.Mem(1) == [SHARED] && RefersTo(SHARED, "f")
    ensures "f" !in Apply(GONE, RESTART).files
  {
    WholeRun();
    InitOk(10, LIMITS);
    RunOk(Init(10, LIMITS), EARLY + UPLOAD + LATE);
    RestartNow();
    RestartRevives(GONE);
  }
}

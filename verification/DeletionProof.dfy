/** A deletion removes the content: from memory, from whatever the log replays to, and from every state after
    it, through compaction and restarts. */
module DeletionProof {
  import opened Util
  import opened MessageLog
  import opened RestartProof

  // ---- one deletion ------------------------------------------------------------------------------

  /** The entry at `i` keeps who wrote it and when, and nothing of what it said; the others are untouched. */
  ghost predicate BlankedAt(was: seq<Entry>, ms: seq<Entry>, i: int, actor: string) {
    && 0 <= i < |was| == |ms|
    && ms[i].kind == Deleted && ms[i].body == "" && ms[i].fid == "" && ms[i].actor == actor
    && ms[i].cid == was[i].cid && ms[i].id == was[i].id && ms[i].ts == was[i].ts && ms[i].from == was[i].from
    && forall j :: 0 <= j < |was| && j != i ==> ms[j] == was[j]
  }

  /** `i` is the place of the message with that id, which has not been deleted before. */
  predicate LiveAt(ms: seq<Entry>, i: int, id: nat) {
    0 <= i < |ms| && ms[i].id == id && ms[i].kind != Deleted
  }

  ghost predicate Logged(was: seq<Entry>, log: seq<Entry>, c: int, id: nat, actor: string) {
    && |log| == |was| + 1 && log[..|was|] == was
    && log[|was|].kind == Del && log[|was|].cid == c && log[|was|].id == id && log[|was|].actor == actor
  }

  /** What a deletion does to the state: the message loses its content and the log says so. */
  ghost predicate Blanked(was: Store, st: Store, c: int, id: nat, actor: string) {
    && (exists i :: LiveAt(was.Mem(c), i, id) && BlankedAt(was.Mem(c), st.Mem(c), i, actor))
    && (forall d :: d != c ==> st.Mem(d) == was.Mem(d))
    && Logged(was.log, st.log, c, id, actor)
  }

  lemma EraseBlanks(st: Store, c: int, id: nat, actor: string, i: int)
    requires Increasing(st.Mem(c)) && LiveAt(st.Mem(c), i, id)
    ensures CanErase(st.Mem(c), id)
    ensures BlankedAt(st.Mem(c), Erase(st, c, id, actor).Mem(c), i, actor)
    ensures Blanked(st, Erase(st, c, id, actor), c, id, actor)
  {
    assert Find(st.Mem(c), id) == i;
  }

  /** There is nothing to delete exactly when no message with that id is left undeleted. */
  lemma NothingToErase(st: Store, c: int, id: nat, actor: string)
    requires Increasing(st.Mem(c))
    ensures CanErase(st.Mem(c), id) <==> exists i :: LiveAt(st.Mem(c), i, id)
    ensures (forall i :: !LiveAt(st.Mem(c), i, id)) ==> Erase(st, c, id, actor) == st
  {
    if CanErase(st.Mem(c), id) { assert LiveAt(st.Mem(c), Find(st.Mem(c), id), id); }
    forall i | LiveAt(st.Mem(c), i, id) ensures CanErase(st.Mem(c), id) {
      assert Find(st.Mem(c), id) == i;
    }
  }

  // ---- no tombstone has content -------------------------------------------------------------------

  ghost predicate AllBlank(ms: seq<Entry>) {
    forall e :: e in ms && e.kind == Deleted ==> e.body == "" && e.fid == ""
  }

  lemma ErasedBlank(ms: seq<Entry>, id: nat, actor: string)
    requires AllBlank(ms)
    ensures AllBlank(Erased(ms, id, actor))
  {
    var r := Erased(ms, id, actor);
    forall e | e in r && e.kind == Deleted ensures e.body == "" && e.fid == "" {
      var i :| 0 <= i < |r| && r[i] == e;
      assert ms[i] in ms;
    }
  }

  /** Nothing that is replayed from a log has been deleted and still says something. */
  lemma {:induction false} ReplayBlank(log: seq<Entry>, c: int)
    requires AllBlank(log)
    ensures AllBlank(Replay(log, c))
  {
    if log != [] {
      var front, e := log[..|log| - 1], log[|log| - 1];
      assert log == front + [e];
      ReplayBlank(front, c);
      ErasedBlank(Replay(front, c), e.id, e.actor);
    }
  }

  ghost predicate StoreBlank(st: Store) {
    AllBlank(st.log) && forall c :: c in st.msgs ==> AllBlank(st.msgs[c])
  }

  lemma RewriteBlank(st: Store, ok: bool)
    requires Valid(st) && StoreBlank(st)
    ensures StoreBlank(Rewrite(st, ok))
  {
    MemFromLog(st);
    MergedReplays(st.msgs, 0);
  }

  lemma JanitorBlank(st: Store, now: int, ok: bool)
    requires Valid(st) && StoreBlank(st) && now >= st.clock
    ensures StoreBlank(Janitor(st, now, ok))
  {
    ExpireValid(st, now);
    RewriteBlank(ExpireOnly(st, now), ok);
  }

  lemma SweepBlank(st: Store, now: int, ok1: bool, ok2: bool)
    requires Valid(st) && StoreBlank(st) && now >= st.clock
    ensures StoreBlank(Sweep(st, now, ok1, ok2))
  {
    JanitorBlank(st, now, ok1);
    JanitorValid(st, now, ok1);
    RewriteBlank(Janitor(st, now, ok1), ok2);
  }

  lemma LoadBlank(st: Store, ok: bool)
    requires Valid(st) && StoreBlank(st)
    ensures StoreBlank(Load(st, ok))
  {
    var l := Reloaded(st);
    forall c | c in l.msgs ensures AllBlank(l.msgs[c]) {
      ReplayBlank(st.log, c);
    }
    LoadedValid(st);
    RewriteBlank(l, ok);
  }

  lemma DeleteBlank(st: Store, c: int, ok: bool)
    requires Valid(st) && StoreBlank(st) && c in st.expire
    ensures StoreBlank(DeleteChannel(st, c, ok))
  {
    var x := st.(msgs := st.msgs - {c}, expire := st.expire - {c});
    forall d | d in x.expire ensures Tracks(x, d) {
      assert Tracks(st, d);
    }
    RewriteBlank(x, ok);
  }

  lemma ApplyBlank(st: Store, s: Step)
    requires Valid(st) && StoreBlank(st) && Enabled(st, s)
    ensures StoreBlank(Apply(st, s))
  {
    match s
    case DoPost(_, _, _, _, _, _) =>
    case DoErase(c, id, actor) => ErasedBlank(st.Mem(c), id, actor);
    case DoJanitor(now, ok) => JanitorBlank(st, now, ok);
    case DoSweep(now, ok1, ok2) => SweepBlank(st, now, ok1, ok2);
    case DoNewChannel(_) =>
    case DoSetExpire(_, _) =>
    case DoDeleteChannel(c, ok) => DeleteBlank(st, c, ok);
    case DoRestart(now, ok0, ok1, ok2) =>
      LoadBlank(st, ok0);
      LoadValid(st, ok0);
      SweepBlank(Load(st, ok0), now, ok1, ok2);
  }

  lemma {:induction false} RunBlank(st: Store, steps: seq<Step>)
    requires Valid(st) && StoreBlank(st) && Possible(st, steps)
    ensures StoreBlank(Run(st, steps))
    decreases |steps|
  {
    if steps != [] {
      ApplyBlank(st, steps[0]);
      ApplyValid(st, steps[0]);
      RunBlank(Apply(st, steps[0]), steps[1..]);
    }
  }

  /** In every state of every run no tombstone, in memory or in what the log replays to, holds a text or a
      file. */
  lemma DeletedSaysNothing(keep: nat, steps: seq<Step>, c: int, e: Entry)
    requires keep >= 1 && Possible(Init(keep), steps) && e.kind == Deleted
    requires e in Run(Init(keep), steps).Mem(c) || e in Replay(Run(Init(keep), steps).log, c)
    ensures e.body == "" && e.fid == ""
  {
    RunBlank(Init(keep), steps);
    ReplayBlank(Run(Init(keep), steps).log, c);
  }

  // ---- and it stays deleted ------------------------------------------------------------------------

  /** Wherever the id still occurs in the channel, it is a tombstone. */
  ghost predicate Erasure(ms: seq<Entry>, id: nat) {
    forall e :: e in ms && e.id == id ==> e.kind == Deleted
  }

  ghost predicate GoneFrom(st: Store, c: int, id: nat) {
    c in st.expire ==> Erasure(Replay(st.log, c), id)
  }

  lemma EraseGone(st: Store, c: int, id: nat, actor: string)
    requires Valid(st) && c in st.expire && CanErase(st.Mem(c), id)
    ensures GoneFrom(Erase(st, c, id, actor), c, id)
  {
    assert Tracks(st, c);
    var r, ms := Replay(st.log, c), st.Mem(c);
    ReplayAppend(st.log, DelRecord(c, id, actor), c);
    ReplayOrdered(st.log, c);
    EraseInSuffix(r, ms, id, actor);
    var i := |r| - |ms| + Find(ms, id);
    assert r[i] == ms[Find(ms, id)];
  }

  lemma ErasedStays(ms: seq<Entry>, id: nat, other: nat, actor: string)
    requires Erasure(ms, id)
    ensures Erasure(Erased(ms, other, actor), id)
  {
    var r := Erased(ms, other, actor);
    forall e | e in r && e.id == id ensures e.kind == Deleted {
      var i :| 0 <= i < |r| && r[i] == e;
      assert ms[i] in ms;
    }
  }

  lemma RewriteStays(st: Store, ok: bool, c: int, id: nat)
    requires Valid(st) && GoneFrom(st, c, id)
    ensures GoneFrom(Rewrite(st, ok), c, id)
  {
    if ok && c in st.expire {
      assert Tracks(st, c);
      MemFromLog(st);
      MergedReplays(st.msgs, c);
    }
  }

  lemma JanitorStays(st: Store, now: int, ok: bool, c: int, id: nat)
    requires Valid(st) && now >= st.clock && GoneFrom(st, c, id)
    ensures GoneFrom(Janitor(st, now, ok), c, id)
  {
    ExpireValid(st, now);
    RewriteStays(ExpireOnly(st, now), ok, c, id);
  }

  lemma SweepStays(st: Store, now: int, ok1: bool, ok2: bool, c: int, id: nat)
    requires Valid(st) && now >= st.clock && GoneFrom(st, c, id)
    ensures GoneFrom(Sweep(st, now, ok1, ok2), c, id)
  {
    JanitorStays(st, now, ok1, c, id);
    JanitorValid(st, now, ok1);
    RewriteStays(Janitor(st, now, ok1), ok2, c, id);
  }

  lemma LoadStays(st: Store, ok: bool, c: int, id: nat)
    requires Valid(st) && GoneFrom(st, c, id)
    ensures GoneFrom(Load(st, ok), c, id)
  {
    LoadedValid(st);
    RewriteStays(Reloaded(st), ok, c, id);
  }

  lemma DeleteStays(st: Store, d: int, ok: bool, c: int, id: nat)
    requires Valid(st) && d in st.expire && GoneFrom(st, c, id)
    ensures GoneFrom(DeleteChannel(st, d, ok), c, id)
  {
    var x := st.(msgs := st.msgs - {d}, expire := st.expire - {d});
    forall e | e in x.expire ensures Tracks(x, e) {
      assert Tracks(st, e);
    }
    RewriteStays(x, ok, c, id);
  }

  lemma ApplyStays(st: Store, s: Step, c: int, id: nat)
    requires Valid(st) && Enabled(st, s) && GoneFrom(st, c, id) && st.nextId >= id && c < st.nextChan
    ensures GoneFrom(Apply(st, s), c, id)
  {
    match s
    case DoPost(d, file, from, body, fid, now) =>
      ReplayAppend(st.log, Posted(st, d, if file then File else Text, from, body, if file then fid else "", now), c);
    case DoErase(d, other, actor) =>
      ReplayAppend(st.log, DelRecord(d, other, actor), c);
      if c in st.expire { ErasedStays(Replay(st.log, c), id, other, actor); }
    case DoJanitor(now, ok) => JanitorStays(st, now, ok, c, id);
    case DoSweep(now, ok1, ok2) => SweepStays(st, now, ok1, ok2, c, id);
    case DoNewChannel(_) =>
    case DoSetExpire(_, _) =>
    case DoDeleteChannel(d, ok) => DeleteStays(st, d, ok, c, id);
    case DoRestart(now, ok0, ok1, ok2) =>
      LoadStays(st, ok0, c, id);
      LoadValid(st, ok0);
      SweepStays(Load(st, ok0), now, ok1, ok2, c, id);
  }

  /** The id is not handed out again: no restart forgets it. */
  ghost predicate Remembered(st: Store, steps: seq<Step>, id: nat)
    requires Possible(st, steps)
    decreases |steps|
  {
    st.nextId >= id && (steps == [] || Remembered(Apply(st, steps[0]), steps[1..], id))
  }

  lemma {:induction false} RunStays(st: Store, steps: seq<Step>, c: int, id: nat)
    requires Valid(st) && Possible(st, steps) && Remembered(st, steps, id) && GoneFrom(st, c, id) && c < st.nextChan
    ensures Valid(Run(st, steps)) && GoneFrom(Run(st, steps), c, id)
    decreases |steps|
  {
    if steps != [] {
      ApplyStays(st, steps[0], c, id);
      ApplyValid(st, steps[0]);
      ApplyChans(st, steps[0]);
      RunStays(Apply(st, steps[0]), steps[1..], c, id);
    }
  }

  lemma ApplyChans(st: Store, s: Step)
    requires Enabled(st, s)
    ensures Apply(st, s).nextChan >= st.nextChan
  {
  }

  /** A deleted message stays deleted through every later run, compactions and restarts included, for as long
      as its id is not handed out again: the channel never holds anything but a blank tombstone under it. */
  lemma DeletedForGood(keep: nat, before: seq<Step>, c: int, id: nat, actor: string, after: seq<Step>, e: Entry)
    requires keep >= 1 && Possible(Init(keep), before)
    requires var st := Run(Init(keep), before);
             && c in st.expire && CanErase(st.Mem(c), id)
             && Possible(Erase(st, c, id, actor), after) && Remembered(Erase(st, c, id, actor), after, id)
    requires e in Run(Erase(Run(Init(keep), before), c, id, actor), after).Mem(c) && e.id == id
    ensures e.kind == Deleted && e.body == "" && e.fid == ""
  {
    RunValid(Init(keep), before);
    RunBlank(Init(keep), before);
    var st := Run(Init(keep), before);
    var st1 := Erase(st, c, id, actor);
    EraseValid(st, c, id, actor);
    ApplyBlank(st, DoErase(c, id, actor));
    EraseGone(st, c, id, actor);
    RunStays(st1, after, c, id);
    RunBlank(st1, after);
    var end := Run(st1, after);
    if c in end.expire {
      assert Tracks(end, c);
    }
  }
}

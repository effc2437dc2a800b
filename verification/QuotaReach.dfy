/** How far past its quota an account can get: the bound of QuotaProof is reached under all settings. */
module QuotaReach {
  import opened Util
  import opened Files
  import opened QuotaProof
  import L = MessageLog
  import A = AccountingProof

  // ---- fresh names -------------------------------------------------------------------------

  /** No file, hash, reference or message names anything longer than `n`. */
  ghost predicate NamesUpTo(h: Hub, n: nat) {
    && (forall fid :: fid in h.files ==> |fid| <= n)
    && (forall sum :: sum in h.hashes ==> |sum| <= n)
    && (forall fid :: fid in h.refs ==> |fid| <= n)
    && (forall fid, c :: (fid, c) in h.trimmed ==> |fid| <= n)
    && (forall c, e :: c in h.store.msgs && e in h.store.msgs[c] ==> |e.fid| <= n)
  }

  lemma {:induction false} NotMentioned(ms: seq<L.Entry>, fid: string)
    requires forall e :: e in ms ==> |e.fid| < |fid|
    ensures Mentions(ms, fid) == 0
  {
    if ms != [] {
      assert ms[|ms| - 1] in ms;
      NotMentioned(ms[..|ms| - 1], fid);
    }
  }

  lemma {:induction false} RefsOfNames(ms: seq<L.Entry>, c: int, n: nat)
    requires forall e :: e in ms ==> |e.fid| <= n
    ensures forall fid, d :: (fid, d) in RefsOf(ms, c) ==> |fid| <= n
  {
    if ms != [] {
      assert ms[|ms| - 1] in ms;
      RefsOfNames(ms[..|ms| - 1], c, n);
    }
  }

  // ---- one commit ----------------------------------------------------------------------------

  function CommitStep(h: Hub, id: int, n: nat): Step {
    DoCommit(id, Name(n + 1), Name(n + 1), "ann", "a", h.store.clock)
  }

  /** The account's upload `id` to channel `c` is being received. */
  ghost predicate Receives(h: Hub, id: int, u: int, c: int, len: nat) {
    id in h.uploads && h.uploads[id] == Upload(u, false, c, len, true) && c in h.store.expire
  }

  lemma CommitEnabled(h: Hub, id: int, u: int, c: int, len: nat, n: nat)
    requires NamesUpTo(h, n) && Receives(h, id, u, c, len)
    ensures Enabled(h, CommitStep(h, id, n))
  {
    forall d ensures Mentions(h.store.Mem(d), Name(n + 1)) == 0 {
      NotMentioned(h.store.Mem(d), Name(n + 1));
    }
  }

  lemma PostNames(h: Hub, e: L.Entry, n: nat)
    requires NamesUpTo(h, n) && |e.fid| <= n
    ensures NamesUpTo(PostMsg(h, e), n)
  {
    var all := h.store.Mem(e.cid) + [e];
    assert forall x :: x in all ==> |x.fid| <= n;
    RefsOfNames(all[..|all| - |L.Trimmed(all, h.store.keep)|], e.cid, n);
  }

  lemma CommitNames(h: Hub, id: int, u: int, c: int, len: nat, n: nat)
    requires NamesUpTo(h, n) && Receives(h, id, u, c, len)
    ensures var s := CommitStep(h, id, n); NamesUpTo(Commit(h, id, s.fid, s.sum, s.from, s.name, s.now), n + 1)
  {
    var s, up := CommitStep(h, id, n), h.uploads[id];
    var h1 := Stored(h, up, s.fid, s.sum);
    assert NamesUpTo(h1, n + 1);
    PostNames(h1, L.Posted(h1.store, c, L.File, s.from, s.name, s.fid, s.now), n + 1);
  }

  lemma CommitCharges(h: Hub, id: int, u: int, c: int, len: nat, n: nat)
    requires NamesUpTo(h, n) && Receives(h, id, u, c, len)
    ensures var s := CommitStep(h, id, n);
            var h' := Commit(h, id, s.fid, s.sum, s.from, s.name, s.now);
            && h'.Used(u) == h.Used(u) + len && h'.lim == h.lim && h'.uploading == h.uploading
            && h'.uploads == h.uploads[id := h.uploads[id].(receiving := false)] && h'.store.expire == h.store.expire
  {
  }

  // ---- one account's uploads to one channel -----------------------------------------------------

  /** Uploads 0 to `k` of `len` bytes each, of which the first `j` have been committed. */
  ghost predicate Ups(ups: map<int, Upload>, u: int, c: int, len: nat, j: nat, k: nat) {
    && (forall id :: id in ups ==> 0 <= id < k && ups[id] == Upload(u, false, c, len, id >= j))
    && (forall id :: 0 <= id < k ==> id in ups)
  }

  ghost predicate At(h: Hub, lim: Limits, u: int, c: int, n: nat, used: int, len: nat, j: nat, k: nat) {
    && NamesUpTo(h, n) && h.lim == lim && c in h.store.expire && h.Used(u) == used
    && Ups(h.uploads, u, c, len, j, k) && h.Uploading(u) == k
  }

  /** The settings let the account send `len` bytes on top of `used`. */
  predicate Fits(lim: Limits, u: int, c: int, used: int, len: nat) {
    u >= 0 && len <= lim.MaxFileFor(c) && used + len <= lim.QuotaFor(u)
  }

  function AdmitStep(u: int, c: int, len: nat, id: int): Step { DoAdmit(id, u, false, c, len, true, true) }

  lemma AdmitOne(h: Hub, lim: Limits, u: int, c: int, n: nat, used: int, len: nat, k: nat)
    requires At(h, lim, u, c, n, used, len, 0, k) && Fits(lim, u, c, used, len) &&
             (lim.maxUploads == 0 || k < lim.maxUploads)
    ensures Enabled(h, AdmitStep(u, c, len, k))
    ensures At(Apply(h, AdmitStep(u, c, len, k)), lim, u, c, n, used, len, 0, k + 1)
  {
  }

  lemma CommitOne(h: Hub, lim: Limits, u: int, c: int, n: nat, used: int, len: nat, j: nat, k: nat) returns (s: Step)
    requires At(h, lim, u, c, n, used, len, j, k) && j < k
    ensures Enabled(h, s) && At(Apply(h, s), lim, u, c, n + 1, used + len, len, j + 1, k)
  {
    s := CommitStep(h, j, n);
    CommitEnabled(h, j, u, c, len, n);
    CommitNames(h, j, u, c, len, n);
    CommitCharges(h, j, u, c, len, n);
  }

  lemma {:induction false} AdmitMany(h: Hub, lim: Limits, u: int, c: int, n: nat, used: int, len: nat, k: nat, all: nat)
    returns (steps: seq<Step>)
    requires At(h, lim, u, c, n, used, len, 0, k) && Fits(lim, u, c, used, len)
    requires k <= all && (lim.maxUploads == 0 || all <= lim.maxUploads)
    ensures Possible(h, steps) && At(Run(h, steps), lim, u, c, n, used, len, 0, all)
    decreases all - k
  {
    if k == all { return []; }
    var s := AdmitStep(u, c, len, k);
    AdmitOne(h, lim, u, c, n, used, len, k);
    var rest := AdmitMany(Apply(h, s), lim, u, c, n, used, len, k + 1, all);
    steps := [s] + rest;
    FirstThen(h, steps, s, rest);
  }

  function Times(k: nat, len: nat): nat {
    if k == 0 then 0 else len + Times(k - 1, len)
  }

  lemma {:induction false} TimesIsProduct(k: nat, len: nat)
    ensures Times(k, len) == k * len
  {
    if k > 0 {
      TimesIsProduct(k - 1, len);
      assert k * len == len + (k - 1) * len;
    }
  }

  lemma {:induction false} CommitMany(h: Hub, lim: Limits, u: int, c: int, n: nat, used: int, len: nat, j: nat,
      all: nat)
    returns (steps: seq<Step>)
    requires At(h, lim, u, c, n, used, len, j, all) && j <= all
    ensures Possible(h, steps) && Run(h, steps).Used(u) == used + Times(all - j, len)
    decreases all - j
  {
    if j == all { return []; }
    var s := CommitOne(h, lim, u, c, n, used, len, j, all);
    var rest := CommitMany(Apply(h, s), lim, u, c, n + 1, used + len, len, j + 1, all);
    steps := [s] + rest;
    FirstThen(h, steps, s, rest);
  }

  // ---- filling up one byte at a time ---------------------------------------------------------------

  ghost predicate Idle(h: Hub, lim: Limits, u: int, c: int, n: nat, used: int) {
    At(h, lim, u, c, n, used, 1, 0, 0)
  }

  lemma ReleaseOne(h: Hub, lim: Limits, u: int, c: int, n: nat, used: int)
    requires At(h, lim, u, c, n, used, 1, 1, 1)
    ensures Enabled(h, DoRelease(0)) && Idle(Apply(h, DoRelease(0)), lim, u, c, n, used)
  {
  }

  lemma OneByte(h: Hub, lim: Limits, u: int, c: int, n: nat, used: int) returns (steps: seq<Step>)
    requires Idle(h, lim, u, c, n, used) && Fits(lim, u, c, used, 1)
    ensures Possible(h, steps) && Idle(Run(h, steps), lim, u, c, n + 1, used + 1)
  {
    AdmitOne(h, lim, u, c, n, used, 1, 0);
    var h1 := Apply(h, AdmitStep(u, c, 1, 0));
    var commit := CommitOne(h1, lim, u, c, n, used, 1, 0, 1);
    var h2 := Apply(h1, commit);
    ReleaseOne(h2, lim, u, c, n + 1, used + 1);
    var h3 := Apply(h2, DoRelease(0));
    steps := [AdmitStep(u, c, 1, 0), commit, DoRelease(0)];
    ThreeSteps(h, steps[0], steps[1], steps[2], h1, h2, h3);
  }

  lemma {:induction false} Fill(h: Hub, lim: Limits, u: int, c: int, n: nat, used: int, most: int)
    returns (steps: seq<Step>, m: nat)
    requires Idle(h, lim, u, c, n, used) && u >= 0 && lim.MaxFileFor(c) >= 1 && used <= most <= lim.QuotaFor(u)
    ensures Possible(h, steps) && Idle(Run(h, steps), lim, u, c, m, most)
    decreases most - used
  {
    if used == most { return [], n; }
    var first := OneByte(h, lim, u, c, n, used);
    var rest, m1 := Fill(Run(h, first), lim, u, c, n + 1, used + 1, most);
    steps, m := first + rest, m1;
    RunConcat(h, first, rest, steps);
  }

  ghost predicate Opening(h: Hub, keep: nat, lim: Limits, c: int) {
    && h == Init(keep, lim).(store := h.store) && h.store.msgs == map[] && h.store.nextChan == c
    && (forall d :: d in h.store.expire <==> 1 <= d < c)
  }

  /** Channels are numbered from 1, so any one of them can be opened. */
  lemma {:induction false} Opens(keep: nat, lim: Limits, c: int) returns (steps: seq<Step>)
    requires c >= 1
    ensures Possible(Init(keep, lim), steps) && Opening(Run(Init(keep, lim), steps), keep, lim, c)
    decreases c
  {
    if c == 1 { return []; }
    var front := Opens(keep, lim, c - 1);
    var h := Run(Init(keep, lim), front);
    var last := DoNewChannel(0);
    FirstThen(h, [last], last, []);
    steps := front + [last];
    RunConcat(Init(keep, lim), front, [last], steps);
  }

  lemma OpenedIdle(h: Hub, keep: nat, lim: Limits, u: int, c: int)
    requires 1 <= c && Opening(h, keep, lim, c + 1)
    ensures Idle(h, lim, u, c, 0, 0)
  {
  }

  // ---- main results -------------------------------------------------------------------------------

  lemma AllAtOnce(h: Hub, lim: Limits, u: int, c: int, n: nat, used: int, len: nat, many: nat)
    returns (steps: seq<Step>)
    requires Idle(h, lim, u, c, n, used) && Fits(lim, u, c, used, len) &&
             (lim.maxUploads == 0 || many <= lim.maxUploads)
    ensures Possible(h, steps) && Run(h, steps).Used(u) == used + Times(many, len)
  {
    assert At(h, lim, u, c, n, used, len, 0, 0);
    var admits := AdmitMany(h, lim, u, c, n, used, len, 0, many);
    var commits := CommitMany(Run(h, admits), lim, u, c, n, used, len, 0, many);
    steps := admits + commits;
    RunConcat(h, admits, commits, steps);
  }

  /** As many uploads at once as the settings let through, each as large as they allow, on top of what
      one of them leaves free: from the first start, the account is charged for all of them. */
  lemma Overshoot(keep: nat, lim: Limits, u: int, c: int, many: nat) returns (steps: seq<Step>)
    requires u >= 0 && c >= 1 && lim.QuotaFor(u) > 0 && lim.MaxFileFor(c) >= 1
    requires many >= 1 && (lim.maxUploads == 0 || many <= lim.maxUploads)
    ensures Possible(Init(keep, lim), steps)
    ensures var q := lim.QuotaFor(u); Run(Init(keep, lim), steps).Used(u) == q + (many - 1) * Min(q, lim.MaxFileFor(c))
  {
    var q := lim.QuotaFor(u);
    var len: nat := Min(q, lim.MaxFileFor(c));
    var opening := Opens(keep, lim, c + 1);
    var h := Run(Init(keep, lim), opening);
    OpenedIdle(h, keep, lim, u, c);
    var filling, n := Fill(h, lim, u, c, 0, 0, q - len);
    var sending := AllAtOnce(Run(h, filling), lim, u, c, n, q - len, len, many);
    var rest := filling + sending;
    RunConcat(h, filling, sending, rest);
    steps := opening + rest;
    RunConcat(Init(keep, lim), opening, rest, steps);
    TimesIsProduct(many, len);
    assert many * len == len + (many - 1) * len;
  }

  /** The bound of QuotaBound is the best one: under all settings some run reaches it. */
  lemma BoundIsReached(keep: nat, lim: Limits, u: int, c: int, most: nat) returns (steps: seq<Step>)
    requires u >= 0 && c >= 1 && lim.QuotaFor(u) > 0 && lim.maxUploads > 0 && lim.MaxFileFor(c) == most >= 1
    ensures Possible(Init(keep, lim), steps) && Run(Init(keep, lim), steps).Used(u) == Bound(lim, u, most)
  {
    steps := Overshoot(keep, lim, u, c, lim.maxUploads);
  }

  ghost predicate KeepsQuota(keep: nat, lim: Limits, u: int) {
    forall steps :: Possible(Init(keep, lim), steps) ==> Run(Init(keep, lim), steps).Used(u) <= lim.QuotaFor(u)
  }

  lemma OneAtATime(keep: nat, lim: Limits, u: int, steps: seq<Step>)
    requires u >= 0 && lim.QuotaFor(u) > 0 && lim.maxUploads == 1 && Possible(Init(keep, lim), steps)
    ensures Run(Init(keep, lim), steps).Used(u) <= lim.QuotaFor(u)
  {
    A.BooksFromStart(keep, lim, []);
    OneUploadKeepsQuota(Init(keep, lim), steps, u);
  }

  /** An account stays within its quota in every run exactly when it may send one upload at a time. */
  lemma QuotaKeptExactly(keep: nat, lim: Limits, u: int, c: int)
    requires u >= 0 && c >= 1 && lim.QuotaFor(u) > 0 && lim.MaxFileFor(c) >= 1
    ensures KeepsQuota(keep, lim, u) <==> lim.maxUploads == 1
  {
    if lim.maxUploads == 1 {
      forall steps | Possible(Init(keep, lim), steps)
        ensures Run(Init(keep, lim), steps).Used(u) <= lim.QuotaFor(u)
      {
        OneAtATime(keep, lim, u, steps);
      }
    } else {
      var steps := Overshoot(keep, lim, u, c, 2);
      assert Possible(Init(keep, lim), steps);
    }
  }
}

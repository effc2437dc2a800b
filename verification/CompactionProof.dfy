/** When the log is rewritten, and how far it can outgrow what memory holds. */
module CompactionProof {
  import opened Util
  import opened MessageLog
  import opened RestartProof

  lemma {:induction false} GatheredSize(m: map<int, seq<Entry>>)
    ensures |Gathered(m)| == Total(m)
    decreases |m|
  {
    if m.Keys != {} {
      GatheredSize(m - {Pick(m.Keys)});
    }
  }

  /** A rewritten log has exactly one record for every retained entry. */
  lemma RewriteSize(st: Store)
    ensures |Rewrite(st, true).log| == Total(st.msgs)
    ensures Rewrite(st, true) == st.(log := Rewrite(st, true).log, raised := {}) && Rewrite(st, false) == st
  {
    GatheredSize(st.msgs);
  }

  /** After start-up the log is at most half as long again as what is kept, and 200 records more. */
  lemma LoadBoundsLog(st: Store)
    ensures var st' := Load(st, true); |st'.log| <= Total(st'.msgs) + Total(st'.msgs) / 2 + 200
  {
    RewriteSize(Reloaded(st));
  }

  /** Start-up counts nothing as removed or rewritten yet, and rewrites only a log that has grown too long. */
  lemma LoadExact(st: Store, ok: bool)
    ensures var l, kept := Reloaded(st), Total(Reloaded(st).msgs);
            && l == st.(msgs := l.msgs, nextId := MaxId(st.log), removed := 0, lastComp := None, raised := {})
            && (forall c :: c in l.msgs <==> c in st.expire && Replay(st.log, c) != [])
            && (forall c :: c in l.msgs ==> l.msgs[c] == LastN(Replay(st.log, c), st.keep))
            && Load(st, ok) == if |st.log| > kept + kept / 2 + 200 then Rewrite(l, ok) else l
  {
  }

  /** Expired entries leave the log too: at most a thousand of them wait for it, and none for more than ten
      minutes of sweeps. */
  lemma JanitorCompacts(st: Store, now: int, ok: bool)
    ensures var st' := Janitor(st, now, ok);
            && st'.removed <= 1000
            && (st'.removed > 0 ==> st'.lastComp.Some? && now - st'.lastComp.value <= 600000)
            && (st'.removed == 0 || st'.log == st.log)
            && (ExpireOnly(st, now).removed == 0 ==> st' == ExpireOnly(st, now))
  {
  }

  /** The rewriting is not done at every tick: it takes a thousand removals, or ten minutes, or the first. */
  lemma JanitorWaits(st: Store, now: int, ok: bool)
    requires st.lastComp.Some? && now - st.lastComp.value <= 600000
    requires ExpireOnly(st, now).removed <= 1000
    ensures var st' := Janitor(st, now, ok);
            st'.log == st.log && st'.lastComp == st.lastComp && st'.removed == ExpireOnly(st, now).removed
  {
  }

  lemma {:induction false} FewerInAll(m: map<int, seq<Entry>>, m2: map<int, seq<Entry>>)
    requires m2.Keys == m.Keys && forall c :: c in m ==> |m2[c]| <= |m[c]|
    ensures Total(m2) <= Total(m)
    decreases |m|
  {
    if m.Keys != {} {
      var c := Pick(m.Keys);
      TotalSplit(m2, c);
      FewerInAll(m - {c}, m2 - {c});
    }
  }

  /** What a sweep removes is counted. */
  lemma RemovalsCounted(st: Store, now: int)
    ensures var st' := ExpireOnly(st, now);
            && st'.removed == st.removed + (Total(st.msgs) - Total(st'.msgs)) && st'.clock == now
            && st'.log == st.log && st'.nextId == st.nextId && st'.expire == st.expire && st'.raised == st.raised
  {
    FewerInAll(st.msgs, Swept(st, now));
  }

  /** The hourly sweep leaves nothing waiting at all. */
  lemma SweepCompacts(st: Store, now: int, ok1: bool, ok2: bool)
    ensures Sweep(st, now, ok1, ok2).removed == 0
    ensures ok2 && Janitor(st, now, ok1).removed > 0 ==>
            |Sweep(st, now, ok1, ok2).log| == Total(Sweep(st, now, ok1, ok2).msgs)
  {
    RewriteSize(Janitor(st, now, ok1));
  }

  /** Deleting a channel takes its messages out of memory and, through the rewriting, out of the log. */
  lemma DeleteForgets(st: Store, c: int, ok: bool)
    requires Valid(st) && c in st.expire
    ensures var st' := DeleteChannel(st, c, ok);
            && c !in st'.expire && st'.Mem(c) == [] && (ok ==> forall e :: e in st'.log ==> e.cid != c)
            && (forall d :: d != c ==> st'.Mem(d) == st.Mem(d) && (d in st'.expire <==> d in st.expire))
            && forall d :: d in st'.expire ==> st'.expire[d] == st.expire[d]
  {
    MemFromLog(st);
    var x := st.(msgs := st.msgs - {c}, expire := st.expire - {c});
    MergedReplays(x.msgs, c);
  }

  /** New channels are numbered upwards and start empty; an expiry is set for one channel. */
  lemma ChannelSteps(st: Store, sec: int, c: int)
    ensures var st' := NewChannel(st, sec);
            st' == st.(nextChan := st.nextChan + 1, expire := st.expire[st.nextChan := sec])
    ensures c in st.expire ==>
            SetExpire(st, c, sec) == st.(expire := st.expire[c := sec],
              raised := if st.expire[c] > 0 && (sec <= 0 || sec > st.expire[c]) then st.raised + {c} else st.raised)
  {
  }

  /** A sweep that finds nothing to remove leaves the log alone; one that rewrites it says when. */
  lemma SweepExact(st: Store, now: int, ok1: bool, ok2: bool)
    ensures var j, st' := Janitor(st, now, ok1), Sweep(st, now, ok1, ok2);
            if j.removed > 0 then st'.lastComp == Some(now) && st'.log == Rewrite(j, ok2).log && st'.msgs == j.msgs
              else st' == j
  {
  }

  /** A post is stored and logged as it was said, under the next id. Nothing is cut until a slice is a quarter
      over what is kept, and then it is cut back to that. */
  lemma PostExact(st: Store, c: int, file: bool, from: string, body: string, fid: string, now: int)
    requires Enabled(st, DoPost(c, file, from, body, fid, now))
    ensures var st' := Apply(st, DoPost(c, file, from, body, fid, now));
            var e := Entry(if file then File else Text, c, st.nextId + 1, now, from, "", body, if file then fid
              else "");
            && st'.log == st.log + [e] && st'.nextId == st.nextId + 1 && st'.clock == now
            && (|st.Mem(c)| + 1 <= st.keep + st.keep / 4 ==> st'.Mem(c) == st.Mem(c) + [e])
            && (|st.Mem(c)| + 1 > st.keep + st.keep / 4 ==>
                  st'.Mem(c) == (st.Mem(c) + [e])[|st.Mem(c)| + 1 - st.keep..])
            && forall d :: d != c ==> st'.Mem(d) == st.Mem(d)
  {
  }

  lemma PostedSays(st: Store, c: int, kind: Kind, from: string, body: string, fid: string, now: int)
    ensures Posted(st, c, kind, from, body, fid, now) == Entry(kind, c, st.nextId + 1, now, from, "", body, fid)
  {
  }
}

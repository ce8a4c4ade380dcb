/**
 How one runner's append, effect or private step keeps the invariant: the parts of the
 argument that do not depend on which step it is.
 */
module Writing {
  import opened Types
  import opened Projection
  import opened Engine
  import opened Ledger
  import opened Protocol
  import opened Invariant

  /** The runner after an append that left it at version n. */
  function Synced(p: Proc, n: nat, storeErr: bool): Proc {
    p.(run := p.run.(sequence := n, storeErr := storeErr))
  }

  lemma StoreErrImmaterial(w: World, s: State, pid: nat, p: Proc, storeErr: bool)
    requires ProcOk(w, s, pid, p) && !p.pc.Loaded?
    ensures ProcOk(w, s, pid, Synced(p, p.run.sequence, storeErr))
  {
    hide Read, Submittable, Sane, AtMost, FitsWith, Covered, Plus, Opens, ToolRuns, Unrun, Reserves, Starts, Intends, StatusOk, Unspent, Carries,
         ValidMessage, ValidUsage;
    var q := Synced(p, p.run.sequence, storeErr);
    if !p.pc.Gone? {
      var l := Read(s.log[..p.run.sequence]);
      assert Balanced(w, p, l) ==> Balanced(w, q, l);
      assert Standing(w, q, l);
      if Outstanding(p.pc) { UnspentSame(s.effects, pid, p, q); }
    }
  }

  lemma UnspentSame(es: seq<Effect>, pid: nat, p: Proc, q: Proc)
    requires Unspent(es, pid, p) && q.pc == p.pc && q.turn == p.turn
    ensures Unspent(es, pid, q)
  {
  }

  /** One record is appended: it commits or not, and the runner sees success or not. */
  lemma WroteKeeps(w: World, s: State, pid: nat, p: Proc, payload: Payload, how: How, success: Proc, fallback: Proc)
    requires Inv(w, s) && pid in s.procs && !s.procs[pid].pc.Gone? && p.run.sequence == s.procs[pid].run.sequence
    requires fallback.run.sequence == p.run.sequence && !fallback.pc.Loaded? && ProcOk(w, s, pid, fallback)
    requires var e := Seal(p.request, |s.log| + 1, payload);
      && (p.run.sequence == |s.log| ==>
            Admissible(w, s, e) && ProcOk(w, Grown(s, pid, s.log + [e]), pid, Synced(success, |s.log| + 1, false)))
      && (!Outstanding(fallback.pc) || QuietEvent(e))
    ensures Inv(w, Wrote(s, pid, p, [payload], how, success, fallback))
  {
    hide LogOk, EffectsOk, ProcOk, Admissible, Outstanding, QuietEvent;
    var e := Seal(p.request, |s.log| + 1, payload);
    assert Sealed(p.request, |s.log|, [payload]) == [e];
    var (log, run, ok) := Appending(p.request, p.run, s.log, [payload], how);
    AppendOutcome(p.request, p.run, s.log, [payload], how);
    if ok {
      CommitKeeps(w, s, pid, Synced(success, |s.log| + 1, false), e);
    } else {
      var q := Synced(fallback, p.run.sequence, run.storeErr);
      StoreErrImmaterial(w, s, pid, fallback, run.storeErr);
      if log == s.log {
        assert Grown(s, pid, log) == s;
        MovesAlone(w, s, pid, q);
      } else {
        CommittedUnseen(w, s, pid, q, e);
        CommitKeeps(w, s, pid, q, e);
      }
    }
  }

  /** A step that the stream does not see. */
  lemma MovesAlone(w: World, s: State, pid: nat, q: Proc)
    requires Inv(w, s) && ProcOk(w, s, pid, q)
    ensures Inv(w, Put(s, pid, q))
  {
    hide ProcOk, LogOk, EffectsOk;
    PutKeeps(w, s, pid, q);
  }

  /** A commit the runner did not hear of leaves it as it was, one version behind. */
  lemma CommittedUnseen(w: World, s: State, pid: nat, q: Proc, e: Event)
    requires LogOk(w, s) && EffectsOk(w, s) && Admissible(w, s, e) && ProcOk(w, s, pid, q)
    requires !Outstanding(q.pc) || QuietEvent(e)
    ensures ProcOk(w, Grown(s, pid, s.log + [e]), pid, q)
  {
    hide Admissible, Read, Standing, Offers, Submittable, Engaged, QuietEvent, Outstanding, LogOk, EffectsOk;
    var s' := Grown(s, pid, s.log + [e]);
    LogGrows(w, s, pid, e);
    if Outstanding(q.pc) && !q.pc.Gone? && !q.pc.Loaded? {
      EngagedKeeps(w, s, s', e, pid, q);
      assert s'.log[..q.run.sequence] == s.log[..q.run.sequence];
    } else if !q.pc.Gone? {
      assert s'.log[..q.run.sequence] == s.log[..q.run.sequence];
    }
  }

  /** The runner saw its commit: it stands where the longer stream shows it. */
  lemma Lands(w: World, s: State, pid: nat, q: Proc, e: Event)
    requires |s.authors| == |s.log| && s.creator == Some(q.request) && q.run.sequence == |s.log| + 1
    requires !q.pc.Loaded? && !q.pc.Gone?
    requires var l := Noted(Read(s.log), |s.log|, e);
      && Standing(w, q, l)
      && (l.pendingAt.Some? ==> l.pendingAt.value == |s.log| || (l.pendingAt.value < |s.log| && s.authors[l.pendingAt.value] == pid))
    requires Outstanding(q.pc) ==> Engaged(w, Grown(s, pid, s.log + [e]), pid, q)
    ensures ProcOk(w, Grown(s, pid, s.log + [e]), pid, q)
  {
    hide Read, Standing, Engaged, Outstanding;
    var s' := Grown(s, pid, s.log + [e]);
    ReadSnoc(s.log, e);
    assert s'.log[..q.run.sequence] == s'.log;
  }

  /** What is known of a runner at the end of the stream. */
  lemma AtEnd(w: World, s: State, pid: nat)
    requires Inv(w, s) && pid in s.procs
    requires var p := s.procs[pid]; !p.pc.Gone? && !p.pc.Loaded? && p.run.sequence == |s.log|
    ensures var p, l := s.procs[pid], Read(s.log);
      && Standing(w, p, l) && s.creator == Some(p.request) && |s.authors| == |s.log| && LedgerOk(w, p.request, l)
      && Submittable(w, p.request)
      && (l.pendingAt.Some? ==> l.pendingAt.value < |s.log| && s.authors[l.pendingAt.value] == pid)
      && (Outstanding(p.pc) ==> Engaged(w, s, pid, p))
  {
    hide Read, Standing, Engaged, EffectsOk, LedgerOk, Submittable, Outstanding, EntryOk;
    assert ProcOk(w, s, pid, s.procs[pid]);
    assert s.log[..|s.log|] == s.log;
  }

  /** Any runner may give up its turn. */
  lemma MayStop(w: World, s: State, pid: nat, p: Proc, q: Proc)
    requires ProcOk(w, s, pid, p) && !p.pc.Gone? && !p.pc.Loaded? && !p.pc.Finishing?
    requires q.request == p.request && q.run.sequence == p.run.sequence && !q.tripped && q.turn >= 0
    requires q.pc == Stopping || q.pc == Finishing
    requires q.pc == Finishing || q.muted || (q.emitted == p.emitted && q.muted == p.muted)
    ensures ProcOk(w, s, pid, q)
  {
    hide Read, Balanced, Carries, ValidMessage, Engaged;
  }

  /** A runner with an open reservation acts on the outside world. */
  lemma ActsOutside(w: World, s: State, pid: nat, effects: seq<Effect>, spent: Spend, q: Proc)
    requires Inv(w, s) && pid in s.procs && Outstanding(s.procs[pid].pc)
    requires var s1 := s.(effects := effects, spent := spent); EffectsOk(w, s1) && ProcOk(w, s1, pid, q)
    ensures Inv(w, Put(s.(effects := effects, spent := spent), pid, q))
  {
    hide ProcOk, EffectsOk, Outstanding, LedgerOk, EntryOk, Submittable, Read;
    var s1 := s.(effects := effects, spent := spent);
    assert LogOk(w, s1);
    forall other | other in s.procs && other != pid ensures ProcOk(w, s1, other, s.procs[other]) {
      if Outstanding(s.procs[other].pc) { OneEngaged(w, s, pid, other); }
      BystanderKeeps(w, s, s1, other, s.procs[other]);
    }
    PutKeeps(w, s1, pid, q);
  }
}

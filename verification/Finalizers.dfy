/**
 The finalizer protocol over every run: which reconciles can happen once a database is being
 terminated, and when a database that held the finalizer can leave the store.
 */
module Finalizers {
  import opened Options
  import opened Cluster
  import opened Passes

  /** Uids never go back along a name's history, and a deletion mark stays. */
  ghost predicate Ordered(h: seq<Option<Database>>) {
    forall i, j :: 0 <= i < j < |h| && h[i].Some? && h[j].Some? ==>
      && h[i].value.uid <= h[j].value.uid
      && (h[i].value.uid == h[j].value.uid && h[i].value.deleting ==> h[j].value.deleting)
  }

  ghost predicate WellStored(h: seq<Option<Database>>, bound: nat) {
    forall i :: 0 <= i < |h| && h[i].Some? ==>
      h[i].value.uid < bound && (h[i].value.deleting ==> h[i].value.finalizer)
  }

  /** Everything at or after the informer's position belongs to `uid`'s successors, or is `uid` being deleted. */
  ghost predicate Beyond(h: seq<Option<Database>>, position: nat, uid: nat) {
    forall i :: 0 <= i < |h| && position <= i + 1 && h[i].Some? ==>
      uid <= h[i].value.uid && (h[i].value.uid == uid ==> h[i].value.deleting)
  }

  /** Two versions still ahead of the informer never both hold the finalizer under different uids. */
  ghost predicate OneHolder(h: seq<Option<Database>>, position: nat) {
    forall i, j :: 0 <= i < j < |h| && position <= i + 1 && h[i].Some? && h[j].Some? ==>
      h[i].value.finalizer && h[i].value.uid != h[j].value.uid ==> !h[j].value.finalizer
  }

  /** One of the first `upto` versions is this object, being deleted if the copy is. */
  ghost predicate Known(h: seq<Option<Database>>, upto: nat, px: Database) {
    exists i :: 0 <= i < upto && i < |h| && h[i].Some? && h[i].value.uid == px.uid &&
      (px.deleting ==> h[i].value.deleting)
  }

  ghost predicate HistoryOk(w: State, n: Name) {
    var h := History(w, n);
    && Ordered(h) && WellStored(h, w.nextId)
    && (forall i :: 0 <= i < |h| && h[i].Some? ==> Named(w, h[i].value.uid, n))
    && Seen(w, n) <= |h| && OneHolder(h, Seen(w, n))
  }

  ghost predicate AuditOk(w: State, n: Name) {
    var h := History(w, n);
    && (forall u: nat :: (n, u) in w.audit.terminating ==>
          u < w.nextId && Named(w, u, n) && Beyond(h, Seen(w, n), u))
    && (forall u: nat :: (n, u) in w.audit.finalized ==> u < w.nextId)
    && (forall u: nat :: (n, u) in w.audit.finalized && (Current(w, n).None? || Current(w, n).value.uid != u) ==>
          (n, u) in w.audit.terminating && (n, u) in w.audit.left)
    && (Current(w, n).Some? && (n, Current(w, n).value.uid) in w.audit.finalized ==> Current(w, n).value.finalizer)
    && (forall i :: 0 <= i < |h| && h[i].Some? && h[i].value.finalizer ==> (n, h[i].value.uid) in w.audit.finalized)
    && (forall u: nat :: (n, u) in w.audit.left ==> u < w.nextId)
    && (Current(w, n).Some? ==> (n, Current(w, n).value.uid) !in w.audit.left)
    && (forall u: nat :: (n, u) in w.audit.left && (n, u) in w.audit.finalized ==> (n, u) in w.audit.released)
  }

  /** What a reconcile's private copy has to do with the history and with earlier terminations. */
  ghost predicate CopyOk(w: State, n: Name, p: Pass) {
    && Known(History(w, n), if p.pc.Start? then Seen(w, n) else |History(w, n)|, p.px)
    && (p.px.finalizer || !p.pc.Start? ==> (n, p.px.uid) in w.audit.finalized)
    && (if p.pc.Terminates() then
          && p.px.deleting
          && (n, p.px.uid) in w.audit.terminating
          && (Current(w, n).Some? && Current(w, n).value.finalizer ==> Current(w, n).value.uid == p.px.uid)
        else
          && (p.pc.Start? ==> !p.px.deleting)
          && (forall u: nat :: (n, u) in w.audit.terminating ==> u < p.px.uid))
  }

  ghost predicate PassOk(w: State, n: Name) {
    n in w.passes ==>
      && CopyOk(w, n, w.passes[n])
      && (w.passes[n].pc.TFinalizer? ==> (n, w.passes[n].px.uid) in w.audit.released)
  }

  ghost predicate NameOk(w: State, n: Name) {
    HistoryOk(w, n) && AuditOk(w, n) && PassOk(w, n)
  }

  /* ---- what a step does to one name ---- */

  /** `w'` looks the same as `w` from the point of view of name `n`. */
  ghost predicate SameFor(w: State, w': State, n: Name) {
    && History(w', n) == History(w, n) && Seen(w', n) == Seen(w, n) && w.nextId <= w'.nextId
    && (forall u: nat :: u < w.nextId && Named(w, u, n) ==> Named(w', u, n))
    && (n in w'.passes <==> n in w.passes) && (n in w.passes ==> w'.passes[n] == w.passes[n])
    && (forall u: nat :: (n, u) in w'.audit.finalized <==> (n, u) in w.audit.finalized)
    && (forall u: nat :: (n, u) in w'.audit.terminating <==> (n, u) in w.audit.terminating)
    && (forall u: nat :: (n, u) in w'.audit.released <==> (n, u) in w.audit.released)
    && (forall u: nat :: (n, u) in w'.audit.left <==> (n, u) in w.audit.left)
  }

  lemma SameForKeeps(w: State, w': State, n: Name)
    requires NameOk(w, n) && SameFor(w, w', n)
    ensures NameOk(w', n)
  {
  }

  /** The version a database write may add: the stored object changed, but never its identity. */
  ghost predicate Rewrites(x: Database, y: Database) {
    y.uid == x.uid && (x.deleting ==> y.deleting)
  }

  /** What a pass writes over the stored database. */
  ghost predicate WritesOver(w: State, n: Name, p: Pass, y: Database) {
    Current(w, n).Some? &&
    var x := Current(w, n).value;
    && Rewrites(x, y) && y.deleting == x.deleting
    && (p.pc.Start? ==> !p.px.finalizer && y == x.(finalizer := true))
    && (p.pc.TFinalizer? ==> y == x.(finalizer := false))
    && (!p.pc.Start? && !p.pc.TFinalizer? ==> y.finalizer == x.finalizer)
  }

  lemma CreateWritesOver(w: State, n: Name, p: Pass, c: Choice)
    requires p.pc.Creates() && CreateMove(w, n, p, c.outcome, c.password).effect.PutDatabase?
    ensures WritesOver(w, n, p, CreateMove(w, n, p, c.outcome, c.password).effect.database)
  {
  }

  lemma PassWritesCurrent(w: State, n: Name, p: Pass, c: Choice)
    requires MoveOf(w, n, p, c).effect.PutDatabase?
    ensures WritesOver(w, n, p, MoveOf(w, n, p, c).effect.database)
  {
    if p.pc.Creates() {
      hide CreateMove, WritesOver;
      CreateWritesOver(w, n, p, c);
    } else {
      hide CreateMove;
    }
  }

  /** Where a pass goes next: it keeps its database, except that `Start` may pick up the stored object. */
  ghost predicate Continues(p: Pass, m: Move) {
    m.next.Go? ==>
      var q := m.next.pass;
      && !q.pc.Start?
      && q.pc.Terminates() == p.pc.Terminates()
      && (if p.pc.Start? && !p.px.finalizer then m.effect.PutDatabase? && q.px == m.effect.database
          else q.px.uid == p.px.uid && q.px.deleting == p.px.deleting)
  }

  lemma CreateContinues(w: State, n: Name, p: Pass, c: Choice)
    requires p.pc.Creates()
    ensures Continues(p, CreateMove(w, n, p, c.outcome, c.password))
  {
  }

  lemma HaltContinues(w: State, n: Name, p: Pass, c: Choice)
    requires p.pc.Halts()
    ensures Continues(p, HaltMove(w, n, p, c))
  {
  }

  lemma TerminateContinues(w: State, n: Name, p: Pass, c: Choice)
    requires p.pc.Terminates()
    ensures Continues(p, TerminateMove(w, n, p, c.outcome, c.item))
  {
  }

  lemma PassContinues(w: State, n: Name, p: Pass, c: Choice)
    ensures Continues(p, MoveOf(w, n, p, c))
  {
    if p.pc.Creates() { CreateContinues(w, n, p, c); }
    else if p.pc.Halts() { HaltContinues(w, n, p, c); }
    else if p.pc.Terminates() { TerminateContinues(w, n, p, c); }
  }

  /* ---- one lemma for each way a name's history can grow ---- */

  lemma OrderedAppend(h: seq<Option<Database>>, v: Option<Database>)
    requires Ordered(h)
    requires forall i :: 0 <= i < |h| && h[i].Some? && v.Some? ==> Rewrites(h[i].value, v.value) || h[i].value.uid < v.value.uid
    ensures Ordered(h + [v])
  {
  }

  lemma KnownAppend(h: seq<Option<Database>>, upto: nat, v: Option<Database>, px: Database)
    requires Known(h, upto, px)
    ensures Known(h + [v], upto, px) && Known(h + [v], |h| + 1, px)
  {
    var i :| 0 <= i < upto && i < |h| && h[i].Some? && h[i].value.uid == px.uid && (px.deleting ==> h[i].value.deleting);
    assert (h + [v])[i] == h[i];
  }

  /** A version of an object that may follow everything stored so far under its name. */
  ghost predicate Follows(w: State, n: Name, y: Database) {
    && y.uid < w.nextId && Named(w, y.uid, n)
    && (n, y.uid) !in w.audit.left
    && (Current(w, n).Some? ==> Rewrites(Current(w, n).value, y))
    && (forall i :: 0 <= i < |History(w, n)| && History(w, n)[i].Some? ==>
          Rewrites(History(w, n)[i].value, y) || History(w, n)[i].value.uid < y.uid)
  }

  lemma StoreKeepsHistory(w: State, n: Name, y: Database)
    requires HistoryOk(w, n) && Follows(w, n, y)
    requires y.finalizer ==> forall i :: 0 <= i < |History(w, n)| && Seen(w, n) <= i + 1 && History(w, n)[i].Some? ==>
      History(w, n)[i].value.finalizer ==> History(w, n)[i].value.uid == y.uid
    ensures HistoryOk(Store(w, n, y), n)
  {
    assert History(Store(w, n, y), n) == History(w, n) + [Stored(y)];
    OrderedAppend(History(w, n), Stored(y));
  }

  lemma StoreKeepsAudit(w: State, n: Name, y: Database)
    requires HistoryOk(w, n) && AuditOk(w, n) && Follows(w, n, y)
    requires forall u: nat :: (n, u) in w.audit.terminating ==> u <= y.uid && (u == y.uid ==> y.deleting)
    requires (n, y.uid) in w.audit.finalized && !y.finalizer ==>
      y.deleting && (n, y.uid) in w.audit.terminating && (n, y.uid) in w.audit.released
    ensures AuditOk(Store(w, n, y), n)
  {
    var h := History(w, n);
    var w' := Store(w, n, y);
    assert History(w', n) == h + [Stored(y)];
    forall u: nat | (n, u) in w'.audit.terminating
      ensures u < w'.nextId && Beyond(h + [Stored(y)], Seen(w', n), u)
    {
      assert Beyond(h, Seen(w, n), u);
    }
  }

  lemma StoreKeepsPass(w: State, n: Name, y: Database)
    requires PassOk(w, n)
    requires y.finalizer && n in w.passes && w.passes[n].pc.Terminates() ==> y.uid == w.passes[n].px.uid
    ensures PassOk(Store(w, n, y), n)
  {
    var h := History(w, n);
    assert History(Store(w, n, y), n) == h + [Stored(y)];
    if n in w.passes {
      var p := w.passes[n];
      KnownAppend(h, if p.pc.Start? then Seen(w, n) else |h|, Stored(y), p.px);
    }
  }

  /** The stored object ends the history, so any rewriting of it may follow. */
  lemma RewriteFollows(w: State, n: Name, y: Database)
    requires HistoryOk(w, n) && AuditOk(w, n)
    requires Current(w, n).Some? && Rewrites(Current(w, n).value, y)
    ensures Follows(w, n, y)
    ensures forall u: nat :: (n, u) in w.audit.terminating ==> u <= y.uid && (u == y.uid ==> y.deleting)
  {
    var h := History(w, n);
    forall u: nat | (n, u) in w.audit.terminating ensures u <= y.uid && (u == y.uid ==> y.deleting) {
      assert Beyond(h, Seen(w, n), u);
    }
  }

  /** A write that leaves the finalizer as it is: every user edit, and every pass write but two. */
  lemma RewriteKeeps(w: State, n: Name, y: Database)
    requires NameOk(w, n) && Current(w, n).Some?
    requires Rewrites(Current(w, n).value, y) && y.finalizer == Current(w, n).value.finalizer
    ensures NameOk(Store(w, n, y), n)
  {
    RewriteFollows(w, n, y);
    StoreKeepsHistory(w, n, y);
    StoreKeepsAudit(w, n, y);
    StoreKeepsPass(w, n, y);
  }

  /** A new object gets the next uid, which nothing under any name has had. */
  function Numbered(w: State, n: Name): State {
    w.(nextId := w.nextId + 1, audit := w.audit.(names := w.audit.names[w.nextId := n]))
  }

  lemma CreateKeeps(w: State, n: Name, y: Database)
    requires NameOk(w, n) && Current(w, n).None?
    requires y.uid == w.nextId && !y.finalizer && !y.deleting
    ensures NameOk(Store(Numbered(w, n), n, y), n)
  {
    var w1 := Numbered(w, n);
    assert History(w1, n) == History(w, n);
    forall u: nat | (n, u) in w1.audit.terminating ensures Beyond(History(w1, n), Seen(w1, n), u) {
      assert Beyond(History(w, n), Seen(w, n), u);
    }
    StoreKeepsHistory(w1, n, y);
    StoreKeepsAudit(w1, n, y);
    StoreKeepsPass(w1, n, y);
  }

  lemma SyncKeeps(w: State, n: Name)
    requires NameOk(w, n)
    ensures NameOk(Step(w, Sync(n)), n)
  {
    var w' := Step(w, Sync(n));
    assert w' == if Seen(w, n) < |History(w, n)| then w.(seen := w.seen[n := Seen(w, n) + 1]) else w;
    hide Step;
    assert History(w', n) == History(w, n);
    forall u: nat | (n, u) in w'.audit.terminating ensures Beyond(History(w', n), Seen(w', n), u) {
      assert Beyond(History(w, n), Seen(w, n), u);
    }
  }

  lemma CrashKeeps(w: State, n: Name)
    requires NameOk(w, n)
    ensures NameOk(Restarted(w), n)
  {
    var w' := Restarted(w);
    assert History(w', n) == History(w, n);
    forall u: nat | (n, u) in w'.audit.terminating ensures Beyond(History(w', n), Seen(w', n), u) {
      assert Beyond(History(w, n), Seen(w, n), u);
    }
  }

  /** Nobody else ahead of the informer can hold the finalizer when `Start` adds it. */
  lemma SoleHolder(w: State, n: Name, i: nat)
    requires NameOk(w, n) && Current(w, n).Some? && n in w.passes
    requires w.passes[n].pc.Start? && i < |History(w, n)| && Seen(w, n) <= i + 1
    requires History(w, n)[i].Some? && History(w, n)[i].value.finalizer
    ensures History(w, n)[i].value.uid == Current(w, n).value.uid
  {
    var h := History(w, n);
    var px := w.passes[n].px;
    var k :| 0 <= k < Seen(w, n) && k < |h| && h[k].Some? && h[k].value.uid == px.uid;
    assert k == i || k < i;
    assert (n, h[i].value.uid) in w.audit.finalized;
  }

  lemma AddFinalizerKeeps(w: State, n: Name)
    requires NameOk(w, n) && Current(w, n).Some? && n in w.passes && w.passes[n].pc.Start?
    ensures var y := Current(w, n).value.(finalizer := true);
            && NameOk(Store(w, n, y), n)
            && forall u: nat :: (n, u) in w.audit.terminating ==> u < y.uid
  {
    var h := History(w, n);
    var px := w.passes[n].px;
    var y := Current(w, n).value.(finalizer := true);
    RewriteFollows(w, n, y);
    forall i | 0 <= i < |h| && Seen(w, n) <= i + 1 && h[i].Some? && h[i].value.finalizer
      ensures h[i].value.uid == y.uid
    {
      SoleHolder(w, n, i);
    }
    StoreKeepsHistory(w, n, y);
    StoreKeepsAudit(w, n, y);
    StoreKeepsPass(w, n, y);
    var k :| 0 <= k < Seen(w, n) && k < |h| && h[k].Some? && h[k].value.uid == px.uid;
    assert px.uid <= y.uid;
  }

  /** Removing the finalizer: only the object this pass has just released can hold it. */
  lemma RemoveFinalizerKeeps(w: State, n: Name)
    requires NameOk(w, n) && Current(w, n).Some? && n in w.passes && w.passes[n].pc.TFinalizer?
    ensures var y := Current(w, n).value.(finalizer := false);
            NameOk(Store(w, n, y), n)
  {
    var h := History(w, n);
    var px := w.passes[n].px;
    var x := Current(w, n).value;
    var y := x.(finalizer := false);
    RewriteFollows(w, n, y);
    var k :| 0 <= k < |h| && h[k].Some? && h[k].value.uid == px.uid && h[k].value.deleting;
    assert h[|h| - 1] == Some(x);
    assert x.finalizer ==> x.uid == px.uid && x.deleting;
    StoreKeepsHistory(w, n, y);
    StoreKeepsAudit(w, n, y);
    StoreKeepsPass(w, n, y);
  }

  /* ---- every step keeps the protocol ---- */

  lemma StopKeeps(w: State, n: Name)
    requires HistoryOk(w, n) && AuditOk(w, n)
    ensures NameOk(w.(passes := w.passes - {n}), n)
  {
    assert History(w.(passes := w.passes - {n}), n) == History(w, n);
  }

  lemma GoKeeps(w: State, n: Name, p: Pass, q: Pass)
    requires HistoryOk(w, n) && AuditOk(w, n) && CopyOk(w, n, q)
    ensures NameOk(Settle(w, n, p, Go(q)), n)
  {
    var w' := Settle(w, n, p, Go(q));
    assert History(w', n) == History(w, n);
    assert AuditOk(w', n) && HistoryOk(w', n);
    hide AuditOk, HistoryOk, Beyond, Ordered, WellStored, OneHolder;
  }

  lemma SettleKeeps(w: State, n: Name, p: Pass, next: Next)
    requires HistoryOk(w, n) && AuditOk(w, n)
    requires next.Go? ==> CopyOk(w, n, next.pass)
    ensures NameOk(Settle(w, n, p, next), n)
  {
    match next
    case Stop => StopKeeps(w, n);
    case Panic =>
      StopKeeps(w, n);
      CrashKeeps(w.(passes := w.passes - {n}), n);
    case Go(q) => GoKeeps(w, n, p, q);
  }

  /** What the informer knows about a name is never older than a terminated incarnation. */
  lemma CachedBeyond(w: State, n: Name, u: nat)
    requires NameOk(w, n) && Cached(w, n).Some? && (n, u) in w.audit.terminating
    ensures u <= Cached(w, n).value.uid && (u == Cached(w, n).value.uid ==> Cached(w, n).value.deleting)
  {
    assert Beyond(History(w, n), Seen(w, n), u);
  }

  lemma TakeKeeps(w: State, n: Name)
    requires NameOk(w, n)
    ensures NameOk(Begin(w, n), n)
  {
    if Enters(w, n) {
      EnterAudit(w, n);
      EnterCopy(w, n);
      assert History(Begin(w, n), n) == History(w, n);
    } else if Starts(w, n) {
      StartsKeeps(w, n);
    }
  }

  ghost predicate Starts(w: State, n: Name) {
    n !in w.passes && Cached(w, n).Some? && !Cached(w, n).value.deleting
  }

  lemma StartsKeeps(w: State, n: Name)
    requires NameOk(w, n) && Starts(w, n)
    ensures NameOk(Begin(w, n), n)
  {
    var w' := Begin(w, n);
    var h := History(w, n);
    var px := h[Seen(w, n) - 1].value;
    assert History(w', n) == h && w'.passes[n].px == px;
    assert Known(h, Seen(w, n), px);
    forall u: nat | (n, u) in w.audit.terminating ensures u < px.uid { CachedBeyond(w, n, u); }
    assert CopyOk(w', n, w'.passes[n]);
    assert AuditOk(w', n);
  }

  ghost predicate Enters(w: State, n: Name) {
    n !in w.passes && Cached(w, n).Some? && Cached(w, n).value.deleting && Cached(w, n).value.finalizer
  }

  lemma EnterAudit(w: State, n: Name)
    requires NameOk(w, n) && Enters(w, n)
    ensures AuditOk(Begin(w, n), n)
  {
    var w' := Begin(w, n);
    var h := History(w, n);
    assert History(w', n) == h && Seen(w', n) == Seen(w, n);
    forall u: nat | (n, u) in w'.audit.terminating ensures u < w'.nextId && Named(w', u, n) && Beyond(h, Seen(w, n), u) {
      if (n, u) in w.audit.terminating { assert Beyond(h, Seen(w, n), u); }
    }
  }

  lemma EnterCopy(w: State, n: Name)
    requires NameOk(w, n) && Enters(w, n)
    ensures CopyOk(Begin(w, n), n, Begin(w, n).passes[n])
  {
    var w' := Begin(w, n);
    var h := History(w, n);
    var k := Seen(w, n) - 1;
    var px := h[k].value;
    assert History(w', n) == h && w'.passes[n].px == px;
    assert Known(h, |h|, px);
    if Current(w, n).Some? && Current(w, n).value.finalizer && k < |h| - 1 {
      assert h[|h| - 1].value.uid == px.uid;
    }
  }

  lemma StartKeeps(w: State, n: Name, c: Choice)
    requires NameOk(w, n) && n in w.passes && w.passes[n].pc.Start?
    ensures NameOk(StepPass(w, n, c), n)
  {
    var p := w.passes[n];
    var m := MoveOf(w, n, p, c);
    PassContinues(w, n, p, c);
    var w1 := Commit(w, n, m.effect);
    if m.effect.PutDatabase? {
      PassWritesCurrent(w, n, p, c);
      AddFinalizerKeeps(w, n);
      assert History(w1, n)[|History(w1, n)| - 1] == Some(m.effect.database);
    }
    SettleKeeps(w1, n, p, m.next);
  }

  lemma DoKeeps(w: State, n: Name, c: Choice)
    requires NameOk(w, n)
    ensures NameOk(StepPass(w, n, c), n)
  {
    if n in w.passes {
      var p := w.passes[n];
      if p.pc.Start? { StartKeeps(w, n, c); } else { LaterKeeps(w, n, c); }
    }
  }

  lemma LaterKeeps(w: State, n: Name, c: Choice)
    requires NameOk(w, n) && n in w.passes && !w.passes[n].pc.Start?
    ensures NameOk(StepPass(w, n, c), n)
  {
    var p := w.passes[n];
    var m := MoveOf(w, n, p, c);
    PassContinues(w, n, p, c);
    if m.effect.PutDatabase? { PassWritesCurrent(w, n, p, c); }
    CommitKeeps(w, n, p, m);
  }

  lemma CommitKeeps(w: State, n: Name, p: Pass, m: Move)
    requires NameOk(w, n) && n in w.passes && w.passes[n] == p && !p.pc.Start? && Continues(p, m)
    requires m.effect.PutDatabase? ==>
      && Current(w, n).Some? && Rewrites(Current(w, n).value, m.effect.database)
      && (if p.pc.TFinalizer? then m.effect.database == Current(w, n).value.(finalizer := false)
          else m.effect.database.finalizer == Current(w, n).value.finalizer)
    ensures NameOk(Settle(Commit(w, n, m.effect), n, p, m.next), n)
  {
    var w1 := Commit(w, n, m.effect);
    EffectKeeps(w, n, p, m.effect);
    if m.next.Go? { CopyContinues(w1, n, p, m.next.pass); }
    SettleKeeps(w1, n, p, m.next);
  }

  lemma EffectKeeps(w: State, n: Name, p: Pass, e: Effect)
    requires NameOk(w, n) && n in w.passes && w.passes[n] == p
    requires e.PutDatabase? ==>
      && Current(w, n).Some? && Rewrites(Current(w, n).value, e.database)
      && (if p.pc.TFinalizer? then e.database == Current(w, n).value.(finalizer := false)
          else e.database.finalizer == Current(w, n).value.finalizer)
    ensures NameOk(Commit(w, n, e), n) && Commit(w, n, e).passes == w.passes
  {
    if e.PutDatabase? {
      if p.pc.TFinalizer? { RemoveFinalizerKeeps(w, n); } else { RewriteKeeps(w, n, e.database); }
    } else {
      SameForKeeps(w, Commit(w, n, e), n);
    }
  }

  lemma CopyContinues(w: State, n: Name, p: Pass, q: Pass)
    requires CopyOk(w, n, p) && !p.pc.Start? && !q.pc.Start? && q.pc.Terminates() == p.pc.Terminates()
    requires q.px.uid == p.px.uid && q.px.deleting == p.px.deleting
    ensures CopyOk(w, n, q)
  {
  }

  lemma CommitElsewhere(w: State, n: Name, e: Effect, m: Name)
    requires n != m
    ensures SameFor(w, Commit(w, n, e), m)
  {
  }

  lemma DoElsewhere(w: State, n: Name, c: Choice, m: Name)
    requires NameOk(w, m) && n != m
    ensures NameOk(StepPass(w, n, c), m)
  {
    if n in w.passes {
      var p := w.passes[n];
      var move := MoveOf(w, n, p, c);
      var w1 := Commit(w, n, move.effect);
      CommitElsewhere(w, n, move.effect, m);
      SameForKeeps(w, w1, m);
      SettleElsewhere(w1, n, p, move.next, m);
    }
  }

  lemma SettleElsewhere(w: State, n: Name, p: Pass, next: Next, m: Name)
    requires NameOk(w, m) && n != m
    ensures NameOk(Settle(w, n, p, next), m)
  {
    if next.Panic? { CrashKeeps(w, m); } else { SameForKeeps(w, Settle(w, n, p, next), m); }
  }

  lemma EditKeeps(w: State, n: Name, y: Database, m: Name)
    requires NameOk(w, m) && Current(w, n).Some?
    requires Rewrites(Current(w, n).value, y) && y.finalizer == Current(w, n).value.finalizer
    ensures NameOk(Store(w, n, y), m)
  {
    if n == m { RewriteKeeps(w, n, y); } else { SameForKeeps(w, Store(w, n, y), m); }
  }

  lemma UserKeeps(w: State, e: Event, m: Name)
    requires NameOk(w, m)
    ensures NameOk(UserStep(w, e), m)
  {
    if UserStep(w, e) != w {
      match e
      case UserCreate(n, spec) => UserCreateKeeps(w, n, spec, m);
      case UserUpdate(n, spec) => EditKeeps(w, n, Current(w, n).value.(spec := spec), m);
      case UserDelete(n) => EditKeeps(w, n, Current(w, n).value.(deleting := true), m);
      case Observe(n, c) => EditKeeps(w, n, Current(w, n).value.(conditions := c), m);
      case _ =>
    }
  }

  lemma UserCreateKeeps(w: State, n: Name, spec: Spec, m: Name)
    requires NameOk(w, m)
    ensures NameOk(UserStep(w, UserCreate(n, spec)), m)
  {
    var w' := UserStep(w, UserCreate(n, spec));
    if n == m && Current(w, n).None? {
      CreateKeeps(w, n, Database(w.nextId, spec, NoPhase, Conditions(None, None, None), false, false));
    } else {
      SameForKeeps(w, w', m);
    }
  }

  lemma ObjectStepElsewhere(w: State, e: Event, m: Name)
    ensures SameFor(w, ObjectStep(w, e), m)
  {
  }

  lemma SyncElsewhere(w: State, n: Name, m: Name)
    requires n != m
    ensures SameFor(w, Step(w, Sync(n)), m)
  {
  }

  lemma TakeElsewhere(w: State, n: Name, m: Name)
    requires n != m
    ensures SameFor(w, Begin(w, n), m)
  {
  }

  lemma OperatorKeeps(w: State, e: Event, m: Name)
    requires NameOk(w, m) && (e.Sync? || e.Take?)
    ensures NameOk(Step(w, e), m)
  {
    if e.Sync? {
      if e.n == m { SyncKeeps(w, m); } else { SyncElsewhere(w, e.n, m); SameForKeeps(w, Step(w, e), m); }
    } else {
      if e.n == m { TakeKeeps(w, m); } else { TakeElsewhere(w, e.n, m); SameForKeeps(w, Begin(w, e.n), m); }
    }
  }

  lemma StepKeeps(w: State, e: Event, m: Name)
    requires NameOk(w, m)
    ensures NameOk(Step(w, e), m)
  {
    if e.Sync? || e.Take? {
      OperatorKeeps(w, e, m);
    } else if e.Do? {
      if e.n == m { DoKeeps(w, m, e.choice); } else { DoElsewhere(w, e.n, e.choice, m); }
    } else if e.Crash? {
      CrashKeeps(w, m);
    } else if IsUser(e) {
      UserKeeps(w, e, m);
    } else {
      ObjectStepElsewhere(w, e, m);
      SameForKeeps(w, ObjectStep(w, e), m);
    }
  }

  lemma {:induction false} ProtocolHolds(ws: seq<State>, es: seq<Event>, k: nat, n: Name)
    requires IsRun(ws, es) && k < |ws|
    ensures NameOk(ws[k], n)
  {
    if k == 0 {
    } else {
      ProtocolHolds(ws, es, k - 1, n);
      assert Goes(ws, es, k - 1);
      StepKeeps(ws[k - 1], es[k - 1], n);
    }
  }

  ghost predicate Grows(w: State, w': State) {
    w.audit.terminating <= w'.audit.terminating && w.audit.finalized <= w'.audit.finalized
  }

  lemma CommitGrows(w: State, n: Name, e: Effect)
    ensures Grows(w, Commit(w, n, e))
  {
  }

  lemma SettleGrows(w: State, n: Name, p: Pass, next: Next)
    ensures Grows(w, Settle(w, n, p, next))
  {
  }

  lemma AuditGrows(w: State, e: Event)
    ensures Grows(w, Step(w, e))
  {
    if e.Do? && e.n in w.passes {
      hide MoveOf, Commit, Settle;
      var m := MoveOf(w, e.n, w.passes[e.n], e.choice);
      CommitGrows(w, e.n, m.effect);
      SettleGrows(Commit(w, e.n, m.effect), e.n, w.passes[e.n], m.next);
    }
  }

  lemma {:induction false} AuditGrowsAlong(ws: seq<State>, es: seq<Event>, i: nat, j: nat)
    requires IsRun(ws, es) && i <= j < |ws|
    ensures Grows(ws[i], ws[j])
  {
    if i < j {
      AuditGrowsAlong(ws, es, i, j - 1);
      assert Goes(ws, es, j - 1);
      AuditGrows(ws[j - 1], es[j - 1]);
    }
  }

  /* ---- the theorems ---- */

  /**
   A database that held the operator's finalizer at some point of a run is gone later only if some
   `terminate` of that very database has finished its ownership step without error.
   */
  lemma LeavesOnlyReleased(ws: seq<State>, es: seq<Event>, i: nat, j: nat, n: Name, uid: nat)
    requires IsRun(ws, es) && i <= j < |ws|
    requires (n, uid) in ws[i].audit.finalized
    requires Current(ws[j], n).None? || Current(ws[j], n).value.uid != uid
    ensures (n, uid) in ws[j].audit.released
  {
    AuditGrowsAlong(ws, es, i, j);
    ProtocolHolds(ws, es, j, n);
  }

  /** Once a reconcile has entered `terminate` for a database, none is in `create` or `halt` for it again. */
  lemma TerminationIsFinal(ws: seq<State>, es: seq<Event>, i: nat, j: nat, n: Name)
    requires IsRun(ws, es) && i <= j < |ws|
    requires n in ws[i].passes && ws[i].passes[n].pc.Terminates()
    requires n in ws[j].passes && ws[j].passes[n].px.uid == ws[i].passes[n].px.uid
    ensures ws[j].passes[n].pc.Terminates()
  {
    ProtocolHolds(ws, es, i, n);
    AuditGrowsAlong(ws, es, i, j);
    ProtocolHolds(ws, es, j, n);
  }

  /** Whatever a reconcile creates or deletes, it does so for a database that has held the finalizer. */
  lemma ActsOnlyFinalized(ws: seq<State>, es: seq<Event>, j: nat, n: Name)
    requires IsRun(ws, es) && j < |ws|
    requires n in ws[j].passes && !ws[j].passes[n].pc.Start?
    ensures (n, ws[j].passes[n].px.uid) in ws[j].audit.finalized
  {
    ProtocolHolds(ws, es, j, n);
  }
}

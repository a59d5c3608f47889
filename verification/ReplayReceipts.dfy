/** When the receipt index leads astray: to a record that has come to carry another receipt. */
module ReplayReceipts {
  import opened Common
  import opened Database
  import opened Calls
  import opened Replay
  import opened ReplayEffects
  import opened ReplayCounts

  predicate LeadsTo(db: Db, receipt: string, k: string) {
    receipt in db.offlineByReceipt && db.offlineByReceipt[receipt] == k
  }

  /** The receipt can be looked up, but the record found carries another one. */
  predicate Astray(db: Db, receipt: string) {
    && receipt in db.offlineByReceipt && db.offlineByReceipt[receipt] in db.offline
    && db.offline[db.offlineByReceipt[receipt]].receipt != receipt
  }

  /** A worker confirms a record under another receipt, while the index leads from this one to the record. */
  predicate Diverts(s: State, a: Action, receipt: string) {
    && a.Step? && a.w in s.tasks && s.tasks[a.w].Confirm?
    && s.tasks[a.w].receipt != receipt && LeadsTo(s.sh.db, receipt, s.tasks[a.w].localId)
  }

  /** A receipt comes to lead astray exactly by such a confirmation. */
  lemma AstrayIff(cfg: Config, s: State, a: Action, receipt: string)
    requires Inv(s) && Can(s, a) && !Astray(s.sh.db, receipt)
    ensures Astray(Do(cfg, s, a).sh.db, receipt) <==> Diverts(s, a, receipt)
    ensures Diverts(s, a, receipt) ==> s.sh.db.offline[s.tasks[a.w].localId].receipt == receipt
  {
    assert ReceiptsOk(s.sh.db);
    assert receipt in s.sh.db.offlineByReceipt ==> ReceiptOk(s.sh.db, receipt, s.sh.db.offlineByReceipt[receipt]);
    if a.Step? {
      var v := View(s.sh, s.tasks[a.w]);
      assert TaskOk(s.sh.db, v.task);
      StepRecords(cfg, v, a.list, a.draw);
      StepIndex(cfg, v, a.list, a.draw);
      StepAstrayIff(v, a.draw.now, receipt, Do(cfg, s, a).sh.db);
    } else {
      OtherKeepsReceipts(cfg, s, a);
    }
  }

  lemma StepAstrayIff(v: View, now: Time, receipt: string, db': Db)
    requires db'.offline == Written(v, now) && db'.offlineByReceipt == WrittenIndex(v, now)
    requires TaskOk(v.sh.db, v.task) && !Astray(v.sh.db, receipt)
    requires receipt in v.sh.db.offlineByReceipt ==> v.sh.db.offlineByReceipt[receipt] in v.sh.db.offline
    ensures Astray(db', receipt)
            <==> v.task.Confirm? && v.task.receipt != receipt && LeadsTo(v.sh.db, receipt, v.task.localId)
  {
    if v.task.Confirm? {
      ConfirmAstrayIff(v.sh.db, v.task.localId, v.task.receipt, now, receipt);
    } else {
      WrittenKeepsReceipts(v, now);
    }
  }

  lemma ConfirmAstrayIff(db: Db, k: string, r: string, now: Time, receipt: string)
    requires k in db.offline && r != "" && !Astray(db, receipt)
    requires receipt in db.offlineByReceipt ==> db.offlineByReceipt[receipt] in db.offline
    ensures Astray(MarkedSynced(db, k, r, now), receipt) <==> r != receipt && LeadsTo(db, receipt, k)
  {
  }

  ghost predicate SameReceipts(m: map<string, OfflineRecord>, m': map<string, OfflineRecord>) {
    forall k :: k in m ==> k in m' && m'[k].receipt == m[k].receipt
  }

  /** Every other step leaves each record its receipt. */
  lemma WrittenKeepsReceipts(v: View, now: Time)
    requires !v.task.Confirm?
    ensures SameReceipts(v.sh.db.offline, Written(v, now))
  {
    var db := v.sh.db;
    if Marks(v) {
      OneRecordKept(db.offline, v.task.rest[0], MarkedSyncing(db, v.task.rest[0]).offline[v.task.rest[0]]);
    } else if v.task.GiveUp? && v.task.localId in db.offline {
      OneRecordKept(db.offline, v.task.localId, MarkedFailed(db, v.task.localId, v.task.error).offline[v.task.localId]);
    }
  }

  lemma OneRecordKept(m: map<string, OfflineRecord>, k: string, r: OfflineRecord)
    requires k in m ==> r.receipt == m[k].receipt
    ensures SameReceipts(m, m[k := r])
  {
  }

  lemma OtherKeepsReceipts(cfg: Config, s: State, a: Action)
    requires Can(s, a) && !a.Step?
    ensures Do(cfg, s, a).sh.db.offlineByReceipt == s.sh.db.offlineByReceipt
    ensures SameReceipts(s.sh.db.offline, Do(cfg, s, a).sh.db.offline)
  {
    forall k | k in s.sh.db.offline
      ensures k in Do(cfg, s, a).sh.db.offline && Do(cfg, s, a).sh.db.offline[k].receipt == s.sh.db.offline[k].receipt
    {
      OtherKeepsRecord(cfg, s, a, k);
    }
  }

  // ------------------------------------------------------------------ whole runs

  ghost predicate NoneAstray(db: Db) {
    forall receipt :: receipt in db.offlineByReceipt ==> !Astray(db, receipt)
  }

  ghost predicate DivertsAt(cfg: Config, trace: seq<State>, n: nat)
    requires IsRun(cfg, trace) && n + 1 < |trace|
  {
    exists receipt :: Diverts(trace[n], ActionAt(cfg, trace, n), receipt)
  }

  lemma ActionAstrayIff(cfg: Config, s: State, a: Action)
    requires Inv(s) && Can(s, a) && NoneAstray(s.sh.db)
    ensures NoneAstray(Do(cfg, s, a).sh.db) <==> !(exists receipt :: Diverts(s, a, receipt))
  {
    forall receipt ensures Astray(Do(cfg, s, a).sh.db, receipt) <==> Diverts(s, a, receipt) {
      AstrayIff(cfg, s, a, receipt);
    }
  }

  lemma RunStepAstrayIff(cfg: Config, trace: seq<State>, n: nat)
    requires IsRun(cfg, trace) && n + 1 < |trace| && NoneAstray(trace[n].sh.db)
    ensures NoneAstray(trace[n + 1].sh.db) <==> !DivertsAt(cfg, trace, n)
  {
    RunOk(cfg, trace, n);
    ActionAstrayIff(cfg, trace[n], ActionAt(cfg, trace, n));
  }

  /** In every interleaving: each receipt always leads to a record that carries it exactly when no action diverts one. */
  lemma RunAstrayIff(cfg: Config, trace: seq<State>)
    requires IsRun(cfg, trace)
    ensures (forall n :: 0 <= n < |trace| ==> NoneAstray(trace[n].sh.db))
            <==> (forall n :: 0 <= n < |trace| - 1 ==> !DivertsAt(cfg, trace, n))
  {
    if forall n :: 0 <= n < |trace| ==> NoneAstray(trace[n].sh.db) {
      forall n | 0 <= n < |trace| - 1 ensures !DivertsAt(cfg, trace, n) {
        assert NoneAstray(trace[n].sh.db) && NoneAstray(trace[n + 1].sh.db);
        RunStepAstrayIff(cfg, trace, n);
      }
    }
    if forall n :: 0 <= n < |trace| - 1 ==> !DivertsAt(cfg, trace, n) {
      forall n | 0 <= n < |trace| ensures NoneAstray(trace[n].sh.db) {
        NoneAstrayUpTo(cfg, trace, n);
      }
    }
  }

  lemma {:induction false} NoneAstrayUpTo(cfg: Config, trace: seq<State>, n: nat)
    requires IsRun(cfg, trace) && n < |trace| && forall i :: 0 <= i < |trace| - 1 ==> !DivertsAt(cfg, trace, i)
    ensures NoneAstray(trace[n].sh.db)
  {
    if n > 0 {
      NoneAstrayUpTo(cfg, trace, n - 1);
      RunStepAstrayIff(cfg, trace, n - 1);
    }
  }
}

/** Wallet reconciliation and rebuild of the ledger's projections: ledger-maintenance.service.ts. */
module Maintenance {
  import opened Base
  import opened WalletAggregate
  import L = LedgerDb
  import S = LedgerSessions
  import T = LedgerTheorems
  import M = MoneyText

  // ------------------------------------------------------------- one wallet

  /** What the endpoint prints, and compares as JSON text. */
  datatype BalanceText = BalanceText(total: string, held: string, available: string, streamVersion: nat)

  datatype WalletReport = WalletReport(consistent: bool, eventDerived: BalanceText, projection: Option<BalanceText>)

  function TextOf(p: L.Projection): BalanceText {
    BalanceText(M.FormatMinorUnits(p.balance), M.FormatMinorUnits(p.held), M.FormatMinorUnits(p.available), p.version)
  }

  function ReconcileWallet(db: L.Db, id: Id): Result<WalletReport, LedgerError> {
    match L.LoadAggregate(db, id, L.LoadStream(db.events, id))
    case Err(e) => Err(e)
    case Ok(w) =>
      var derived := TextOf(L.ProjectionOf(w));
      var materialized := if id in db.projections then Some(TextOf(db.projections[id])) else None;
      Ok(WalletReport(materialized == Some(derived), derived, materialized))
  }

  lemma TextInjective(p: L.Projection, q: L.Projection)
    requires TextOf(p) == TextOf(q)
    ensures p == q
  {
    hide M.FormatMinorUnits;
    M.FormatMinorUnitsInjective(p.balance, q.balance);
    M.FormatMinorUnitsInjective(p.held, q.held);
    M.FormatMinorUnitsInjective(p.available, q.available);
  }

  /** Comparing the printed forms is comparing the numbers: total, held, available and version. */
  lemma ConsistentIffEqual(db: L.Db, id: Id)
    requires ReconcileWallet(db, id).Ok?
    ensures var r := Rehydrate(id, L.LoadStream(db.events, id));
      && r.Ok?
      && (ReconcileWallet(db, id).value.consistent <==>
            id in db.projections
            && db.projections[id].balance == r.value.balance
            && db.projections[id].held == Held(r.value)
            && db.projections[id].available == r.value.balance - Held(r.value)
            && db.projections[id].version == r.value.version)
  {
    hide L.LoadStream, Rehydrate, TextOf, HeldOver;
    var w := Rehydrate(id, L.LoadStream(db.events, id)).value;
    if id in db.projections && TextOf(db.projections[id]) == TextOf(L.ProjectionOf(w)) {
      TextInjective(db.projections[id], L.ProjectionOf(w));
    }
  }

  /** After any interleaving every wallet reconciles. */
  lemma WalletsAlwaysReconcile(steps: seq<S.Step>, id: Id)
    requires id in T.DbAfter(steps).wallets
    ensures ReconcileWallet(T.DbAfter(steps), id).Ok? && ReconcileWallet(T.DbAfter(steps), id).value.consistent
  {
    hide T.DbAfter, L.LoadStream, Rehydrate, TextOf, L.ProjectionOf;
    T.DbAfterInv(steps);
    assert L.WalletConsistent(T.DbAfter(steps), id);
  }

  // ------------------------------------------------------------------- rebuild

  function Replayed(db: L.Db, id: Id): Result<Wallet, LedgerError> {
    L.LoadAggregate(db, id, L.LoadStream(db.events, id))
  }

  /** The tables as the rebuild leaves them: replayed rows for all wallets, other rows untouched. */
  function Rebuilt(db: L.Db): L.Db {
    db.(projections := map id | id in db.projections.Keys + db.wallets.Keys ::
      if id in db.wallets && Replayed(db, id).Ok? then L.ProjectionOf(Replayed(db, id).value)
      else if id in db.projections then db.projections[id] else L.Projection(0, 0, 0, 0))
  }

  /** The projection table after saving the replayed rows of `ids`, one after the other. */
  function SavedRows(db: L.Db, ids: seq<Id>): map<Id, L.Projection> {
    if |ids| == 0 then db.projections
    else
      var front, id := SavedRows(db, ids[..|ids| - 1]), ids[|ids| - 1];
      if Replayed(db, id).Ok? then front[id := L.ProjectionOf(Replayed(db, id).value)] else front
  }

  lemma {:induction false} SavedRowsAre(db: L.Db, ids: seq<Id>, id: Id)
    requires forall i :: 0 <= i < |ids| ==> Replayed(db, ids[i]).Ok?
    ensures id in SavedRows(db, ids) <==> id in db.projections || id in ids
    ensures id in SavedRows(db, ids) ==>
      SavedRows(db, ids)[id] == if id in ids then L.ProjectionOf(Replayed(db, id).value) else db.projections[id]
  {
    hide Replayed, L.ProjectionOf;
    if |ids| > 0 {
      var front := ids[..|ids| - 1];
      SavedRowsAre(db, front, id);
      assert ids == front + [ids[|ids| - 1]];
    }
  }

  lemma SavedAreRebuilt(db: L.Db, ids: seq<Id>)
    requires forall i :: 0 <= i < |ids| ==> Replayed(db, ids[i]).Ok?
    requires forall id :: id in db.wallets <==> id in ids
    ensures db.(projections := SavedRows(db, ids)) == Rebuilt(db)
  {
    hide Replayed, L.ProjectionOf, SavedRows;
    forall id: Id
      ensures id in SavedRows(db, ids) <==> id in Rebuilt(db).projections
      ensures id in SavedRows(db, ids) ==> SavedRows(db, ids)[id] == Rebuilt(db).projections[id]
    {
      SavedRowsAre(db, ids, id);
    }
    assert SavedRows(db, ids) == Rebuilt(db).projections;
  }

  /** From a consistent ledger with any projection table at all, the rebuild restores the ledger. */
  lemma RebuildRestores(db: L.Db, corrupted: map<Id, L.Projection>)
    requires L.Inv(db) && corrupted.Keys <= db.wallets.Keys
    ensures forall id :: id in db.wallets ==> Replayed(db.(projections := corrupted), id).Ok?
    ensures Rebuilt(db.(projections := corrupted)) == db
  {
    hide L.LoadStream, Rehydrate, L.ReceiptsInv, L.EventsCanonical, L.EventIdsUnique, L.OutboxMirrorsEvents,
      L.ProjectionOf;
    var bad := db.(projections := corrupted);
    forall id | id in db.wallets
      ensures Replayed(bad, id).Ok? && id in db.projections
        && L.ProjectionOf(Replayed(bad, id).value) == db.projections[id]
    {
      assert L.WalletConsistent(db, id);
    }
    assert Rebuilt(bad).projections == db.projections;
  }

  class LedgerMaintenanceService {
    var db: L.Db

    constructor (db: L.Db)
      ensures this.db == db
    {
      this.db := db;
    }

    /**
     * One SERIALIZABLE transaction over `wallets`, the wallet rows in id order: all projections
     * are replayed, or some stream does not replay to its row's identity and nothing changes.
     */
    method RebuildAllBalanceProjections(wallets: seq<Id>) returns (r: Result<nat, LedgerError>)
      requires forall id :: id in db.wallets <==> id in wallets
      modifies this
      ensures r.Ok? <==> forall id :: id in old(db).wallets ==> Replayed(old(db), id).Ok?
      ensures r.Ok? ==> db == Rebuilt(old(db)) && r.value == |wallets|
      ensures r.Err? ==> db == old(db)
    {
      hide Replayed, L.ProjectionOf, Rebuilt;
      var saved := db.projections;
      for n := 0 to |wallets|
        invariant saved == SavedRows(db, wallets[..n])
        invariant forall i :: 0 <= i < n ==> Replayed(db, wallets[i]).Ok?
      {
        var aggregate := Replayed(db, wallets[n]);
        if aggregate.Err? {
          assert wallets[n] in db.wallets;
          return Err(aggregate.error);
        }
        saved := saved[wallets[n] := L.ProjectionOf(aggregate.value)];
        assert wallets[..n + 1][..n] == wallets[..n];
      }
      assert wallets[..|wallets|] == wallets;
      SavedAreRebuilt(db, wallets);
      db := db.(projections := saved);
      r := Ok(|wallets|);
    }
  }
}

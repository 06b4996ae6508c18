/** All services on one database: requests about money and requests about payments, in any order. */
module Portals {
  import opened Wrappers
  import opened Ledger
  import B = Books
  import R = Runs
  import opened Reconciliation
  import opened Subledger
  import opened Database
  import opened Services
  import opened Collecting
  import opened Payments
  import opened PaymentRuns

  class Portal {
    const db: Session
    const desk: Desk
    const payments: PaymentService

    constructor (db: Session, most: nat)
      requires db.Valid() && most >= 1 && db.Committed() == B.Opened(db.chama, db.price)
      ensures this.db == db && Wired() && payments.Committed() == World(db.Committed(), [], [], most)
    {
      this.db := db;
      desk := new Desk(db);
      payments := new PaymentService(db, most);
    }

    predicate Wired() {
      desk.db == db && desk.Wired() && payments.db == db && payments.contributions.db == db
    }

    ghost predicate Valid()
      reads this, db, db.ledger, payments
    {
      Wired() && db.ledger.accounts == B.Chart(db.chama) && payments.db == db && Sound(payments.Committed())
    }

    /** One request, handed to the service that answers it. */
    method Serve(a: Action)
      requires Wired() && db.ledger.accounts == B.Chart(db.chama)
      requires Services.Ready(db.Committed()) && payments.Ready()
      modifies db, db.ledger, payments
      ensures payments.Committed() == Step(old(payments.Committed()), a).0
    {
      match a {
        case DoCreate(ask) => var answer := payments.CreateIntent(ask);
        case DoInitiate(i, connection, admitted, query, reply, crash) =>
          var answer := payments.InitiatePayment(i, connection, admitted, query, reply, crash);
        case DoRepair(i) => var answer := payments.RepairIntent(i);
        case DoDeliver(connection, cb, point) => var answer := payments.Handle(connection, cb, point);
        case DoConfirm(connection, fits, note, member, period, lostRace, point) =>
          var answer := payments.Confirm(connection, fits, note, member, period, lostRace, point);
        case Office(op) => var outcome := desk.Serve(op);
      }
    }

    method ServeSoundly(a: Action)
      requires Valid()
      modifies db, db.ledger, payments
      ensures Valid() && payments.Committed() == Step(old(payments.Committed()), a).0
    {
      PortalRequestKeeps(payments, a);
      Serve(a);
    }

    /** Any number of requests: the services end where the run of the protocol ends, in a sound state. */
    method ServeAll(actions: seq<Action>)
      requires Valid()
      modifies db, db.ledger, payments
      ensures Valid() && payments.Committed() == PaymentRuns.Run(old(payments.Committed()), actions)
      decreases |actions|
    {
      if actions != [] {
        ServeAll(actions[..|actions| - 1]);
        ServeSoundly(actions[|actions| - 1]);
      }
    }
  }

  lemma PortalRequestKeeps(payments: PaymentService, a: Action)
    requires Sound(payments.Committed()) && payments.contributions.db == payments.db
    requires payments.db.ledger.accounts == B.Chart(payments.db.chama)
    ensures Services.Ready(payments.db.Committed()) && payments.Ready() && Sound(Step(payments.Committed(), a).0)
  {
    SoundPaymentsAreReady(payments);
    StepKeeps(payments.Committed(), a);
  }

  lemma SoundPaymentsAreReady(payments: PaymentService)
    requires Inv(payments.db.Committed()) && payments.contributions.db == payments.db
    requires payments.db.ledger.accounts == B.Chart(payments.db.chama)
    ensures Services.Ready(payments.db.Committed()) && payments.Ready()
  {
    var b := payments.db.Committed();
    SoundBooksAreReady(b);
    NewContributionIsUnposted(b);
  }

  lemma NewContributionIsUnposted(b: B.Books)
    requires PostingsOk(b)
    ensures Find(b.txs, Source(ContributionConfirmation, |b.contributions|)).None?
  {
  }
}

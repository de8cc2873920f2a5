/** The database as the services see it: one mutable table per entity. */
module Storage {
  import opened Rows
  import opened Ledgers
  import opened Tables
  import opened Invariants

  class Store {
    var warehouses: seq<Warehouse>
    var drivers: seq<Driver>
    var vehicles: seq<Vehicle>
    var shipments: seq<Shipment>
    var ledgers: seq<Ledger>
    var transfers: seq<Transfer>
    var trips: seq<Trip>
    var links: seq<Link>
    var routes: seq<Route>
    var assignments: seq<Assignment>
    var attempts: seq<Attempt>

    function Db(): Db
      reads this
    {
      Tables.Db(warehouses, drivers, vehicles, shipments, ledgers, transfers, trips, links, routes, assignments, attempts)
    }

    predicate Valid()
      reads this
    {
      Inv(Db())
    }

    constructor ()
      ensures Valid() && Db() == EMPTY
    {
      hide Inv;
      warehouses, drivers, vehicles, shipments, ledgers, transfers := [], [], [], [], [], [];
      trips, links, routes, assignments, attempts := [], [], [], [], [];
      new;
      EmptyInv();
    }

    /** A transaction that fails puts back what it found. */
    method Rollback(before: Db)
      modifies this
      ensures Db() == before
    {
      warehouses, drivers, vehicles, shipments, ledgers := before.warehouses, before.drivers, before.vehicles, before.shipments, before.ledgers;
      transfers, trips, links, routes := before.transfers, before.trips, before.links, before.routes;
      assignments, attempts := before.assignments, before.attempts;
    }
  }
}

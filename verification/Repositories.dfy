/** The two order repositories. Each `Save` and `Get` is one atomic step. */
module Repositories {
  import opened Domain
  import opened Protocol

  datatype RepoError = ErrNotFound | ErrUnavailable

  ghost predicate KeyedById(db: Store) {
    forall id :: id in db ==> db[id].orderUuid == id
  }

  class MemoryRepository {
    var orders: map<Uuid, Order>

    constructor ()
      ensures orders == map[]
    {
      orders := map[];
    }

    method Save(order: Order)
      modifies this
      ensures orders == Upsert(Memory, old(orders), order)
    {
      orders := orders[order.orderUuid := order];
    }

    method Get(id: Uuid) returns (res: Result<Order, RepoError>)
      ensures res == if id in orders then Ok(orders[id]) else Err(ErrNotFound)
    {
      if id !in orders {
        return Err(ErrNotFound);
      }
      res := Ok(orders[id]);
    }
  }

  /** The `orders` table, keyed by `order_uuid`. A database fault, decided by the
      environment, leaves the table as it is. */
  class PostgresRepository {
    var rows: map<Uuid, Order>

    /** `order_uuid` is the primary key. */
    ghost predicate Valid()
      reads this
    {
      KeyedById(rows)
    }

    constructor ()
      ensures Valid() && rows == map[]
    {
      rows := map[];
    }

    /** INSERT ... ON CONFLICT (order_uuid) DO UPDATE SET, column by column. */
    method Save(order: Order, fault: bool) returns (ok: bool)
      requires Valid()
      modifies this
      ensures Valid() && ok == !fault
      ensures rows == if fault then old(rows) else Upsert(Postgres, old(rows), order)
    {
      if fault {
        return false;
      }
      if order.orderUuid in rows {
        var row := rows[order.orderUuid];
        row := row.(hull := order.hull);
        row := row.(engine := order.engine);
        row := row.(shield := order.shield);
        row := row.(weapon := order.weapon);
        row := row.(totalPrice := order.totalPrice);
        row := row.(transaction := order.transaction);
        row := row.(payMethod := order.payMethod);
        row := row.(status := order.status);
        rows := rows[order.orderUuid := row];
      } else {
        rows := rows[order.orderUuid := order];
      }
      ok := true;
    }

    method Get(id: Uuid, fault: bool) returns (res: Result<Order, RepoError>)
      ensures res == if fault then Err(ErrUnavailable)
                     else if id in rows then Ok(rows[id]) else Err(ErrNotFound)
    {
      if fault {
        return Err(ErrUnavailable);
      }
      if id !in rows {
        return Err(ErrNotFound);
      }
      res := Ok(rows[id]);
    }
  }

  /** The `Repository` interface value the service was built with. */
  datatype Repository = InMemory(memory: MemoryRepository) | InPostgres(postgres: PostgresRepository) {
    function Backend(): Backend {
      if InMemory? then Memory else Postgres
    }

    ghost function Footprint(): set<object> {
      if InMemory? then {memory} else {postgres}
    }

    function Contents(): Store
      reads Footprint()
    {
      if InMemory? then memory.orders else postgres.rows
    }

    ghost predicate Valid()
      reads Footprint()
    {
      KeyedById(Contents())
    }

    /** The map never fails; the database does when the environment says so. */
    predicate Hits(fault: bool) {
      fault && InPostgres?
    }

    /** A save that does not fail can be read back: the record is stored, with its own creation
        time unless one was stored before, and nothing else changes. */
    method Save(order: Order, fault: bool) returns (ok: bool)
      requires Valid()
      modifies Footprint()
      ensures Valid() && ok == !Hits(fault)
      ensures Contents() == if ok then Upsert(Backend(), old(Contents()), order) else old(Contents())
      ensures ok ==> order.orderUuid in Contents() && Contents()[order.orderUuid].(createdAt := order.createdAt) == order
      ensures ok && order.orderUuid !in old(Contents()) ==> Contents()[order.orderUuid] == order
      ensures Contents() - {order.orderUuid} == old(Contents()) - {order.orderUuid}
    {
      match this {
        case InMemory(m) =>
          m.Save(order);
          ok := true;
        case InPostgres(p) =>
          ok := p.Save(order, fault);
      }
    }

    method Get(id: Uuid, fault: bool) returns (res: Result<Order, RepoError>)
      ensures res == if Hits(fault) then Err(ErrUnavailable)
                     else if id in Contents() then Ok(Contents()[id]) else Err(ErrNotFound)
    {
      match this {
        case InMemory(m) => res := m.Get(id);
        case InPostgres(p) => res := p.Get(id, fault);
      }
    }
  }
}

/** The gateway: the order and its event in one transaction, and a relay. */
module Gateway {
  import opened Contracts
  import opened Messaging

  /** The two tables of the gateway's database. The outbox keeps the encoded
      message; `confirmed` are the records the running relay has published and
      not yet removed. */
  datatype Books = Books(rows: map<OrderId, Order>, outbox: map<OrderId, Message>, confirmed: set<OrderId>)

  function Announcement(o: Order): Message {
    Message(OrderPlaced(o), "OrderPlaced", o.id)
  }

  /** A committed `PlaceOrder`. */
  function Placed(b: Books, o: Order): Books {
    b.(rows := b.rows[o.id := o], outbox := b.outbox[o.id := Announcement(o)])
  }

  /** What each statement of the transaction answers. Only the commit can fail and
      take effect; what fails before it is rolled back. */
  datatype Script = Script(begin: bool, insert: bool, encode: bool, add: bool, commit: Reply)

  /** The transaction took effect, whatever the caller was told. */
  predicate Commits(db: Script) {
    db.begin && db.insert && db.encode && db.add && db.commit != Failed
  }

  datatype Result = Success(id: OrderId) | Failure

  class Service {
    var rows: map<OrderId, Order>
    var outbox: map<OrderId, Message>
    var confirmed: set<OrderId>

    constructor ()
      ensures Holds() == Books(map[], map[], {})
    {
      rows, outbox, confirmed := map[], map[], {};
    }

    function Holds(): Books
      reads this
    {
      Books(rows, outbox, confirmed)
    }

    /** `PlaceOrder` for a generated id. The two tables change in the transaction
        and go back as they were when any statement fails, which a primary-key
        clash makes the first insert do. A caller whose commit was misreported is
        told of a failure, and the order is placed. */
    method PlaceOrder(id: OrderId, customer: string, sku: Sku, quantity: int, total: real, db: Script)
      returns (result: Result)
      modifies this
      ensures Holds() == if id !in old(rows) && Commits(db) then Placed(old(Holds()), Order(id, customer, sku, quantity, total))
                         else old(Holds())
      ensures var o, commits := Order(id, customer, sku, quantity, total),
                id !in old(rows) && db.begin && db.insert && db.encode && db.add && db.commit != Failed;
              && rows == (if commits then old(rows)[id := o] else old(rows))
              && outbox == (if commits then old(outbox)[id := Message(OrderPlaced(o), "OrderPlaced", id)] else old(outbox))
              && result == (if commits && db.commit == Ok then Success(id) else Failure)
      ensures confirmed == old(confirmed)
    {
      if !db.begin {
        return Failure;
      }
      var savedRows, savedOutbox := rows, outbox;
      var err := InTransaction(Order(id, customer, sku, quantity, total), db);
      if err {
        // The deferred rollback, which has nothing to undo after a commit.
        if id in savedRows || !Commits(db) {
          rows, outbox := savedRows, savedOutbox;
        }
        return Failure;
      }
      return Success(id);
    }

    method InTransaction(o: Order, db: Script) returns (err: bool)
      modifies this`rows, this`outbox
      ensures err <==> o.id in old(rows) || !db.insert || !db.encode || !db.add || db.commit != Ok
      ensures o.id !in old(rows) && db.insert && db.encode && db.add ==>
                rows == old(rows)[o.id := o] && outbox == old(outbox)[o.id := Announcement(o)]
    {
      if o.id in rows || !db.insert {
        return true;
      }
      rows := rows[o.id := o];
      if !db.encode {
        return true;
      }
      var record := Message(OrderPlaced(o), "OrderPlaced", o.id);
      if !db.add {
        return true;
      }
      outbox := outbox[o.id := record];
      return db.commit != Ok;
    }
  }
}

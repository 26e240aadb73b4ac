/** The database session the Python routers share (`db: Session`), with the
    websocket manager's `broadcast` calls recorded in the order they are made. */
module Store {
  import opened Models

  class Session {
    var vehicles: seq<Vehicle>
    var drivers: seq<Driver>
    var trips: seq<Trip>
    var logs: seq<MaintenanceLog>
    var users: seq<User>
    /** Every commit and every broadcast, oldest first. */
    var outbox: seq<Event>

    constructor ()
      ensures vehicles == [] && drivers == [] && trips == [] && logs == []
      ensures users == [] && outbox == []
    {
      vehicles, drivers, trips, logs, users, outbox := [], [], [], [], [], [];
    }

    /** The fleet tables as a value. */
    function Snapshot(): Fleet
      reads this
    {
      Fleet(vehicles, drivers, trips, logs)
    }

    /** `db.commit()`. */
    method Commit()
      modifies this`outbox
      ensures outbox == old(outbox) + [Models.Commit]
    {
      outbox := outbox + [Models.Commit];
    }

    /** `await manager.broadcast(event, data)`. */
    method Broadcast(event: string, data: Data)
      modifies this`outbox
      ensures outbox == old(outbox) + [Publish(event, data)]
    {
      outbox := outbox + [Publish(event, data)];
    }

    /** `await manager.send_alert(type, message, severity, entity_id)`. */
    method SendAlert(a: Alert)
      modifies this`outbox
      ensures outbox == old(outbox) + [AlertPublish(a)]
    {
      outbox := outbox + [AlertPublish(a)];
    }
  }
}

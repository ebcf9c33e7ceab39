/** notification-service: one e-mail per order and event type, guarded by a unique log. */
module Notification {
  import opened Messages

  datatype EventType = ConfirmedEvent | CancelledEvent | PdfEvent

  datatype LogKey = LogKey(orderId: string, eventType: EventType)

  /** The unique log, and the e-mails sent so far in order. */
  datatype NotifyDb = NotifyDb(log: set<LogKey>, emails: seq<LogKey>)

  /** Insert into the log; on a unique violation nothing is sent. */
  function Notify(db: NotifyDb, key: LogKey): NotifyDb {
    if key in db.log then db else NotifyDb(db.log + {key}, db.emails + [key])
  }

  function EventOf(m: Message): LogKey
    requires IsOutcome(m)
  {
    LogKey(m.orderId, if m.OrderConfirmed? then ConfirmedEvent else CancelledEvent)
  }

  class Service {
    var log: set<LogKey>
    var emails: seq<LogKey>

    function Db(): NotifyDb
      reads this
    {
      NotifyDb(log, emails)
    }

    constructor ()
      ensures Db() == NotifyDb({}, [])
    {
      log, emails := {}, [];
    }

    /** True the first time only. */
    method MarkSent(key: LogKey) returns (first: bool)
      modifies this`log
      ensures first <==> key !in old(log)
      ensures log == old(log) + {key}
    {
      first := key !in log;
      log := log + {key};
    }

    method NotifyOutcome(event: Message)
      requires IsOutcome(event)
      modifies this
      ensures Db() == Notify(old(Db()), EventOf(event))
    {
      var key := EventOf(event);
      var first := MarkSent(key);
      if first {
        emails := emails + [key];
      } else {
        assert log == old(log);
      }
    }
  }
}

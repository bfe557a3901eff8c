/** The PostgreSQL tables of internal/store/postgres.go and the statements run
    over them. A statement is atomic; its caller may be told of an error
    whether or not it took effect. */
module Store {
  import opened Domain

  /** Columns without NOT NULL may hold NULL, which the scan into a Go string
      or bool rejects. */
  datatype UserRow = UserRow(email: string, phone: Option<string>, deviceToken: Option<string>, platform: Option<string>)

  datatype PrefsRow = PrefsRow(emailEnabled: Option<bool>, smsEnabled: Option<bool>, pushEnabled: Option<bool>)

  datatype Accounts = Accounts(users: map<Id, UserRow>, prefs: map<Id, PrefsRow>)

  datatype Failure = NotFound | Unreadable | Unavailable

  /** SELECT of one user by primary key. */
  function SelectUser(db: Accounts, id: Id): Result<User, Failure> {
    if id !in db.users then Err(NotFound)
    else match db.users[id]
         case UserRow(email, Some(phone), Some(token), Some(platform)) => Ok(User(id, email, phone, token, platform))
         case _ => Err(Unreadable)
  }

  /** SELECT of one preferences row; no row means every channel is on. */
  function SelectPrefs(db: Accounts, userId: Id): Result<Preferences, Failure> {
    if userId !in db.prefs then Ok(Preferences(userId, true, true, true))
    else match db.prefs[userId]
         case PrefsRow(Some(email), Some(sms), Some(push)) => Ok(Preferences(userId, email, sms, push))
         case _ => Err(Unreadable)
  }

  type Notifications = map<Id, Notification>

  type Logs = map<Id, DeliveryLog>

  /** INSERT INTO notifications succeeds on a fresh id and an existing user. */
  predicate CanSave(ns: Notifications, db: Accounts, n: Notification) {
    n.id !in ns && n.userId in db.users
  }

  /** The row keeps the columns of the table, not the resolved recipient. */
  function NotificationRow(n: Notification): Notification {
    n.(recipientEmail := "", recipientPhone := "", recipientToken := "")
  }

  /** INSERT INTO delivery_logs succeeds on a fresh id and an existing
      notification. */
  predicate CanInsert(logs: Logs, ns: Notifications, row: DeliveryLog) {
    row.id !in logs && row.notificationId in ns
  }

  /** UPDATE delivery_logs SET status, error_message WHERE id. */
  function Updated(logs: Logs, id: Id, status: Status, errMsg: string): Logs {
    if id in logs then logs[id := logs[id].(status := status, errorMessage := errMsg)] else logs
  }

  /** SELECT EXISTS (... WHERE notification_id = n AND status = 'sent'). */
  predicate SentExists(logs: Logs, n: Id) {
    exists id :: id in logs && logs[id].notificationId == n && logs[id].status.Sent?
  }

  class Database {
    var accounts: Accounts
    var notifications: Notifications
    var logs: Logs

    constructor ()
      ensures accounts == Accounts(map[], map[]) && notifications == map[] && logs == map[]
    {
      accounts := Accounts(map[], map[]);
      notifications := map[];
      logs := map[];
    }

    /** ok is a nil error. */
    method Save(n: Notification, fault: Fault) returns (ok: bool)
      modifies this`notifications
      ensures ok == (fault.Fine? && CanSave(old(notifications), accounts, n))
      ensures notifications == if fault.Applied() && CanSave(old(notifications), accounts, n)
                               then old(notifications)[n.id := NotificationRow(n)] else old(notifications)
    {
      ok := fault.Fine? && CanSave(notifications, accounts, n);
      if fault.Applied() && CanSave(notifications, accounts, n) {
        notifications := notifications[n.id := NotificationRow(n)];
      }
    }

    method Insert(row: DeliveryLog, fault: Fault) returns (ok: bool)
      modifies this`logs
      ensures ok == (fault.Fine? && CanInsert(old(logs), notifications, row))
      ensures logs == if fault.Applied() && CanInsert(old(logs), notifications, row)
                      then old(logs)[row.id := row] else old(logs)
    {
      ok := fault.Fine? && CanInsert(logs, notifications, row);
      if fault.Applied() && CanInsert(logs, notifications, row) {
        logs := logs[row.id := row];
      }
    }

    method UpdateDeliveryStatus(id: Id, status: Status, errMsg: string, fault: Fault) returns (ok: bool)
      modifies this`logs
      ensures ok == fault.Fine?
      ensures logs == if fault.Applied() then Updated(old(logs), id, status, errMsg) else old(logs)
    {
      ok := fault.Fine?;
      if fault.Applied() && id in logs {
        logs := logs[id := logs[id].(status := status, errorMessage := errMsg)];
      }
    }

    /** None is an error. */
    method ExistsSent(notificationId: Id, fault: Fault) returns (found: Option<bool>)
      ensures found == if fault.Fine? then Some(SentExists(logs, notificationId)) else None
    {
      if !fault.Fine? {
        return None;
      }
      found := Some(SentExists(logs, notificationId));
    }

    method FindUserByID(id: Id, fault: Fault) returns (r: Result<User, Failure>)
      ensures r == if fault.Fine? then SelectUser(accounts, id) else Err(Unavailable)
      ensures r.Ok? <==> fault.Fine? && id in accounts.users && accounts.users[id].phone.Some?
                         && accounts.users[id].deviceToken.Some? && accounts.users[id].platform.Some?
      ensures r.Ok? ==> var row := accounts.users[id];
                r.value == User(id, row.email, row.phone.value, row.deviceToken.value, row.platform.value)
      ensures r == Err(NotFound) <==> fault.Fine? && id !in accounts.users
    {
      r := if fault.Fine? then SelectUser(accounts, id) else Err(Unavailable);
    }

    method FindPreferences(userId: Id, fault: Fault) returns (r: Result<Preferences, Failure>)
      ensures r == if fault.Fine? then SelectPrefs(accounts, userId) else Err(Unavailable)
      ensures fault.Fine? && userId !in accounts.prefs ==> r == Ok(Preferences(userId, true, true, true))
      ensures fault.Fine? && userId in accounts.prefs ==>
                var row := accounts.prefs[userId];
                r == if row.emailEnabled.Some? && row.smsEnabled.Some? && row.pushEnabled.Some?
                     then Ok(Preferences(userId, row.emailEnabled.value, row.smsEnabled.value, row.pushEnabled.value))
                     else Err(Unreadable)
    {
      r := if fault.Fine? then SelectPrefs(accounts, userId) else Err(Unavailable);
    }
  }
}

/** The structs of internal/domain, and the outcomes a remote call can have. */
module Domain {

  datatype Option<+T> = None | Some(value: T)

  datatype Result<+T, +E> = Ok(value: T) | Err(error: E)

  type Id = string

  const INT64_MAX: int := 0x7fff_ffff_ffff_ffff

  type int64 = n: int | -INT64_MAX - 1 <= n <= INT64_MAX

  datatype Channel = IOS | Android | SMS | Email

  /** The string a Channel constant stands for. */
  function ChannelName(c: Channel): string {
    match c
    case IOS => "ios"
    case Android => "android"
    case SMS => "sms"
    case Email => "email"
  }

  datatype Status = Pending | Sent | Failed

  datatype Notification = Notification(
    id: Id,
    userId: Id,
    channel: Channel,
    templateId: string,
    payload: map<string, string>,
    status: Status,
    createdAt: int,
    recipientEmail: string,
    recipientPhone: string,
    recipientToken: string)

  datatype User = User(id: Id, email: string, phone: string, deviceToken: string, platform: string)

  datatype Preferences = Preferences(userId: Id, emailEnabled: bool, smsEnabled: bool, pushEnabled: bool)

  datatype DeliveryLog = DeliveryLog(
    id: Id,
    notificationId: Id,
    channel: Channel,
    attempt: int,
    status: Status,
    errorMessage: string,
    attemptedAt: int)

  /** What a remote call does and what its caller is told. A call that errs
      may still have taken effect. */
  datatype Fault = Fine | LostReply | Refused {

    predicate Applied() {
      Fine? || LostReply?
    }
  }
}

/** Values of the notification service: internal/core/domain and the topic naming of the Kafka adapter. */
module Domain {

  datatype Option<+T> = None | Some(value: T)

  datatype Result<+T> = Ok(value: T) | Err(error: Error)

  datatype Error =
    | InvalidChannel | InvalidPriority | EmptyRecipient | EmptyContent | ContentTooLong
    | BatchTooLarge | DuplicateKey | NotFound | NotCancellable
    | StoreFailure | QueueFailure

  /** The three named values of the source's string type; `OtherChannel` is any other string. */
  datatype Channel = SMS | Email | Push | OtherChannel(raw: string)

  /** As `Channel`: three named values, and `OtherPriority` for any other string. */
  datatype Priority = High | Normal | Low | OtherPriority(raw: string)

  datatype Status = Pending | Queued | Processing | Delivered | Failed | Cancelled

  const MAX_LENGTH_SMS: nat := 160
  const MAX_LENGTH_EMAIL: nat := 100_000
  const MAX_LENGTH_PUSH: nat := 4096
  const MAX_BATCH_SIZE: nat := 1000

  predicate KnownChannel(c: Channel) { !c.OtherChannel? }

  predicate KnownPriority(p: Priority) { !p.OtherPriority? }

  function ParseChannel(s: string): Result<Channel> {
    if s == "sms" then Ok(SMS)
    else if s == "email" then Ok(Email)
    else if s == "push" then Ok(Push)
    else Err(InvalidChannel)
  }

  /** The request handlers read an absent priority as normal. */
  function ParsePriority(s: string): Result<Priority> {
    if s == "" || s == "normal" then Ok(Normal)
    else if s == "high" then Ok(High)
    else if s == "low" then Ok(Low)
    else Err(InvalidPriority)
  }

  function ChannelName(c: Channel): string {
    match c
    case SMS => "sms"
    case Email => "email"
    case Push => "push"
    case OtherChannel(raw) => raw
  }

  function PriorityName(p: Priority): string {
    match p
    case High => "high"
    case Normal => "normal"
    case Low => "low"
    case OtherPriority(raw) => raw
  }

  function MaxContentLength(c: Channel): nat {
    match c
    case SMS => MAX_LENGTH_SMS
    case Email => MAX_LENGTH_EMAIL
    case Push => MAX_LENGTH_PUSH
    case OtherChannel(_) => MAX_LENGTH_SMS
  }

  predicate IsCancellable(s: Status) { s == Pending || s == Queued }

  /**
   The part of a notification that no one rewrites after it is stored.
   `batchId` is None for a notification that was created on its own.
   */
  datatype Notice = Notice(
    id: nat, batchId: Option<nat>, key: string, recipient: string, channel: Channel,
    content: string, priority: Priority, scheduledAt: Option<int>)

  function Validate(recipient: string, channel: Channel, content: string): Option<Error> {
    if recipient == "" then Some(EmptyRecipient)
    else if content == "" then Some(EmptyContent)
    else if |content| > MaxContentLength(channel) then Some(ContentTooLong)
    else None
  }

  /** A request body, before its channel and priority are parsed. */
  datatype Request = Request(
    recipient: string, channel: string, content: string, priority: string,
    key: string, scheduledAt: Option<int>, vars: map<string, string>)

  /** A notification is due once its schedule, if it has one, has been reached. */
  predicate DueBy(n: Notice, t: int) { n.scheduledAt.Some? ==> n.scheduledAt.value <= t }

  /** The topics the service writes; `Work(c, p)` is one of the per-channel, per-priority topics. */
  datatype Topic = Work(channel: Channel, priority: Priority) | Retry | DeadLetter

  predicate Consumed(t: Topic) {
    t == Retry || (t.Work? && KnownChannel(t.channel) && KnownPriority(t.priority))
  }

  function TopicName(t: Topic): string {
    match t
    case Work(c, p) => "notifications-" + ChannelName(c) + "-" + PriorityName(p)
    case Retry => "notifications-retry"
    case DeadLetter => "notifications-dlq"
  }

  /** Two topics that carry the service's traffic never share a name, so routing by name is routing by topic. */
  lemma TopicNamesDistinct(t: Topic, u: Topic)
    requires (Consumed(t) || t == DeadLetter) && (Consumed(u) || u == DeadLetter)
    ensures TopicName(t) == TopicName(u) <==> t == u
  {
    if TopicName(t) == TopicName(u) {
      Letters(t);
      Letters(u);
    }
  }

  /** The letters that tell the eleven topic names apart. */
  lemma Letters(t: Topic)
    requires Consumed(t) || t == DeadLetter
    ensures var s := TopicName(t);
      && 17 <= |s| <= 26
      && (t == Retry <==> s[14] == 'r') && (t == DeadLetter <==> s[14] == 'd')
      && (t.Work? ==> s[14..15] == [ChannelName(t.channel)[0]] && s[|s| - 1] == PriorityName(t.priority)[|PriorityName(t.priority)| - 1])
  {
    if t.Work? {
      var c, p := ChannelName(t.channel), PriorityName(t.priority);
      var s := TopicName(t);
      assert |"notifications-"| == 14;
      assert s == "notifications-" + (c + "-" + p);
      assert s[14] == (c + "-" + p)[0] == c[0];
      assert s[|s| - 1] == p[|p| - 1];
    } else {
      assert TopicName(Retry)[14] == 'r' && TopicName(DeadLetter)[14] == 'd';
    }
  }
}

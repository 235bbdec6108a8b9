/** The chat message record both chat views render, the events they emit on
    the shared socket, and the day labels they group messages under. */
module Messages {
  import opened Wrappers

  /** The populated `sender` of a message: its user id and e-mail. */
  datatype Sender = Sender(id: Option<string>, emailId: Option<string>)

  /** A message as the server sends it. Every field can be missing: nothing
      on the client checks the shape of what arrives. Timestamps are given as
      the calendar day (in the viewer's time zone) they fall on. */
  datatype Message = Message(
    id: Option<string>,
    sender: Option<Sender>,
    senderEmail: Option<string>,
    content: string,
    createdAt: Option<int>,
    timestamp: Option<int>)

  /** What a view emits on the socket. `withAck` tells whether an
      acknowledgement callback was passed along with a `sendMessage`. */
  datatype Emission =
    | JoinChat(chatId: string)
    | LeaveChat(chatId: string)
    | SendMessage(chatId: string, content: string, withAck: bool)

  /** What the viewer's clock and locale supply: the current day, and the
      short month-and-day text (`toLocaleDateString` with `month: 'short',
      day: 'numeric'`) of any day, as an opaque code. Nothing is assumed
      about that text: days a year apart get the same one. */
  datatype Calendar = Calendar(today: int, monthDay: int -> int)

  /** The date separator text: "Today", "Yesterday", the short month and day
      of any other date, or "Invalid Date" when there is no timestamp. */
  datatype DayLabel = Today | Yesterday | MonthDay(text: int) | InvalidDate

  /** `formatDate(timestamp)` on the viewer's calendar. */
  function FormatDate(t: Option<int>, cal: Calendar): DayLabel
  {
    match t
    case None => InvalidDate
    case Some(d) =>
      if d == cal.today then Today
      else if d == cal.today - 1 then Yesterday
      else MonthDay(cal.monthDay(d))
  }

  /** "Today" exactly for the current day, "Yesterday" exactly for the one
      before, and the month-and-day text for every other day. */
  lemma FormatDateFaithful(d: int, cal: Calendar)
    ensures FormatDate(Some(d), cal) == Today <==> d == cal.today
    ensures FormatDate(Some(d), cal) == Yesterday <==> d == cal.today - 1
    ensures FormatDate(Some(d), cal) != InvalidDate
    ensures d != cal.today && d != cal.today - 1 ==> FormatDate(Some(d), cal) == MonthDay(cal.monthDay(d))
  {
  }

  /** Two older days with the same month-and-day text, such as the same date
      in two different years, get the same label. */
  lemma FormatDateMerges(d: int, e: int, cal: Calendar)
    requires d != cal.today && d != cal.today - 1 && e != cal.today && e != cal.today - 1
    requires cal.monthDay(d) == cal.monthDay(e)
    ensures FormatDate(Some(d), cal) == FormatDate(Some(e), cal)
  {
  }

  /** `msg.sender?._id`: undefined when the sender or its id is missing. */
  function SenderId(m: Message): Option<string>
  {
    match m.sender
    case None => None
    case Some(s) => s.id
  }

  /** `msg.sender?.emailId`. */
  function SenderEmailId(m: Message): Option<string>
  {
    match m.sender
    case None => None
    case Some(s) => s.emailId
  }
}

/** Global mails, their conditions and the clock they live by. */
module GlobalMail {
  import opened Options

  datatype MailStatus = Draft | Auditing | Published | Offline | Removed

  /** A condition value as JSON decoding sees it. Text carries what ParseInt makes of it. */
  datatype Value =
    | Null
    | Number(n: int)
    | Numbers(ns: seq<int>)
    | Text(s: string, parsed: Option<int>)
    | Texts(ss: seq<string>)
    | OtherJson

  datatype Condition = Condition(id: int, mailId: int, kind: string, operator: string, value: Value)

  /** `details` stands for the columns nothing here looks at. */
  datatype Mail = Mail(
    id: int, title: string, content: string, details: string,
    startTime: int, expireTime: int,
    status: MailStatus, version: int,
    conditions: seq<Condition>,
    createTime: int, updateTime: int)

  /** Times are nanoseconds; the zero time is 0. */
  const SECOND := 1_000_000_000

  function Unix(t: int): int {
    t / SECOND
  }

  lemma UnixMonotone(a: int, b: int)
    requires a <= b
    ensures Unix(a) <= Unix(b)
  {
  }

  predicate InWindow(mail: Mail, now: int) {
    mail.startTime <= now < mail.expireTime
  }

  /** The row and condition rows written for a mail: the conditions carry its ID. */
  function Stored(mail: Mail): Mail {
    mail.(conditions := Tagged(mail.conditions, mail.id))
  }

  function Tagged(conditions: seq<Condition>, mailId: int): (r: seq<Condition>)
    ensures |r| == |conditions|
    ensures forall i :: 0 <= i < |r| ==> r[i] == conditions[i].(mailId := mailId)
  {
    if conditions == [] then []
    else [conditions[0].(mailId := mailId)] + Tagged(conditions[1..], mailId)
  }
}

/** The status vocabulary shared by the broker, the order store and the durable intents. */
module StatusWords {

  /** A status string after trimming, lower-casing and replacing blanks; Missing is None or "". */
  datatype Word =
    | Claimed
    | ReconciliationRequired
    | Submitted
    | Open
    | PartiallyFilled
    | Filled
    | Cancelled
    | Rejected
    | Failed
    | Expired
    | NotFound
    | Pending
    | Transit
    | Confirmed
    | Traded
    | Complete
    | Completed
    | BrokerSubmitted
    | PaperOrderSubmitted
    | LiveOrderSubmitted
    | Unknown
    | Missing
    | Other(text: string)

  /** `_normal_status`. */
  function NormalStatus(w: Word): Word {
    match w
    case Traded => Filled
    case Complete => Filled
    case Completed => Filled
    case Missing => Unknown
    case _ => w
  }

  function StripLeft(s: string): string {
    if s != "" && s[0] in " \t\r\n" then StripLeft(s[1..]) else s
  }

  function StripRight(s: string): string {
    if s != "" && s[|s| - 1] in " \t\r\n" then StripRight(s[..|s| - 1]) else s
  }

  function Strip(s: string): string { StripLeft(StripRight(s)) }

  /** Upper case of the ASCII letters. */
  function Upper(s: string): string {
    seq(|s|, i requires 0 <= i < |s| => if 'a' <= s[i] <= 'z' then s[i] - 'a' + 'A' else s[i])
  }
}

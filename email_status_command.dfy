/**
 * The `email:status` console command: an operator reset of the shared
 * rate-limit counter, a status report built from the service's statistics,
 * and the formatting of the time left until the counter resets.
 */
module ConsoleCommands {
  import opened Wrappers
  import opened Decimal
  import opened Services

  const SecondsWord: string := " segundos"
  const MinutesWord: string := " minutos "

  /**
   * `formatSeconds`: below a minute the plain count of seconds (negative values included),
   * otherwise whole minutes and the seconds left over. The text determines the number it
   * was made from: it reads back as that number of seconds.
   */
  function FormatSeconds(seconds: int): (text: string)
    ensures ReadDuration(text) == Some(seconds)
  {
    if seconds < 0 then
      ReadNegative(-seconds);
      IntToString(seconds) + SecondsWord
    else if seconds < 60 then
      ReadSeconds(seconds);
      IntToString(seconds) + SecondsWord
    else
      ReadMinutes(seconds / 60, seconds % 60);
      NatToString(seconds / 60) + MinutesWord + NatToString(seconds % 60) + SecondsWord
  }

  /** Reads a duration in either form `FormatSeconds` writes, as a number of seconds. */
  function ReadDuration(text: string): Option<int> {
    if |text| > 0 && text[0] == '-' then
      match SplitNumeral(text[1..])
      case None => None
      case Some((n, rest)) => if rest == SecondsWord then Some(-(n as int)) else None
    else
      match SplitNumeral(text)
      case None => None
      case Some((n, rest)) =>
        if rest == SecondsWord then Some(n)
        else if |rest| >= |MinutesWord| && rest[..|MinutesWord|] == MinutesWord then
          match SplitNumeral(rest[|MinutesWord|..])
          case None => None
          case Some((r, tail)) => if tail == SecondsWord then Some(n * 60 + r) else None
        else None
  }

  lemma ReadNegative(n: nat)
    requires n > 0
    ensures ReadDuration(IntToString(-(n as int)) + SecondsWord) == Some(-(n as int))
  {
    var digits := NatToString(n);
    var text := IntToString(-(n as int)) + SecondsWord;
    assert text == "-" + (digits + SecondsWord);
    assert text[1..] == digits + SecondsWord;
    SplitNumeralOf(n, SecondsWord);
  }

  lemma ReadSeconds(n: nat)
    ensures ReadDuration(NatToString(n) + SecondsWord) == Some(n)
  {
    var digits := NatToString(n);
    assert (digits + SecondsWord)[0] == digits[0];
    SplitNumeralOf(n, SecondsWord);
  }

  lemma ReadMinutes(m: nat, r: nat)
    requires r < 60
    ensures ReadDuration(NatToString(m) + MinutesWord + NatToString(r) + SecondsWord) == Some(m * 60 + r)
  {
    var digits := NatToString(m);
    var rest := MinutesWord + NatToString(r) + SecondsWord;
    var text := digits + MinutesWord + NatToString(r) + SecondsWord;
    assert text == digits + rest;
    assert text[0] == digits[0];
    SplitNumeralOf(m, rest);
    MinutesTail(r);
    ReadAfterMinutes(text, m, rest, r);
  }

  lemma ReadAfterMinutes(text: string, m: nat, rest: string, r: nat)
    requires |text| > 0 && text[0] != '-'
    requires SplitNumeral(text) == Some((m, rest))
    requires rest != SecondsWord
    requires |rest| >= |MinutesWord| && rest[..|MinutesWord|] == MinutesWord
    requires SplitNumeral(rest[|MinutesWord|..]) == Some((r, SecondsWord))
    ensures ReadDuration(text) == Some(m * 60 + r)
  {
  }

  /** After the minutes numeral: the minutes word, then the remaining seconds read back. */
  lemma MinutesTail(r: nat)
    ensures var rest := MinutesWord + NatToString(r) + SecondsWord;
            && rest != SecondsWord
            && |rest| >= |MinutesWord| && rest[..|MinutesWord|] == MinutesWord
            && SplitNumeral(rest[|MinutesWord|..]) == Some((r, SecondsWord))
  {
    var rest := MinutesWord + NatToString(r) + SecondsWord;
    assert |rest| > |SecondsWord|;
    assert rest[..|MinutesWord|] == MinutesWord;
    assert rest[|MinutesWord|..] == NatToString(r) + SecondsWord;
    SplitNumeralOf(r, SecondsWord);
  }

  /** Distinct durations are shown as distinct texts. */
  lemma FormatSecondsInjective(a: int, b: int)
    requires FormatSeconds(a) == FormatSeconds(b)
    ensures a == b
  {
  }

  /** Below a minute, negative values included, the text is PHP's decimal of the number, then the seconds word. */
  lemma FormatSecondsBelowMinute(seconds: int)
    requires seconds < 60
    ensures FormatSeconds(seconds) == IntToString(seconds) + SecondsWord
  {
  }

  /** From a minute on, the text is the minutes, then the seconds left over, which are below 60. */
  lemma FormatSecondsMinutes(seconds: int)
    requires seconds >= 60
    ensures var m, r := seconds / 60, seconds % 60;
            && m >= 1 && 0 <= r < 60 && m * 60 + r == seconds
            && FormatSeconds(seconds) == NatToString(m) + MinutesWord + NatToString(r) + SecondsWord
  {
  }

  /** The rate-limit rows of the status report; the SMTP configuration rows and the percentage are not modelled. */
  datatype Report = Report(sent: int, limit: int, resetIn: string)

  /** What `handle` did: reset the counters, entered the polling loop, or showed one report. */
  datatype Action = CountersReset | Watching | StatusShown(report: Report)

  /** The report `showStatus` renders for a statistics snapshot; its reset time reads back as the snapshot's. */
  function StatusReport(stats: Stats): (report: Report)
    ensures report.sent == stats.current && report.limit == stats.max
    ensures ReadDuration(report.resetIn) == Some(stats.resetIn)
  {
    Report(stats.current, stats.max, FormatSeconds(stats.resetIn))
  }

  class EmailStatusCommand {
    const emailService: EmailService

    constructor (emailService: EmailService)
      ensures this.emailService == emailService
    {
      this.emailService := emailService;
    }

    /**
     * `handle`: `--reset` wins over `--watch`, removes the counter the service reads and
     * shows nothing; otherwise the counter is left alone. Every branch exits with 0.
     */
    method Handle(reset: bool, watch: bool) returns (exitCode: int, action: Action)
      modifies emailService.cache
      ensures exitCode == 0
      ensures reset ==> action == CountersReset
      ensures reset ==> emailService.cache.entries == old(emailService.cache.entries) - {RateLimitKey}
      ensures reset ==> emailService.GetStats() == Stats(0, RateLimitMax, 0)
      ensures !reset ==> unchanged(emailService.cache)
      ensures !reset && watch ==> action == Watching
      ensures !reset && !watch ==> action == StatusShown(StatusReport(emailService.GetStats()))
    {
      if reset {
        emailService.cache.Forget("email_rate_limit");
        return 0, CountersReset;
      }
      if watch {
        return 0, Watching;
      }
      var report := StatusReport(emailService.GetStats());
      return 0, StatusShown(report);
    }
  }
}

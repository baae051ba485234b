/** Library calls the pixel manager makes but does not define: PHP's
    `filter_var` validators, `DateTimeImmutable` parsing, hashing, and
    id generation. Each is a parameter of the functions that use it. */
module Foreign {
  import opened Php

  /** The levels of the application logger (`\Log`, a PSR-3 logger). */
  datatype Level = Debug | Info | Warning | ErrorLevel

  /** One line written to a logger; the context arrays are not modelled. */
  datatype LogLine = LogLine(level: Level, message: string)

  /** A calendar date, as far as the pixel manager looks at one. */
  datatype Date = Date(year: int, month: int, day: int)

  datatype Oracles = Oracles(
    isEmail: string -> bool,        // filter_var(FILTER_VALIDATE_EMAIL)
    isUrl: string -> bool,          // filter_var(FILTER_VALIDATE_URL)
    isIp: string -> bool,           // filter_var(FILTER_VALIDATE_IP), v4 or v6
    parseDate: string -> Option<Date>, // new DateTimeImmutable($s), None when it throws
    hash: string -> string          // hash('sha256', $s)
  )

  /** Zero-padded decimal rendering to at least `width` digits. */
  function Pad(n: nat, width: nat): (r: string)
    ensures |r| >= width
    decreases width
  {
    var s := NatStr(n);
    if |s| >= width then s else "0" + Pad(n, width - 1)
  }

  /** `format('Ymd')`. */
  function Ymd(d: Date): string {
    (if d.year < 0 then "-" + Pad(-d.year, 4) else Pad(d.year, 4)) +
    Pad(if d.month < 0 then 0 else d.month, 2) + Pad(if d.day < 0 then 0 else d.day, 2)
  }

  /** `format('Y-m-d')`. */
  function IsoDate(d: Date): string {
    (if d.year < 0 then "-" + Pad(-d.year, 4) else Pad(d.year, 4)) + "-" +
    Pad(if d.month < 0 then 0 else d.month, 2) + "-" + Pad(if d.day < 0 then 0 else d.day, 2)
  }
}

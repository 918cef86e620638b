/**
 * GenerateLocalDateTimeString: the drawtext filter description that
 * CameraDevice::Open parses into the watermark filter graph. The clock
 * reading `localtime(time())` is replaced by its only use, the weekday
 * `tm_wday`, and the compile-time platform choice by a parameter.
 */
module Overlay {

  /** The branch of the `#ifdef WIN32 / __APPLE__ / __linux__` chain that was compiled. */
  datatype Platform = Windows | Apple | Linux | Unsupported

  /** The drawtext options that come before the text argument, as each branch writes them. */
  function FontOptions(p: Platform): string {
    match p
    case Windows => WindowsOptions
    case Apple => AppleOptions
    case Linux => LinuxOptions
    case Unsupported => ""
  }

  const WindowsOptions: string :=
    @"drawtext=fontfile=\'C\:\/WINDOWS\/fonts\/simsun.ttc\':x=5:y=5:fontcolor=white:fontsize=24:shadowcolor=black:shadowx=2:shadowy=2:"
  const AppleOptions: string :=
    @"drawtext=fontfile=/System/Library/Fonts/STHeiti Medium.ttc:x=5:y=5:fontcolor=white:fontsize=24:shadowcolor=black:shadowx=2:shadowy=2:"
  const LinuxOptions: string :=
    @"drawtext=x=5:y=5:fontcolor=white:fontsize=24:shadowcolor=black:shadowx=2:shadowy=2:"

  /** The opening of the text argument, with its escaped quote. */
  const TextOpening: string := @"text=\'"

  /**
   * What the platform branch streams first: the drawtext options up to and
   * including the opening quote of the text argument; nothing at all when
   * no branch was compiled.
   */
  function DrawTextPrefix(p: Platform): string {
    if p == Unsupported then "" else FontOptions(p) + TextOpening
  }

  /** The date, expanded by drawtext on every frame. */
  const DateTemplate: string := @"%{localtime\:%Y-%m-%d} "
  /** The time of day, expanded by drawtext on every frame. */
  const TimeTemplate: string := @"%{localtime\:%H\\:%M\\:%S} "
  const Trailer: string := "IPC"

  /** 星期 ("day of the week"), the shared start of every weekday name. */
  const WeekPrefix: string := "\U{661F}\U{671F}"

  /** The Chinese weekday name for `tm_wday`, 0 being Sunday; empty for any other value. */
  function WeekdayName(wday: int): (name: string)
    ensures 0 <= wday <= 6 ==> |name| == 3 && name[..2] == WeekPrefix
    ensures !(0 <= wday <= 6) ==> name == ""
  {
    match wday
    case 0 => "\U{661F}\U{671F}\U{65E5}"
    case 1 => "\U{661F}\U{671F}\U{4E00}"
    case 2 => "\U{661F}\U{671F}\U{4E8C}"
    case 3 => "\U{661F}\U{671F}\U{4E09}"
    case 4 => "\U{661F}\U{671F}\U{56DB}"
    case 5 => "\U{661F}\U{671F}\U{4E94}"
    case 6 => "\U{661F}\U{671F}\U{516D}"
    case _ => ""
  }

  /** The string GenerateLocalDateTimeString returns on `platform` when today is weekday `wday`. */
  function LocalDateTimeString(platform: Platform, wday: int): (s: string)
    ensures |s| >= |DrawTextPrefix(platform)| + 3 && s[|s| - 3..] == Trailer
  {
    DrawTextPrefix(platform) + DateTemplate + WeekdayName(wday) + " " + TimeTemplate + Trailer
  }

  /** The seven names are pairwise distinct, so the name identifies the weekday. */
  lemma WeekdayNameInjective(a: int, b: int)
    requires 0 <= a <= 6 && 0 <= b <= 6
    requires WeekdayName(a) == WeekdayName(b)
    ensures a == b
  {
    assert WeekdayName(a)[2] == WeekdayName(b)[2];
  }

  /** The prefixes of the four branches have four different lengths. */
  lemma PrefixLength(p: Platform)
    ensures |DrawTextPrefix(p)| == match p case Windows => 135 case Apple => 140 case Linux => 90 case Unsupported => 0
  {
    assert |WindowsOptions| == 128;
    assert |AppleOptions| == 133;
    assert |LinuxOptions| == 83;
  }

  /** Where each piece of a six-piece concatenation lies. */
  lemma ConcatSlices(pre: string, date: string, name: string, time: string, trailer: string)
    ensures var s := pre + date + name + " " + time + trailer;
      var n, d, w := |pre|, |date|, |name|;
      && |s| == n + d + w + 1 + |time| + |trailer|
      && s[..n] == pre
      && s[n..n + d] == date
      && s[n + d..n + d + w] == name
      && s[n + d + w] == ' '
      && s[n + d + w + 1..|s| - |trailer|] == time
      && s[|s| - |trailer|..] == trailer
  {
  }

  /**
   * The description is the prefix (which, on a supported platform, ends by
   * opening the quoted text argument), the date template, the weekday name,
   * a space, the time template and `IPC`, in that order; it ends in `C`, so
   * the quote opened by the prefix is never closed.
   */
  lemma LocalDateTimeLayout(platform: Platform, wday: int)
    ensures var s := LocalDateTimeString(platform, wday);
      var n, d, w := |DrawTextPrefix(platform)|, |DateTemplate|, |WeekdayName(wday)|;
      && |s| == n + d + w + 1 + |TimeTemplate| + 3
      && s[..n] == DrawTextPrefix(platform)
      && (platform != Unsupported ==> n >= |TextOpening| && s[n - |TextOpening|..n] == TextOpening)
      && s[n..n + d] == DateTemplate
      && s[n + d..n + d + w] == WeekdayName(wday)
      && s[n + d + w] == ' '
      && s[n + d + w + 1..|s| - 3] == TimeTemplate
      && s[|s| - 3..] == Trailer
      && s[|s| - 1] != '\''
  {
    var s := LocalDateTimeString(platform, wday);
    var pre := DrawTextPrefix(platform);
    var n := |pre|;
    ConcatSlices(pre, DateTemplate, WeekdayName(wday), TimeTemplate, Trailer);
    if platform != Unsupported {
      var k := |TextOpening|;
      assert pre == FontOptions(platform) + TextOpening;
      assert pre[n - k..] == TextOpening;
      assert s[n - k..n] == pre[n - k..];
    }
    assert s[|s| - 1] == s[|s| - 3..][2] == Trailer[2];
  }

  /**
   * Different platforms or different weekdays give different descriptions:
   * the string determines both.
   */
  lemma LocalDateTimeInjective(p: Platform, a: int, q: Platform, b: int)
    requires 0 <= a <= 6 && 0 <= b <= 6
    requires LocalDateTimeString(p, a) == LocalDateTimeString(q, b)
    ensures p == q && a == b
  {
    PrefixLength(p);
    PrefixLength(q);
    LocalDateTimeLayout(p, a);
    LocalDateTimeLayout(q, b);
    assert |DrawTextPrefix(p)| == |DrawTextPrefix(q)|;
    WeekdayNameInjective(a, b);
  }
}

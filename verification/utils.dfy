/** Display helpers: playback time as "MM:SS.d", byte counts as sizes, and
    the name of the release asset for the running platform. */
module Utils {
  import opened Base

  /** The three numbers shown for a time in seconds: whole minutes, the
      seconds within the minute, and tenths of a second (each from a
      truncating `as u64`). */
  datatype TimeFields = TimeFields(mins: nat, secs: nat, tenths: nat)

  function TimeFieldsOf(time: real): (f: TimeFields)
    ensures f.secs < 60 && f.tenths < 10
    ensures f.mins * 60 + f.secs == TruncToNat(time)
    ensures f.tenths == TruncToNat(time * 10.0) % 10
  {
    var whole := TruncToNat(time);
    TimeFields(whole / 60, whole % 60, TruncToNat(time * 10.0) % 10)
  }

  /** `f64_to_time_str`: minutes and seconds zero-padded to two digits, then
      a dot and the tenths digit. */
  function TimeString(time: real): (s: string)
    ensures |s| >= 7 && s[|s| - 5] == ':' && s[|s| - 2] == '.'
    ensures AllDigits(s[..|s| - 5]) && AllDigits(s[|s| - 4..|s| - 2]) && '0' <= s[|s| - 1] <= '9'
    ensures TimeFieldsOf(time).mins < 100 ==> |s| == 7
  {
    var f := TimeFieldsOf(time);
    var m := ZeroPad2(f.mins);
    var sec := ZeroPad2(f.secs);
    var s := m + ":" + sec + "." + [Digit(f.tenths)];
    assert |sec| == 2 && |s| == |m| + 5;
    assert s[..|s| - 5] == m;
    assert s[|s| - 4..|s| - 2] == sec;
    s
  }

  /** Reads the three fields back from a formatted time. */
  function ParseTime(s: string): TimeFields
    requires |s| >= 7 && AllDigits(s[..|s| - 5]) && AllDigits(s[|s| - 4..|s| - 2]) && '0' <= s[|s| - 1] <= '9'
  {
    TimeFields(ParseDecimal(s[..|s| - 5]), ParseDecimal(s[|s| - 4..|s| - 2]), DigitValue(s[|s| - 1]))
  }

  /** The formatted time determines its fields: parsing it back gives the
      minutes, seconds and tenths it was made from. */
  lemma TimeStringRoundTrip(time: real)
    ensures ParseTime(TimeString(time)) == TimeFieldsOf(time)
  {
    var f := TimeFieldsOf(time);
    var m := ZeroPad2(f.mins);
    var sec := ZeroPad2(f.secs);
    var s := TimeString(time);
    assert |sec| == 2;
    assert s[..|s| - 5] == m;
    assert s[|s| - 4..|s| - 2] == sec;
    assert DigitValue(s[|s| - 1]) == f.tenths;
  }

  /** `bytes_to_filesize_str`. `fmt1` is `{:.1}` applied to the `f32`
      quotient, which the model leaves abstract. */
  function FileSizeString(size: nat, fmt1: real -> string): (s: string)
    ensures size < 1000 ==> s == NatToString(size) + "B"
    ensures 1000 <= size < 1000000 ==> s == fmt1(size as real / 1000.0) + "KB"
    ensures size >= 1000000 ==> s == fmt1(size as real / 1000000.0) + "MB"
  {
    if size < 1000 then NatToString(size) + "B"
    else if size < 1000000 then fmt1(size as real / 1000.0) + "KB"
    else fmt1(size as real / 1000000.0) + "MB"
  }

  /** The three ranges cover every size, so the "error" fallback of the
      source is never produced: every size string ends in "B", and its unit
      tells the range back. */
  lemma FileSizeUnit(size: nat, fmt1: real -> string)
    ensures var s := FileSizeString(size, fmt1);
      && |s| >= 1 && s[|s| - 1] == 'B' && s != "error"
      && (|s| >= 2 && s[|s| - 2] == 'K' ==> 1000 <= size < 1000000)
      && (|s| >= 2 && s[|s| - 2] == 'M' ==> size >= 1000000)
  {
    var s := FileSizeString(size, fmt1);
    if size < 1000 {
      assert s[|s| - 2] == NatToString(size)[|NatToString(size)| - 1];
    }
  }

  /** `get_release_filename`. */
  function ReleaseFilename(os: string, arch: string): (s: string)
    ensures os == "windows" ==> s == "forte-" + os + "-" + arch + ".exe"
    ensures os != "windows" ==> s == "forte-" + os + "-" + arch
  {
    var ext := if os == "windows" then ".exe" else "";
    "forte-" + os + "-" + arch + ext
  }

  /** The release name is the platform prefix, followed by ".exe" exactly on Windows. */
  lemma ReleaseFilenameShape(os: string, arch: string)
    ensures var s := ReleaseFilename(os, arch); var base := "forte-" + os + "-" + arch;
      && |s| == |base| + (if os == "windows" then 4 else 0)
      && s[..|base|] == base
  {
  }
}

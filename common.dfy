/** Shared vocabulary of the capture appliance: optional values and errors,
    clock readings, the file system seen as a map from path to size, and the
    decimal rendering of the counters that file names embed. */
module Common {

  datatype Option<T> = None | Some(value: T)

  /** An exception that escapes a call in the recorder. */
  datatype Error =
    | AttributeError   // a timestamp field still None is formatted
    | FileNotFound     // os.remove or os.rename on a path that does not exist
    | LaunchFailure    // the muxer process could not be started at all
    | CaptureFailed    // the still capture raised

  datatype Result<T> = Ok(value: T) | Err(error: Error)

  /** One reading of the wall clock, already formatted into the three tokens the
      recorder uses: `date` is "%d%b%Y" lower-cased, `time` is "%H%M%S" and
      `clock` is "%H:%M:%S". The tokens are opaque: nothing depends on their
      contents except through equality. */
  datatype Moment = Moment(date: string, time: string, clock: string)

  /** The "%d%b%Y_%H%M%S" token, lower-cased, that segment and clip names embed. */
  function Stamp(m: Moment): string
  {
    m.date + "_" + m.time
  }

  type Path = string

  /** The path names a file inside `folder` ("Videos/", "Audios/", ...). */
  predicate InFolder(p: Path, folder: string)
  {
    |folder| <= |p| && p[..|folder|] == folder
  }

  /** The path ends with the extension `ext` (".mp4", ".wav", ...). */
  predicate HasExtension(p: Path, ext: string)
  {
    |ext| <= |p| && p[|p| - |ext|..] == ext
  }

  /** Files in two different folders of the same name length are different
      files. */
  lemma FoldersDisjoint(p: Path, q: Path, f: string, g: string)
    ensures InFolder(p, f) && InFolder(q, g) && |f| == |g| && f != g ==> p != q
  {
  }

  /** Every existing file with its size in bytes. */
  type FileSystem = map<Path, nat>

  datatype Renamed = Renamed(ok: bool, fs: FileSystem)

  /** os.rename: fails when the source is missing or the system refuses
      (`permitted` is the oracle for every other cause); on success an existing
      target is replaced. */
  function Rename(fs: FileSystem, src: Path, dst: Path, permitted: bool): (r: Renamed)
    ensures r.ok <==> permitted && src in fs
    ensures !r.ok ==> r.fs == fs
    ensures r.ok ==> dst in r.fs && r.fs[dst] == fs[src]
    ensures r.ok && src != dst ==> src !in r.fs
    ensures forall p :: p != src && p != dst ==> (p in r.fs <==> p in fs)
    ensures forall p :: p != src && p != dst && p in fs ==> r.fs[p] == fs[p]
  {
    if permitted && src in fs then
      Renamed(true, if src == dst then fs else (fs - {src})[dst := fs[src]])
    else
      Renamed(false, fs)
  }

  /** os.remove: raises when the path does not exist. */
  function Remove(fs: FileSystem, p: Path): (r: Result<FileSystem>)
    ensures r.Ok? <==> p in fs
    ensures r.Ok? ==> p !in r.value && forall q :: q != p ==> (q in r.value <==> q in fs)
    ensures r.Err? ==> r.error == FileNotFound
  {
    if p in fs then Ok(fs - {p}) else Err(FileNotFound)
  }

  /** Python's str() of a non-negative counter. */
  function DecimalString(n: nat): (s: string)
    ensures |s| >= 1
    ensures forall i :: 0 <= i < |s| ==> IsDigit(s[i])
    ensures |s| > 1 ==> s[0] != '0'
  {
    if n < 10 then [DigitChar(n)] else DecimalString(n / 10) + [DigitChar(n % 10)]
  }

  predicate IsDigit(c: char)
  {
    '0' <= c <= '9'
  }

  function DigitChar(d: nat): (c: char)
    requires d < 10
    ensures IsDigit(c) && DigitValue(c) == d
  {
    (d + '0' as int) as char
  }

  /** Reads back a run of decimal digits. */
  function DecimalValue(s: string): nat
    requires forall i :: 0 <= i < |s| ==> IsDigit(s[i])
  {
    if s == [] then 0 else DecimalValue(s[..|s| - 1]) * 10 + DigitValue(s[|s| - 1])
  }

  function DigitValue(c: char): nat
    requires IsDigit(c)
  {
    c as int - '0' as int
  }

  /** The counter embedded in a file name can be read back, so two different
      counters never render alike. */
  lemma {:induction false} DecimalRoundTrip(n: nat)
    ensures DecimalValue(DecimalString(n)) == n
  {
    var s := DecimalString(n);
    if n >= 10 {
      assert s[..|s| - 1] == DecimalString(n / 10);
      DecimalRoundTrip(n / 10);
    }
  }

  lemma DecimalInjective(m: nat, n: nat)
    ensures DecimalString(m) == DecimalString(n) ==> m == n
  {
    DecimalRoundTrip(m);
    DecimalRoundTrip(n);
  }
}

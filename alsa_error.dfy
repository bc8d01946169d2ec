/** The error-translation layer of the ALSA binding: the `acheck` wrapper
    that turns a driver call's signed return value into `Ok`/`Err`, the
    `Error` value it builds, and that value's textual and trait views.

    Two platform facts are parameters rather than guesses: `known`, the set
    of errno values that `nix::Errno::from_i32` recognises (every other
    value becomes `UnknownErrno`), and `describe`, nix's human-readable
    rendering of an error. */
module AlsaError {

  datatype Option<T> = None | Some(value: T)

  // -------------------------------------------------------------------
  // Machine integers

  /** The width of the driver function's return type: `c_int` (32 bits) or
      `snd_pcm_sframes_t` (a 64-bit `long`). */
  datatype Width = Int32 | Int64

  function Modulus(w: Width): (m: int)
    ensures m > 0 && m % 2 == 0
  {
    match w
    case Int32 => 0x1_0000_0000
    case Int64 => 0x1_0000_0000_0000_0000
  }

  function Lo(w: Width): int { -(Modulus(w) / 2) }

  function Hi(w: Width): int { Modulus(w) / 2 }

  predicate Fits(w: Width, x: int) { Lo(w) <= x < Hi(w) }

  /** Two's-complement wrap-around into width `w`: what a release build does
      on overflowing arithmetic and what `as` does on a narrowing cast. */
  function Wrap(w: Width, x: int): (y: int)
    ensures Fits(w, y)
    ensures Fits(w, x) ==> y == x
  {
    (x - Lo(w)) % Modulus(w) + Lo(w)
  }

  /** A non-negative 64-bit value: what `acheck` passes through as `Ok` for
      a return type of either width. */
  type Count = x: int | 0 <= x < 0x8000_0000_0000_0000

  // -------------------------------------------------------------------
  // The error value

  /** `nix::Errno`: a named errno constant, or `UnknownErrno`. */
  datatype Errno = UnknownErrno | Known(code: int)

  /** `nix::Error`; `from_errno` always builds the `Sys` variant. */
  datatype NixError = Sys(errno: Errno)

  /** `Error(&'static str, nix::Error)`: the failing function's name and
      the platform error. */
  datatype Error = Error(func: string, err: NixError)

  /** `Result<T> = std::result::Result<T, Error>`. */
  datatype Result<T> = Ok(value: T) | Err(error: Error)

  /** `nix::Errno::from_i32`: 0 is no error number, so it is never named. */
  function FromI32(known: set<int>, code: int): (e: Errno)
    ensures code != 0 && code in known <==> e == Known(code)
    ensures code == 0 || code !in known <==> e == UnknownErrno
  {
    if code != 0 && code in known then Known(code) else UnknownErrno
  }

  /** `Error::new(func, res)`: the name is kept verbatim, the error is
      derived from the code alone. */
  function ErrorNew(known: set<int>, func: string, res: int): (e: Error)
    ensures e.func == func
    ensures e.err.errno.Known? <==> res != 0 && res in known
    ensures e.err.errno.Known? ==> e.err.errno.code == res
  {
    Error(func, Sys(FromI32(known, res)))
  }

  /** Under the derived `PartialEq`, two errors built by `Error::new` are
      equal exactly when the names agree and the codes either agree or are
      both unrecognised by the platform table (0 included). */
  lemma ErrorNewEquality(known: set<int>, f: string, c: int, g: string, d: int)
    ensures ErrorNew(known, f, c) == ErrorNew(known, g, d)
        <==> f == g && (c == d || ((c == 0 || c !in known) && (d == 0 || d !in known)))
  {
  }

  // -------------------------------------------------------------------
  // acheck!

  /** `-r as c_int`: the negation is computed in the return type (wrapping
      in a release build), then truncated to `c_int`. */
  function NegatedCode(w: Width, r: int): (code: int)
    requires Fits(w, r)
    ensures Fits(Int32, code)
    ensures Lo(Int32) < r <= 0 ==> code == -r
  {
    Wrap(Int32, Wrap(w, -r))
  }

  /** The `acheck!` macro, with the driver call's result `r` as an input:
      a negative result becomes `Err(Error::new(name, -r))`, anything else
      passes through unchanged. */
  function ACheck(known: set<int>, name: string, w: Width, r: int): (res: Result<Count>)
    requires Fits(w, r)
    ensures res.Ok? <==> r >= 0
    ensures res.Ok? ==> res.value == r
    ensures res.Err? ==> res.error == ErrorNew(known, name, NegatedCode(w, r))
    ensures res.Err? ==> res.error.func == name
  {
    if r < 0 then Err(ErrorNew(known, name, NegatedCode(w, r))) else Ok(r)
  }

  /** Every error `acheck` builds from an ordinary negative errno result
      (anything above `c_int`'s minimum) is handed a strictly positive
      platform code, namely `-r`. */
  lemma ACheckCodePositive(known: set<int>, name: string, w: Width, r: int)
    requires Lo(Int32) < r < 0
    ensures ACheck(known, name, w, r).Err?
    ensures NegatedCode(w, r) == -r > 0
    ensures ACheck(known, name, w, r).error == ErrorNew(known, name, -r)
  {
  }

  /** Below that range the code is not positive: negating `c_int`'s
      minimum wraps back to that same negative value. */
  lemma NegatingInt32MinWraps()
    ensures NegatedCode(Int32, Lo(Int32)) == Lo(Int32)
  {
    var m := 0x1_0000_0000;
    assert Lo(Int32) == -0x8000_0000 && Modulus(Int32) == m;
    assert Wrap(Int32, 0x8000_0000) == m % m - 0x8000_0000;
  }

  /** A 64-bit result of -2^32 negates to 2^32, which truncates to code 0. */
  lemma Int64CodeTruncatesToZero()
    ensures NegatedCode(Int64, -0x1_0000_0000) == 0
  {
    var m := 0x1_0000_0000;
    assert Lo(Int32) == -0x8000_0000 && Modulus(Int32) == m;
    assert Wrap(Int64, m) == m;
    assert Wrap(Int32, m) == (m + 0x8000_0000) % m - 0x8000_0000;
  }

  // -------------------------------------------------------------------
  // Display, std::error::Error, From<Error> for fmt::Error

  const DisplayPrefix: string := "ALSA function '"
  const DisplayMiddle: string := "' failed with error '"

  /** `impl Display`: "ALSA function '<name>' failed with error '<text>'". */
  function Display(e: Error, describe: NixError -> string): (s: string)
    ensures |s| == |DisplayPrefix| + |e.func| + |DisplayMiddle| + |describe(e.err)| + 1
    ensures s[..|DisplayPrefix|] == DisplayPrefix
    ensures s[|DisplayPrefix|..|DisplayPrefix| + |e.func|] == e.func
    ensures s[|DisplayPrefix| + |e.func|..|DisplayPrefix| + |e.func| + |DisplayMiddle|] == DisplayMiddle
    ensures s[|DisplayPrefix| + |e.func| + |DisplayMiddle|..|s| - 1] == describe(e.err)
    ensures s[|s| - 1] == '\''
  {
    DisplayPrefix + e.func + DisplayMiddle + describe(e.err) + "'"
  }

  /** The first index at or after `from` where `s` holds `c`, or `|s|`. */
  function IndexOf(s: string, c: char, from: nat): (i: nat)
    requires from <= |s|
    ensures from <= i <= |s|
    ensures i < |s| ==> s[i] == c
    ensures forall j :: from <= j < i ==> s[j] != c
    decreases |s| - from
  {
    if from == |s| then |s| else if s[from] == c then from else IndexOf(s, c, from + 1)
  }

  /** Reads the function name back out of a rendered error: the text between
      the first two apostrophes. */
  function NameOf(s: string): (name: Option<string>)
    ensures name.Some? ==> |name.value| < |s| && '\'' !in name.value
  {
    var a := IndexOf(s, '\'', 0);
    if a == |s| then None
    else
      var b := IndexOf(s, '\'', a + 1);
      if b == |s| then None
      else
        Some(s[a + 1..b])
  }

  lemma {:induction false} IndexOfFinds(s: string, c: char, from: nat, at: nat)
    requires from <= at < |s| && s[at] == c
    requires forall j :: from <= j < at ==> s[j] != c
    ensures IndexOf(s, c, from) == at
    decreases at - from
  {
    if from < at {
      IndexOfFinds(s, c, from + 1, at);
    }
  }

  /** The rendered message always names the failing function, and for the
      identifiers `stringify!` produces (which hold no apostrophe) the name
      can be read back out of it. */
  lemma DisplayNameRoundTrip(e: Error, describe: NixError -> string)
    requires '\'' !in e.func
    ensures NameOf(Display(e, describe)) == Some(e.func)
  {
    var s := Display(e, describe);
    var p := |DisplayPrefix|;
    assert s == DisplayPrefix + e.func + DisplayMiddle + describe(e.err) + "'";
    assert forall j :: 0 <= j < p - 1 ==> s[j] == DisplayPrefix[j];
    assert forall j :: p <= j < p + |e.func| ==> s[j] == e.func[j - p];
    IndexOfFinds(s, '\'', 0, p - 1);
    IndexOfFinds(s, '\'', p, p + |e.func|);
    assert s[p..p + |e.func|] == e.func;
  }

  /** `description()` is the same constant for every error. */
  function Description(e: Error): (s: string)
    ensures s == "ALSA error"
  {
    "ALSA error"
  }

  /** `cause()` always reports the wrapped nix error. */
  function Cause(e: Error): (c: Option<NixError>)
    ensures c.Some? && c.value == e.err
  {
    Some(e.err)
  }

  /** `fmt::Error` is a unit struct. */
  datatype FmtError = FmtError

  /** `From<Error> for fmt::Error`. */
  function IntoFmtError(e: Error): (f: FmtError)
  {
    FmtError
  }

  /** The conversion discards everything: all errors map to the same value. */
  lemma IntoFmtErrorForgets(a: Error, b: Error)
    ensures IntoFmtError(a) == IntoFmtError(b) == FmtError
  {
  }
}

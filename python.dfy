/** The few pieces of Python semantics the decode paths depend on: exceptions
    that escape a function, `bytes`/`str` slicing with clamped bounds, and the
    `rstrip('\x00')` / `strip()` string methods. */
module Python {

  /** The exceptions that the modelled functions can raise. */
  datatype PyError =
    | IndexError          // `seq[i]` with i out of range
    | StructError         // `struct.unpack` given a buffer of the wrong size
    | UnboundLocalError   // a local read before any assignment reached it

  /** The result of a Python call: it returns a value or an exception escapes. */
  datatype Outcome<+T> = Returns(value: T) | Raises(error: PyError) {
    predicate IsFailure() { Raises? }

    function PropagateFailure<U>(): Outcome<U>
      requires Raises?
    {
      Raises(error)
    }

    function Extract(): T
      requires Returns?
    {
      value
    }

    /** Forgets which exception was raised (an `except` clause that catches it). */
    function ToOption(): Option<T> {
      if Returns? then Some(value) else None
    }
  }

  datatype Option<+T> = None | Some(value: T) {
    predicate IsFailure() { None? }

    function PropagateFailure<U>(): Option<U>
      requires None?
    {
      None
    }

    function Extract(): T
      requires Some?
    {
      value
    }
  }

  function Min(a: int, b: int): int { if a <= b then a else b }

  function Max(a: int, b: int): int { if a <= b then b else a }

  /** `s[start:stop]` for non-negative bounds: both bounds are clamped to the
      length, and a stop at or before the start gives the empty sequence. */
  function Slice<T>(s: seq<T>, start: nat, stop: nat): (r: seq<T>)
    ensures |r| == Max(0, Min(stop, |s|) - Min(start, |s|))
    ensures forall k :: 0 <= k < |r| ==> r[k] == s[start + k]
    ensures start <= stop <= |s| ==> r == s[start..stop]
  {
    var lo := Min(start, |s|);
    var hi := Min(stop, |s|);
    if hi <= lo then [] else s[lo..hi]
  }

  /** The characters for which `str.isspace()` holds, i.e. those that
      `str.strip()` without arguments removes. */
  predicate IsSpace(c: char) {
    || ('\t' <= c <= '\r')
    || ('\U{1C}' <= c <= '\U{1F}')
    || c == ' '
    || c == '\U{85}'
    || c == '\U{A0}'
    || c == '\U{1680}'
    || ('\U{2000}' <= c <= '\U{200A}')
    || c == '\U{2028}'
    || c == '\U{2029}'
    || c == '\U{202F}'
    || c == '\U{205F}'
    || c == '\U{3000}'
  }

  /** `s.rstrip('\x00')`: the longest prefix of `s` that does not end in NUL;
      everything removed is NUL. */
  function RStripNul(s: string): (r: string)
    ensures r <= s
    ensures r == [] || r[|r| - 1] != '\0'
    ensures forall i :: |r| <= i < |s| ==> s[i] == '\0'
    decreases |s|
  {
    if s != [] && s[|s| - 1] == '\0' then RStripNul(s[..|s| - 1]) else s
  }

  /** `s.rstrip()`: drops trailing whitespace only. */
  function RStripSpace(s: string): (r: string)
    ensures r <= s
    ensures r == [] || !IsSpace(r[|r| - 1])
    ensures forall i :: |r| <= i < |s| ==> IsSpace(s[i])
    decreases |s|
  {
    if s != [] && IsSpace(s[|s| - 1]) then RStripSpace(s[..|s| - 1]) else s
  }

  /** `s.lstrip()`: drops leading whitespace only. */
  function LStripSpace(s: string): (r: string)
    ensures |r| <= |s| && r == s[|s| - |r|..]
    ensures r == [] || !IsSpace(r[0])
    ensures forall i :: 0 <= i < |s| - |r| ==> IsSpace(s[i])
    decreases |s|
  {
    if s != [] && IsSpace(s[0]) then LStripSpace(s[1..]) else s
  }

  /** `s.strip()`. */
  function Strip(s: string): string {
    LStripSpace(RStripSpace(s))
  }

  /** `strip()` empties exactly the strings made only of whitespace, never
      lengthens, and leaves a string that neither starts nor ends with
      whitespace untouched, whatever whitespace it holds inside. */
  lemma StripProperties(s: string)
    ensures (forall i :: 0 <= i < |s| ==> IsSpace(s[i])) <==> Strip(s) == []
    ensures |Strip(s)| <= |s|
    ensures s != [] && !IsSpace(s[0]) && !IsSpace(s[|s| - 1]) ==> Strip(s) == s
  {
  }

  /** Only trailing NULs go: a text that does not itself end in NUL comes back
      unchanged from `rstrip('\x00')` whatever NUL padding follows it. */
  lemma {:induction false} RStripNulPadding(p: string, n: nat)
    requires p == [] || p[|p| - 1] != '\0'
    ensures RStripNul(p + seq(n, _ => '\0')) == p
  {
    var pad := seq(n, _ => '\0');
    if n > 0 {
      assert (p + pad)[..|p + pad| - 1] == p + seq(n - 1, _ => '\0');
      RStripNulPadding(p, n - 1);
    } else {
      assert p + pad == p;
    }
  }
}

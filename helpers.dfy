/** Windows helpers (spawner/sys/windows/helpers.rs): turning zero results of
    system calls into errors, NUL-terminated UTF-16 strings, reading an
    environment block, and the name of the window station and desktop created for
    a user. The system calls themselves are not modelled: what they return is a
    parameter. */
module Helpers {
  import opened Wrappers
  import opened Seqs
  import Errors

  /** A UTF-16 code unit (`u16`, `WCHAR`). */
  newtype u16 = x: int | 0 <= x < 0x1_0000

  // ---------------------------------------------------------------- cvt

  /** A value that `IsZero` applies to: an integer of any width, or a raw pointer
      given by its address. */
  datatype ZeroTestable = Integer(value: int) | Pointer(address: nat)

  /** `IsZero::is_zero`: zero, or a null pointer. */
  predicate IsZero(v: ZeroTestable)
  {
    match v
    case Integer(n) => n == 0
    case Pointer(a) => a == 0
  }

  /** `cvt`: a zero result becomes the thread's last OS error (a parameter),
      anything else is passed through unchanged. */
  function Cvt(v: ZeroTestable, lastError: Errors.SysError): (r: Errors.Result<ZeroTestable>)
    ensures r.Err? <==> IsZero(v)
    ensures r.Ok? ==> r.value == v
    ensures r.Err? ==> r.error == Errors.LastOsError(lastError) && Errors.Display(r.error) == lastError.text
  {
    if IsZero(v) then Err(Errors.LastOsError(lastError)) else Ok(v)
  }

  /** Passing a value through `cvt` twice is passing it once. */
  lemma CvtTwice(v: ZeroTestable, e1: Errors.SysError, e2: Errors.SysError)
    ensures Cvt(v, e1).Ok? ==> Cvt(Cvt(v, e1).value, e2) == Cvt(v, e1)
  {
  }

  // ---------------------------------------------------------------- UTF-16

  predicate IsHighSurrogate(w: int)
  {
    0xD800 <= w < 0xDC00
  }

  predicate IsLowSurrogate(w: int)
  {
    0xDC00 <= w < 0xE000
  }

  /** The UTF-16 encoding of one character: one unit below U+10000, else a
      surrogate pair. */
  function EncodeChar(c: char): (r: seq<u16>)
    ensures 1 <= |r| <= 2
    ensures |r| == 1 <==> c as int < 0x1_0000
    ensures |r| == 1 ==> r[0] as int == c as int
    ensures |r| == 2 ==> IsHighSurrogate(r[0] as int) && IsLowSurrogate(r[1] as int) &&
                         0x1_0000 + (r[0] as int - 0xD800) * 0x400 + (r[1] as int - 0xDC00) == c as int
  {
    var v := c as int;
    if v < 0x1_0000 then [v as u16]
    else
      var hi, lo := (v - 0x1_0000) / 0x400, (v - 0x1_0000) % 0x400;
      [(0xD800 + hi) as u16, (0xDC00 + lo) as u16]
  }

  /** `encode_wide` of a string. */
  function EncodeWide(s: string): seq<u16>
  {
    if |s| == 0 then [] else EncodeChar(s[0]) + EncodeWide(s[1..])
  }

  /** `to_utf16`: the encoding followed by a terminating zero. */
  function ToUtf16(s: string): (r: seq<u16>)
    ensures |r| == |EncodeWide(s)| + 1
    ensures r[..|r| - 1] == EncodeWide(s) && r[|r| - 1] == 0
  {
    EncodeWide(s) + [0]
  }

  /** The encoding holds a zero unit exactly where the string holds a NUL
      character, so `to_utf16` of a string without NUL has exactly one zero, the
      terminator. */
  lemma {:induction false} EncodeWideZeros(s: string)
    ensures 0 in EncodeWide(s) <==> '\0' in s
    ensures '\0' !in s ==> forall i :: 0 <= i < |ToUtf16(s)| ==> (ToUtf16(s)[i] == 0 <==> i == |ToUtf16(s)| - 1)
    decreases |s|
  {
    if |s| > 0 {
      EncodeWideZeros(s[1..]);
      assert forall x :: x in s <==> x == s[0] || x in s[1..];
    }
    if '\0' !in s {
      var r := ToUtf16(s);
      forall i | 0 <= i < |r| - 1
        ensures r[i] != 0
      {
        assert r[i] == EncodeWide(s)[i];
      }
    }
  }

  /** `String::from_utf16`: the decoded string, or `None` at a lone surrogate. */
  function DecodeUtf16(ws: seq<u16>): Option<string>
    decreases |ws|
  {
    if |ws| == 0 then Some([])
    else
      var w := ws[0] as int;
      if !IsHighSurrogate(w) && !IsLowSurrogate(w) then
        match DecodeUtf16(ws[1..])
        case Some(t) => Some([w as char] + t)
        case None => None
      else if IsHighSurrogate(w) && |ws| >= 2 && IsLowSurrogate(ws[1] as int) then
        var c := 0x1_0000 + (w - 0xD800) * 0x400 + (ws[1] as int - 0xDC00);
        match DecodeUtf16(ws[2..])
        case Some(t) => Some([c as char] + t)
        case None => None
      else None
  }

  /** `String::from_utf16_lossy`: every lone surrogate becomes U+FFFD. */
  function DecodeLossy(ws: seq<u16>): string
    decreases |ws|
  {
    if |ws| == 0 then []
    else
      var w := ws[0] as int;
      if !IsHighSurrogate(w) && !IsLowSurrogate(w) then [w as char] + DecodeLossy(ws[1..])
      else if IsHighSurrogate(w) && |ws| >= 2 && IsLowSurrogate(ws[1] as int) then
        var c := 0x1_0000 + (w - 0xD800) * 0x400 + (ws[1] as int - 0xDC00);
        [c as char] + DecodeLossy(ws[2..])
      else ['�'] + DecodeLossy(ws[1..])
  }

  /** One character's encoding in front of some units decodes to that character
      in front of what the units decode to. */
  lemma DecodeCons(c: char, rest: seq<u16>)
    ensures DecodeUtf16(EncodeChar(c) + rest) == match DecodeUtf16(rest)
                                                 case Some(t) => Some([c] + t)
                                                 case None => None
    ensures DecodeLossy(EncodeChar(c) + rest) == [c] + DecodeLossy(rest)
  {
    var e := EncodeChar(c);
    var ws := e + rest;
    if |e| == 1 {
      assert ws[1..] == rest;
      assert (ws[0] as int) as char == c;
    } else {
      assert ws[2..] == rest;
      assert ws[1] == e[1];
    }
  }

  /** Decoding the encoding gives the string back, strictly or lossily. */
  lemma {:induction false} DecodeEncode(s: string)
    ensures DecodeUtf16(EncodeWide(s)) == Some(s)
    ensures DecodeLossy(EncodeWide(s)) == s
    decreases |s|
  {
    if |s| > 0 {
      DecodeEncode(s[1..]);
      DecodeCons(s[0], EncodeWide(s[1..]));
      assert [s[0]] + s[1..] == s;
    }
  }

  /** Lossy decoding agrees with strict decoding wherever that succeeds. */
  lemma {:induction false} LossyAgrees(ws: seq<u16>)
    ensures DecodeUtf16(ws).Some? ==> DecodeLossy(ws) == DecodeUtf16(ws).value
    decreases |ws|
  {
    if |ws| >= 2 {
      LossyAgrees(ws[1..]);
      LossyAgrees(ws[2..]);
    } else if |ws| == 1 {
      LossyAgrees(ws[1..]);
    }
  }

  // ---------------------------------------------------------------- environment block

  /** Two adjacent zero units at `i`: the end of an environment block. */
  predicate ZeroPairAt(block: seq<u16>, i: int)
  {
    0 <= i && i + 1 < |block| && block[i] == 0 && block[i + 1] == 0
  }

  /** The scan of `EnvBlock::create`: advance until the first two adjacent zeros.
      The system guarantees that such a pair ends the block, which the loop relies
      on to stop. */
  method ScanLength(block: seq<u16>) returns (len: nat)
    requires exists i :: ZeroPairAt(block, i)
    ensures ZeroPairAt(block, len)
    ensures forall j :: 0 <= j < len ==> !ZeroPairAt(block, j)
  {
    ghost var end :| ZeroPairAt(block, end);
    len := 0;
    while !(block[len] == 0 && block[len + 1] == 0)
      invariant len <= end
      invariant forall j :: 0 <= j < len ==> !ZeroPairAt(block, j)
      decreases end - len
    {
      len := len + 1;
    }
  }

  /** `EnvBlock`: the block the system handed out and the length found by the scan. */
  datatype EnvBlock = EnvBlock(block: seq<u16>, len: nat)

  /** A block as `EnvBlock::create` leaves it: `len` is the first zero pair. */
  predicate ValidEnvBlock(e: EnvBlock)
  {
    ZeroPairAt(e.block, e.len) && forall j :: 0 <= j < e.len ==> !ZeroPairAt(e.block, j)
  }

  /** `EnvBlock::create`, given the block that `CreateEnvironmentBlock` returned
      (or the error it failed with). */
  method CreateEnvBlock(created: Errors.Result<seq<u16>>) returns (r: Errors.Result<EnvBlock>)
    requires created.Ok? ==> exists i :: ZeroPairAt(created.value, i)
    ensures created.Err? ==> r == Err(created.error)
    ensures created.Ok? ==> r.Ok? && r.value.block == created.value && ValidEnvBlock(r.value)
  {
    var block :- created;
    var len := ScanLength(block);
    r := Ok(EnvBlock(block, len));
  }

  /** `EnvBlock::as_slice`: the strings of the block without the final terminator. */
  function AsSlice(e: EnvBlock): (r: seq<u16>)
    requires ValidEnvBlock(e)
    ensures |r| == e.len
  {
    e.block[..e.len]
  }

  predicate NoAdjacentZeros(s: seq<u16>)
  {
    forall i :: 0 <= i < |s| - 1 ==> !(s[i] == 0 && s[i + 1] == 0)
  }

  /** The slice holds no two adjacent zeros and does not end in a zero: each
      `name=value` string is separated from the next by exactly one NUL. */
  lemma AsSliceShape(e: EnvBlock)
    requires ValidEnvBlock(e)
    ensures NoAdjacentZeros(AsSlice(e))
    ensures |AsSlice(e)| > 0 ==> AsSlice(e)[|AsSlice(e)| - 1] != 0
  {
    var s := AsSlice(e);
    forall i | 0 <= i < |s| - 1
      ensures !(s[i] == 0 && s[i + 1] == 0)
    {
      assert !ZeroPairAt(e.block, i);
    }
    if |s| > 0 {
      assert !ZeroPairAt(e.block, e.len - 1);
    }
  }

  /** The raw entries of the block: the slice split at every zero. */
  function RawEntries(e: EnvBlock): seq<seq<u16>>
    requires ValidEnvBlock(e)
  {
    Split(AsSlice(e), 0)
  }

  /** `EnvBlock::iter`: each entry decoded, lone surrogates replaced. */
  function Iter(e: EnvBlock): (r: seq<string>)
    requires ValidEnvBlock(e)
    ensures |r| == |RawEntries(e)|
    ensures forall k :: 0 <= k < |r| ==> r[k] == DecodeLossy(RawEntries(e)[k])
  {
    var raw := RawEntries(e);
    seq(|raw|, k requires 0 <= k < |raw| => DecodeLossy(raw[k]))
  }

  /** Joining the raw entries with zeros gives the slice back; no entry contains a
      zero; there is one more entry than zeros; and an empty block has exactly one,
      empty, entry. */
  lemma IterEntries(e: EnvBlock)
    requires ValidEnvBlock(e)
    ensures Join(RawEntries(e), [0]) == AsSlice(e)
    ensures forall k :: 0 <= k < |RawEntries(e)| ==> 0 !in RawEntries(e)[k]
    ensures |RawEntries(e)| == Count(AsSlice(e), 0) + 1
    ensures e.len == 0 ==> Iter(e) == [""]
  {
    JoinSplit(AsSlice(e), 0);
    SplitPiecesFree(AsSlice(e), 0);
    SplitLength(AsSlice(e), 0);
  }

  /** In a slice without adjacent zeros that does not end in one, every piece after
      the first is non-empty. */
  lemma {:induction false} SplitPiecesNonEmpty(s: seq<u16>)
    requires NoAdjacentZeros(s) && (|s| > 0 ==> s[|s| - 1] != 0)
    ensures forall k :: 0 < k < |Split(s, 0)| ==> |Split(s, 0)[k]| > 0
    decreases |s|
  {
    if |s| > 0 {
      var t := s[1..];
      assert NoAdjacentZeros(t) by {
        forall i | 0 <= i < |t| - 1
          ensures !(t[i] == 0 && t[i + 1] == 0)
        {
          assert t[i] == s[i + 1] && t[i + 1] == s[i + 2];
        }
      }
      SplitPiecesNonEmpty(t);
      var rest := Split(t, 0);
      if s[0] == 0 {
        assert |t| > 0 && t[0] != 0;
        assert |rest[0]| > 0;
      }
    }
  }

  /** Every entry but the first names a variable: only the first can be empty. */
  lemma IterEntriesNonEmpty(e: EnvBlock)
    requires ValidEnvBlock(e)
    ensures forall k :: 0 < k < |RawEntries(e)| ==> |RawEntries(e)[k]| > 0
  {
    AsSliceShape(e);
    SplitPiecesNonEmpty(AsSlice(e));
  }

  // ---------------------------------------------------------------- window station name

  /** The size of the buffer the window station name is read into, in units. */
  const NameBufferLen := 128

  /** The length of the window station name from the number of bytes
      `GetUserObjectInformationW` reports: the units, less the terminating NUL.
      `None` where the program panics: the subtraction underflows, or the length
      exceeds the buffer when it is sliced. */
  function WinstaNameLen(bytes: nat): (r: Option<nat>)
    ensures r.Some? <==> 1 <= bytes / 2 <= NameBufferLen + 1
    ensures r.Some? ==> r.value == bytes / 2 - 1 && r.value <= NameBufferLen
  {
    var units := bytes / 2;
    if units == 0 then None
    else if units - 1 > NameBufferLen then None
    else Some(units - 1)
  }

  /** The window station's name as read from the buffer. */
  function WinstaName(buf: seq<u16>, bytes: nat): (r: Option<seq<u16>>)
    requires |buf| == NameBufferLen
    ensures r.Some? <==> WinstaNameLen(bytes).Some?
  {
    match WinstaNameLen(bytes)
    case None => None
    case Some(n) => Some(buf[..n])
  }

  /** When the system writes a name and its terminating NUL into the buffer and
      reports their size in bytes, the name read back is exactly the one written. */
  lemma WinstaNameReadsWhatWasWritten(buf: seq<u16>, name: seq<u16>)
    requires |buf| == NameBufferLen && |name| < NameBufferLen
    requires buf[..|name|] == name && buf[|name|] == 0
    ensures WinstaNameLen(2 * (|name| + 1)) == Some(|name|)
    ensures WinstaName(buf, 2 * (|name| + 1)) == Some(name)
  {
  }

  /** The desktop's name as `User::create` builds it: the window station's name, a
      backslash and "desktop", NUL-terminated; `None` where it panics, an error
      when the window station's name is not valid UTF-16. */
  function DesktopName(buf: seq<u16>, bytes: nat): (r: Option<Errors.Result<seq<u16>>>)
    requires |buf| == NameBufferLen
    ensures r.Some? <==> WinstaNameLen(bytes).Some?
    ensures r.Some? ==> (r.value.Err? <==> DecodeUtf16(WinstaName(buf, bytes).value).None?)
    ensures r.Some? && r.value.Err? ==> Errors.Display(r.value.error) == LoneSurrogateMessage
  {
    match WinstaName(buf, bytes)
    case None => None
    case Some(name) =>
      match DecodeUtf16(name)
      case None => Some(Err(Errors.FromString(LoneSurrogateMessage)))
      case Some(winsta) => Some(Ok(ToUtf16(winsta + "\\" + DesktopBaseName)))
  }

  const DesktopBaseName := "desktop"

  /** The text of `FromUtf16Error`. */
  const LoneSurrogateMessage := "invalid utf-16: lone surrogate found"

  /** A desktop name decodes back to `<window station>\desktop` once the
      terminator is dropped. */
  lemma DesktopNameDecodes(buf: seq<u16>, bytes: nat)
    requires |buf| == NameBufferLen
    requires DesktopName(buf, bytes).Some? && DesktopName(buf, bytes).value.Ok?
    ensures var n := DesktopName(buf, bytes).value.value;
            var winsta := DecodeUtf16(WinstaName(buf, bytes).value).value;
            |n| > 0 && n[|n| - 1] == 0 && DecodeUtf16(n[..|n| - 1]) == Some(winsta + "\\desktop")
  {
    var winsta := DecodeUtf16(WinstaName(buf, bytes).value).value;
    var full := winsta + "\\" + DesktopBaseName;
    assert full == winsta + "\\desktop";
    DecodeEncode(full);
    assert DesktopName(buf, bytes).value.value == ToUtf16(full);
  }
}

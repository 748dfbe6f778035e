/**
 * The HC-05 Bluetooth command layer: a message arrives by DMA into a 50-byte
 * buffer, the idle-line interrupt terminates it, and `HC05_Update` dispatches
 * on its first byte to the player, answering with one line of text.
 *
 * The UART is left abstract: what the DMA stored is a parameter of the
 * interrupt handler and the text `HC05_Print` would send is the reply the
 * handler returns.
 */
module Hc05 {

  import opened Common
  import opened Playlist
  import opened WavPlayer

  /** `DATA_MAX_SIZE`: the receive buffer `gData` is this long. */
  const DataMaxSize: nat := 50

  const Success: string := "[SUCCESS]\n"

  /** An error line sent over the link. */
  function ErrorLine(text: string): string
  {
    "[ERROR] " + text + "\n"
  }

  const NoAudioFile: string := ErrorLine("couldn't find an audio file.")
  const NoFileName: string := ErrorLine("No file name.")
  const CouldNotOpen: string := ErrorLine("couldn't open the file.")
  const InvalidVolume: string := ErrorLine("invalid volume value, volume range is [0-255].")
  const UndefinedCommand: string := ErrorLine("undefined command.")

  // ---------------------------------------------------------------------------
  // Decimal volume values

  predicate IsDigit(ch: char)
  {
    '0' <= ch <= '9'
  }

  predicate AllDigits(s: string)
  {
    forall i :: 0 <= i < |s| ==> IsDigit(s[i])
  }

  function Digit(d: nat): (ch: char)
    requires d < 10
    ensures IsDigit(ch)
  {
    ('0' as int + d) as char
  }

  function DigitValue(ch: char): (d: nat)
    requires IsDigit(ch)
    ensures d < 10 && Digit(d) == ch
  {
    ch as int - '0' as int
  }

  /** The number a digit string denotes, most significant digit first. */
  function DecimalValue(s: string): nat
    requires AllDigits(s)
  {
    if s == [] then 0 else 10 * DecimalValue(s[..|s| - 1]) + DigitValue(s[|s| - 1])
  }

  function Pow10(w: nat): (p: nat)
    ensures p >= 1
  {
    if w == 0 then 1 else 10 * Pow10(w - 1)
  }

  /** v written with exactly w decimal digits, padded with leading zeros. */
  function Render(v: nat, w: nat): (s: string)
    ensures |s| == w && AllDigits(s)
  {
    if w == 0 then [] else Render(v / 10, w - 1) + [Digit(v % 10)]
  }

  /**
   * What `atoi` accepts: a C string of one to three decimal digits whose
   * value is at most 255.
   */
  function ParseVolume(s: string): Option<Byte>
  {
    if 1 <= |s| <= 3 && AllDigits(s) && DecimalValue(s) <= 255 then Some(DecimalValue(s)) else None
  }

  lemma {:induction false} RenderValue(v: nat, w: nat)
    requires v < Pow10(w)
    ensures DecimalValue(Render(v, w)) == v
    decreases w
  {
    if w > 0 {
      var s := Render(v, w);
      assert s[..w - 1] == Render(v / 10, w - 1);
      RenderValue(v / 10, w - 1);
    }
  }

  lemma {:induction false} ValueRender(s: string)
    requires AllDigits(s)
    ensures DecimalValue(s) < Pow10(|s|) && Render(DecimalValue(s), |s|) == s
    decreases |s|
  {
    if s != [] {
      var init := s[..|s| - 1];
      ValueRender(init);
      var v := DecimalValue(s);
      assert v / 10 == DecimalValue(init) && v % 10 == DigitValue(s[|s| - 1]);
      assert s == init + [s[|s| - 1]];
    }
  }

  /** Every value 0..255 written in one to three digits, leading zeros allowed, is accepted as itself. */
  lemma VolumeRoundTrip(v: Byte, w: nat)
    requires 1 <= w <= 3 && v < Pow10(w)
    ensures ParseVolume(Render(v, w)) == Some(v)
  {
    RenderValue(v, w);
  }

  /** Conversely, whatever `atoi` accepts is a rendering of the value it stores. */
  lemma VolumeParsed(s: string)
    requires ParseVolume(s).Some?
    ensures 1 <= |s| <= 3 && s == Render(ParseVolume(s).value, |s|)
  {
    ValueRender(s);
  }

  /**
   * `atoi`: data is the memory from the argument pointer to the end of the
   * receive buffer. Checks the length and every digit, then forms the value
   * from one, two or three digits, rejecting three-digit values above 255.
   */
  method Atoi(data: seq<char>) returns (num: Option<Byte>)
    ensures num == ParseVolume(CStr(data))
  {
    var len := StrLen(data);
    ghost var s := CStr(data);
    if len > 3 || len == 0 {
      return None;
    }
    var i := 0;
    while i < len
      invariant i <= len
      invariant forall j :: 0 <= j < i ==> IsDigit(s[j])
    {
      if !('0' <= data[i] <= '9') {
        assert !IsDigit(s[i]);
        return None;
      }
      i := i + 1;
    }
    assert AllDigits(s);
    assert s[..1] == [data[0]] && s[..1][..0] == [];
    assert DecimalValue(s[..1]) == DigitValue(data[0]);
    if len == 1 {
      assert s == s[..1];
      num := Some(data[0] as int - 0x30);
    } else if len == 2 {
      assert DecimalValue(s) == 10 * DecimalValue(s[..1]) + DigitValue(data[1]);
      num := Some((data[0] as int - 0x30) * 10 + (data[1] as int - 0x30));
    } else {
      assert s[..2][..1] == s[..1];
      assert DecimalValue(s[..2]) == 10 * DecimalValue(s[..1]) + DigitValue(data[1]);
      assert DecimalValue(s) == 10 * DecimalValue(s[..2]) + DigitValue(data[2]);
      var res := (data[0] as int - 0x30) * 100 + (data[1] as int - 0x30) * 10 + (data[2] as int - 0x30);
      if res > 255 {
        return None;
      }
      num := Some(res);
    }
  }

  // ---------------------------------------------------------------------------
  // Upper-casing file names for FatFs

  function UpperChar(ch: char): char
  {
    if 'a' <= ch <= 'z' then (ch as int - 32) as char else ch
  }

  function Upper(s: string): (r: string)
    ensures |r| == |s|
  {
    if s == [] then [] else Upper(s[..|s| - 1]) + [UpperChar(s[|s| - 1])]
  }

  lemma {:induction false} UpperAt(s: string, i: nat)
    requires i < |s|
    ensures Upper(s)[i] == UpperChar(s[i])
    decreases |s|
  {
    if i < |s| - 1 {
      UpperAt(s[..|s| - 1], i);
    }
  }

  lemma {:induction false} UpperIdempotent(s: string)
    ensures Upper(Upper(s)) == Upper(s)
    decreases |s|
  {
    if s != [] {
      var u := Upper(s);
      assert u[..|s| - 1] == Upper(s[..|s| - 1]);
      UpperIdempotent(s[..|s| - 1]);
    }
  }

  /** The buffer s after `UpCase`: the C string at its start upper-cased, the rest as it was. */
  function UpCased(s: seq<char>): seq<char>
  {
    Upper(CStr(s)) + s[StrLen(s)..]
  }

  /**
   * Only 'a'..'z' before the first NUL change, each to its capital; the
   * length stays.
   */
  lemma UpCasedChanges(s: seq<char>, i: nat)
    requires i < |s|
    ensures |UpCased(s)| == |s|
    ensures i < StrLen(s) && 'a' <= s[i] <= 'z' ==> UpCased(s)[i] as int == s[i] as int - 32 && 'A' <= UpCased(s)[i] <= 'Z'
    ensures !(i < StrLen(s) && 'a' <= s[i] <= 'z') ==> UpCased(s)[i] == s[i]
  {
    if i < StrLen(s) {
      UpperAt(CStr(s), i);
    }
  }

  /** Upper-casing keeps the C string where it was, so the NUL that ends it stays put. */
  lemma {:induction false} CStrUpCased(s: seq<char>)
    ensures CStr(UpCased(s)) == Upper(CStr(s)) && StrLen(UpCased(s)) == StrLen(s)
    ensures '\0' in s ==> '\0' in UpCased(s)
  {
    var u := Upper(CStr(s));
    assert '\0' !in u by {
      forall i | 0 <= i < |u|
        ensures u[i] != '\0'
      {
        UpperAt(CStr(s), i);
        assert CStr(s)[i] != '\0';
      }
    }
    if StrLen(s) < |s| {
      assert UpCased(s) == u + ['\0'] + s[StrLen(s) + 1..];
      CStrTerminated(u, s[StrLen(s) + 1..]);
    } else {
      assert UpCased(s) == u;
      CStrUnterminated(u);
      CStrUnterminated(s);
    }
  }

  /** `UpCase` twice is `UpCase` once. */
  lemma UpCasedIdempotent(s: seq<char>)
    ensures UpCased(UpCased(s)) == UpCased(s)
  {
    CStrUpCased(s);
    UpperIdempotent(CStr(s));
  }

  /** The buffer after `UpCase`, character by character. */
  lemma UpCasedPointwise(head: seq<char>, s: seq<char>, cur: seq<char>)
    requires |cur| == |head| + |s| && cur[..|head|] == head
    requires forall j :: 0 <= j < StrLen(s) ==> cur[|head| + j] == UpperChar(s[j])
    requires forall j :: StrLen(s) <= j < |s| ==> cur[|head| + j] == s[j]
    ensures cur == head + UpCased(s)
  {
    var u := UpCased(s);
    forall j | 0 <= j < |s|
      ensures cur[|head| + j] == u[j]
    {
      if j < StrLen(s) {
        UpperAt(CStr(s), j);
      }
    }
  }

  /** `UpCase`: upper-case data[from..] in place up to its first NUL. */
  method UpCase(data: array<char>, from: nat)
    requires from <= data.Length && '\0' in data[from..]
    modifies data
    ensures data[..] == old(data[..from]) + UpCased(old(data[from..]))
  {
    ghost var s := data[from..];
    ghost var n := StrLen(s);
    var i := from;
    while data[i] != '\0'
      invariant from <= i <= from + n < data.Length
      invariant forall j :: from <= j < i ==> data[j] == UpperChar(s[j - from])
      invariant forall j :: 0 <= j < data.Length && !(from <= j < i) ==> data[j] == old(data[j])
      decreases from + n - i
    {
      assert s[i - from] == CStr(s)[i - from];
      if 'a' <= data[i] <= 'z' {
        data[i] := (data[i] as int - 32) as char;
      }
      i := i + 1;
    }
    UpCasedPointwise(old(data[..from]), s, data[..]);
  }

  // ---------------------------------------------------------------------------
  // Commands

  /** What the first byte of a message asks the player to do. */
  datatype Command =
    | GoNext
    | GoPrevious
    | ListFiles
    | PlayFile(name: Name)
    | Pause
    | Resume
    | Stop
    | Mute
    | Unmute
    | SetVolume(volume: Byte)
    | Reject(reply: string)

  /**
   * The dispatch of `HC05_Update` on a received message: the file name of
   * 'c' and the volume of 'v' start at index 2.
   */
  function Decode(msg: seq<char>): Command
    requires |msg| == DataMaxSize
  {
    match msg[0]
    case '>' => GoNext
    case '<' => GoPrevious
    case 'l' => ListFiles
    case 'c' => if StrLen(msg) > 2 then PlayFile(Upper(CStr(msg[2..]))) else Reject(NoFileName)
    case 'p' => Pause
    case 'r' => Resume
    case 's' => Stop
    case 'm' => Mute
    case 'u' => Unmute
    case 'v' =>
      (match ParseVolume(CStr(msg[2..]))
       case Some(v) => SetVolume(v)
       case None => Reject(InvalidVolume))
    case _ => Reject(UndefinedCommand)
  }

  /** The message buffer after the dispatch: only 'c' changes it, upper-casing the name. */
  function Edited(msg: seq<char>): seq<char>
    requires |msg| == DataMaxSize
  {
    if msg[0] == 'c' && StrLen(msg) > 2 then msg[..2] + UpCased(msg[2..]) else msg
  }

  /** A volume command with any value 0..255 in one to three digits sets that volume. */
  lemma DecodeVolume(msg: seq<char>, sep: char, v: Byte, w: nat, rest: seq<char>)
    requires 1 <= w <= 3 && v < Pow10(w)
    requires msg == ['v', sep] + Render(v, w) + ['\0'] + rest && |msg| == DataMaxSize
    ensures Decode(msg) == SetVolume(v)
  {
    VolumeRoundTrip(v, w);
    assert msg[2..] == Render(v, w) + ['\0'] + rest;
    assert '\0' !in Render(v, w) by {
      forall i | 0 <= i < w
        ensures Render(v, w)[i] != '\0'
      {
        assert IsDigit(Render(v, w)[i]);
      }
    }
    CStrTerminated(Render(v, w), rest);
  }

  /** A play command with a name plays the upper-cased name; with the separator a NUL it has no name. */
  lemma DecodePlay(msg: seq<char>, sep: char, name: Name, rest: seq<char>)
    requires '\0' !in name
    requires msg == ['c', sep] + name + ['\0'] + rest && |msg| == DataMaxSize
    ensures sep != '\0' && name != [] ==> Decode(msg) == PlayFile(Upper(name))
    ensures sep == '\0' || name == [] ==> Decode(msg) == Reject(NoFileName)
  {
    assert msg[2..] == name + ['\0'] + rest;
    CStrTerminated(name, rest);
    if sep == '\0' {
      assert msg == ['c'] + [] + ['\0'] + msg[2..];
      CStrTerminated(['c'], msg[2..]);
    } else {
      assert msg == ['c', sep] + name + ['\0'] + rest;
      CStrTerminated(['c', sep] + name, rest);
    }
  }

  /** The line `HC05_Print` sends for a command, given the player's answer and the file list. */
  function ReplyFor(cmd: Command, ok: bool, listing: string): string
  {
    match cmd
    case GoNext => if ok then Success else NoAudioFile
    case GoPrevious => if ok then Success else NoAudioFile
    case PlayFile(_) => if ok then Success else CouldNotOpen
    case ListFiles => listing
    case Reject(message) => message
    case _ => Success
  }

  /**
   * "[SUCCESS]" is sent exactly when the dispatch falls through: for every
   * message but a list request, the reply is a success unless the command is
   * rejected or the player reports failure.
   */
  lemma SuccessOnFallThrough(msg: seq<char>, ok: bool)
    requires |msg| == DataMaxSize && msg[0] != 'l'
    ensures var cmd := Decode(msg);
            ReplyFor(cmd, ok, []) == Success <==>
            !cmd.Reject? && ((cmd.GoNext? || cmd.GoPrevious? || cmd.PlayFile?) ==> ok)
  {
    assert Success[1] == 'S';
    forall text: string
      ensures ErrorLine(text) != Success
    {
      assert ErrorLine(text)[1] == 'E';
    }
  }

  /**
   * What handling one command did to the player (v: its globals, a: the
   * audio buffer, n: the file-list buffer; 0 before, 1 after) and what it replied.
   */
  predicate Handled(fs: Volume, cmd: Command, v0: PlayerState, a0: seq<Byte>, n0: seq<char>,
                    v1: PlayerState, a1: seq<Byte>, n1: seq<char>, reply: string)
  {
    |a0| == DmaBufferSize && |n0| == DmaBufferSize &&
    match cmd
    case GoNext =>
      n1 == n0 && NextOutcome(fs, v0, a0, v1, a1) &&
      reply == ReplyFor(cmd, v0.isFileChosen && NextFrom(fs.listing, v0.currentName).found, [])
    case GoPrevious =>
      n1 == n0 && PreviousOutcome(fs, v0, a0, v1, a1) &&
      reply == ReplyFor(cmd, v0.isFileChosen && PreviousFrom(fs.listing, v0.currentName).found, [])
    case ListFiles =>
      v1 == v0 && a1 == a0 && n1 == Spliced(n0, 0, Joined(Fitting(fs.listing, 0)) + ['\0']) &&
      reply == ReplyFor(cmd, true, CStr(n1))
    case PlayFile(name) =>
      n1 == n0 && OpenOutcome(fs, true, v0, name, a0, v1, a1) &&
      reply == ReplyFor(cmd, name in fs.files, [])
    case Pause =>
      n1 == n0 && a1 == a0 && v1 == Paused(v0) && reply == Success
    case Resume =>
      n1 == n0 && v1 == Resumed(v0) &&
      a1 == (if v0.isFileChosen && v0.isFinished then Spliced(a0, 0, FirstChunk(v0.file)) else a0) &&
      reply == Success
    case Stop =>
      n1 == n0 && v1 == Stopped(v0) &&
      a1 == (if v0.isFileChosen then Spliced(a0, 0, FirstChunk(v0.file)) else a0) &&
      reply == Success
    case Mute =>
      n1 == n0 && a1 == a0 && v1 == v0.(config := v0.config.(muted := true), actions := v0.actions + [CodecMute]) &&
      reply == Success
    case Unmute =>
      n1 == n0 && a1 == a0 && v1 == v0.(config := v0.config.(muted := false), actions := v0.actions + [CodecUnmute]) &&
      reply == Success
    case SetVolume(x) =>
      n1 == n0 && a1 == a0 && v1 == v0.(config := v0.config.(volume := x), actions := v0.actions + [CodecSetVolume(x)]) &&
      reply == Success
    case Reject(message) =>
      n1 == n0 && a1 == a0 && v1 == v0 && reply == message
  }

  lemma {:induction false} JoinedWithoutNul(names: seq<Name>)
    requires forall i :: 0 <= i < |names| ==> '\0' !in names[i]
    ensures '\0' !in Joined(names)
    decreases |names|
  {
    if names != [] {
      JoinedWithoutNul(names[..|names| - 1]);
    }
  }

  /** With NUL-free names (as C strings are), the list reply is exactly the names that fit, each on its own line. */
  lemma ListReply(names: seq<Name>, n0: seq<char>)
    requires forall i :: 0 <= i < |names| ==> '\0' !in names[i]
    requires |n0| == DmaBufferSize
    ensures var out := Joined(Fitting(names, 0));
            CStr(Spliced(n0, 0, out + ['\0'])) == out
  {
    var shown := Fitting(names, 0);
    var out := Joined(shown);
    JoinedWithoutNul(shown);
    assert Spliced(n0, 0, out + ['\0']) == out + ['\0'] + n0[|out| + 1..];
    CStrTerminated(out, n0[|out| + 1..]);
  }

  // ---------------------------------------------------------------------------
  // The idle-line interrupt

  /** As written: the NUL goes to `DATA_MAX_SIZE - NDTR`, NDTR being the bytes the DMA still expects. */
  function AsWrittenTerminator(ndtr: nat): int
  {
    DataMaxSize - ndtr
  }

  /** A full 50-byte message (NDTR = 0) puts the NUL one past the end of `gData`. */
  lemma AsWrittenTerminatorOverruns(ndtr: nat)
    requires ndtr <= DataMaxSize
    ensures 0 <= AsWrittenTerminator(ndtr) < DataMaxSize <==> ndtr > 0
  {
  }

  /** Where the NUL goes after `count` received bytes: right after them, over the last byte when all 50 arrived. */
  function Terminator(count: nat): (k: nat)
    requires count <= DataMaxSize
    ensures k < DataMaxSize && k <= count
    ensures count < DataMaxSize ==> k == count
  {
    if count < DataMaxSize then count else DataMaxSize - 1
  }

  /** The buffer the dispatch sees: the bytes received over what was there before, NUL-terminated. */
  function Delivered(received: seq<char>, stale: seq<char>): (msg: seq<char>)
    requires |received| <= DataMaxSize == |stale|
    ensures |msg| == DataMaxSize && msg[Terminator(|received|)] == '\0'
  {
    (received + stale[|received|..])[Terminator(|received|) := '\0']
  }

  /** A received message without NULs reads as the C string of all its bytes, the last one lost when all 50 arrived. */
  lemma DeliveredMessage(received: seq<char>, stale: seq<char>)
    requires |received| <= DataMaxSize == |stale| && '\0' !in received
    ensures CStr(Delivered(received, stale)) == received[..Terminator(|received|)]
  {
    var k := Terminator(|received|);
    var msg := Delivered(received, stale);
    assert msg == received[..k] + ['\0'] + msg[k + 1..];
    CStrTerminated(received[..k], msg[k + 1..]);
  }

  /** The receive side of the Bluetooth link: `gData`, `gDataLen` and `gIsReceived`. */
  class Link {
    const data: array<char>
    var dataLen: nat
    var isReceived: bool

    /** The buffer holds a NUL, so every string read from it ends inside it. */
    ghost predicate Valid()
      reads this, data
    {
      data.Length == DataMaxSize && '\0' in data[..]
    }

    constructor()
      ensures Valid() && fresh(data) && dataLen == 0 && !isReceived
      ensures forall i :: 0 <= i < data.Length ==> data[i] == '\0'
    {
      data := new char[DataMaxSize](_ => '\0');
      dataLen := 0;
      isReceived := false;
      new;
      assert data[..][0] == '\0';
    }

    /**
     * `HC05_Update`: nothing unless a message was received; otherwise clear
     * the flag, dispatch on the first byte and reply.
     */
    method Update(player: Player, fs: Volume) returns (reply: Option<string>)
      requires Valid() && player.Valid() && data != player.filesNames
      modifies this, data, player, player.audio, player.filesNames
      ensures Valid() && player.Valid() && !isReceived && dataLen == old(dataLen)
      ensures !old(isReceived) ==>
                reply == None && data[..] == old(data[..]) && player.State() == old(player.State()) &&
                player.audio[..] == old(player.audio[..]) && player.filesNames[..] == old(player.filesNames[..])
      ensures old(isReceived) ==>
                reply.Some? && data[..] == Edited(old(data[..])) &&
                Handled(fs, Decode(old(data[..])), old(player.State()), old(player.audio[..]), old(player.filesNames[..]),
                        player.State(), player.audio[..], player.filesNames[..], reply.value)
    {
      if !isReceived {
        return None;
      }
      isReceived := false;
      var first := data[0];
      if first == '>' {
        var ok := player.Next(fs);
        if !ok {
          return Some(NoAudioFile);
        }
      } else if first == '<' {
        var ok := player.Previous(fs);
        if !ok {
          return Some(NoAudioFile);
        }
      } else if first == 'l' {
        player.ListAudioFiles(fs);
        return Some(CStr(player.filesNames[..]));
      } else if first == 'c' {
        if StrLen(data[..]) > 2 {
          assert data[StrLen(data[..])] == '\0';
          assert '\0' in data[2..] by {
            assert data[2..][StrLen(data[..]) - 2] == '\0';
          }
          ghost var tail := data[2..];
          UpCase(data, 2);
          assert data[2..] == UpCased(tail);
          CStrUpCased(tail);
        } else {
          return Some(NoFileName);
        }
        var ok := player.PlayAudioFile(fs, CStr(data[2..]));
        if !ok {
          return Some(CouldNotOpen);
        }
      } else if first == 'p' {
        player.Pause();
      } else if first == 'r' {
        player.Resume();
      } else if first == 's' {
        player.Stop();
      } else if first == 'm' {
        player.Mute();
      } else if first == 'u' {
        player.Unmute();
      } else if first == 'v' {
        var vol := Atoi(data[2..]);
        if vol.None? {
          return Some(InvalidVolume);
        }
        player.SetVolume(vol.value);
      } else {
        return Some(UndefinedCommand);
      }
      reply := Some(Success);
    }

    /**
     * The first half of `Uart_IDLE_IRQHandler`, with the terminator kept
     * inside `gData`: the DMA has stored `received` since the last receive
     * was started; mark the message received and NUL-terminate it.
     */
    method Receive(received: seq<char>)
      requires Valid() && |received| <= DataMaxSize
      modifies this, data
      ensures Valid() && isReceived && dataLen == Terminator(|received|)
      ensures data[..] == Delivered(received, old(data[..]))
    {
      isReceived := true;
      forall i | 0 <= i < |received| {
        data[i] := received[i];
      }
      dataLen := Terminator(|received|);
      data[dataLen] := '\0';
      assert data[..] == Delivered(received, old(data[..]));
      assert data[..][dataLen] == '\0';
    }

    /** `Uart_IDLE_IRQHandler`: take the message in and handle it at once. */
    method OnIdleLine(received: seq<char>, player: Player, fs: Volume) returns (reply: Option<string>)
      requires Valid() && player.Valid() && data != player.filesNames && |received| <= DataMaxSize
      modifies this, data, player, player.audio, player.filesNames
      ensures Valid() && player.Valid() && !isReceived && dataLen == Terminator(|received|)
      ensures var msg := Delivered(received, old(data[..]));
              reply.Some? && data[..] == Edited(msg) &&
              Handled(fs, Decode(msg), old(player.State()), old(player.audio[..]), old(player.filesNames[..]),
                      player.State(), player.audio[..], player.filesNames[..], reply.value)
    {
      Receive(received);
      reply := Update(player, fs);
    }
  }
}

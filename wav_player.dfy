/**
 * The WAV player application layer: the player's globals, opening a file and
 * starting it from the beginning, the ping-pong refill of the 4096-byte audio
 * buffer on every half/full DMA event, playlist navigation, the transport
 * controls and the file-list serialiser.
 *
 * The storage card is a `Volume` handed to every operation that touches it:
 * the `*.wav` listing of the root directory in directory order and the
 * contents of every file. The codec driver and the I2S transport are recorded
 * as a log of the calls the player makes into them.
 */
module WavPlayer {

  import opened Common
  import opened Playlist

  /** `DMA_BUFFER_SIZE`: the ping-pong audio buffer and the file-list buffer are this long. */
  const DmaBufferSize: nat := 4096

  /** One half of the ping-pong buffer. */
  const HalfSize: nat := 2048

  /** `sizeof(WavHeader_t)`: eleven 32-bit words. */
  const HeaderSize: nat := 44

  /** `WavPlayerConfig_t` without the I2C handle. */
  datatype Config = Config(muted: bool, volume: Byte)

  /** `DmaState_t`: which half the DMA engine is playing. */
  datatype DmaState = HalfTransfer | FullTransfer

  /** `DmaEvent_t`: the transport reports a half or a full transfer done. */
  datatype DmaEvent = HalfTransferEvent | FullTransferEvent

  /** A call from the player into the codec driver or the I2S transport. */
  datatype Action =
    | CodecInit(config: Config)
    | CodecStop
    | CodecMute
    | CodecUnmute
    | CodecSetVolume(volume: Byte)
    | TransportInit(rate: nat)
    | TransportPlay(length: nat)
    | TransportStop
    | TransportPause
    | TransportResume

  /** The storage card: the `*.wav` listing of the root directory and the contents of every file. */
  datatype Volume = Volume(listing: seq<Name>, files: map<Name, seq<Byte>>)
  {
    /** Listed names are distinct, non-empty and can be opened; no file has the empty name. */
    predicate Valid()
    {
      WellFormed(listing) && [] !in files && forall i :: 0 <= i < |listing| ==> listing[i] in files
    }
  }

  /** The little-endian 32-bit word at offset `at`. */
  function LE32(b: seq<Byte>, at: nat): (r: nat)
    requires at + 4 <= |b|
    ensures r < U32Modulus
  {
    (b[at] as int) + 0x100 * (b[at + 1] as int) + 0x1_0000 * (b[at + 2] as int) + 0x100_0000 * (b[at + 3] as int)
  }

  /** A word inside the bytes read from the start of a file is the file's word there. */
  lemma HeaderWord(file: seq<Byte>, header: seq<Byte>, at: nat)
    requires |header| <= |file| && header == file[..|header|]
    ensures at + 4 <= |header| ==> LE32(header, at) == LE32(file, at)
  {
    if at + 4 <= |header| {
      assert header[at] == file[at] && header[at + 1] == file[at + 1];
      assert header[at + 2] == file[at + 2] && header[at + 3] == file[at + 3];
    }
  }

  /** What `f_read` delivers when asked for `want` bytes at read pointer `pos`: what is there, up to the end of the file. */
  function Chunk(file: seq<Byte>, pos: nat, want: nat): (c: seq<Byte>)
    requires pos <= |file|
    ensures |c| == Min(want, |file| - pos) && c == file[pos..pos + |c|]
  {
    file[pos..pos + Min(want, |file| - pos)]
  }

  /** Where `f_lseek(&file, sizeof(WavHeader_t))` leaves the read pointer: a seek past the end stops at the end. */
  function HeaderEnd(file: seq<Byte>): (p: nat)
    ensures p <= |file| && p <= HeaderSize
    ensures |file| >= HeaderSize ==> p == HeaderSize
  {
    Min(HeaderSize, |file|)
  }

  /** The buffer buf after `data` was copied into it at offset `at`. */
  function Spliced<T>(buf: seq<T>, at: nat, data: seq<T>): (r: seq<T>)
    requires at + |data| <= |buf|
    ensures |r| == |buf| && r[at..at + |data|] == data
    ensures forall i :: 0 <= i < |buf| && !(at <= i < at + |data|) ==> r[i] == buf[i]
  {
    buf[..at] + data + buf[at + |data|..]
  }

  // ---------------------------------------------------------------------------
  // The player's globals as one value, and the steps that change them

  datatype PlayerState = PlayerState(
    config: Config,
    isFileChosen: bool,
    isFinished: bool,
    fileLength: nat,
    remaining: nat,
    samplingFreq: nat,
    readLen: nat,
    dmaState: DmaState,
    currentName: Name,
    file: seq<Byte>,
    pos: nat,
    actions: seq<Action>)

  /** `WavPlayer_Reset` */
  function Cleared(v: PlayerState): PlayerState
  {
    v.(remaining := 0, readLen := 0, isFinished := true)
  }

  /** The first read of `WavPlayer_PlayFromBeginning`: up to a whole buffer right after the header. */
  function FirstChunk(file: seq<Byte>): seq<Byte>
  {
    Chunk(file, HeaderEnd(file), DmaBufferSize)
  }

  /**
   * `WavPlayer_PlayFromBeginning`: clear the finished flag, set the transport
   * clock, start the codec with the stored settings, read the first buffer
   * after the header, and start the transfer of the whole buffer.
   */
  function Rewound(v: PlayerState): PlayerState
  {
    var k := |FirstChunk(v.file)|;
    v.(isFinished := false,
       pos := HeaderEnd(v.file) + k,
       readLen := k,
       remaining := Wrap32(v.fileLength - k),
       actions := v.actions + [TransportInit(v.samplingFreq), CodecInit(v.config), TransportPlay(DmaBufferSize)])
  }

  /**
   * The part of `WavPlayer_PlayAudioFile` after a successful `f_open`: stop
   * the previous file if one was chosen, take the new file and its name, and
   * read the header (`len` and `rate` are the header words read).
   */
  function Opened(v: PlayerState, name: Name, content: seq<Byte>, len: nat, rate: nat): PlayerState
  {
    v.(actions := v.actions + (if v.isFileChosen then [CodecStop, TransportStop] else []),
       file := content,
       currentName := name,
       isFileChosen := true,
       pos := HeaderEnd(content),
       readLen := HeaderEnd(content),
       fileLength := len,
       samplingFreq := rate)
  }

  /** `WavPlayer_PlayAudioFile` after a successful `f_open`. */
  function Played(v: PlayerState, name: Name, content: seq<Byte>, len: nat, rate: nat): PlayerState
  {
    Rewound(Cleared(Opened(v, name, content, len, rate)))
  }

  /** `WavPlayer_Pause`: stop the codec and pause the transport, if a file was chosen. */
  function Paused(v: PlayerState): PlayerState
  {
    if v.isFileChosen then v.(actions := v.actions + [CodecStop, TransportPause]) else v
  }

  /** `WavPlayer_Stop`: stop everything, start the file over and pause it, if a file was chosen. */
  function Stopped(v: PlayerState): PlayerState
  {
    if v.isFileChosen then Paused(Rewound(Cleared(v.(actions := v.actions + [CodecStop, TransportStop])))) else v
  }

  /**
   * `WavPlayer_Resume`: if a file was chosen, start it over when it has
   * finished, otherwise restart the codec and resume the transport.
   */
  function Resumed(v: PlayerState): PlayerState
  {
    if !v.isFileChosen then v
    else if v.isFinished then Rewound(Cleared(v.(actions := v.actions + [CodecStop, TransportStop])))
    else v.(actions := v.actions + [CodecInit(v.config), TransportResume])
  }

  /**
   * After opening a file, the finished flag is clear, the player is on that
   * file, and the codec is started with the settings stored last by
   * `SetVolume`/`Mute`/`Unmute`, after the previous file was stopped if there was one.
   */
  lemma PlayedStartsFile(v: PlayerState, name: Name, content: seq<Byte>, len: nat, rate: nat)
    ensures var w := Played(v, name, content, len, rate);
            w.isFileChosen && !w.isFinished && w.currentName == name && w.file == content &&
            w.config == v.config && w.dmaState == v.dmaState &&
            w.actions == v.actions + (if v.isFileChosen then [CodecStop, TransportStop] else [])
                                   + [TransportInit(rate), CodecInit(v.config), TransportPlay(DmaBufferSize)]
  {
  }

  /**
   * `WavPlayer_PlayFromBeginning` reads min(4096, bytes after the header) and
   * sets the remaining count to the header's size word minus that, as a
   * 32-bit subtraction: exact when the word is at least the bytes read, and
   * wrapped round to a huge count when it is smaller.
   */
  lemma {:induction false} RewoundRemaining(v: PlayerState)
    requires v.fileLength < U32Modulus
    ensures var w := Rewound(v);
            w.readLen <= DmaBufferSize && w.readLen <= |v.file| - HeaderEnd(v.file) &&
            (v.fileLength >= w.readLen ==> w.remaining == v.fileLength - w.readLen) &&
            (v.fileLength < w.readLen ==> w.remaining == v.fileLength - w.readLen + U32Modulus)
  {
    var w := Rewound(v);
    if v.fileLength < w.readLen {
      assert 0 <= v.fileLength - w.readLen + U32Modulus < U32Modulus;
      assert w.remaining == Wrap32(v.fileLength - w.readLen);
    }
  }

  /**
   * The size word read at offset 4 is the RIFF chunk size, the file length
   * minus 8, not the length of the sample data. For a file laid out that way
   * the remaining count after the first read exceeds the bytes actually left
   * after the read pointer by 36, the rest of the 44-byte header.
   */
  lemma {:induction false} RiffSizeOverstates(v: PlayerState)
    requires |v.file| >= HeaderSize && v.fileLength == |v.file| - 8 && |v.file| - 8 < U32Modulus
    ensures var w := Rewound(v);
            w.pos <= |v.file| && w.remaining == (|v.file| - w.pos) + (HeaderSize - 8)
  {
    RewoundRemaining(v);
  }

  /** Which event the player accepts in each state. */
  function Expected(s: DmaState): DmaEvent
  {
    if s == FullTransfer then HalfTransferEvent else FullTransferEvent
  }

  /** The state an accepted event leaves behind. */
  function Flip(s: DmaState): DmaState
  {
    if s == FullTransfer then HalfTransfer else FullTransfer
  }

  /** The events `WavPlayer_DmaUpdate` acts on, in order, from state s; the others return at once. */
  function Accepted(s: DmaState, events: seq<DmaEvent>): seq<DmaEvent>
    decreases |events|
  {
    if events == [] then []
    else if events[0] == Expected(s) then [events[0]] + Accepted(Flip(s), events[1..])
    else Accepted(s, events[1..])
  }

  /** The event accepted at an even position is the one the starting state expects. */
  function Alternating(s: DmaState, i: nat): DmaEvent
  {
    if i % 2 == 0 then Expected(s) else Expected(Flip(s))
  }

  /** Whatever the transport reports, the accepted events alternate, starting with the one s expects. */
  lemma {:induction false} AcceptedAlternate(s: DmaState, events: seq<DmaEvent>)
    ensures var a := Accepted(s, events);
            |a| <= |events| && forall i :: 0 <= i < |a| ==> a[i] == Alternating(s, i)
    decreases |events|
  {
    if events != [] {
      AcceptedAlternate(Flip(s), events[1..]);
      AcceptedAlternate(s, events[1..]);
      var a := Accepted(s, events);
      if events[0] == Expected(s) {
        forall i | 0 < i < |a| ensures a[i] == Alternating(s, i) {
          assert a[i] == Accepted(Flip(s), events[1..])[i - 1];
          assert Flip(Flip(s)) == s;
        }
      }
    }
  }

  /** From the power-on state FULL_TRANSFER the accepted events go HALF, FULL, HALF, FULL, ... */
  lemma PowerOnAlternation(events: seq<DmaEvent>)
    ensures var a := Accepted(FullTransfer, events);
            forall i :: 0 <= i < |a| ==> a[i] == (if i % 2 == 0 then HalfTransferEvent else FullTransferEvent)
  {
    AcceptedAlternate(FullTransfer, events);
  }

  /** The half of the buffer an accepted event refills: the one the DMA engine has just finished playing. */
  function RefillOffset(event: DmaEvent): nat
  {
    if event == HalfTransferEvent then 0 else HalfSize
  }

  /**
   * One refill of `WavPlayer_DmaUpdate` while more than half a buffer remains:
   * read up to half a buffer and count it off the remaining bytes.
   */
  function Refilled(v: PlayerState): PlayerState
    requires v.pos <= |v.file| && v.remaining > HalfSize
  {
    var k := |Chunk(v.file, v.pos, HalfSize)|;
    v.(pos := v.pos + k, readLen := k, remaining := v.remaining - k)
  }

  /**
   * While more than half a buffer remains, the remaining count drops by exactly
   * the bytes read and stays positive, and the remaining count plus the read
   * pointer is unchanged.
   */
  lemma RefilledAccounting(v: PlayerState)
    requires v.pos <= |v.file| && v.remaining > HalfSize
    ensures var w := Refilled(v);
            w.readLen <= HalfSize && w.remaining == v.remaining - w.readLen > 0 &&
            w.remaining + w.pos == v.remaining + v.pos && w.pos <= |w.file|
  {
  }

  /** Up to k refills in a row, as long as more than half a buffer remains before each. */
  function RefilledTimes(v: PlayerState, k: nat): (w: PlayerState)
    requires v.pos <= |v.file|
    ensures w.pos <= |w.file| && w.file == v.file
    decreases k
  {
    if k == 0 || v.remaining <= HalfSize then v else RefilledTimes(Refilled(v), k - 1)
  }

  /**
   * While the file still holds k whole halves after the read pointer and the
   * count exceeds k halves, k refills read a whole half each and count off
   * exactly k halves.
   */
  lemma {:induction false} RefilledTimesFull(v: PlayerState, k: nat)
    requires v.pos + k * HalfSize <= |v.file| && v.remaining > k * HalfSize
    ensures RefilledTimes(v, k).remaining == v.remaining - k * HalfSize
    ensures RefilledTimes(v, k).pos == v.pos + k * HalfSize
    decreases k
  {
    if k > 0 {
      var w := Refilled(v);
      assert w.remaining == v.remaining - HalfSize && w.pos == v.pos + HalfSize;
      RefilledTimesFull(w, k - 1);
    }
  }

  /**
   * A track whose size word is 32000 and whose file holds 32000 bytes after
   * the 44-byte header: the first fill reads 4096 bytes and leaves 27904; six
   * refills later 15616 remain; after thirteen, 1280 remain, exactly the bytes
   * left in the file, so the fourteenth accepted event moves on to the next
   * file instead of counting off a partial half.
   */
  lemma SixteenKilohertzScenario(v: PlayerState)
    requires |v.file| == HeaderSize + 32000 && v.fileLength == 32000
    ensures var w := Rewound(v);
            w.readLen == 4096 && w.remaining == 27904 &&
            RefilledTimes(w, 6).remaining == 15616 &&
            RefilledTimes(w, 13).remaining == 1280 <= HalfSize &&
            RefilledTimes(w, 13).remaining == |v.file| - RefilledTimes(w, 13).pos
  {
    var w := Rewound(v);
    assert w.pos == HeaderSize + 4096;
    RefilledTimesFull(w, 6);
    RefilledTimesFull(w, 13);
  }

  /**
   * Until a file is chosen, `Pause`, `Stop` and `Resume` do nothing; once one
   * is chosen, none of the player's steps clears the flag again (only
   * `WavPlayer_Init` does).
   */
  lemma FileChosenSticky(fs: Volume, v0: PlayerState, buf0: seq<Byte>, v1: PlayerState, buf1: seq<Byte>, name: Name)
    ensures !v0.isFileChosen ==> Paused(v0) == v0 && Stopped(v0) == v0 && Resumed(v0) == v0
    ensures v0.isFileChosen ==> Paused(v0).isFileChosen && Stopped(v0).isFileChosen && Resumed(v0).isFileChosen
    ensures v0.isFileChosen && OpenOutcome(fs, true, v0, name, buf0, v1, buf1) ==> v1.isFileChosen
    ensures v0.isFileChosen && NextOutcome(fs, v0, buf0, v1, buf1) ==> v1.isFileChosen
    ensures v0.isFileChosen && PreviousOutcome(fs, v0, buf0, v1, buf1) ==> v1.isFileChosen
    ensures !v0.isFileChosen && (NextOutcome(fs, v0, buf0, v1, buf1) || PreviousOutcome(fs, v0, buf0, v1, buf1)) ==>
              v1 == v0 && buf1 == buf0
  {
  }

  /** The header words of a file: only those the file is long enough to supply are known. */
  predicate HeaderRead(content: seq<Byte>, v: PlayerState)
  {
    (|content| >= 8 ==> v.fileLength == LE32(content, 4)) &&
    (|content| >= 28 ==> v.samplingFreq == LE32(content, 24))
  }

  /**
   * State v1 and buffer buf1 are what an attempt to open `name` leaves from
   * state v0 and buffer buf0: the file played from the beginning if the
   * attempt was made and the file exists, otherwise nothing changed.
   */
  predicate OpenOutcome(fs: Volume, attempted: bool, v0: PlayerState, name: Name, buf0: seq<Byte>, v1: PlayerState, buf1: seq<Byte>)
  {
    if attempted && name in fs.files then
      var content := fs.files[name];
      v1 == Played(v0, name, content, v1.fileLength, v1.samplingFreq) && HeaderRead(content, v1) &&
      |FirstChunk(content)| <= |buf0| && buf1 == Spliced(buf0, 0, FirstChunk(content))
    else
      v1 == v0 && buf1 == buf0
  }

  /**
   * State v1 and buffer buf1 are what `WavPlayer_Next` leaves from v0 and buf0:
   * nothing happens unless a file was chosen; otherwise the stored name is
   * where the scan left it, and on a match that name is opened.
   */
  predicate NextOutcome(fs: Volume, v0: PlayerState, buf0: seq<Byte>, v1: PlayerState, buf1: seq<Byte>)
  {
    if !v0.isFileChosen then v1 == v0 && buf1 == buf0
    else
      var s := NextFrom(fs.listing, v0.currentName);
      OpenOutcome(fs, s.found, v0.(currentName := s.name), s.name, buf0, v1, buf1)
  }

  /** State v1 and buffer buf1 are what `WavPlayer_Previous` leaves from v0 and buf0. */
  predicate PreviousOutcome(fs: Volume, v0: PlayerState, buf0: seq<Byte>, v1: PlayerState, buf1: seq<Byte>)
  {
    if !v0.isFileChosen then v1 == v0 && buf1 == buf0
    else
      var s := PreviousFrom(fs.listing, v0.currentName);
      OpenOutcome(fs, s.found, v0.(currentName := s.name), s.name, buf0, v1, buf1)
  }

  /**
   * On a valid card of at least two files, `WavPlayer_Next` from the file at
   * index i opens and starts the cyclically next listed file.
   */
  lemma NextOpensSuccessor(fs: Volume, v0: PlayerState, buf0: seq<Byte>, v1: PlayerState, buf1: seq<Byte>, i: nat)
    requires fs.Valid() && |fs.listing| >= 2 && i < |fs.listing|
    requires v0.isFileChosen && v0.currentName == fs.listing[i]
    requires NextOutcome(fs, v0, buf0, v1, buf1)
    ensures var name := fs.listing[(i + 1) % |fs.listing|];
            name in fs.files && v1.currentName == name && v1.file == fs.files[name] &&
            v1.isFileChosen && !v1.isFinished &&
            |FirstChunk(fs.files[name])| <= |buf0| && buf1 == Spliced(buf0, 0, FirstChunk(fs.files[name]))
  {
    NextIsSuccessor(fs.listing, i);
    var name := fs.listing[(i + 1) % |fs.listing|];
    PlayedStartsFile(v0.(currentName := name), name, fs.files[name], v1.fileLength, v1.samplingFreq);
  }

  /**
   * On a valid card of at least two files, `WavPlayer_Previous` from the file
   * at index i opens and starts the cyclically preceding listed file.
   */
  lemma PreviousOpensPredecessor(fs: Volume, v0: PlayerState, buf0: seq<Byte>, v1: PlayerState, buf1: seq<Byte>, i: nat)
    requires fs.Valid() && |fs.listing| >= 2 && i < |fs.listing|
    requires v0.isFileChosen && v0.currentName == fs.listing[i]
    requires PreviousOutcome(fs, v0, buf0, v1, buf1)
    ensures var name := fs.listing[(i - 1 + |fs.listing|) % |fs.listing|];
            name in fs.files && v1.currentName == name && v1.file == fs.files[name] &&
            v1.isFileChosen && !v1.isFinished &&
            |FirstChunk(fs.files[name])| <= |buf0| && buf1 == Spliced(buf0, 0, FirstChunk(fs.files[name]))
  {
    PreviousIsPredecessor(fs.listing, i);
    var name := fs.listing[(i - 1 + |fs.listing|) % |fs.listing|];
    PlayedStartsFile(v0.(currentName := name), name, fs.files[name], v1.fileLength, v1.samplingFreq);
  }

  // ---------------------------------------------------------------------------
  // The file-list serialiser

  /** The names, each followed by a newline. */
  function Joined(names: seq<Name>): (s: string)
  {
    if names == [] then [] else Joined(names[..|names| - 1]) + names[|names| - 1] + ['\n']
  }

  lemma {:induction false} JoinedAppend(a: seq<Name>, b: seq<Name>)
    ensures Joined(a + b) == Joined(a) + Joined(b)
    decreases |b|
  {
    if b == [] {
      assert a + b == a;
    } else {
      var b' := b[..|b| - 1];
      assert (a + b)[..|a + b| - 1] == a + b';
      JoinedAppend(a, b');
    }
  }

  lemma JoinedOne(name: Name)
    ensures Joined([name]) == name + ['\n']
  {
    assert [name][..0] == [];
  }

  /**
   * The leading names the corrected serialiser writes when it starts at
   * offset idx: each name goes in only if it, its newline and the final NUL
   * fit in the buffer; it stops at the first one that does not, or at the end
   * of the directory.
   */
  function Fitting(names: seq<Name>, idx: nat): (shown: seq<Name>)
    ensures |shown| <= |names| && shown == names[..|shown|]
    ensures idx < DmaBufferSize ==> idx + |Joined(shown)| < DmaBufferSize
    decreases |names|
  {
    if names == [] || names[0] == [] || idx + |names[0]| + 1 >= DmaBufferSize then []
    else
      var rest := Fitting(names[1..], idx + |names[0]| + 1);
      JoinedAppend([names[0]], rest);
      JoinedOne(names[0]);
      [names[0]] + rest
  }

  /**
   * The corrected serialiser shows exactly the first k names when each of them
   * is non-empty, they fit, and the (k+1)-th is missing, empty or does not fit.
   */
  lemma {:induction false} FittingPrefix(names: seq<Name>, k: nat, idx: nat)
    requires k <= |names| && forall i :: 0 <= i < k ==> names[i] != []
    requires idx + |Joined(names[..k])| < DmaBufferSize
    requires Entry(names, k) == [] || idx + |Joined(names[..k])| + |Entry(names, k)| + 1 >= DmaBufferSize
    ensures Fitting(names, idx) == names[..k]
    decreases k
  {
    if k > 0 {
      assert names[..k] == [names[0]] + names[1..][..k - 1];
      JoinedAppend([names[0]], names[1..][..k - 1]);
      JoinedOne(names[0]);
      assert Entry(names[1..], k - 1) == Entry(names, k);
      FittingPrefix(names[1..], k - 1, idx + |names[0]| + 1);
    }
  }

  lemma SplicedTwice<T>(buf: seq<T>, x: seq<T>, y: seq<T>)
    requires |x| + |y| <= |buf|
    ensures Spliced(Spliced(buf, 0, x), |x|, y) == Spliced(buf, 0, x + y)
  {
  }

  /** A well-formed listing whose names and newlines fit in the buffer with the NUL is written out whole. */
  lemma FittingAll(names: seq<Name>, idx: nat)
    requires WellFormed(names) && idx + |Joined(names)| < DmaBufferSize
    ensures Fitting(names, idx) == names
  {
    assert names[..|names|] == names;
    FittingPrefix(names, |names|, idx);
  }

  /**
   * The offset at which `WavPlayer_ListAudioFiles`, as written, stores the
   * final NUL: its guard checks only that the next name starts inside the
   * buffer, not that the name, its newline and the NUL end inside it.
   */
  function AsWrittenListingEnd(names: seq<Name>, idx: nat): nat
    decreases |names|
  {
    if names == [] || names[0] == [] || idx >= DmaBufferSize then idx
    else AsWrittenListingEnd(names[1..], idx + |names[0]| + 1)
  }

  /**
   * As written, a listing whose names and newlines total 4096 bytes or more
   * (316 names of 12 characters, say) makes the serialiser write its final
   * NUL, and the last name before it, past the end of the 4096-byte buffer.
   */
  lemma {:induction false} AsWrittenListingOverflows(names: seq<Name>, idx: nat)
    requires WellFormed(names)
    ensures AsWrittenListingEnd(names, idx) >= Min(idx + |Joined(names)|, DmaBufferSize)
    ensures idx + |Joined(names)| >= DmaBufferSize ==> AsWrittenListingEnd(names, idx) >= DmaBufferSize
    decreases |names|
  {
    if names != [] && idx < DmaBufferSize {
      JoinedAppend([names[0]], names[1..]);
      JoinedOne(names[0]);
      assert [names[0]] + names[1..] == names;
      assert WellFormed(names[1..]) by {
        forall i, j | 0 <= i < j < |names[1..]| ensures names[1..][i] != names[1..][j] {
          assert names[1..][i] == names[i + 1] && names[1..][j] == names[j + 1];
        }
      }
      AsWrittenListingOverflows(names[1..], idx + |names[0]| + 1);
    }
  }

  // ---------------------------------------------------------------------------
  // The player

  class Player {
    var config: Config
    var isFileChosen: bool
    var isFinished: bool
    /** `gFileLength`: the header word at offset 4. */
    var fileLength: nat
    /** `gFileRemainingSize` */
    var remaining: nat
    var samplingFreq: nat
    /** `gFileReadBytesLen`: the bytes the last `f_read` delivered. */
    var readLen: nat
    var dmaState: DmaState
    /** `gFileInfo.fname`: the name of the current file, and the cursor of the playlist scans. */
    var currentName: Name
    /** `gWavFile`: the contents of the open file and its read pointer. */
    var file: seq<Byte>
    var pos: nat
    /** Every call made into the codec driver and the I2S transport so far. */
    var actions: seq<Action>
    /** `gAudioBuffer` */
    const audio: array<Byte>
    /** `gFilesNames` */
    const filesNames: array<char>

    function State(): PlayerState
      reads this
    {
      PlayerState(config, isFileChosen, isFinished, fileLength, remaining, samplingFreq, readLen,
           dmaState, currentName, file, pos, actions)
    }

    ghost predicate Valid()
      reads this
    {
      audio.Length == DmaBufferSize && filesNames.Length == DmaBufferSize && pos <= |file|
    }

    /** The static initialisers of the globals, then `WavPlayer_Init`. */
    constructor (config: Config)
      ensures Valid() && fresh(audio) && fresh(filesNames)
      ensures State() == PlayerState(config, false, true, 0, 0, 0, 0, FullTransfer, [], [], 0, [])
    {
      this.config := config;
      isFinished := true;
      isFileChosen := false;
      fileLength := 0;
      remaining := 0;
      samplingFreq := 0;
      readLen := 0;
      dmaState := FullTransfer;
      currentName := [];
      file := [];
      pos := 0;
      actions := [];
      audio := new Byte[DmaBufferSize](_ => 0);
      filesNames := new char[DmaBufferSize](_ => '\0');
    }

    /** `WavPlayer_Reset` */
    method Reset()
      modifies this
      ensures State() == Cleared(old(State()))
    {
      remaining := 0;
      readLen := 0;
      isFinished := true;
    }

    /** `f_read(&gWavFile, &gAudioBuffer[at], want, &gFileReadBytesLen)` */
    method ReadInto(at: nat, want: nat)
      requires Valid() && at + want <= audio.Length
      modifies this, audio
      ensures Valid()
      ensures var c := Chunk(old(file), old(pos), want);
              State() == old(State()).(pos := old(pos) + |c|, readLen := |c|) &&
              audio[..] == Spliced(old(audio[..]), at, c)
    {
      var c := Chunk(file, pos, want);
      forall i | at <= i < at + |c| {
        audio[i] := c[i - at];
      }
      assert audio[..] == Spliced(old(audio[..]), at, c);
      pos := pos + |c|;
      readLen := |c|;
    }

    /** `WavPlayer_PlayFromBeginning` */
    method PlayFromBeginning()
      requires Valid()
      modifies this, audio
      ensures Valid()
      ensures State() == Rewound(old(State()))
      ensures audio[..] == Spliced(old(audio[..]), 0, FirstChunk(file))
    {
      isFinished := false;
      actions := actions + [TransportInit(samplingFreq), CodecInit(config)];
      pos := HeaderEnd(file);
      ReadInto(0, DmaBufferSize);
      remaining := Wrap32(fileLength - readLen);
      actions := actions + [TransportPlay(DmaBufferSize)];
    }

    /**
     * The part of `WavPlayer_PlayAudioFile` after a successful `f_open`: stop
     * the previous file if one was chosen, take over the new one and read its
     * header into a stack buffer. Header words past the end of a short file
     * are whatever the stack held.
     */
    method Open(name: Name, content: seq<Byte>)
      requires Valid()
      modifies this
      ensures Valid()
      ensures State() == Opened(old(State()), name, content, fileLength, samplingFreq)
      ensures HeaderRead(content, State()) && fileLength < U32Modulus && samplingFreq < U32Modulus
    {
      if isFileChosen {
        actions := actions + [CodecStop, TransportStop];
      }
      file := content;
      pos := 0;
      currentName := name;
      isFileChosen := true;
      var header := Chunk(file, 0, HeaderSize);
      pos := |header|;
      readLen := |header|;
      HeaderWord(file, header, 4);
      HeaderWord(file, header, 24);
      var staleLength: nat :| staleLength < U32Modulus;
      var staleRate: nat :| staleRate < U32Modulus;
      fileLength := if |header| >= 8 then LE32(header, 4) else staleLength;
      samplingFreq := if |header| >= 28 then LE32(header, 24) else staleRate;
    }

    /**
     * `WavPlayer_PlayAudioFile`: fails and changes nothing when the file cannot
     * be opened; otherwise makes it the current file and plays it from the beginning.
     */
    method PlayAudioFile(fs: Volume, name: Name) returns (ok: bool)
      requires Valid()
      modifies this, audio
      ensures Valid()
      ensures ok <==> name in fs.files
      ensures OpenOutcome(fs, true, old(State()), name, old(audio[..]), State(), audio[..])
    {
      if name !in fs.files {
        return false;
      }
      Open(name, fs.files[name]);
      Reset();
      PlayFromBeginning();
      ok := true;
    }

    /** `WavPlayer_SetVolume`: the volume is kept for later codec starts and sent to the codec now. */
    method SetVolume(volume: Byte)
      modifies this
      ensures State() == old(State()).(config := old(config).(volume := volume),
                                     actions := old(actions) + [CodecSetVolume(volume)])
    {
      config := config.(volume := volume);
      actions := actions + [CodecSetVolume(volume)];
    }

    /** `WavPlayer_Mute`: the muted flag is kept for later codec starts and the codec is muted now. */
    method Mute()
      modifies this
      ensures State() == old(State()).(config := old(config).(muted := true), actions := old(actions) + [CodecMute])
    {
      config := config.(muted := true);
      actions := actions + [CodecMute];
    }

    /** `WavPlayer_Unmute` */
    method Unmute()
      modifies this
      ensures State() == old(State()).(config := old(config).(muted := false), actions := old(actions) + [CodecUnmute])
    {
      config := config.(muted := false);
      actions := actions + [CodecUnmute];
    }

    /** `WavPlayer_Pause` */
    method Pause()
      modifies this
      ensures State() == Paused(old(State()))
    {
      if isFileChosen {
        actions := actions + [CodecStop, TransportPause];
      }
    }

    /** `WavPlayer_Stop` */
    method Stop()
      requires Valid()
      modifies this, audio
      ensures Valid()
      ensures State() == Stopped(old(State()))
      ensures old(isFileChosen) ==> audio[..] == Spliced(old(audio[..]), 0, FirstChunk(file))
      ensures !old(isFileChosen) ==> audio[..] == old(audio[..])
    {
      if isFileChosen {
        actions := actions + [CodecStop, TransportStop];
        Reset();
        PlayFromBeginning();
        Pause();
      }
    }

    /** `WavPlayer_Resume` */
    method Resume()
      requires Valid()
      modifies this, audio
      ensures Valid()
      ensures State() == Resumed(old(State()))
      ensures old(isFileChosen) && old(isFinished) ==> audio[..] == Spliced(old(audio[..]), 0, FirstChunk(file))
      ensures !(old(isFileChosen) && old(isFinished)) ==> audio[..] == old(audio[..])
    {
      if isFileChosen {
        if isFinished {
          actions := actions + [CodecStop, TransportStop];
          Reset();
          PlayFromBeginning();
        } else {
          actions := actions + [CodecInit(config), TransportResume];
        }
      }
    }

    /** `WavPlayer_IsFinished` */
    method IsFinished() returns (finished: bool)
      ensures finished == isFinished
    {
      finished := isFinished;
    }

    /** `WavPlayer_Next` */
    method Next(fs: Volume) returns (ok: bool)
      requires Valid()
      modifies this, audio
      ensures Valid()
      ensures ok == (old(isFileChosen) && NextFrom(fs.listing, old(currentName)).found)
      ensures NextOutcome(fs, old(State()), old(audio[..]), State(), audio[..])
    {
      if !isFileChosen {
        return false;
      }
      var listing := fs.listing;
      var current := currentName;
      var lead := FindNext(listing, FindFirst(listing));
      currentName := lead.name;
      var lag := FindFirst(listing);
      while lag.name != current
        invariant lag.pos <= |listing|
        invariant NextScan(listing, current, lead, lag) == NextFrom(listing, current)
        invariant State() == old(State()).(currentName := lead.name)
        invariant Valid() && audio[..] == old(audio[..])
        decreases |listing| - lag.pos
      {
        lead := Advance(listing, lead);
        currentName := lead.name;
        lag := FindNext(listing, lag);
        if lag.name == [] {
          return false;
        }
      }
      var _ := PlayAudioFile(fs, currentName);
      ok := true;
    }

    /** `WavPlayer_Previous` */
    method Previous(fs: Volume) returns (ok: bool)
      requires Valid()
      modifies this, audio
      ensures Valid()
      ensures ok == (old(isFileChosen) && PreviousFrom(fs.listing, old(currentName)).found)
      ensures PreviousOutcome(fs, old(State()), old(audio[..]), State(), audio[..])
    {
      if !isFileChosen {
        return false;
      }
      var listing := fs.listing;
      var current := currentName;
      var lag := FindFirst(listing);
      currentName := lag.name;
      var lead := FindNext(listing, FindFirst(listing));
      while lead.name != current
        invariant lag.pos <= |listing|
        invariant PreviousScan(listing, current, lag, lead) == PreviousFrom(listing, current)
        invariant State() == old(State()).(currentName := lag.name)
        invariant Valid() && audio[..] == old(audio[..])
        decreases |listing| - lag.pos
      {
        lead := Advance(listing, lead);
        lag := FindNext(listing, lag);
        currentName := lag.name;
        if lag.name == [] {
          return false;
        }
      }
      var _ := PlayAudioFile(fs, currentName);
      ok := true;
    }

    /**
     * `WavPlayer_ChooseTheFirstAudioFile`: if no file was chosen yet, take the
     * first listed file, marking it chosen before opening it, and pause it.
     */
    method ChooseTheFirstAudioFile(fs: Volume)
      requires Valid()
      modifies this, audio
      ensures Valid()
      ensures old(isFileChosen) ==> State() == old(State()) && audio[..] == old(audio[..])
      ensures !old(isFileChosen) && Entry(fs.listing, 0) == [] ==>
                State() == old(State()).(currentName := []) && audio[..] == old(audio[..])
      ensures var first := Entry(fs.listing, 0);
              !old(isFileChosen) && first != [] && first !in fs.files ==>
                State() == Paused(old(State()).(currentName := first, isFileChosen := true)) && audio[..] == old(audio[..])
      ensures var first := Entry(fs.listing, 0);
              !old(isFileChosen) && first != [] && first in fs.files ==>
                var content := fs.files[first];
                State() == Paused(Played(old(State()).(currentName := first, isFileChosen := true),
                                        first, content, fileLength, samplingFreq)) &&
                HeaderRead(content, State()) && audio[..] == Spliced(old(audio[..]), 0, FirstChunk(content))
    {
      if !isFileChosen {
        var c := FindFirst(fs.listing);
        currentName := c.name;
        if c.name != [] {
          isFileChosen := true;
          var _ := PlayAudioFile(fs, currentName);
          Pause();
        }
      }
    }

    /**
     * The refill of one half in `WavPlayer_DmaUpdate`: read half a buffer at
     * offset `at`; count it off while more than half a buffer remains,
     * otherwise zero the count and move on to the next file.
     */
    method Refill(fs: Volume, at: nat)
      requires Valid() && at + HalfSize <= audio.Length
      modifies this, audio
      ensures Valid()
      ensures var c := Chunk(old(file), old(pos), HalfSize);
              var buf := Spliced(old(audio[..]), at, c);
              (old(remaining) > HalfSize ==> State() == Refilled(old(State())) && audio[..] == buf) &&
              (old(remaining) <= HalfSize ==>
                 NextOutcome(fs, old(State()).(pos := old(pos) + |c|, readLen := |c|, remaining := 0), buf, State(), audio[..]))
    {
      readLen := 0;
      ReadInto(at, HalfSize);
      if remaining > HalfSize {
        remaining := remaining - readLen;
      } else {
        remaining := 0;
        var _ := Next(fs);
      }
    }

    /**
     * `WavPlayer_DmaUpdate`: an event the state does not expect changes
     * nothing; an accepted one refills the half the DMA engine has just played
     * and flips the state, also when the refill moved on to the next file.
     */
    method DmaUpdate(fs: Volume, event: DmaEvent)
      requires Valid()
      modifies this, audio
      ensures Valid()
      ensures event != Expected(old(dmaState)) ==> State() == old(State()) && audio[..] == old(audio[..])
      ensures event == Expected(old(dmaState)) ==>
                var c := Chunk(old(file), old(pos), HalfSize);
                var buf := Spliced(old(audio[..]), RefillOffset(event), c);
                dmaState == Flip(old(dmaState)) &&
                (old(remaining) > HalfSize ==>
                   State() == Refilled(old(State())).(dmaState := Flip(old(dmaState))) && audio[..] == buf) &&
                (old(remaining) <= HalfSize ==>
                   NextOutcome(fs, old(State()).(pos := old(pos) + |c|, readLen := |c|, remaining := 0), buf,
                               State().(dmaState := old(dmaState)), audio[..]))
    {
      match dmaState {
        case HalfTransfer =>
          if event != FullTransferEvent {
            return;
          }
          Refill(fs, HalfSize);
          dmaState := FullTransfer;
        case FullTransfer =>
          if event != HalfTransferEvent {
            return;
          }
          Refill(fs, 0);
          dmaState := HalfTransfer;
      }
    }

    /** One name and its newline copied into `gFilesNames` at offset `at`. */
    method WriteLine(at: nat, name: Name)
      requires at + |name| + 1 <= filesNames.Length
      modifies filesNames
      ensures filesNames[..] == Spliced(old(filesNames[..]), at, name + ['\n'])
    {
      forall j | 0 <= j < |name| {
        filesNames[at + j] := name[j];
      }
      filesNames[at + |name|] := '\n';
      assert filesNames[..] == Spliced(old(filesNames[..]), at, name + ['\n']);
    }

    /**
     * `WavPlayer_ListAudioFiles`, with the bound corrected: each listed name
     * followed by a newline, as long as the name, its newline and the final
     * NUL fit in `gFilesNames`, then the NUL.
     */
    method ListAudioFiles(fs: Volume)
      requires Valid()
      modifies filesNames
      ensures var out := Joined(Fitting(fs.listing, 0));
              |out| < filesNames.Length &&
              filesNames[..] == Spliced(old(filesNames[..]), 0, out + ['\0'])
    {
      var listing := fs.listing;
      var idx := 0;
      ghost var k := 0;
      var c := FindFirst(listing);
      while c.name != [] && idx + |c.name| + 1 < DmaBufferSize
        invariant k <= |listing| && c == Cursor(Entry(listing, k), if k < |listing| then k + 1 else |listing|)
        invariant forall i :: 0 <= i < k ==> listing[i] != []
        invariant idx == |Joined(listing[..k])| < DmaBufferSize == filesNames.Length
        invariant filesNames[..] == Spliced(old(filesNames[..]), 0, Joined(listing[..k]))
        decreases |listing| - k
      {
        assert listing[..k + 1] == listing[..k] + [c.name] && listing[..k + 1][..k] == listing[..k];
        SplicedTwice(old(filesNames[..]), Joined(listing[..k]), c.name + ['\n']);
        WriteLine(idx, c.name);
        idx := idx + |c.name| + 1;
        c := FindNext(listing, c);
        k := k + 1;
      }
      FittingPrefix(listing, k, 0);
      SplicedTwice(old(filesNames[..]), Joined(listing[..k]), ['\0']);
      ghost var before := filesNames[..];
      filesNames[idx] := '\0';
      assert filesNames[..] == Spliced(before, idx, ['\0']);
    }
  }
}

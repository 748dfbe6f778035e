# discovery-wav-player, modelled in Dafny

A model of the playback core of a WAV player for the STM32F407 Discovery
board, with proofs about it. The player streams 16-bit PCM from a FAT
volume to the CS43L22 codec over I2S. It refills a 4096-byte ping-pong
buffer on every half/full DMA event. It steps through the `*.wav` files of
the root directory and takes commands over an HC-05 Bluetooth serial link.

| file | module | what it holds |
|---|---|---|
| `common.dfy` | `Common` | bytes, `uint32_t` wrap-around, C strings (text up to the first NUL) |
| `i2s.dfy` | `I2s` | `DMA_MAX`, the transfer length, the PLLI2S table search, the handle settings, the callback filter |
| `cs43l22.dfy` | `Cs43l22` | the volume remap and its inverse, the read-modify-write bit operations, the ordered writes of `Init`/`Stop` on a register map |
| `playlist.dfy` | `Playlist` | the two-cursor directory scans of `Next`/`Previous` and their cyclic successor/predecessor meaning |
| `wav_player.dfy` | `WavPlayer` | the player's globals as a class; DMA refill, open/rewind, transport controls, `Next`/`Previous` loops, the file-list serialiser |
| `hc05.dfy` | `Hc05` | `atoi`, `UpCase`, the first-byte dispatch of `HC05_Update`, the idle-line interrupt |

The FAT volume is a value: the `*.wav` listing in directory order (distinct,
non-empty names; the empty name marks the end of the directory) and the bytes
of every file. `f_read` delivers min(requested, bytes left). A seek past the
end stops at the end. The codec driver and the I2S transport, as the player
calls them, are recorded as a log of actions. Separately, the codec driver is
modelled as a class over a map of its registers with a trace of its bus
writes.

Behaviour taken from the code as written:

- The player keeps two flags, `gIsFileChosen` and `gIsFinished`, and no
  other playback state. `Pause`, `Stop` and `Resume` do
  nothing until a file is chosen. Once a file is chosen, nothing but
  `WavPlayer_Init` clears the flag again.
- `gDmaState` starts as FULL_TRANSFER and is never reset when a file is
  opened. An accepted event therefore flips it even when the refill moved on
  to the next file.
- `gFileLength` is the header word at byte offset 4. In a RIFF WAVE file that
  word is the RIFF chunk size, not the length of the sample data.
  `RiffSizeOverstates` shows that the remaining count then exceeds the bytes
  left by 36. The first fill sets remaining := `gFileLength` − bytes read,
  modulo 2^32.
- With a single file, `Next` has no wrap check on its first step. It reports
  success, tries to open the empty name and leaves the stored name empty.
  `Previous` reports failure. With one file neither call returns that file.
- `ChooseTheFirstAudioFile` sets `gIsFileChosen` before it opens the file.
  The first open therefore logs a codec stop and a transport stop.

## Model

| member | source | states |
|---|---|---|
| `Common.Wrap32` | src/App/wav_player.c:267 | a `uint32_t` assignment keeps the value modulo 2^32, and leaves values in range unchanged |
| `Common.CStr` | src/Modules/hc-05/hc-05.c:150 | the C string at the start of a buffer is the prefix before the first NUL; it ends at that NUL or at the end of the buffer |
| `Common.CStrTerminated` | src/Modules/hc-05/hc-05.c:62 | a string followed by a NUL reads back as itself, whatever follows the NUL |
| `I2s.DmaMax` | src/Modules/I2s/I2s.h:19-20 | the clamp never exceeds 0xFFFF or its argument, and returns either the argument or 0xFFFF |
| `I2s.DmaMaxBelowLimit` | src/Modules/I2s/I2s.h:20 | `DMA_MAX(x) = x` for x ≤ 0xFFFF |
| `I2s.DmaMaxAboveLimit` | src/Modules/I2s/I2s.h:20 | `DMA_MAX(x) = 0xFFFF` for x > 0xFFFF |
| `I2s.DmaMaxIdempotentMonotone` | src/Modules/I2s/I2s.h:20 | `DMA_MAX` is idempotent and monotone |
| `I2s.TransferCount` | src/Modules/I2s/I2s.c:101-105 | `I2s_StartNewTransfer` requests at most 0xFFFF samples of `SAMPLE_SIZE` = 2 bytes, never more bytes than the buffer holds, and all whole samples of a buffer under 128 KiB |
| `I2s.PlayerBufferTransferCount` | src/Modules/I2s/I2s.h:21 | the 4096-byte player buffer goes out as 2048 samples |
| `I2s.TablesParallelAndDistinct` | src/Modules/I2s/I2s.c:23-25 | the three tables have 8 entries each and no sample rate appears twice |
| `I2s.PllClockConfig` | src/Modules/I2s/I2s.c:38-59 | a listed rate selects the PLLI2SN/PLLI2SR of its own entry; an unlisted rate gets the 8000 Hz settings N = 256, R = 5 without an error |
| `I2s.I2sHandle.FreqUpdate` | src/Modules/I2s/I2s.c:64-75 | the handle becomes SPI3, PLL clock, CPOL low, 16-bit, MCLK out, master transmit, Philips, at the given rate |
| `I2s.I2sHandle.Init` | src/Modules/I2s/I2s.c:91-96 | the PLL settings of the rate, then the handle settings |
| `I2s.TxCpltCallback` | src/Modules/I2s/I2s.c:137-144 | a transfer-complete callback is forwarded as "full transfer done" exactly when the instance is SPI3 |
| `I2s.TxHalfCpltCallback` | src/Modules/I2s/I2s.c:151-158 | a half-transfer callback is forwarded as "half transfer done" exactly when the instance is SPI3 |
| `Cs43l22.RearrangeVol` | src/Modules/CS43L22/CS43L22.c:23 | `REARRANGE_VOL(v)` is (v + 25) mod 256, always a byte |
| `Cs43l22.VolumeOf` | src/Modules/CS43L22/CS43L22.c:22-23 | the volume a MASTER_x_VOL code stands for is (code + 231) mod 256 |
| `Cs43l22.RearrangeVolBijective` | src/Modules/CS43L22/CS43L22.c:23 | the remap is a bijection on 0..255: `VolumeOf` undoes it on both sides and it is injective |
| `Cs43l22.RearrangeVolEnds` | src/Modules/CS43L22/CS43L22.c:22 | volume 0 is code 25 (−102 dB) and volume 255 is code 24 (+12 dB) |
| `Cs43l22.SetBitBits` | src/Modules/CS43L22/CS43L22.c:143 | OR-ing in `1 << p` sets bit p and no other bit |
| `Cs43l22.ClearBitBits` | src/Modules/CS43L22/CS43L22.c:144 | AND-ing with `~(1 << p)` clears bit p and no other bit |
| `Cs43l22.BitsDetermine` | src/Modules/CS43L22/CS43L22.c:217-223 | two register values with the same eight bits are the same value |
| `Cs43l22.EnableFieldBits` | src/Modules/CS43L22/CS43L22.c:140-156 | `Enable{Left,Right}HP` make their field "10" (always on) and change no other bit |
| `Cs43l22.DisableFieldBits` | src/Modules/CS43L22/CS43L22.c:158-192 | `Disable{Left,Right}{HP,SPK}` make their field "11" (always off) and change no other bit |
| `Cs43l22.MuteValueBits` | src/Modules/CS43L22/CS43L22.c:114-119 | `Mute` sets all four headphone bits and keeps every other POWER_CTL2 bit |
| `Cs43l22.UnmuteValueBits` | src/Modules/CS43L22/CS43L22.c:121-126 | `Unmute` sets HPA1/HPB1, clears HPA0/HPB0 and keeps every other POWER_CTL2 bit |
| `Cs43l22.MuteIdempotent` | src/Modules/CS43L22/CS43L22.c:114-119 | muting twice is muting once |
| `Cs43l22.UnmuteIdempotent` | src/Modules/CS43L22/CS43L22.c:121-126 | unmuting twice is unmuting once |
| `Cs43l22.UnmuteAfterMute` | src/Modules/CS43L22/CS43L22.c:114-126 | mute then unmute equals unmute alone, so every non-headphone bit is as before the mute |
| `Cs43l22.MuteAfterUnmute` | src/Modules/CS43L22/CS43L22.c:114-126 | unmute then mute equals mute alone |
| `Cs43l22.SpeakersOffBits` | src/Modules/CS43L22/CS43L22.c:176-192 | disabling both speakers sets the four speaker bits and keeps every other bit |
| `Cs43l22.AutoClockBits` | src/Modules/CS43L22/CS43L22.c:194-200 | `AutoDetectClock` sets the AUTO bit of CLOCKING_CTL and no other bit |
| `Cs43l22.InterfaceValueBits` | src/Modules/CS43L22/CS43L22.c:202-214 | the interface word has exactly DACDIF0, AWL1 and AWL0 set: slave, clock not inverted, no DSP, I2S, 16-bit words |
| `Cs43l22.HpSpkDisjoint` | src/Modules/CS43L22/CS43L22.c:140-192 | with distinct bit positions, no headphone bit is a speaker bit |
| `Cs43l22.InitPowerCtl2Fields` | src/Modules/CS43L22/CS43L22.c:59-73 | after `Init` both speakers are "11", and both headphones are "11" if muted and "10" if not, whatever POWER_CTL2 held |
| `Cs43l22.InitPowerSequence` | src/Modules/CS43L22/CS43L22.c:51-78 | `Init` raises the reset pin, powers down first and powers up last with no POWER_CTL1 write between, and writes the remapped volume just before powering up |
| `Cs43l22.ConfiguredRegsShadowPower` | src/Modules/CS43L22/CS43L22.c:57-77 | the power-down write leaves no trace in the registers once `Init` powers up |
| `Cs43l22.Codec.ReadReg` | src/Modules/CS43L22/CS43L22.c:225-232 | a register read returns what the register holds |
| `Cs43l22.Codec.WriteReg` | src/Modules/CS43L22/CS43L22.c:216-223 | a register write changes that register only and is appended to the trace |
| `Cs43l22.Codec.PullUpReset` | src/Modules/CS43L22/CS43L22.c:95-99 | the reset pin goes high and no register changes |
| `Cs43l22.Codec.PullDownReset` | src/Modules/CS43L22/CS43L22.c:101-105 | the reset pin goes low and no register changes |
| `Cs43l22.Codec.PowerDown` | src/Modules/CS43L22/CS43L22.c:128-132 | POWER_CTL1 := powered-down |
| `Cs43l22.Codec.PowerUp` | src/Modules/CS43L22/CS43L22.c:134-138 | POWER_CTL1 := powered-up |
| `Cs43l22.Codec.EnableHp` | src/Modules/CS43L22/CS43L22.c:140-156 | read-modify-write of POWER_CTL2 with the field enabled; one write |
| `Cs43l22.Codec.DisableHpOrSpk` | src/Modules/CS43L22/CS43L22.c:158-192 | read-modify-write of POWER_CTL2 with the field disabled; one write |
| `Cs43l22.Codec.Mute` | src/Modules/CS43L22/CS43L22.c:114-119 | POWER_CTL2 becomes the muted value; two writes, left then right |
| `Cs43l22.Codec.Unmute` | src/Modules/CS43L22/CS43L22.c:121-126 | POWER_CTL2 becomes the unmuted value; two writes, left then right |
| `Cs43l22.Codec.SetVolume` | src/Modules/CS43L22/CS43L22.c:107-112 | the same remapped code goes to MASTER_A_VOL, then MASTER_B_VOL |
| `Cs43l22.Codec.AutoDetectClock` | src/Modules/CS43L22/CS43L22.c:194-200 | CLOCKING_CTL gains the AUTO bit; one write |
| `Cs43l22.Codec.I2sInterface` | src/Modules/CS43L22/CS43L22.c:202-214 | INTERFACE_CTL1 := the interface word; one write |
| `Cs43l22.Codec.SetupOutputs` | src/Modules/CS43L22/CS43L22.c:61-64 | headphones enabled, then speakers disabled, in four writes |
| `Cs43l22.Codec.SetupInterface` | src/Modules/CS43L22/CS43L22.c:66-68 | clock auto-detect, then the interface word |
| `Cs43l22.Codec.SetupHeadphones` | src/Modules/CS43L22/CS43L22.c:69-76 | `Muted` selects `Mute` or `Unmute` |
| `Cs43l22.Codec.PowerDownForReset` | src/Modules/CS43L22/CS43L22.c:56-59 | reset pin high, then POWER_CTL1 powered down |
| `Cs43l22.Codec.Configure` | src/Modules/CS43L22/CS43L22.c:61-77 | the writes between power-down and power-up, in order, and the registers they leave |
| `Cs43l22.Codec.Init` | src/Modules/CS43L22/CS43L22.c:51-78 | the whole write sequence of `Init` and the registers it leaves |
| `Cs43l22.Codec.Start` | src/Modules/CS43L22/CS43L22.c:80-84 | POWER_CTL1 := powered-up |
| `Cs43l22.Codec.Stop` | src/Modules/CS43L22/CS43L22.c:86-93 | mute, MISC_CTL := 0, power down, reset pin low, in that order |
| `Playlist.FindNext` | src/App/wav_player.c:131 | `f_findnext` yields the entry under the cursor and moves past it, or the empty name at the end |
| `Playlist.FindFirst` | src/App/wav_player.c:118 | `f_findfirst` yields the first entry |
| `Playlist.Advance` | src/App/wav_player.c:131-136 | the wrapping step moves a cursor to the next entry, or back to the first at the end |
| `Playlist.AdvanceAt` | src/App/wav_player.c:131-136 | on a well-formed listing the wrapping step goes from entry i to entry (i + 1) mod n |
| `Playlist.Succ` | src/App/wav_player.c:132-136 | the cyclic successor index is (i + 1) mod n |
| `Playlist.Pred` | src/App/wav_player.c:172-176 | the cyclic predecessor is the index whose successor is i |
| `Playlist.PredIsMod` | src/App/wav_player.c:172-176 | the predecessor index is (i − 1 + n) mod n |
| `Playlist.NextScanFound` | src/App/wav_player.c:123-129 | the `Next` loop stops at the entry holding the stored name and ends on its successor |
| `Playlist.NextScanMissing` | src/App/wav_player.c:123-142 | for a name not in the rest of the listing, the `Next` loop ends without a match |
| `Playlist.PreviousScanFound` | src/App/wav_player.c:163-169 | the `Previous` loop stops at the entry whose successor holds the stored name |
| `Playlist.PreviousScanMissing` | src/App/wav_player.c:163-182 | for a name that no successor holds, the `Previous` loop runs off the end with the empty name |
| `Playlist.NextIsSuccessor` | src/App/wav_player.c:115-140 | with n ≥ 2 files, `Next` from index i matches and names index (i + 1) mod n |
| `Playlist.NextMissing` | src/App/wav_player.c:115-142 | with n ≥ 2 files, `Next` for an unlisted name fails and leaves the stored name on the second file |
| `Playlist.PreviousIsPredecessor` | src/App/wav_player.c:155-180 | with n ≥ 2 files, `Previous` from index i matches and names index (i − 1 + n) mod n |
| `Playlist.PreviousMissing` | src/App/wav_player.c:155-182 | with n ≥ 2 files, `Previous` for an unlisted name fails and empties the stored name |
| `Playlist.NextPreviousInverse` | src/App/wav_player.c:105-183 | on an unchanged listing `Previous` undoes `Next` and `Next` undoes `Previous` |
| `Playlist.NextTimesCycles` | src/App/wav_player.c:105-143 | k ≤ n calls of `Next` from index i reach index i + k, wrapping once |
| `Playlist.NextRoundTrip` | src/App/wav_player.c:105-143 | n calls of `Next` come back to the starting file |
| `Playlist.PreviousTimesAt` | src/App/wav_player.c:145-183 | k ≤ n calls of `Previous` from index i reach index i − k, wrapping once past the first entry |
| `Playlist.PreviousTimesCycles` | src/App/wav_player.c:145-183 | the same position as a remainder: k ≤ n calls of `Previous` reach index (i − k + n) mod n |
| `Playlist.PreviousRoundTrip` | src/App/wav_player.c:145-183 | n calls of `Previous` come back to the starting file |
| `Playlist.NextSingleton` | src/App/wav_player.c:118-128 | with one file, `Next` matches but names the empty name, because the first lead step has no wrap |
| `Playlist.PreviousSingleton` | src/App/wav_player.c:158-182 | with one file, `Previous` fails and empties the stored name |
| `Playlist.EmptyListing` | src/App/wav_player.c:118-142 | with no files, both scans match only the empty stored name, and name nothing |
| `WavPlayer.LE32` | src/App/wav_player.c:29-36 | a header word is a little-endian `uint32_t` |
| `WavPlayer.HeaderWord` | src/App/wav_player.c:213-215 | a word inside the header bytes read is the file's word there |
| `WavPlayer.Chunk` | src/App/wav_player.c:266 | `f_read` delivers min(requested, bytes left) bytes from the read pointer |
| `WavPlayer.HeaderEnd` | src/App/wav_player.c:265 | the seek to offset 44 stops at the end of a shorter file |
| `WavPlayer.Spliced` | src/App/wav_player.c:371 | a copy into the buffer changes exactly the bytes it covers |
| `WavPlayer.PlayedStartsFile` | src/App/wav_player.c:192-221 | after an open the file is chosen and not finished, and the name and contents are the new file's; the codec starts with the stored settings, after a codec and transport stop when a file was already chosen; `gDmaState` is not reset |
| `WavPlayer.NextOpensSuccessor` | src/App/wav_player.c:105-143 | on a valid card of n ≥ 2 files, `Next` from the file at index i opens and starts the file at index (i + 1) mod n, its contents loaded and the first buffer read from it |
| `WavPlayer.PreviousOpensPredecessor` | src/App/wav_player.c:145-183 | on a valid card of n ≥ 2 files, `Previous` from the file at index i opens and starts the file at index (i − 1 + n) mod n, its contents loaded and the first buffer read from it |
| `WavPlayer.RewoundRemaining` | src/App/wav_player.c:265-267 | the first fill reads at most 4096 bytes; remaining = size word − bytes read, wrapping modulo 2^32 when the word is smaller |
| `WavPlayer.RiffSizeOverstates` | src/App/wav_player.c:213-214 | with the RIFF size at offset 4, the remaining count exceeds the bytes left in the file by 36 |
| `WavPlayer.AcceptedAlternate` | src/App/wav_player.c:366-398 | whatever events arrive, the accepted ones alternate, starting with the one the state expects |
| `WavPlayer.PowerOnAlternation` | src/App/wav_player.c:60 | from the initial FULL_TRANSFER the accepted events go HALF, FULL, HALF, … |
| `WavPlayer.RefilledAccounting` | src/App/wav_player.c:373-376 | above 2048 the remaining count drops by exactly the bytes read (≤ 2048) and stays positive; count plus read pointer is preserved |
| `WavPlayer.RefilledTimes` | src/App/wav_player.c:371-376 | consecutive refills keep the read pointer inside the file |
| `WavPlayer.RefilledTimesFull` | src/App/wav_player.c:371-376 | k refills over a file with k whole halves left count off exactly k × 2048 |
| `WavPlayer.SixteenKilohertzScenario` | src/App/wav_player.c:257-270 | size word 32000: 27904 remain after the first fill, 15616 after six refills, and 1280 after thirteen, at which point the next event advances |
| `WavPlayer.FileChosenSticky` | src/App/wav_player.c:286-329 | `Pause`/`Stop`/`Resume` and `Next`/`Previous` do nothing before a file is chosen; afterwards none of them, nor an open, clears the flag |
| `WavPlayer.JoinedAppend` | src/App/wav_player.c:348-355 | the listing text of two runs of names is the concatenation of their texts |
| `WavPlayer.Fitting` | src/App/wav_player.c:348 | the names written are a prefix of the listing, and their text and the NUL fit in 4096 bytes |
| `WavPlayer.FittingPrefix` | src/App/wav_player.c:348-355 | exactly the first k names are written when they fit and the next is missing or does not fit |
| `WavPlayer.FittingAll` | src/App/wav_player.c:346-356 | a listing whose text fits with the NUL is written out whole |
| `WavPlayer.AsWrittenListingOverflows` | src/App/wav_player.c:348-356 | as written, a listing whose text reaches 4096 bytes puts the final NUL past the end of `gFilesNames` |
| `WavPlayer.Player.constructor` | src/App/wav_player.c:54-85 | the static initial values, then `WavPlayer_Init`: not chosen, finished, FULL_TRANSFER |
| `WavPlayer.Player.Reset` | src/App/wav_player.c:87-93 | remaining and bytes read become 0, finished becomes true |
| `WavPlayer.Player.ReadInto` | src/App/wav_player.c:371 | `f_read` into the buffer: only the bytes read change, and the read pointer moves by their count |
| `WavPlayer.Player.PlayFromBeginning` | src/App/wav_player.c:256-270 | clears finished, inits transport and codec, seeks past the header, fills the buffer from offset 0, sets remaining, starts the 4096-byte transfer |
| `WavPlayer.Player.Open` | src/App/wav_player.c:202-215 | stops the previous file if one was chosen, takes the new file and name, sets chosen, reads the size word at offset 4 and the rate at offset 24 |
| `WavPlayer.Player.PlayAudioFile` | src/App/wav_player.c:192-221 | fails and changes nothing when the file cannot be opened; otherwise plays it from the beginning |
| `WavPlayer.Player.SetVolume` | src/App/wav_player.c:223-228 | the volume is kept in the configuration and sent to the codec |
| `WavPlayer.Player.Mute` | src/App/wav_player.c:272-277 | the muted flag is kept and the codec is muted |
| `WavPlayer.Player.Unmute` | src/App/wav_player.c:279-284 | the muted flag is cleared and the codec is unmuted |
| `WavPlayer.Player.Pause` | src/App/wav_player.c:300-308 | codec stop and transport pause, only if a file was chosen |
| `WavPlayer.Player.Stop` | src/App/wav_player.c:286-298 | if a file was chosen: stop, restart from the beginning and pause; otherwise nothing |
| `WavPlayer.Player.Resume` | src/App/wav_player.c:310-329 | if a file was chosen: a finished file restarts from the beginning, otherwise codec start and transport resume |
| `WavPlayer.Player.IsFinished` | src/App/wav_player.c:331-335 | returns the finished flag |
| `WavPlayer.Player.Next` | src/App/wav_player.c:105-143 | false without scanning when no file was chosen; otherwise true exactly on a match, even if the open that follows fails; the stored name is where the lead cursor stopped |
| `WavPlayer.Player.Previous` | src/App/wav_player.c:145-183 | the mirror image of `Next`, with the stored name on the lag cursor |
| `WavPlayer.Player.ChooseTheFirstAudioFile` | src/App/wav_player.c:234-251 | if nothing is chosen, takes the first listed file, marking it chosen before opening it, then pauses |
| `WavPlayer.Player.Refill` | src/App/wav_player.c:370-381 | reads half a buffer; above 2048 counts it off, otherwise zeroes the count and runs `Next` |
| `WavPlayer.Player.DmaUpdate` | src/App/wav_player.c:363-404 | an unexpected event changes nothing; an accepted one refills only the half just played and flips the state, also after an advance |
| `WavPlayer.Player.WriteLine` | src/App/wav_player.c:349-352 | a name and its newline are copied at the given offset |
| `WavPlayer.Player.ListAudioFiles` | src/App/wav_player.c:337-361 | every name that fits, each followed by a newline, then a NUL, all inside the 4096 bytes |
| `Hc05.Digit` | src/Modules/hc-05/hc-05.c:158 | a decimal digit character |
| `Hc05.DigitValue` | src/Modules/hc-05/hc-05.c:163 | `c − 0x30` of a digit is below 10 and gives the digit back |
| `Hc05.Render` | src/Modules/hc-05/hc-05.c:161-174 | a value written in w digits has w digit characters |
| `Hc05.RenderValue` | src/Modules/hc-05/hc-05.c:161-174 | a value below 10^w written in w digits reads back as itself |
| `Hc05.ValueRender` | src/Modules/hc-05/hc-05.c:161-174 | a digit string is the rendering of its value at its own width |
| `Hc05.VolumeRoundTrip` | src/Modules/hc-05/hc-05.c:147-176 | every rendering of 0..255 in 1 to 3 digits, leading zeros allowed, is accepted as itself |
| `Hc05.VolumeParsed` | src/Modules/hc-05/hc-05.c:147-176 | whatever `atoi` accepts is 1 to 3 digits rendering the value stored |
| `Hc05.Atoi` | src/Modules/hc-05/hc-05.c:147-176 | succeeds exactly on 1 to 3 digits with value ≤ 255 and yields that value; fails, storing nothing, otherwise |
| `Hc05.Upper` | src/Modules/hc-05/hc-05.c:62-68 | upper-casing keeps the length |
| `Hc05.UpperAt` | src/Modules/hc-05/hc-05.c:64-67 | each character is upper-cased on its own |
| `Hc05.UpperIdempotent` | src/Modules/hc-05/hc-05.c:58-69 | upper-casing twice is upper-casing once |
| `Hc05.UpCasedChanges` | src/Modules/hc-05/hc-05.c:58-69 | only 'a'..'z' before the first NUL change, each to its capital; the length stays |
| `Hc05.CStrUpCased` | src/Modules/hc-05/hc-05.c:62 | upper-casing keeps the terminating NUL where it was |
| `Hc05.UpCasedIdempotent` | src/Modules/hc-05/hc-05.c:58-69 | `UpCase` is idempotent on the buffer |
| `Hc05.UpCase` | src/Modules/hc-05/hc-05.c:58-69 | in place: the buffer before the start is untouched and the rest becomes its upper-cased form |
| `Hc05.DecodeVolume` | src/Modules/hc-05/hc-05.c:130-137 | 'v' with a 1 to 3 digit value 0..255 at index 2 sets that volume |
| `Hc05.DecodePlay` | src/Modules/hc-05/hc-05.c:99-113 | 'c' with a name at index 2 plays the upper-cased name; with length ≤ 2 it replies "No file name" |
| `Hc05.SuccessOnFallThrough` | src/Modules/hc-05/hc-05.c:80-144 | "[SUCCESS]\n" is the reply exactly when the command is not rejected and a player call that reports a result succeeded |
| `Hc05.ListReply` | src/Modules/hc-05/hc-05.c:96-98 | the 'l' reply is exactly the listed names that fit, each on its own line |
| `Hc05.AsWrittenTerminatorOverruns` | src/Modules/hc-05/hc-05.c:197-199 | as written, the NUL index 50 − NDTR is inside `gData` exactly when NDTR > 0 |
| `Hc05.Terminator` | src/Modules/hc-05/hc-05.c:197-199 | the corrected NUL index is inside `gData` and right after the received bytes when fewer than 50 came |
| `Hc05.Delivered` | src/Modules/hc-05/hc-05.c:196-199 | the buffer the dispatch sees is 50 bytes and NUL-terminated |
| `Hc05.DeliveredMessage` | src/Modules/hc-05/hc-05.c:194-199 | a received NUL-free message reads back as its bytes, losing the last one only when all 50 arrived |
| `Hc05.Link.constructor` | src/Modules/hc-05/hc-05.c:30-32 | no message received, buffer zeroed |
| `Hc05.Link.Update` | src/Modules/hc-05/hc-05.c:71-145 | nothing when no message was received; otherwise clears the flag, dispatches on the first byte with the player effect and reply of each command, and any other byte replies "undefined command" and calls nothing |
| `Hc05.Link.Receive` | src/Modules/hc-05/hc-05.c:196-199 | marks the message received and NUL-terminates it inside `gData` |
| `Hc05.Link.OnIdleLine` | src/Modules/hc-05/hc-05.c:193-207 | receive, then handle the message at once |

## Left out

- FatFs internals (`f_open`, `f_read`, `f_lseek`, the `f_find*` and `f_close`
  calls): the volume is a value. `f_open` fails exactly for a name not on the
  volume; name matching is exact, and FatFs case folding is not modelled; read
  errors are not modelled.
- STM32 HAL calls (I2C, I2S, RCC, UART, GPIO): foreign code. The codec's I2C
  transactions become register reads and writes; the HAL status results and
  the I2C timeout are not modelled.
- The player's log of codec and transport actions is not wired to the
  `Cs43l22.Codec` class; each is proved on its own.
- The calls `I2s_Play` and `I2s_Stop` made by the player are not declared by
  the I2S header. They are recorded as the abstract actions `TransportPlay` and
  `TransportStop`.
- `I2s_SetHandle`, `I2s_Pause`, `I2s_Resume` and `I2s_StopTransfer` only
  forward to the HAL. The handle is the `I2sHandle` object.
- `HC05_Init`, `HC05_Print` and re-arming the UART receive: serial I/O.
  Replies are returned as strings.
- Interrupt concurrency: each DMA callback, the idle-line interrupt and each
  command is one atomic step.
- Audio content and actual clock frequencies: only the table selection is
  modelled.
- The register addresses, power values and bit positions of the codec's
  memory-map header are parameters. They are constrained only to distinct
  registers and distinct bit positions below 8.
- File names are not bounded to 12 characters. A longer name sent with 'c'
  would overflow the 13-byte `gFileInfo.fname` in the source; the model stores
  it whole.
- `WavPlayer.Player.Open`: header words beyond the end of a file shorter than
  the header are uninitialised stack memory. The model leaves them as arbitrary
  32-bit values.
- `WavPlayer.Player.ListAudioFiles`: models the corrected bound (see
  Findings). The as-written overrun is stated by
  `WavPlayer.AsWrittenListingOverflows`.
- `Hc05.Link.Receive`: keeps the terminator inside `gData` (see Findings). The
  as-written index is stated by `Hc05.AsWrittenTerminatorOverruns`.

## Findings

| source | as written | input that shows it | evidently intended | confidence | as-written member | corrected member |
|---|---|---|---|---|---|---|
| src/Modules/hc-05/hc-05.c:197-199 | the NUL is stored at `gData[50 − NDTR]` | a message that fills all 50 bytes, so NDTR = 0: the NUL goes to `gData[50]`, one past the end | the terminator stays inside the 50-byte buffer | high; not executed | `Hc05.AsWrittenTerminatorOverruns` | `Hc05.DeliveredMessage` |
| src/App/wav_player.c:348-356 | the loop only checks that the next name starts below 4096 | a listing whose names and newlines total 4096 bytes or more, e.g. 316 names of 12 characters: the last name, its newline and the NUL are written past `gFilesNames[4095]` | write only names that fit together with the final NUL | high; not executed | `WavPlayer.AsWrittenListingOverflows` | `WavPlayer.Player.ListAudioFiles` |

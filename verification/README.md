# Streamly: bits, frames, pacing and sessions

Streamly plays media into Discord voice channels. This project models the parts of it that are small programs in
their own right, and proves what they promise.

- **Parameter sets** (`Bits`, `Emulation`, `Syntax`, `BitStream`, `Sps`, `SpsCopy`, `SpsRewriter`, `SpsTheorems`,
  `SpsTable`, `SpsLimits`). The H.264 sequence parameter set rewriter, from single bits up: reader and writer with emulation
  prevention and Exp-Golomb codes, the syntax of Rec. ITU-T H.264 sections 7.3.2.1.1, E.1.1 and E.1.2, and the rewrite
  as parse, patch and print. Parsing and printing are functions on bits; the methods that read, copy and write are
  proved equal to them, and the laws are proved about the functions. What parse and print are is pinned a second time by
  the standard's syntax tables, written out row by row. A panic, recovered in Go, is None.
- **Frames** (`Frame`, `FrameTheorems`). Splitting, replacing and joining NAL units in a scratch buffer (annex B of
  the same standard).
- **Playback** (`Playback`, `PlaybackRun`, `PlaybackLimits`). The sender's pacing with pause cards, loading cards,
  splices, pause events and the shared clock; the pool's position. Methods of the classes equal functions on values;
  a run interleaves those functions for two pumps, the pool and time in any order, one step for each section that a
  lock makes indivisible.
- **Source** (`Network`, `Source`). One seekable byte stream over connections that fail, end early or ignore ranges. The
  network is an arbitrary trace of outcomes; functions on the trace say what each call finds, and every method is proved
  to do what they say.
- **Sessions** (`SeekRun`, `SwapRun`). The seek handshake, within a stream and from one stream to the next, and the hot
  swap, as runs of their locked sections.
- **Transcoder plumbing** (`Queue`, `QueueRun`, `AudioFifo`). The linked packet queue, demultiplexing by two threads,
  and the cutting of sound into encoder frames.
- **Selection and layout** (`Quality`, `Wrap`). Ranking and picking qualities; the text of the pause card.

Runs are sequences of steps; a theorem about `Run(s, steps)` for every `steps` is a statement about every reachable state.
What is not known in advance (the network, the encoder, the abort flag, the clock) is a parameter or a choice of a step.

## What the code does not do

Each of these was met while proving the expected law; the law is stated with the exact condition, and a run or an input
shows it fail.

- A value of 2^32 - 1 can be read from an Exp-Golomb code and cannot be written (`WrittenIsReadBack`, `RewriteParses`;
  `WideOffsetIsLost` gives a unit).
- A scaling list is read to its end although section 7.3.2.1.1.1 of Rec. ITU-T H.264 ends it early once the next scale
  is 0 (`ScalingListAgrees`; `EarlyStopIsReadOn` gives lists).
- A pause card whose pause the audio pump applies while it is on its way does not call for a key frame
  (`NoFrameBeforeKeyFrame` and its converse `OvertakingViolates`; `LateCardPassesGate` gives a run).
- A second pause that ends before the first was applied overwrites it; an anchored clock then moves too little by the
  first pause (`ShiftsArePausedTime`; `OverwrittenPauseIsLost` gives a run).
- A replay that comes to a clean end on a chunk boundary below the offset makes `Read` report the end of the stream, once
  the retries are used up, although bytes are known to be left (`EarlyEndIff`; `EarlyEnd` gives a server).
- A seek accepted after the loop's return is not served, and a seek accepted after a teardown for a swap is served by the
  stream that is swapped in (`ServedIffAttended`, `HandOverLeavesSeek`; `SeekAfterLastTurn`, `SeekAfterTeardownLeaks` and
  `SeekSurvivesSwap` give runs).
- A swap hands the session over exclusively only if every grant before has ended (`HandOverIsExclusiveIff`). Swaps that
  overlap, a swap before play and an acquisition during a swap lead to two live loops (`SwapsOverlap`, `SwapBeforePlay`,
  `AcquireDuringSwap`). A swap of a loop that has only just been launched does not cancel it (`SwapCancels`;
  `LaunchedLoopIsMissed` gives a run).
- Below the target, the ranking puts the less preferred of two entries of the same height first (`RankingIsRight`;
  `PreferenceTurns`).

## Model

| member | source | states |
|---|---|---|
| `Emulation.UnescapeEscape` | internal/streamer/h264_bitstream.go:124-136 | Removing the 0x03 bytes the writer inserts gives back every payload. |
| `Emulation.EscapeIsSafe` | internal/streamer/h264_bitstream.go:124-136 | Written bytes never hold 00 00 followed by 00, 01 or 02, and every 03 after two zeros guards a byte of at most 3. |
| `Emulation.EscapeUnescape` | internal/streamer/h264_bitstream.go:38-43 | Escaping what the reader's skip leaves restores a buffer if and only if the buffer obeys those two rules. |
| `Emulation.EscapeAfterHeader` | internal/streamer/h264.go:163-166 | The reader skips the header byte and the writer writes it: a nonzero header has no part in the escaping of what follows. |
| `BitStream.BitReader.constructor` | internal/streamer/h264_bitstream.go:14-18 | A new reader stands at bit 0 of the unescaped buffer. |
| `BitStream.BitReader.SkipGuard` | internal/streamer/h264_bitstream.go:38-43 | At a byte boundary a guarding 03 is stepped over once; the position in the unescaped bits is unchanged. |
| `BitStream.BitReader.ReadBits` | internal/streamer/h264_bitstream.go:20-80 | Any chunking of reads returns consecutive bits of the unescaped buffer (the last 32 of a wider read), across guards and at every alignment; past the end it fails, which panics in Go. |
| `BitStream.BitReader.ReadUE` | internal/streamer/h264_bitstream.go:82-94 | Reads one Exp-Golomb code: as many bits behind the first one as zeros before it, in 32-bit arithmetic. |
| `BitStream.BitReader.ReadSE` | internal/streamer/h264_bitstream.go:96-108 | The signed value of the code, odd codes positive. |
| `BitStream.BitWriter.Emit` | internal/streamer/h264_bitstream.go:124-136 | A full byte joins the payload, with a guard in the buffer exactly where the rule asks for one. |
| `BitStream.BitWriter.WriteBits` | internal/streamer/h264_bitstream.go:138-185 | Appends exactly the low bits asked for, at every alignment. |
| `BitStream.BitWriter.WriteUE` | internal/streamer/h264_bitstream.go:187-194 | Appends the code of the value, which wraps at 32 bits. |
| `BitStream.BitWriter.WriteSE` | internal/streamer/h264_bitstream.go:196-208 | Appends the code of the signed value. |
| `BitStream.BitWriter.Flush` | internal/streamer/h264_bitstream.go:124-136 | Pads with zeros to the next byte, with a whole zero byte where the bits already end in a full one. |
| `BitStream.ReaderSeesWriter` | internal/streamer/h264_bitstream.go:20-80 | A reader over a writer's buffer sees exactly the bits that were written. |
| `BitStream.WrittenIsReadBack` | internal/streamer/h264_bitstream.go:82-208 | For any sequence of u(n), ue and se writes followed by flush: the matching reads return the written values if and only if every value is in range (n up to 32, ue up to 2^32 - 2), and the bytes are safe. |
| `Syntax.ReadsWhatWasWritten` | internal/streamer/h264_bitstream.go:20-108 | Values in range are read back exactly, whatever bits follow them. |
| `Syntax.OutOfRangeOverruns` | internal/streamer/h264_bitstream.go:187-194 | With a value out of range, matching reads would consume at least 65 bits more than were written. |
| `Syntax.CodeOfSuffix` | internal/streamer/h264_bitstream.go:187-194 | Table 9-2 of Rec. ITU-T H.264: z zeros, a one and z more bits are written for 2^z - 1 plus the value of those bits. |
| `Syntax.SignsAlternate` | internal/streamer/h264_bitstream.go:96-108 | Table 9-3: the code numbers 1, 2, 3, 4 stand for 1, -1, 2, -2, and so on, both when read and when written. |
| `Syntax.ReadsCode` | internal/streamer/h264_bitstream.go:20-108 | What was read through codes of at most 31 leading zeros is, bit for bit, what the values are written as. |
| `SpsCopy.CopyHRDParameters` | internal/streamer/h264.go:450-470 | Reads the HRD syntax group and writes the same group; fails exactly where a read passes the end. |
| `SpsCopy.CopyScalingList` | internal/streamer/h264.go:213-235 | Reads and writes every delta of a list of the given size, whatever scales they give. |
| `SpsCopy.CopyScalingLists` | internal/streamer/h264.go:206-239 | Eight or twelve lists, the first six of size 16, each behind its present flag. |
| `SpsCopy.CopyChroma` | internal/streamer/h264.go:176-243 | The chroma, bit depth and scaling matrix fields of the high profiles, copied. |
| `SpsCopy.CopyPoc` | internal/streamer/h264.go:247-269 | The three kinds of picture order count, with the cycle's offsets, copied. |
| `SpsCopy.CopyFrame` | internal/streamer/h264.go:271-299 | Reference frames, size, field flags and cropping, copied; max_num_ref_frames is returned. |
| `SpsCopy.DropSignal` | internal/streamer/h264.go:353-371 | The video signal type is read whole and written as absent. |
| `SpsCopy.CopyPicture` | internal/streamer/h264.go:327-381 | Aspect ratio, overscan and chroma location copied, the video signal type dropped. |
| `SpsCopy.CopyTiming` | internal/streamer/h264.go:383-392 | The timing fields, copied. |
| `SpsCopy.CopyHrds` | internal/streamer/h264.go:394-416 | Both HRD groups, and the low delay flag where either is present, copied. |
| `SpsRewriter.AddBitstreamRestriction` | internal/streamer/h264.go:301-312 | Writes the fixed restriction with no reordering and max_num_ref_frames buffers. |
| `SpsRewriter.RewriteRestriction` | internal/streamer/h264.go:420-439 | A restriction that is there keeps five fields and has the two limits forced; one that is not is added. |
| `SpsRewriter.RewriteVui` | internal/streamer/h264.go:314-441 | The patched VUI is written for every VUI read, and an empty one with a restriction where there is none. |
| `SpsRewriter.RewriteSPSVUI` | internal/streamer/h264.go:151-448 | For every byte sequence the rewriter returns the printed form of the patched parse, or nothing exactly when the parse runs past the end; what parse and print are is pinned by the table of descriptors below. |
| `SpsTable.ParseIsTable` | internal/streamer/h264.go:163-448 | A unit is accepted as s if and only if s has the shape that the syntax tables prescribe (profiles with chroma fields, chroma format 3, 8 or 12 lists of 16 or 64, aspect 255, the loops) and the payload, read descriptor by descriptor, gives the rows of the tables. |
| `SpsTable.ParsedBeginsWithTable` | internal/streamer/h264.go:163-448 | What is accepted, through codes of at most 31 leading zeros, begins with the code of those rows. |
| `SpsTable.TableIsParsed` | internal/streamer/h264.go:163-448 | A unit that begins with the code of the rows of a shaped set in range is accepted as that set. |
| `SpsTable.RewrittenBeginsWithTable` | internal/streamer/h264.go:301-446 | The output begins with the code of the rows of the patched fields, and the stop bit follows. |
| `SpsTheorems.ParsePrinted` | internal/streamer/h264.go:163-448 | Parsing a printed parameter set returns it if and only if every value fits its code. |
| `SpsTheorems.RewriteParses` | internal/streamer/h264.go:151-448 | The rewritten unit parses as the patched parameter set if and only if every value written again fits its code. |
| `SpsTheorems.MeaningKept` | internal/streamer/h264.go:301-439 | Field by field: everything is as before, except no video signal type, restriction present, no reordering, max_dec_frame_buffering equal to max_num_ref_frames, and fixed defaults where there was no restriction. |
| `SpsTheorems.RewriteIdempotent` | internal/streamer/h264.go:151-448 | Rewriting a rewritten unit returns it byte for byte. |
| `SpsTheorems.RewriteIsOneUnit` | internal/streamer/h264.go:166-166 | The output starts with the input's header byte and holds no start code. |
| `SpsTheorems.TrailingZero` | internal/streamer/h264.go:443-444 | The output ends in a zero byte if and only if the stop bit filled a byte before the flush. |
| `SpsLimits.ScalingListAgrees` | internal/streamer/h264.go:221-235 | On a list the code can read, it reads what section 7.3.2.1.1.1 of Rec. ITU-T H.264 reads if and only if no delta but the last brings the next scale to 0. |
| `SpsLimits.EarlyStopIsReadOn` | internal/streamer/h264.go:221-235 | Lists of every size from 2 on that the code reads whole and the standard does not: the first delta is -8, zeros follow. |
| `SpsLimits.WideOffsetIsLost` | internal/streamer/h264_bitstream.go:187-194 | A concrete unit whose cropping offset is 2^32 - 1: it parses, and its rewritten form does not parse as the patched set. |
| `Frame.SplitNALUs` | internal/streamer/h264.go:108-149 | The loop returns the units between start codes, in order, empty ones left out, one zero before a start code taken as part of it. |
| `Frame.GrowByteScratch` | internal/streamer/h264.go:87-106 | The old array where it is large enough, else a new one of the size needed. |
| `Frame.RewriteNALUs` | internal/streamer/h264.go:36-58 | Each unit of type 7 that can be rewritten is replaced in place, all others stay; the flag tells whether any was. |
| `Frame.SpaceNeeded` | internal/streamer/h264.go:60-66 | The frame length plus the room that all start codes and units take, so that joining never outgrows the buffer. |
| `Frame.JoinInto` | internal/streamer/h264.go:68-75 | Start code and unit for every unit, in order, never beyond the capacity. |
| `Frame.RewriteH264SPSInto` | internal/streamer/h264.go:34-85 | The whole operation equals the frame rewrite, in the scratch buffer where there is one; without a rewritable unit the frame is returned and the scratch untouched. |
| `FrameTheorems.SplitUnits` | internal/streamer/h264.go:108-149 | Every unit that splitting returns is non-empty and holds no start code. |
| `FrameTheorems.SplitIs` | internal/streamer/h264.go:108-149 | A buffer without 00 00 01 is one unit unless it is empty; 00 00 01, or 00 00 00 01 with exactly one zero more, ends a unit, which counts unless it is empty; the rest is split in the same way. |
| `FrameTheorems.UnitIsReplaced` | internal/streamer/h264.go:39-52 | The units replaced are those whose first byte has 7 in its low five bits and that can be parsed; they become the printed patched set. |
| `FrameTheorems.SplitJoin` | internal/streamer/h264.go:70-149 | Joining units and splitting again returns each unit less at most one zero byte before the next start code. |
| `FrameTheorems.ResplitIsIdentity` | internal/streamer/h264.go:118-123 | That is the identity if and only if no unit but the last ends in a zero byte. |
| `FrameTheorems.RewriteIsMap` | internal/streamer/h264.go:34-149 | Splitting the rewritten frame gives the units of the frame in order, each rewritable parameter set replaced, up to those zero bytes; a frame without one is returned as it is. |
| `FrameTheorems.H264ContainsIDR` | internal/streamer/h264.go:12-26 | True if and only if some unit has type 5. |
| `FrameTheorems.TypesAreLowBits` | internal/streamer/h264.go:12-26 | A unit's type is the low five bits of its first byte. |
| `FrameTheorems.RewriteKeepsIDR` | internal/streamer/h264.go:12-85 | The rewritten frame holds a type 5 unit exactly when the frame did. |
| `FrameTheorems.StrippedParses` | internal/streamer/h264.go:118-123 | A printed parameter set still parses to the same fields without the zero byte that splitting takes. |
| `FrameTheorems.StrippedParsesAsBefore` | internal/streamer/h264.go:118-123 | A unit that parses without the zero byte that splitting takes parses with it, to the same fields. |
| `FrameTheorems.RewriteFrameIdempotent` | internal/streamer/h264.go:34-149 | Where the parameter sets of a frame fit their codes, rewriting the rewritten frame returns it byte for byte if and only if there is nothing to rewrite, or no other unit but the last ends in a zero byte. |
| `Playback.PauseState.Pause` | internal/transcode/transcode.go:235-249 | A pause starts unless one is on. |
| `Playback.PauseState.Resume` | internal/transcode/transcode.go:251-267 | A pause that was on ends: its length is kept and the epoch goes up by one. |
| `Playback.PauseState.Event` | internal/transcode/transcode.go:304-317 | The last pause and its epoch, or nothing for a caller that has seen it. |
| `Playback.PoolSession.Pause` | internal/pool/pool.go:627-644 | Only a busy, running, recorded stream is paused, together with its transcoder. |
| `Playback.PoolSession.Resume` | internal/pool/pool.go:646-669 | The start moves by the time paused, if the stream has a start; the transcoder resumes. |
| `Playback.PoolSession.PositionAt` | internal/pool/pool.go:409-435 | Unpaused time since the start, capped at the length; 0 without a request or a start. |
| `Playback.MediaClock.Wait` | internal/streamer/play.go:656-708 | The first packet anchors the clock; later ones sleep for what they are early plus a positive extra delay, the anchor unchanged; a packet that has to sleep does not get through a cancelled context. |
| `Playback.MediaClock.LatenessOf` | internal/streamer/play.go:710-732 | How far an anchored clock is past the packet. |
| `Playback.MediaClock.Shift` | internal/streamer/play.go:734-751 | A positive shift moves the anchor by exactly that much, any other does nothing. |
| `Playback.MediaSender.BeginSegment` | internal/streamer/play.go:111-138 | Epoch, gate, clock and last video time start over, the splice gap becomes due, a peer that is taken up speaks again after a splice; debts and RTP time stay. |
| `Playback.MediaSender.ResolvePeer` | internal/streamer/play.go:186-242 | A peer is taken up once it can be had, and starts to speak then. |
| `Playback.MediaSender.ApplySegmentGap` | internal/streamer/play.go:154-184 | When the gap is due and the last RTP packet lies in the past, both tracks advance by the wall time since then, otherwise by nothing; the gap is no longer due. |
| `Playback.MediaSender.SendPauseFrame` | internal/streamer/play.go:298-325 | With a card and a peer: after the gap, video advances by one card and the pause debt grows by the same. Without either nothing changes. |
| `Playback.MediaSender.SendLoadingFrame` | internal/streamer/play.go:327-355 | With a card and a peer: after the gap, video advances by one card, the loading debt grows by the same, and a key frame is called for. Without either nothing changes. |
| `Playback.MediaSender.ApplyLoadingHold` | internal/streamer/play.go:357-374 | The loading debt is taken once; clock and audio advance by it. |
| `Playback.MediaSender.ConsumeVideoDrop` | internal/streamer/play.go:377-397 | A frame is dropped if and only if a key frame is called for and the frame holds no type 5 unit. |
| `Playback.MediaSender.ApplyPauseEvent` | internal/streamer/play.go:589-645 | A new epoch is taken once; audio advances by the pause or by the cards sent, whichever is longer, video by what the cards left of the pause; the clock shifts by the pause; without a peer the debt is written off and nothing advances. |
| `Playback.MediaSender.PumpVideo` | internal/streamer/play.go:557-570 | The frame goes out unless a key frame is called for and it holds none; sent or dropped, video advances by its time, and the packet is marked. |
| `Playback.MediaSender.PumpAudio` | internal/streamer/play.go:572-583 | Audio advances by the packet's time, 20 ms where it has none; a packet more than 350 ms late shifts the clock by all of it. |
| `Playback.FrameTime` | internal/streamer/play.go:762-780 | A second divided by the frame rate, 30 where none is set. |
| `PlaybackRun.AlwaysAligned` | internal/streamer/play.go:494-645 | After every step of every interleaving, video hold time less audio hold time equals the debts for cards sent, plus what a pump is about to pay or book. |
| `PlaybackRun.SettledMeansAligned` | internal/streamer/play.go:298-374 | Between critical sections that difference is pauseSent + loadingSent, hence zero once both are settled. |
| `PlaybackRun.NoFrameBeforeKeyFrame` | internal/streamer/play.go:557-628 | As long as the audio pump never applies a pause while its first card is on its way (nothing booked, no key frame called for or in hand, no new pause), no in-stream frame goes out between a card and the next frame with a key frame, in any interleaving. |
| `PlaybackLimits.OvertakingViolates` | internal/streamer/play.go:494-645 | The converse: from every reachable state in which the audio pump does so, steps of the video pump alone lead to an in-stream frame without the key frame it needs. |
| `PlaybackLimits.LateCardPassesGate` | internal/streamer/play.go:298-325 | An instance from any initial state: asked for a card, resumed, applied by the audio pump; a frame passes. |
| `PlaybackRun.EachPauseAppliedOnce` | internal/streamer/play.go:589-602 | Across both pumps, the pause epochs applied within a segment strictly increase. |
| `PlaybackRun.ShiftsArePausedTime` | internal/streamer/play.go:589-645 | From any reachable state with an anchored clock on, within the segment and with no event waiting at either end: the clock's wall time moves, apart from holds and catch-ups, by exactly the time that passed in pauses that are over, if and only if the pool never resumed while an event was waiting. |
| `PlaybackLimits.OverwrittenPauseIsLost` | internal/transcode/transcode.go:251-317 | A run from any initial state in which, after a packet has anchored the clock, two nanoseconds are paused and the clock moves by one. |
| `PlaybackRun.PausesAreNeutral` | internal/pool/pool.go:409-435 | Within a segment the gap between media clock and pool position moves only by loading holds, catch-ups and events not applied; a pause and resume that is applied leaves it as it was. |
| `PlaybackRun.PositionIsPlayedTime` | internal/pool/pool.go:409-435 | In every run the reported position is the segment's offset plus the time that passed without a pause since it began, capped at the length. |
| `PlaybackRun.SpliceIsSilence` | internal/streamer/play.go:154-184 | In every run a segment's splice adds to either track, once and for both pumps together, exactly the wall time between the last RTP packet before the gap is taken and then; that packet is the last before the segment, unless a pause was applied first. |
| `PlaybackRun.AdvancesAreMarked` | internal/streamer/play.go:140-146 | Whatever advances a track, the gap itself excepted, is marked as the last RTP packet. |
| `Source.MediaSource.Open` | internal/source/source.go:350-425 | State and error are what the trace makes of opening: after success the connection stands at the offset, whether the server honoured the range or replayed from 0. |
| `Source.MediaSource.Receive` | internal/source/source.go:318-333 | Bytes of the content where the connection stands, a clean end, or a failure; an end before the announced length is a failure. |
| `Source.MediaSource.ReceiveFull` | internal/source/source.go:477-486 | Exactly what the trace makes of filling a buffer; a clean end after some bytes is unexpected. |
| `Source.MediaSource.NoteSize` | internal/source/source.go:427-454 | A size that is learned is the length of the content. |
| `Source.MediaSource.Discard` | internal/source/source.go:456-492 | Exactly what the trace makes of throwing away so many bytes in chunks: how many come, the tick after, and the error; success consumes the whole prefix, and a clean end is reported as the end of the stream if and only if it falls on a chunk boundary. |
| `Source.MediaSource.Attempt` | internal/source/source.go:104-197 | One turn of the loop, with the bytes, error and state the trace determines: the next bytes of the content, an end, a cancellation, or a failed attempt that closes the connection. |
| `Source.MediaSource.Read` | internal/source/source.go:104-197 | Results and state are what the trace determines; at most MaxRetries + 1 failed attempts; offset and BytesRead grow by exactly the bytes delivered, which are the content at the offset; a cancellation is reported only where one was met; with bytes known to be left, an end is reported if and only if all attempts failed and the last one saw the server's replay end cleanly on a chunk boundary. |
| `Network.EarlyEndIff` | internal/source/source.go:104-197 | That condition, as a fact about every trace of outcomes: the replay at the tick of the last attempt comes to a clean end at a multiple of the chunk size below the offset. |
| `Network.HonestEnd` | internal/source/source.go:149-171 | Where every range is honoured an end is only reported with the size unknown or the offset at or past it. |
| `Network.ReliableReads` | internal/source/source.go:104-197 | Where nothing fails a read inside the content delivers bytes. |
| `Network.Outcome` | internal/source/source.go:104-197 | A read that reports neither bytes nor an end has made MaxRetries + 1 attempts, or has found the context cancelled at one of its ticks. |
| `Network.ReadsOn` | internal/source/source.go:104-197 | With the size known and bytes left, a read that is not cancelled delivers bytes if and only if one of its first MaxRetries + 1 attempts gets a connection and data, however those before it failed; if none does, it has made all of them. |
| `Source.EarlyEnd` | internal/source/source.go:104-197 | A server that tells the length once, then ignores the range and ends each connection at once: the end is reported at byte 1 of 2. |
| `Source.MediaSource.SizeOf` | internal/source/source.go:246-256 | Unknown or the length of the content; the offset does not move. |
| `Source.MediaSource.Seek` | internal/source/source.go:199-244 | Moves the offset to the target and nothing else; fails without effect for a target before 0 or an end that is not known. |
| `Source.Replay` | internal/source/source.go:104-256 | Over any sequence of reads, seeks and size questions under any failures, every call returns what it may at its offset; the offset is what the log of results makes it; the bytes read since the last accepted seek are the content from its target on; BytesRead counts all bytes in the log. |
| `SeekRun.Clamp` | internal/pool/pool.go:697-719 | The place in the medium (from 0 to two seconds before the end, where that is known) that is nearest to the target. |
| `SeekRun.SessionSeek.Seek` | internal/pool/pool.go:673-731 | A seek is accepted exactly on a busy session with a request that can be seeked; the place in the medium nearest to the target is then pending, and the installed segment is cancelled; a refused one changes nothing. |
| `SeekRun.SessionSeek.TakeSeek` | internal/pool/pool.go:123-139 | The pending target is handed out once. |
| `SeekRun.SessionSeek.ForgetSeek` | internal/pool/pool.go:895-898 | Teardown and release leave no pending seek and no segment to cancel. |
| `SeekRun.PendingMeansCancelled` | internal/pool/pool.go:1426-1438 | In every interleaving, past the pending check a pending seek implies that the installed segment context is cancelled. |
| `SeekRun.SegmentsStartWhereSought` | internal/pool/pool.go:932-1013 | Every segment of every stream starts at the latest target accepted, and neither taken nor cleared, before the loop turned, and every target is clamped. |
| `SeekRun.SeekIsServed` | internal/pool/pool.go:972-981 | A seek that is pending when the segment ends is where the next segment starts, unless the stream was stopped. |
| `SeekRun.ServedIffAttended` | internal/pool/pool.go:673-731 | Over all runs: an accepted seek that is not disturbed by another, a stop or a failing source is served (the loop goes on at its target) if and only if it came before the loop's return, or after a teardown for a swap, and its stream was not stopped. |
| `SeekRun.SeekIsSettled` | internal/pool/pool.go:932-1013 | From every state a few undisturbed steps settle a pending seek, one way or the other. |
| `SeekRun.SeekAfterLastTurn` | internal/pool/pool.go:678-731 | From any initial state, after a played segment and the loop's return: a seek is accepted, and whatever follows undisturbed it is not served. |
| `SeekRun.SeekAfterTeardownLeaks` | internal/pool/pool.go:884-900 | After a teardown for a swap a seek is accepted too, and the stream that is swapped in goes to its target. |
| `SwapRun.Session.Acquire` | internal/pool/pool.go:267-306 | A free session becomes busy with nothing of an old stream; a busy one is left alone. |
| `SwapRun.Session.Play` | internal/pool/pool.go:568-612 | The stop request of the old stream is forgotten, the new request and channel are set. |
| `SwapRun.Session.Stop` | internal/pool/pool.go:614-625 | A stop is asked for, and the controller that is installed is cancelled. |
| `SwapRun.Session.BeginSwap` | internal/pool/pool.go:493-514 | A busy session has its flag raised and its channel handed out; a free one is untouched. |
| `SwapRun.Session.RearmForSwap` | internal/pool/pool.go:540-564 | Busy, flag down, the per-stream fields blank; request, pending seek and pause functions stay as they are. |
| `SwapRun.Session.TeardownForSwap` | internal/pool/pool.go:884-900 | Controller, source, pending seek and segment cancel go; request and pause functions stay. |
| `SwapRun.Session.Release` | internal/pool/pool.go:733-785 | Controller, source, request, pause functions, pending seek, segment cancel and the per-stream fields go, the session is free; the swap flag is not touched. |
| `SwapRun.ClaimsAreOpenGrants` | internal/pool/pool.go:267-306 | In every run, turns or not: callers holding the session plus live loops number the grants (acquisitions and hand-overs) that have not ended in a release or a closing loop. |
| `SwapRun.HandOverIsExclusiveIff` | internal/pool/pool.go:491-538 | In every run, turns or not: the hand-over of a swap that waited is exclusive (one holder, no live loop) if and only if every grant before has ended. |
| `SwapRun.SwapHandsOver` | internal/pool/pool.go:491-564 | When callers take turns: at the moment a swap that waited returns, its channel is closed, no loop is live, the session is busy for this caller alone, the flag is down, controller and per-stream fields are gone, and an old loop that saw the flag has called OnClose. |
| `SwapRun.HandOverLeavesSeek` | internal/pool/pool.go:884-900 | At the hand-over no seek is pending if and only if none was accepted since the teardown, and none is where the old loop released the session. |
| `SwapRun.SeekSurvivesSwap` | internal/pool/pool.go:895-898 | A run in which a seek accepted after the teardown is pending when the next stream starts. |
| `SwapRun.OneLoopLives` | internal/pool/pool.go:804-880 | When callers take turns (a refused acquisition is always allowed) at most one loop is live, a live loop means a busy session, and no channel is closed twice. |
| `SwapRun.OnCloseOnce` | internal/pool/pool.go:836-878 | In every run, turns or not, each loop calls OnClose once: with the swap reason if it saw the flag, with another if it did not. |
| `SwapRun.OnCloseReason` | internal/pool/pool.go:819-878 | In every run, what OnClose is told is what was so when the stream returned: stopped if a stop had been asked for, else failed or ended; and swapped instead if the loop saw the flag. |
| `SwapRun.OnCloseAndChannel` | internal/pool/pool.go:836-878 | When callers take turns, a loop that saw the flag calls OnClose before its channel closes, any other one after. |
| `SwapRun.SwapCancels` | internal/pool/pool.go:516-520 | A swap cancels the loop it waits for if and only if that loop has installed its controller and not dropped it; one just launched is missed and plays on. |
| `SwapRun.LaunchedLoopIsMissed` | internal/pool/pool.go:516-520 | A run in which a swap right after the launch cancels nothing, and the loop goes on to stream. |
| `SwapRun.SomebodyWillClose` | internal/pool/pool.go:522-532 | Whenever a swap waits for a channel that is open, the loop that owns the channel is still on its way to closing it. |
| `SwapRun.SwapBeforePlay` | internal/pool/pool.go:504-514 | Turns are needed: a swap between an acquisition and the start of its stream leads to two live loops. |
| `SwapRun.AcquireDuringSwap` | internal/pool/pool.go:866-872 | Turns are needed: an acquisition between a loop's freeing the session and closing its channel leads to two live loops. |
| `SwapRun.SwapsOverlap` | internal/pool/pool.go:491-538 | Turns are needed: two swaps that wait for the same loop lead to two live loops. |
| `Queue.PacketQueue.constructor` | internal/transcode/transcode_c.c:477-495 | An empty queue of the given capacity, or of 48 where that is not positive. |
| `Queue.PacketQueue.Push` | internal/transcode/transcode_c.c:520-557 | A packet joins the end of the list when there is room; a full queue makes the caller wait, a finished one refuses, and both leave the list as it was. |
| `Queue.PacketQueue.TryPop` | internal/transcode/transcode_c.c:559-583 | The oldest packet leaves, or nothing does. |
| `Queue.PacketQueue.EmptyDone` | internal/transcode/transcode_c.c:585-592 | True if and only if finished and empty. |
| `Queue.PacketQueue.Finish` | internal/transcode/transcode_c.c:594-602 | No more may come; what is queued stays. |
| `Queue.PacketQueue.Destroy` | internal/transcode/transcode_c.c:497-518 | Every queued packet is freed once, in order. |
| `QueueRun.BoundedLosslessFifo` | internal/transcode/transcode_c.c:1139-1182 | In every interleaving, with or without faults: taken then queued is a prefix of what was routed, short of at most one packet; no queue outgrows its capacity. |
| `QueueRun.OverMeansNothingLeft` | internal/transcode/transcode_c.c:1514-1534 | A stream is held to be over only when its queue is finished and empty and the reader pushes no more, so that, unless reading was cut short, everything routed of the whole input has been taken. |
| `QueueRun.CleanRunTakesAll` | internal/transcode/transcode_c.c:1737-1789 | When the worker of a run without faults leaves its loop it has taken exactly the routed packets of the input, in order, of either kind. |
| `QueueRun.RoutedIs` | internal/transcode/transcode_c.c:1160-1168 | Routing is by the stream a packet belongs to, video first, audio only where there is any; all else is dropped. |
| `QueueRun.AudioInBatches` | internal/transcode/transcode_c.c:1521-1548 | After at most three packets of sound the worker goes back to video. |
| `QueueRun.NobodyStarves` | internal/transcode/transcode_c.c:524-533 | A reader that must wait waits at a full queue of a stream that is not over, for a worker that is still there. |
| `QueueRun.EveryCleanRunCanFinish` | internal/transcode/transcode_c.c:1737-1789 | No deadlock: every run without faults can be continued without faults to a state in which both threads are gone and the worker has taken exactly the routed packets of the input. |
| `AudioFifo.OutputPipeline.DrainAudioFifo` | internal/transcode/transcode_c.c:1211-1245 | Afterwards less than a frame waits, unless the encoder failed or the abort flag, looked at after every frame, was up; it stops at the first frame after which the flag is up; no sample is lost, frames are full, frame k starts at k frame sizes. |
| `AudioFifo.OutputPipeline.WriteSamples` | internal/transcode/transcode_c.c:1490-1508 | The same after any chunk, empty ones included. |
| `AudioFifo.OutputPipeline.FlushAudioPipeline` | internal/transcode/transcode_c.c:1247-1299 | The encoded frames join to the samples followed by fewer than a frame of zeros, and the encoder is told that no frame follows; otherwise it had failed on a frame or fails to drain. |
| `AudioFifo.OutputPipeline.EndEncoding` | internal/transcode/transcode_c.c:1298-1298 | The encoder is told that no frame follows. |
| `AudioFifo.EncodeStream` | internal/transcode/transcode_c.c:1426-1512 | So for any sequence of chunk sizes, unless the encoder fails or the job is aborted. |
| `AudioFifo.FramesDetermined` | internal/transcode/transcode_c.c:1211-1245 | Full frames are determined by the samples they join to. |
| `AudioFifo.DrainedDetermined` | internal/transcode/transcode_c.c:1211-1245 | After a drain, frames and queue depend only on the samples so far, not on how they arrived. |
| `AudioFifo.FlushedDetermined` | internal/transcode/transcode_c.c:1247-1299 | After the flush the frames depend only on the samples, and there are as few as can hold them. |
| `Wrap.WrapPauseBody` | internal/pool/playback.go:271-319 | For every text, width and line count the loop gives the capped packing of the words, nothing for no words, and panics exactly when lines must go and none may stay. |
| `Wrap.TruncateRunes` | internal/pool/playback.go:321-337 | The longest prefix of at most max runes; nothing for a max below 1. |
| `Wrap.FieldsOfSpaced` | internal/pool/playback.go:273-300 | Words set with single spaces are found again by splitting at white space. |
| `Wrap.FieldsSplit` | internal/pool/playback.go:273-273 | Splitting at white space: a separator splits, and what is on either side is split in the same way. |
| `Wrap.FieldsOfWord` | internal/pool/playback.go:273-273 | A word is its own only field, and an empty text has none. |
| `Wrap.PackedWraps` | internal/pool/playback.go:280-308 | The lines hold the words in order, each fits the width, and none could take the first word of the next. |
| `Wrap.NoWrapIsShorter` | internal/pool/playback.go:280-308 | No way of setting the words in order in lines that fit uses fewer lines. |
| `Wrap.FullIsBest` | internal/pool/playback.go:271-308 | Before the cap: the words of the lines are the words of the text, each cut to the width; every line fits, is non-empty and has single blanks; and no wrap is shorter. |
| `Wrap.CapFits` | internal/pool/playback.go:310-317 | After the cap at most maxLines lines are left, all but the last unchanged; the last is the longest prefix of the line there that leaves room for three dots, and the dots; all fit if and only if nothing was cut or the width is at least 3. |
| `Quality.StableSortSorts` | internal/media/qualities.go:29-42 | The sort keeps every entry, orders by height and preference, and leaves ties as they came. |
| `Quality.RankedQualityURLs` | internal/media/qualities.go:10-83 | The four loops give the distinct URLs of the usable entries, upward from the target and then downward below it. |
| `Quality.OrderedRanks` | internal/media/qualities.go:44-64 | The order holds exactly the usable entries, better ones first. |
| `Quality.RankingIsRight` | internal/media/qualities.go:10-83 | The URLs are exactly those of usable entries, each once, and each has an entry at least as good for the target as all entries of itself and of the later ones. |
| `Quality.PreferenceTurns` | internal/media/qualities.go:40-64 | Of two entries of one height the preferred comes first where the height reaches the target, and last below it. |
| `Quality.PickQuality` | internal/media/media.go:349-386 | Nothing only for no entries; else the lowest height that reaches the target or, with none, the greatest, among the entries with a URL that is not HLS, or among all where there is none. |
| `Quality.PickLeadsRanking` | internal/media/qualities.go:10-83 | Whatever order the pick's sort left ties in, the ranking at the picked height, and the one at the target, begin with the URL of a usable entry of that height. |

## Left out

- SpsTable.ParseIsTable: the profiles with chroma fields are those of the code; later editions of the standard add 134, 135 and 139 and drop 144. A scaling list is read to its end (see above).
- PlaybackRun.NoFrameBeforeKeyFrame: assumes that the clock moves between a pause and its resume; a pause of no length is applied without settling its cards.
- PlaybackRun.AlwaysAligned: one connected peer for the whole run (`ApplyPauseEvent` says what happens without one); RTP time is a sum of durations; the rounding to ticks of 1/90000 and 1/48000 seconds in floating point is not modelled.
- Playback.MediaClock.Wait: the sleep is a result, not a delay.
- Playback.MediaSender.ResolvePeer: a sender keeps the one peer it has taken up; closed peers, the wait for a new one and its announcement are not modelled.
- Source.MediaSource.Open: replies are 200, 206 or a failure, with headers that tell the truth about fixed content; other success codes, parsing of Content-Range and the watchdog timers are not modelled.
- Source.MediaSource.Read: a connection that returns no bytes and no error is not modelled, nor an empty buffer.
- SwapRun.SwapHandsOver: the wait for the channel has no time limit (the code gives up after 20 seconds).
- SeekRun.SegmentsStartWhereSought: progressive streams only; HLS streams cannot be seeked.
- SeekRun.ServedIffAttended: says nothing of a seek that is followed by another, by a stop, by a source that cannot be opened or by a swap that is given up before it is taken; `SegmentsStartWhereSought` covers those runs.
- QueueRun.CleanRunTakesAll: reading errors and the end of the file are the reader's to tell apart; the model has one kind of fault, which ends reading early.
- AudioFifo.OutputPipeline.FlushAudioPipeline: the planar layout of samples is not modelled; what the encoder gives out at its end is not either.
- Quality.PickQuality: the library's sort is a parameter that returns any order by height; the patterns that find height, preference and HLS in a name are fields of an entry.
- Wrap.WrapPauseBody: text is a sequence of runes; invalid UTF-8 is not modelled.
- Syntax.ReadsWhatWasWritten: Go's int has 64 bits here and never overflows on values that come from 32-bit reads.
- Decoding, filtering and encoding by libav, the pause card's picture, and the Discord side (voice gateway, commands, prompts).
- Live and on-demand HLS loops, reconnect delays, provider fallback, watchdogs, near-end and call-to-action windows.
- Scrapers, caches, configuration, persistence and the channel catalogue.

# Verified model of the firmware's protocols and arithmetic

This project models four parts of the board firmware and one Python peer, and proves what they promise.

- **Software AES-128-GCM** (`Gf128`, `GfBytes`, `Bytes`, `ByteValues`, `AesBytes`, `Aes`, `Ghash`, `Gcm`).
  The byte-array code refines field algebra over 128-bit strings, the cipher of FIPS 197 and the mode of
  NIST SP 800-38D, for every key and every length the interface can express.
- **The health system** (`Words`, `Fnv`, `Health`, `HealthRuns`, `HealthRecords`, `HealthSignature`, `HealthTokens`,
  `HealthCore`, `HealthText`, `HealthLines`, `VgaText`, `Screen`, `Observing`, `Observers`, `VgaTransaction`,
  `VgaTiming`, `VgaEffects`, `VgaLiveness`, `VgaBus`, `Dispatcher`, `MainLoop`, `MainTiming`, `MainPublication`,
  `MainBus`, `MainLiveness`, `SerialLiveness`, `PromptHardware`, `BoardLog`, `BoardIo`, `BoardDisplay`, `GpioLoop`,
  `BoardService`, `UartLoop`, `LosslessLine`, `SerialRecovery`, `UartService`, `ProviderReports`, `Firmware`): a
  cooperative scheduler over several small state machines, a two-slot snapshot store with reader leases, a chunked
  renderer and a serial streamer.
- **The frame protocol** (`Frames`), printer and parser, in C and in Python.
- **Shift-subtract division and decimal printing** (`Division`).

Code that updates state in place is a class or an array method here, and each of its methods is proved to
be a step of a function on values (`Health`, `Observing`, `VgaTransaction`, `MainLoop`, `BoardIo`,
`GpioLoop`, `UartLoop`, `Frames`, `Gcm`). The theorems about whole runs are lemmas about these functions.
Every value read from the hardware is an arbitrary input of the step that reads it. What was written or
shown is kept in ghost histories, so that the theorems can speak about it.

Five results mark the exact edge of a promise.

- The length block of the hash holds bit lengths of 32 bits only, so it is the standard's if and only if both
  lengths are below 2^29 bytes (`Ghash.LengthsConform`), and the tag is the standard's if and only if the hash
  key takes the difference to zero (`Gcm.TagConforms`).
- The firmware's frame printer takes payloads of up to 255 bytes but every parser gives up above 64, so the
  round trip holds if and only if the payload fits (`Frames.RoundTripIffFits`).
- The health specification (`spec/22_soc_health_firmware.md`, lines 151-155) asks that an abort be recorded before
  stale status is cleared. An abort ends the lease and fails the record if and only if a reading other than the
  one inside the start of the swap shows it, or the swap does not go ahead (`VgaBus.AbortsEndLeases`,
  `MainBus.AbortsInEveryRun`).
- The same section asks for a second vertical sync with the completion. No access between the first sync and the
  heartbeat could tell one (`VgaBus.NoSecondSync`), and a completion without any is a heartbeat
  (`VgaBus.BeatWithoutSync`).
- The same specification (line 214) asks that old partial data cannot complete a new transfer of the loopback and
  that the drain resynchronises it. On a line of at most one turn it comes back from every state
  (`SerialRecovery.Recovers`); on a line of exactly two turns one stray byte stops it for ever
  (`SerialRecovery.StrayByteJams`).

Hardware addresses, register widths and status bits are those the C code relies on. Snapshot pointers are
slot numbers, with 2 for null. Unsigned 32-bit counters are the type `Words.U32`, whose arithmetic wraps
explicitly; masks, status words and details are bit vectors.

## Model

| member | source | states |
|---|---|---|
| Gf128.MulIsPolynomialProduct | firmware/drivers/sw_aes_gcm.c:200-232 | for all 128-bit x and y the bit-serial product is the product of the two polynomials reduced modulo x^128 + x^7 + x^2 + x + 1, lowest power first (section 6.3 of NIST SP 800-38D) |
| Gf128.MulBilinear | firmware/drivers/sw_aes_gcm.c:200-232 | the product distributes over exclusive or on both sides |
| Gf128.MulCommutativeRing | firmware/drivers/sw_aes_gcm.c:200-232 | the product is commutative and associative and has the block 100...0 as its one |
| Gf128.MulBitsExchange | firmware/drivers/sw_aes_gcm.c:210-229 | the order in which the bits of two factors are absorbed does not matter; the inductive core of commutativity |
| Gf128.PolyModIsEval | firmware/drivers/sw_aes_gcm.c:220-227 | division with remainder by the field polynomial gives the same block as reducing at every doubling, for polynomials of any length |
| GfBytes.ShiftRightOneBit | firmware/drivers/sw_aes_gcm.c:189-198 | the byte loop with its carry shifts the sixteen bytes, as one 128-bit string, right by exactly one place, in place |
| GfBytes.StepV | firmware/drivers/sw_aes_gcm.c:221-227 | shift and conditional 0xe1 multiply the running block by x in the field |
| GfBytes.MulStep | firmware/drivers/sw_aes_gcm.c:212-228 | one bit of x: the sum gains v exactly when the bit is set, and v is multiplied by x |
| GfBytes.GfMul128 | firmware/drivers/sw_aes_gcm.c:200-232 | the array code computes the field product, also when the output is one of the inputs |
| AesBytes.SubByteIsAffineInverse | firmware/drivers/sw_aes_gcm.c:3-20 | every entry of the S-box table is the affine map of section 5.1.1 of FIPS 197 applied to the inverse in GF(2^8), and 0 for 0 |
| AesBytes.SubByteInverts | firmware/drivers/sw_aes_gcm.c:3-20 | the S-box has an inverse table |
| AesBytes.XtimeLinear | firmware/drivers/sw_aes_gcm.c:52-59 | multiplication by x in GF(2^8) is linear |
| Aes.RconTable | firmware/drivers/sw_aes_gcm.c:22-24 | the round constants are the powers of x in GF(2^8) |
| Aes.KeyExpand | firmware/drivers/sw_aes_gcm.c:122-159 | the expansion writes exactly the 44 words of the recurrence of section 5.2 of FIPS 197 |
| Aes.RotateAndSubstitute | firmware/drivers/sw_aes_gcm.c:136-153 | one start-of-block word transformation: rotate, substitute, add the round constant |
| Aes.ExpandWord | firmware/drivers/sw_aes_gcm.c:133-158 | each pass appends the next word of the recurrence to a correct prefix of the schedule |
| Aes.AddRoundKey | firmware/drivers/sw_aes_gcm.c:61-67 | exclusive or with round key n, in place; its columns are words 4 n to 4 n + 3 of the schedule (`Aes.RoundKeyWords`) |
| Aes.SubBytesInPlace | firmware/drivers/sw_aes_gcm.c:69-75 | substitution of all sixteen bytes in place |
| Aes.ShiftRowsInPlace | firmware/drivers/sw_aes_gcm.c:77-99 | the twelve moves of the in-place row rotation put every byte where section 5.1.2 of FIPS 197 puts it |
| Aes.ShiftRowsByRow | firmware/drivers/sw_aes_gcm.c:77-99 | row r of the state is rotated by r columns: equation (5.3) of FIPS 197 |
| Aes.MixColumnsIsProduct | firmware/drivers/sw_aes_gcm.c:101-120 | each byte of a mixed column is the coefficient of the product of the column with the fixed polynomial modulo x^4 + 1 (section 5.1.3 of FIPS 197) |
| Aes.MixColumnsInPlace | firmware/drivers/sw_aes_gcm.c:101-120 | all four columns are multiplied by the polynomial of section 5.1.3 of FIPS 197, in place |
| Aes.MixColumnsFourTimes | firmware/drivers/sw_aes_gcm.c:101-120 | the column mixing is its own inverse when done four times, hence injective |
| Aes.RoundInjective | firmware/drivers/sw_aes_gcm.c:173-178 | a round with any fixed key is injective |
| Aes.CipherInjective | firmware/drivers/sw_aes_gcm.c:161-187 | for every array of round keys the block function is injective |
| Aes.RoundKeyWords | firmware/drivers/sw_aes_gcm.c:161-187 | for every key, column c of round key n of the expanded key is word 4 n + c of the key schedule |
| Aes.CipherIsKeyed | firmware/drivers/sw_aes_gcm.c:161-187 | for every key and block, the cipher with the expanded key adds the key itself first, words 4 n to 4 n + 3 after round n, and words 40 to 43 last, after a round without column mixing |
| Aes.EncryptBlock | firmware/drivers/sw_aes_gcm.c:161-187 | the array code computes the cipher of section 5.1 of FIPS 197 for every key schedule and block; with an expanded key it is the cipher of `Aes.CipherIsKeyed` |
| Bytes.BytesEqual | firmware/drivers/sw_aes_gcm.c:42-50 | the accumulating comparison says whether two buffers hold the same bytes |
| Ghash.GhashUpdate | firmware/drivers/sw_aes_gcm.c:234-242 | the running value becomes its exclusive or with the block, times h in the field, whichever of the three buffers coincide |
| Ghash.Absorb | firmware/drivers/sw_aes_gcm.c:255-267 | the chunk loop hashes the zero-padded data, for every length, the last partial block included |
| Ghash.LengthBlock | firmware/drivers/sw_aes_gcm.c:283-295 | the length block holds the two bit lengths modulo 2^32 |
| Ghash.GhashBytes | firmware/drivers/sw_aes_gcm.c:244-299 | the whole function hashes padded associated data, padded ciphertext and the length block (section 6.4 of NIST SP 800-38D) |
| Ghash.LengthsConform | firmware/drivers/sw_aes_gcm.c:283-295 | what is hashed is what step 5 of section 7.1 of NIST SP 800-38D asks for if and only if both lengths are below 2^29 bytes: beyond that the shift by three loses bits of the length |
| Ghash.LongDataDiffers | firmware/drivers/sw_aes_gcm.c:285-294 | with 2^29 bytes of associated data the length block is all zeros, and not the one the standard asks for |
| Ghash.HashConforms | firmware/drivers/sw_aes_gcm.c:244-299 | for any lengths the hash is the one of the standard if and only if the product of the hash key with the difference of the two length blocks is zero |
| Gcm.TagConforms | firmware/drivers/sw_aes_gcm.c:358-362 | for every key and all lengths the tag is the one of section 7.1 of NIST SP 800-38D if and only if the product of the hash key with the difference of the two length blocks is zero; with both lengths below 2^29 bytes it always is |
| Gcm.Inc32 | firmware/drivers/sw_aes_gcm.c:301-310 | the ripple increment adds one to the last four bytes modulo 2^32 and leaves the first twelve alone |
| Gcm.CtrLoop | firmware/drivers/sw_aes_gcm.c:344-356 | the loop is counter mode byte by byte, for any length and also in place; bytes beyond the length are untouched |
| Gcm.Encrypt128 | firmware/drivers/sw_aes_gcm.c:312-363 | ciphertext and tag are those of the mode, for every key, IV, associated data and plaintext; also in place, and with the outputs in the buffer of the associated data, whose hash is then of what that buffer has come to hold |
| Gcm.ModeOfStandard | firmware/drivers/sw_aes_gcm.c:312-363 | block i of the data is masked with the cipher of J0 incremented i + 1 times, where J0 is the IV and a one, and the tag with the cipher of J0 itself (sections 6.2, 6.5 and 7.1 of NIST SP 800-38D) |
| Gcm.DecryptVerify128 | firmware/drivers/sw_aes_gcm.c:365-424 | accepts exactly when the tag is the recomputed one, and then returns the decrypted text; otherwise every output byte is zero |
| Gcm.RoundTrip | firmware/drivers/sw_aes_gcm.c:312-424 | decrypting what was encrypted gives back the plaintext under the produced tag and is rejected under every other tag |
| Gcm.OpenedWasSealed | firmware/drivers/sw_aes_gcm.c:365-424 | whatever decryption accepts is exactly what encryption of the returned plaintext produces |
| Gcm.KeystreamDistinct | firmware/drivers/sw_aes_gcm.c:336-356 | for all round keys the blocks that mask one message, and the one that masks its tag, are pairwise different |
| Gcm.CtrTwice | firmware/drivers/sw_aes_gcm.c:344-356 | counter mode undoes itself |
| HealthCore.Core.constructor | firmware/services/soc_health.c:3-31 | a fresh core is in the initial state all run theorems start from |
| HealthCore.Core.Report | firmware/services/soc_health.c:39-71 | the in-place update is the reporting step; the result says whether the report was taken; what it leaves in the record over whole runs is `HealthRecords.RecordsSay` |
| HealthRecords.RecordsSay | firmware/services/soc_health.c:39-71 | over every interleaving, from any state of the core, for every id: the state is the one called for by the last report taken whose step is not pending (progress Pass, warn Warn, failure or miss Fail), the detail is that of the last report taken, the progress epoch is that of the last progress taken, heartbeats and misses count, and without such a report each is as it was |
| HealthRecords.StickyTells | firmware/services/soc_health.c:68-69 | the sticky mask has the bit of an id exactly if it had it at first or the record was Fail at some moment of the run; a fresh core has none |
| HealthRecords.PublicationTells | firmware/services/soc_health.c:134-176 | from power-up over every interleaving, the snapshot a publication takes tells the number of epochs, of publications, of refused publications and of misses of each observer, the epoch of the report each observer completed last, of every record what the reports taken call for, which records ever failed, and has the masks and the signature of that content |
| HealthCore.Core.EpochBegin | firmware/services/soc_health.c:73-78 | the epoch advances modulo 2^32 and the system service reports progress with it |
| HealthCore.DeadlineBegin | firmware/services/soc_health.c:80-90 | arming stores epoch, budget and token, and is refused from a budget of 2^31 on |
| HealthCore.Core.DeadlinePoll | firmware/services/soc_health.c:92-99 | a due deadline is disarmed and reported once |
| HealthCore.SignatureOf | firmware/services/soc_health.c:114-132 | field by field, the loop computes the signature of the 97 words; which field stands in which is `HealthSignature.InPlace` |
| HealthSignature.InPlace | firmware/services/soc_health.c:114-132 | every field of a snapshot but the signature, twelve of its own and six of each record, stands in a place of its own among the signed words; the other places are a mark and the ids |
| HealthSignature.SignedWordsTell | firmware/services/soc_health.c:114-132 | snapshots with the same signed words agree in every field but the signature |
| HealthSignature.OneByteOfAField | firmware/services/soc_health.c:114-132 | snapshots that differ in exactly one byte of one field have different signatures |
| HealthCore.Core.TakeSnapshot | firmware/services/soc_health.c:148-173 | copying the records and collecting the four masks yields the snapshot of the core |
| HealthCore.Core.PublishSnapshot | firmware/services/soc_health.c:134-176 | takes the next free slot of the two, leases it to both observers, and otherwise only counts the backlog |
| HealthCore.Core.SnapshotRelease | firmware/services/soc_health.c:178-195 | releases a lease that is held, as completed or missed; anything else changes nothing |
| Health.SignatureDetectsOneByte | firmware/services/soc_health.c:114-132 | two snapshots whose 388 signed bytes differ in exactly one place have different signatures |
| Fnv.ShiftAddIsPrime | firmware/services/soc_health.c:105-110 | shifts and wrapping additions multiply by 16777619 modulo 2^32 |
| Fnv.HashByteInjective | firmware/services/soc_health.c:105-110 | the step is injective in the running hash and in the byte |
| Fnv.OneByteDetected | firmware/services/soc_health.c:105-110 | byte strings that differ in exactly one place hash differently |
| Fnv.SignatureWord | firmware/services/soc_health.c:102-112 | peeling bytes off a word by shifting is FNV-1a over its little-endian bytes |
| Fnv.HashOfLetter | firmware/services/soc_health.c:102-112 | the hash of the letter a is the published value 0xe40c292c of FNV-1a |
| Fnv.CounterBytes | firmware/services/soc_health.c:102-112 | the bytes hashed of a counter are its digits to the base 256, lowest first |
| HealthRuns.EveryRunKept | firmware/services/soc_health.c:39-195 | over every interleaving of reports, epochs, publications and releases: publication ids count publications; for each observer every publication is completed, missed or outstanding; the masks of every leased snapshot, as whole words, are pairwise disjoint, name exactly the records in each state and no others, together are the mask of the known records, and the failures are among the sticky ones |
| HealthRuns.LeasedSnapshotNeverChanges | firmware/services/soc_health.c:134-195 | a snapshot stays what it was for as long as its slot is leased, whatever else happens |
| HealthRuns.PublicationAlternates | firmware/services/soc_health.c:139-146 | a publication takes the slot used last only if the other one is leased, and carries the next id |
| HealthRuns.TakenTells | firmware/services/soc_health.c:158-172 | as whole 32-bit words, the four masks of a new snapshot are pairwise disjoint, name exactly its records in each state, and together are the mask of the records not unknown; the sticky mask contains the failures; and the signature is that of its 97 words |
| HealthTokens.FreshIsGreater | firmware/services/soc_health.c:33-37 | within 2^31 of the largest accepted token, fresh means truly greater (section 3.2 of RFC 1982) |
| HealthTokens.HeartbeatsCountRecords | firmware/services/soc_health.c:39-71 | over every interleaving of reports of all ids, epochs, publications and releases: the heartbeats of an id count, modulo 2^32, the progress reports whose true token was a strict record among those of that id, and the stored token is the largest true one, as long as tokens arrive within 2^31 of it |
| HealthTokens.DueMeansElapsed | firmware/services/soc_health.c:96-96 | a deadline is due only after its budget has truly elapsed, and exactly then for less than 2^32 epochs |
| HealthTokens.FiresOnceAndNotEarly | firmware/services/soc_health.c:92-99 | whatever else happens to the health core between polls, an armed deadline fires at most once, and never before its budget has elapsed |
| HealthTokens.LargeBudgetRefused | firmware/services/soc_health.c:80-90 | a refused deadline stays disarmed and never fires |
| HealthText.FormatLine | firmware/services/soc_health_observers.c:20-54 | the buffer holds the logical line, cut to its size and always terminated, and the result is the uncut length; no snapshot gives an empty line; what the lines say is read back in `HealthLines` |
| HealthLines.EpochLineReads | firmware/services/soc_health_observers.c:26-26 | line 0 shows, in columns 14 to 21 and 27 to 34, hexadecimal digits whose values are epoch and signature |
| HealthLines.MaskLineReads | firmware/services/soc_health_observers.c:27-27 | line 1 shows digits whose values are the pass, warn and fail masks, in columns 2, 13 and 24 |
| HealthLines.StickyLineReads | firmware/services/soc_health_observers.c:28-28 | line 2 shows digits whose values are the sticky and the excluded mask, in columns 2 and 13 |
| HealthLines.RecordLineReads | firmware/services/soc_health_observers.c:30-46 | lines 5 to 16 show of each record its name, a letter that only its state has, digits for the heartbeats and the low half of the misses, and the detail, or the part of it, that the id and the state call for |
| HealthLines.VerdictLineReads | firmware/services/soc_health_observers.c:47-51 | line 18 is SYSTEM: PASS if and only if the failure mask is zero, and otherwise shows the failure mask and the sticky one |
| HealthLines.VerdictOfTaken | firmware/services/soc_health_observers.c:47-51 | the report of a snapshot just taken says PASS if and only if no record is failing |
| HealthLines.TextTells | firmware/services/soc_health_observers.c:20-54 | snapshots with the same nineteen lines agree in epoch, signature, all masks, all states and heartbeats, and the low halves of the misses |
| HealthLines.ReportIs | firmware/services/soc_health_observers.c:111-116 | the serial report is the header, the nineteen lines in order and a rule, each ended by CR LF |
| HealthText.Text.Character | firmware/services/soc_health_observers.c:7-11 | a character beyond the buffer is counted and not stored |
| HealthText.Text.Number | firmware/services/soc_health_observers.c:16-19 | hexadecimal digits, most significant first |
| HealthText.Piece | firmware/services/soc_health_observers.c:111-116 | every line with its line end, and header and separator, fits the 48-byte buffer untruncated |
| HealthText.LinePlain | firmware/services/soc_health_observers.c:20-54 | no line contains a NUL, so a terminated copy of it is read back whole |
| VgaText.Mirrored | firmware/drivers/vga_text.c:66-72 | the three masked swaps reverse the bits of a byte |
| VgaText.RowWordPixels | firmware/drivers/vga_text.c:106-122 | bit b of a packed word is the pixel of character b / 8 at column b mod 8 of its glyph |
| VgaText.PutGroup | firmware/drivers/vga_text.c:104-122 | eight rows of one group of four characters, stopping at the bottom of the screen; all other words keep their value |
| VgaText.Puts | firmware/drivers/vga_text.c:89-125 | every one of the 9600 words afterwards: the row of the group that falls on it, or its old value |
| VgaText.CStringIs | firmware/drivers/vga_text.c:94-96 | the characters before the first NUL are what the length loop finds |
| Screen.PictureIsPixels | firmware/services/soc_health_observers.c:90-96 | bit for bit, the words of the complete picture are the pixels of the nineteen lines, and all else is dark |
| Screen.ChunkPainted | firmware/services/soc_health_observers.c:90-96 | writing a chunk where the renderer puts it paints exactly that chunk of the picture |
| Observing.PrepareStep | firmware/services/soc_health_observers.c:79-99 | one call of the renderer: it gives up exactly when the budget has run out, and otherwise needs exactly one call less; it returns 1 exactly when all 9600 words show the complete picture |
| Observing.CallsBounded | firmware/services/soc_health_observers.c:79-99 | a rendering needs between 1219 and 1371 calls |
| Observing.UartStep | firmware/services/soc_health_observers.c:105-125 | one turn sends at most one character, the next of the report, and exactly one if the transmitter is ready; the lease ends as missed exactly on expiry and as completed only after the whole report |
| Observing.SentIsPrefix | firmware/services/soc_health_observers.c:105-125 | what is out is always a beginning of header, nineteen lines and separator, each with CR LF |
| Observers.Observers.constructor | firmware/services/soc_health_observers.c:55-62 | the observers start idle |
| Observers.Observers.Begin | firmware/services/soc_health_observers.c:63-71 | a snapshot is taken on only when nothing is pending, and all cursors are reset |
| Observers.Observers.VgaRelease | firmware/services/soc_health_observers.c:72-78 | in place, the release hook is the release step, and does nothing without a lease |
| Observers.Observers.VgaPrepare | firmware/services/soc_health_observers.c:79-99 | in place, with the framebuffer as an array, the renderer is its step: every write is inside the 9600 words |
| Observers.Observers.ClearSome | firmware/services/soc_health_observers.c:84-87 | eight more words are cleared, never past the last |
| Observers.Observers.UartService | firmware/services/soc_health_observers.c:105-125 | in place, with its 48-byte buffer, the serial observer is its step |
| Observers.Observers.FillBuffer | firmware/services/soc_health_observers.c:111-117 | the buffer holds the due piece with its line end, whole |
| VgaTransaction.VgaServedSound | firmware/services/soc_health_providers.c:252-320 | whatever the status register reads, one turn keeps: from ARM on the lease is held and rendering is complete, a SWAP is commanded only for the complete picture of the leased snapshot, a lease is completed only after such a SWAP, and heartbeats count those completions |
| VgaTransaction.SwapSound | firmware/services/soc_health_providers.c:292-307 | a SWAP records a complete picture; abort and a refused start give the lease up |
| VgaTransaction.DoneSound | firmware/services/soc_health_providers.c:308-315 | the completed lease is the one whose picture was swapped last, and its progress report is always accepted |
| VgaTransaction.PreparedSound | firmware/services/soc_health_providers.c:279-288 | the phase advances to ARM only with a complete picture, and falls back when the lease is lost |
| VgaTiming.VgaServedTimed | firmware/services/soc_health_providers.c:252-320 | turns at most ten epochs apart keep: the armed deadline is not due, its token is fresh, and it was armed no later than a round after the lease began |
| VgaTiming.PolledFires | firmware/services/soc_health_providers.c:19-22 | the deadline fires in a turn exactly when it is due: its report is never rejected |
| VgaTiming.NoRearmUnderLease | firmware/services/soc_health_providers.c:252-320 | a turn that leaves the lease arms the deadline if it was not armed, and leaves deadline and attempt number alone if it was |
| VgaEffects.VgaServedSettled | firmware/services/soc_health_providers.c:252-320 | a turn leaves the serial observer, the snapshots and the publication state alone, gives up at most its own lease, and books it as completed or missed |
| VgaLiveness.TurnsCountDown | firmware/services/soc_health_providers.c:252-320 | while nothing fails and the budgets last, a turn that brings what its phase waits for brings a leased report exactly one turn closer to the screen, and the last one completes its lease; any other turn changes nothing |
| VgaLiveness.TurnsBounded | firmware/services/soc_health_providers.c:252-320 | a new lease needs at most 1375 turns that bring something |
| Dispatcher.OncePerRound | firmware/services/soc_health_providers.c:322-347 | any ten turns in a row after the first five give each of the ids 1 to 10 exactly one turn |
| Dispatcher.SetUpTurns | firmware/services/soc_health_providers.c:322-347 | the first five turns go to loopback, timer, acceleration sensor, converter and screen, in this order |
| Dispatcher.LastVgaTurnIs | firmware/services/soc_health_providers.c:322-347 | the screen gets turns 5 and 12 and every tenth after that |
| MainLoop.EveryRun | firmware/apps/soc_health_main.c:23-36 | in every run: every frame shown is the complete picture of a published snapshot, heartbeats of the screen count completed leases and never exceed the swaps, every completed serial report is the whole text of a published snapshot, and the one in progress is a beginning of one |
| MainLoop.CompleteBeforeSwap | firmware/apps/soc_health_main.c:23-36 | in every reachable state from ARM on the screen lease is held and nothing is left to render; until the swap the framebuffer is the complete picture |
| MainLoop.LeasesInEveryRun | firmware/apps/soc_health_main.c:23-36 | in every reachable state the readers of the current slot are the pending observers, the other slot has none, and a publication never finds both slots leased |
| MainLoop.MainStep | firmware/apps/soc_health_main.c:24-35 | one pass keeps every invariant of the loop, for all hardware answers and all reports of the other providers |
| MainLoop.SerialTurnKept | firmware/apps/soc_health_main.c:26-26 | the serial turn keeps them |
| MainLoop.ProviderTurnKept | firmware/apps/soc_health_main.c:25-25 | the provider turn keeps them |
| MainLoop.PublicationTurnKept | firmware/apps/soc_health_main.c:27-35 | the publication keeps them |
| MainTiming.LeasesEnd | firmware/apps/soc_health_main.c:23-36 | in every run shorter than 2^31 epochs a serial lease is over within the observer budget, a screen lease within the provider budget and two rounds, and the next publication is never further off than that |
| MainTiming.StepOnTime | firmware/apps/soc_health_main.c:24-35 | one pass keeps these times |
| MainTiming.ArmedOnce | firmware/apps/soc_health_main.c:23-36 | in every run, under one lease the deadline is armed at most once, and then in the first turn of the screen |
| MainPublication.TurnPublishes | firmware/apps/soc_health_main.c:27-35 | a pass publishes exactly when 32 epochs have passed since the last publication and neither observer holds a report, and then both hold the snapshot of the present content; it counts the backlog exactly when it is due but one is still held |
| MainPublication.SpacedInEveryRun | firmware/apps/soc_health_main.c:23-36 | in every run publications are at least 32 epochs apart, the first at least 32 after power-up, and the backlog counts the passes that were due but found a report held |
| MainLiveness.ReachesScreen | firmware/apps/soc_health_main.c:23-36 | from any state of a run with a snapshot under screen lease, while the display domain does not fail and the budgets last: that snapshot is on the screen as soon as the screen has been brought what it waits for as often as the state says, and until then the lease goes on, one turn closer each time |
| MainLiveness.FreshReportShown | firmware/apps/soc_health_main.c:23-36 | in every run, a report whose rendering has not begun is on the screen once its provider has been brought what it waits for 1375 times |
| SerialLiveness.ReportGoesOut | firmware/apps/soc_health_main.c:23-36 | from any state of a run with a snapshot under serial lease, while the budget lasts: with n ready turns of the transmitter, counting the characters already out, exactly the first n characters of its report are out, and with one more than it has the lease has ended as completed |
| PromptHardware.NothingMissed | firmware/apps/soc_health_main.c:23-36 | in every run shorter than 2^31 epochs in which the display domain does not fail, keeps the screen waiting in at most 24838 of its turns for a report, and the transmitter is busy in at most 261155 passes of one: every published snapshot but the one under lease has been displayed, and printed whole, in the order of publication, and no observer has missed one; lease times are bounded by the waits |
| PromptHardware.PassPrompt | firmware/apps/soc_health_main.c:24-35 | one pass keeps what this rests on: how much of a lease is left against the time since it began and since the deadline was armed, and which reports are out |
| MainBus.HeartbeatsVouch | firmware/apps/soc_health_main.c:23-36 | in every run: the heartbeats of the screen are counted by the beats on its bus, and each beat comes after clearing the events, a vertical sync seen since, no abort, clearing the old completion, the swap, and a completion seen since with no abort; the renderer only runs after a reading of a ready and idle domain; every release by either observer succeeds, and there is exactly one for every publication but the one still under lease |
| VgaBus.TurnTraced | firmware/services/soc_health_providers.c:252-320 | one turn of the screen keeps the trace: in the phase that waits for a sync the events have been cleared and only quiet readings came since, in the phase that waits for completion the swap has been commanded so, and every beat is vouched for |
| VgaBus.TurnReleases | firmware/services/soc_health_providers.c:252-320 | every release in a turn is of a lease that is held, and a turn makes exactly one when it ends the lease and none otherwise |
| VgaBus.AbortsEndLeases | firmware/services/soc_health_providers.c:252-320 | a turn in which some reading shows an abort ends with the record failed and the lease over if and only if it is not the case that only the reading inside the start of the swap shows it; in that case the swap goes ahead with core and lease untouched |
| VgaBus.LateAbort | firmware/services/soc_health_providers.c:292-307 | concrete readings at which an abort goes unseen: a ready domain with a vertical sync, an idle recheck, and the abort in the reading of the swap itself |
| VgaBus.NoSecondSync | firmware/services/soc_health_providers.c:302-315 | between the reading that lets a swap go, which shows a vertical sync, and the heartbeat for it no write clears the sync event, so no reading in between can tell a second sync |
| VgaBus.BeatWithoutSync | firmware/services/soc_health_providers.c:308-315 | a completion that shows no vertical sync is a heartbeat all the same |
| VgaBus.LeaseEndsOnRecord | firmware/services/soc_health_providers.c:252-320 | a lease held before a turn is held after it, or has been completed, or is over with the record failed, except only if its budget ran out while the picture was being prepared |
| VgaBus.NotReadyFails | firmware/services/soc_health_providers.c:267-274 | a domain that is not ready once the transaction is under way fails the record and ends the lease |
| VgaBus.RefusedSwapFails | firmware/services/soc_health_providers.c:292-307 | so does a start of the swap that finds the domain busy or not ready |
| MainBus.AbortsInEveryRun | firmware/apps/soc_health_main.c:23-36 | in every run, each turn of the screen treats aborts so |
| MainBus.RunBlind | firmware/apps/soc_health_main.c:23-36 | every run is the same with an abort in every reading inside the start of a swap as with none |
| MainBus.SyncsInEveryRun | firmware/apps/soc_health_main.c:23-36 | in every run, no write between the sync of a heartbeat and the heartbeat clears the sync event |
| Firmware.Providers.VgaService | firmware/services/soc_health_providers.c:252-320 | in place, the service is its step, and its accesses of the bus are those of the step, in order |
| Firmware.Providers.StartSwap | firmware/services/soc_health_providers.c:302-307 | the swap is commanded only if the domain is ready and idle, after clearing the old completion and abort, and then exactly the present framebuffer is shown |
| Firmware.Providers.Arm | firmware/services/soc_health_providers.c:14-18 | arming takes the next attempt number as its token |
| Firmware.Program.constructor | firmware/apps/soc_health_main.c:13-22 | the program starts in the state the run theorems start from |
| Firmware.Program.ProvidersService | firmware/services/soc_health_providers.c:322-347 | in place, the dispatcher chooses the id the specification says and serves it: the screen, the serial loopback, the pins, the switches, the LEDs and the display on their own records, each keeping its promises and reporting for its own id only; the other four services are arbitrary reports for ids that are none of these |
| Firmware.Program.Dispatch | firmware/services/soc_health_providers.c:322-347 | each of these services keeps its own promise by what it does and those of the others by what it leaves alone |
| Firmware.Program.Publication | firmware/apps/soc_health_main.c:27-35 | in place, the publication is its step |
| Firmware.Program.Pass | firmware/apps/soc_health_main.c:24-35 | one pass over the records is one step of the specification, and keeps the promises of the services |
| Firmware.Program.Loop | firmware/apps/soc_health_main.c:23-36 | any number of passes is a run of the specification, with the same accesses of the bus |
| Firmware.PowerUp | firmware/apps/soc_health_main.c:13-36 | from power-up, whatever memory held and whatever the hardware answers, the conclusions of the run theorems of the main loop, of the board, of the pins and of the loopback hold of the records of the program itself |
| ProviderReports.LoopReports | firmware/services/soc_health_providers.c:112-159 | the loopback service changes the health core only by reports for its own id |
| ProviderReports.GpioReports | firmware/services/soc_health_board_io.c:25-65 | so does the pin service |
| ProviderReports.HexReports | firmware/services/soc_health_board_io.c:111-141 | so does the display service |
| ProviderReports.ScreenAside | firmware/services/soc_health_providers.c:252-320 | the screen leaves the records and tokens of these ids alone |
| BoardIo.EveryRun | firmware/services/soc_health_board_io.c:81-141 | over all interleavings with the rest of the program and all register contents, with every access and report in one history: LED and HEX make exactly one terminal report for each sample, in order, with its generation as token, but for the one still pending; a success comes after the sample was written and read back (LEDs) or after off, the data of its command, mode and on were written and all read back (display), a failure after a read-back that differs, a miss only once the budget has run out; display data is written only while the display was last told to be off; heartbeats and misses of the three records count those reports |
| BoardIo.SampledWhenAnswered | firmware/services/soc_health_board_io.c:81-90 | a sample is taken exactly when both consumers have answered for all earlier ones, and is what the switches then read |
| BoardIo.HeldWhilePending | firmware/services/soc_health_board_io.c:81-141 | until then neither the sample nor its generation nor the display command changes |
| BoardIo.AnswersCome | firmware/services/soc_health_board_io.c:111-141 | within five turns of the display after a sample its answer has been made, whatever else goes on |
| BoardIo.HexLawful | firmware/services/soc_health_board_io.c:111-141 | what the display reports of its command is lawful: success exactly when all its registers read back as commanded, with nothing but off, data, mode and on written since the sample |
| BoardIo.LedLawful | firmware/services/soc_health_board_io.c:99-110 | what the LEDs report is lawful: success exactly when they read back the sample just written to them |
| BoardIo.CommandShowsDigits | firmware/services/soc_health_board_io.c:66-80 | each digit of the two bank words has the segments its group asks for, and the words fit the registers |
| BoardDisplay.ModeOf | firmware/services/soc_health_board_io.c:72-72 | the display command has control 3 exactly if switch 9 is on, and 1 otherwise |
| BoardDisplay.ValueOf | firmware/services/soc_health_board_io.c:70-70 | its value word has the low nine switches in bits 0 to 8 and again in bits 12 to 20, and nothing else |
| BoardDisplay.BanksOf | firmware/services/soc_health_board_io.c:66-80 | its bank words, written out from the switch bits for each of the four groups |
| BoardDisplay.DisplayInEveryRun | firmware/services/soc_health_board_io.c:81-141 | in every run, whenever the display reports success: since the sample the data registers written are exactly the two banks if it has bit 9 and the value word otherwise, the last control word is 3 or 1 accordingly, and all of these have just read back so |
| BoardDisplay.HexDetailTells | firmware/services/soc_health_board_io.c:124-139 | the detail of the display's report has the sample in bits 0 to 9, the control word read back above it, and one bit for each register that did not read back as commanded |
| BoardDisplay.LedDetailTells | firmware/services/soc_health_board_io.c:99-110 | the detail of the report of the LEDs has the sample in bits 0 to 9 and what was read back in the next ten |
| BoardService.HexCommand | firmware/services/soc_health_board_io.c:66-80 | the digit loop builds the command that `BoardDisplay` describes in terms of the switches |
| BoardService.Board.SwService | firmware/services/soc_health_board_io.c:81-90 | in place, the capture is its step |
| BoardService.Board.LedService | firmware/services/soc_health_board_io.c:99-110 | in place, the LED service is its step |
| BoardService.Board.HexService | firmware/services/soc_health_board_io.c:111-141 | in place, the display service is its step |
| BoardService.Board.GpioService | firmware/services/soc_health_board_io.c:25-65 | in place, the pin service is its step |
| GpioLoop.HeartbeatsVouch | firmware/services/soc_health_board_io.c:25-65 | over all interleavings and register contents, with every access in one history: each success comes after the levels 0, 1, 1, 0 were driven in this order, each read back at the sensing pin at least three epochs after it was driven and with nothing driven in between, with direction and latch read back as they were left; the heartbeats of the record count exactly these successes, and its misses the misses |
| GpioLoop.PinsInEveryRun | firmware/services/soc_health_board_io.c:25-65 | in the registers alone, for every run: each success comes right after bit 0 of the latch was low, high, high and low in turn and bit 1 of the pins followed at least three epochs later; and no write to direction or latch changes a bit of another pin |
| UartLoop.FramesInjective | firmware/services/soc_health_providers.c:98-105 | different sequence numbers have different frames |
| UartLoop.FrameTells | firmware/services/soc_health_providers.c:98-105 | a frame is a5 5a, the number and its complement with the lowest byte first, and c3 3c |
| UartLoop.EndsInBeatOrFailure | firmware/services/soc_health_providers.c:112-159 | a turn of a transfer leaves it in progress, completes it, or leaves the record failed; a receive error always leaves it failed |
| UartLoop.WrongByteFails | firmware/services/soc_health_providers.c:143-150 | the first wrong byte among those a turn reads fails the record and starts the drain |
| UartLoop.BoundedTurn | firmware/services/soc_health_providers.c:112-159 | no turn takes more than four bytes from the receiver |
| UartLoop.HeartbeatsVouch | firmware/services/soc_health_providers.c:112-159 | the heartbeats of the loopback count the completed transfers that the core accepted, whatever others do to it; a completed transfer numbered k is one in which exactly the twelve bytes of frame k came in and exactly these went out; neither counter exceeds twelve |
| UartLoop.ReceivedKept | firmware/services/soc_health_providers.c:143-158 | the receive loop keeps what came in a beginning of the frame, for any bytes |
| LosslessLine.LosslessHeartbeats | firmware/services/soc_health_providers.c:112-159 | over a line that gives every byte back in order within d turns, with turns close enough in time: after N turns the heartbeats, one for every completed transfer, are some n with 13 n <= N - 1 < (13 + d) (n + 1), exactly (N - 1) / 13 if d is 0, and there has been no failure and no miss |
| LosslessLine.TransferExchange | firmware/services/soc_health_providers.c:112-159 | one turn of a transfer over such a line: the bytes unread and on the line are always the next ones of the frame in order, and the transfer ends, after twelve turns at least, with the progress report of its number |
| SerialRecovery.Recovers | firmware/services/soc_health_providers.c:106-159 | from any state of the loopback, with any bytes in the receiver and on a line that takes at most one turn: after a number of turns bounded by half the bytes held and, if a transfer was in progress, the budget, it is at rest with a transfer completed since, and from then on a transfer is completed every 13 or 14 turns |
| SerialRecovery.StrayByteJams | firmware/services/soc_health_providers.c:106-159 | on a line of exactly two turns, one stray byte at the start of a transfer and no transfer is ever completed again, though nothing is lost and nothing else disturbs it: what each resynchronisation leaves on the line breaks the next transfer |
| SerialRecovery.DrainWears | firmware/services/soc_health_providers.c:130-139 | a drain turn either begins a transfer on a clean line or brings that closer |
| UartService.SerialLoop.Service | firmware/services/soc_health_providers.c:112-159 | in place, the loopback service is its step |
| UartService.SerialLoop.Receive | firmware/services/soc_health_providers.c:143-158 | the receive loop with its early exits is the receive step |
| UartService.SerialLoop.Drain | firmware/services/soc_health_providers.c:130-139 | at most four stale bytes are dropped in one turn, and a transfer begins only once there are none |
| Frames.ParsesItsPrint | firmware/apps/final_main.c:229-316 | a built frame with a payload of at most 64 bytes is parsed to exactly that frame, and the parser is idle again |
| Frames.RoundTripIffFits | firmware/apps/final_main.c:254-263 | that holds if and only if the payload has at most 64 bytes: the printer takes more, the parser does not |
| Frames.LongFrameIsLost | firmware/apps/final_main.c:254-263 | a printed frame of 65 payload bytes is not parsed back |
| Frames.TransmissionIsParsed | firmware/apps/final_main.c:238-298 | any list of frames, separated by any noise without a start byte, is parsed to exactly those frames in order |
| Frames.EmittedWasPrinted | firmware/apps/final_main.c:279-289 | whenever a frame is emitted, the last 5 + len bytes of the stream are its printed form |
| Frames.BackToIdle | firmware/apps/final_main.c:238-298 | whatever follows a start byte, the parser is idle again within 68 bytes |
| Frames.FirmwareParser.Feed | firmware/apps/final_main.c:238-298 | in place, one byte is one step of the parser; the output is filled exactly when a frame is complete |
| Frames.FirmwareParser.Reset | firmware/apps/final_main.c:229-236 | back to idle; the last error stays |
| Frames.BuildFrame | firmware/apps/final_main.c:300-316 | the array printer writes the frame; its reported length is that of the frame modulo 256 |
| Frames.FrameLayout | firmware/apps/final_main.c:300-316 | a printed frame is 7e, type, length, payload, the sum of type, length and payload modulo 256, and 0a |
| Frames.PrintersAgree | scripts/serial/common_serial_frame.py:31-40 | the Python printer writes the same bytes as the firmware, and refuses payloads over 64 bytes |
| Frames.PythonParser.FeedByte | scripts/serial/common_serial_frame.py:112-148 | in place, one byte is one step of the parser |
| Frames.PythonParser.Feed | scripts/serial/common_serial_frame.py:150-156 | a chunk of bytes emits exactly the frames of the specification |
| Frames.BothParsers | firmware/apps/final_main.c:238-298 | on every byte stream the firmware parser and the Python parser emit the same frames |
| Division.UDiv | firmware/apps/p11c_adc_board_characterize.c:22-56 | for every numerator and every nonzero divisor of the word, however large, the true quotient and remainder; zeros for a zero divisor |
| Division.NoOverflow | firmware/apps/p11c_adc_board_characterize.c:31-37 | the shifted remainder never leaves the word, also for divisors of half the range and more |
| Division.DividedStep | firmware/apps/p11c_adc_board_characterize.c:31-37 | one pass doubles the partial quotient and adds the next bit of the numerator; the bit it sets was clear |
| Division.DecimalIsNumeral | firmware/apps/p11c_adc_board_characterize.c:78-94 | the digits have the value of the number and no leading zero |
| Division.NumeralUnique | firmware/apps/p11c_adc_board_characterize.c:78-94 | there is only one such numeral |
| Division.DecimalLength | firmware/apps/p11c_adc_board_characterize.c:80-90 | a 32-bit number needs at most ten of the twelve buffer cells |
| Division.PutDec | firmware/apps/p11c_adc_board_characterize.c:78-94 | the digit loop sends exactly the decimal numeral |

## Left out

- Division.UDiv: setting a bit of the quotient is written as an addition, with the proof that the bit was clear; the 64-bit version computes the same remainder but does not hand it out.
- MainLoop.EveryRun: the services of all ids but the screen's appear as arbitrary reports, which covers all they can do to the health core; `Firmware.Program` runs those of the loopback and the board. Visit counters are not modelled.
- MainTiming.LeasesEnd: stated for runs shorter than 2^31 epochs, since attempt numbers and lease times are only ordered up to there.
- VgaTransaction.VgaServedSound: the branch without installed hooks is left out, because main always installs them. After a swap the framebuffer holds arbitrary words.
- MainBus.HeartbeatsVouch: what the C code does stands behind a heartbeat, which is less than section 9 of the health specification asks for: see `VgaBus.AbortsEndLeases`, `VgaBus.NoSecondSync` and `VgaBus.BeatWithoutSync` for what is missing and exactly when. The words the renderer writes are one event a call.
- PromptHardware.NothingMissed: the other services still make arbitrary reports; how long the display and the transmitter keep the program waiting is a premise, as their hardware is not modelled.
- Firmware.Program.ProvidersService: the timer, accelerometer, ADC and joystick services appear as arbitrary reports for any ids but the screen's, the loopback's, the pins' and the board's.
- BoardIo.EveryRun: the read-back fields of the record are not kept, because each is read and used within one turn; the mask of pending consumers is a pair of flags.
- SerialRecovery.Recovers: the transmitter is ready and the receiver shows no error in every turn, and every turn is a later epoch than the one before; a miss that the core would refuse, because its token is not fresh, is counted as a further wait of the budget.
- SerialRecovery.StrayByteJams: stated for a stray byte that comes in with the first turn of a transfer; the receiver of sixteen bytes never overflows, as at most one byte comes in with each turn.
- UartLoop.HeartbeatsVouch: setting the baud divisor always succeeds, because 434 is within the driver's limits.
- HealthCore.Core.SnapshotRelease: a snapshot address is a slot number, so an address that belongs to no slot is the number 2.
- AesBytes.SubByteIsAffineInverse: the S-box table is written as a tree of rows; each entry is that of the C table.
- Frames.BuildFrame: the output buffer is required to hold the frame, as the C code assumes.
- The timer, accelerometer, ADC and joystick services, and the register drivers: each is a thin sequence of reads and writes over hardware whose behaviour is not part of this model.
- The control loops, dashboard and hardware cipher polling of `final_main.c`, and the secure payload helpers of the Python peer: input and output around the framing core, or calls into a library.
- `soc_health_render.c` and `soc_health_probes.c`: simpler forms of what the observers and providers do.
- Hexadecimal, centred and pixel drawing helpers of the text driver: not used by the health screen.
- Timing in real time, buses and register transfer level behaviour: readings are arbitrary inputs.

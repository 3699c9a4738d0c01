# Verified models of the mining pool, the arbitrage bot and the log collector

This project models three families of the repository's code in Dafny and proves what the code promises.

* **Codecs and proof of work** (mkpool, C++): the in-place Equihash (200, 9) verifier decides the declarative
  condition of section 7.7.1 of the Zcash Protocol Specification; Base58, Bech32 and Bech32m (BIP 173, BIP 350)
  decoding are exact inverses of the standard encoders, and so is CashAddr decoding for the types that its standard
  assigns; the address dispatcher accepts every address of the three families with its meaning, and beyond them only
  CashAddr strings of other types; coinbase assembly and the witness form of BIP 144; the SV2 frame reader and writer (section 3.2
  of the Stratum V2 specification).
* **Two-leg arbitrage** (yumtech-arbitrage, Python): pricing against order books, budget caps, the paper adapter's
  wallets, the execution engine, the event-driven strategy and the incremental order-book store.
* **Queues and multiplexing** (mkpool, C++, and the dashboard's collector): the batching database writer, the cluster
  trunk, the share verdicts that must never lose a block, bounded retry with failover, and the resumable log tail.

Code that the repository writes as loops over buffers or as objects is written here as methods and classes over the
same fields, each proved equal to a specification function; the theorems are about those functions and about whole
runs of them.  One file holds one module; Options, Sequences and Subsequence are shared.

| modules | modelled file |
|---|---|
| Bits, BitGroups, Equihash, EquihashLeaves, EquihashTheorem, EquihashVerify | yumtech/mkpool-src/src/equihash.hpp |
| Powers, Base58, Checksum, ConvertBits, Charset, Bech32, CashAddr, PublishedSums, Address, AddressShown, AddressResult | yumtech/mkpool-src/src/address.cpp |
| Coinbase, CoinbasePayees, Sv2Framing, ShareVerdict | yumtech/mkpool-src/src/client_session.cpp |
| DbWorker | yumtech/mkpool-src/src/db_worker.cpp |
| Trunk, TrunkObjects, TrunkSteady, TrunkDepartures | yumtech/mkpool-src/src/cluster_trunk.cpp, cluster_ingest.cpp |
| RpcRetry | yumtech/mkpool-src/src/bitcoin_client.cpp |
| Pricing, PricingDecision | yumtech-arbitrage/app/domain.py, coordinator.py |
| PaperAdapter, PaperFills, Engine | yumtech-arbitrage/app/execution.py |
| Strategy, StrategyRecovery | yumtech-arbitrage/hummingbot-overlay/scripts/yumtech_paper_arbitrage.py |
| MarketBook | yumtech-arbitrage/app/market_stream.py |
| LogTail | ckpool-dashboard/yumtech_dashboard/collector.py |

## What the code does not do

Where a promise is false of the code, the code is kept and the exact condition is proved.

* The header of the address decoder says a program has 20 or 32 bytes.  A CashAddr of a longer hash is accepted and its
  script declares 20 bytes; `Address.AddressScript` says exactly when a script is well formed and `Address.LongHash`
  gives an accepted address whose script is not.
* The CashAddr decoder accepts all 32 types that five bits can say and takes every type but 0 for a script hash; the
  standard assigns only 0 and 1.  `Address.DecodesExactly` proves that a decoded CashAddr has the standard's meaning
  exactly when its payload begins with q or p, which says type 0 or 1.  A key hash in the token-aware form of
  CHIP-2022-02, type 2, gets the script of a script hash (`Address.TokenKeyHash`); `Address.CashScript` says which
  types get the right script.
* The Base58 decoder's `BadLength` branch is dead: `Base58.RoomFor` shows the guessed buffer is always large enough.
* An eCash job with a witness commitment writes an output it does not count; `Coinbase.ReadsBack` proves that the bytes
  then do not read back and otherwise always do.  eCash funds larger than the coinbase value wrap the miner's output;
  `Coinbase.AddsUp` is the exact condition, and `Coinbase.WholePaysOut` states both of the whole transaction.
* The strategy's record leaves out what is reported too late.  `Strategy.RunRecords` says for every run what it leaves
  out: the base and fee of a fill after the end of its order, and its money too unless the leg shares the order's list
  of fills; every fill after the intent was closed; and the fills of an order that then failed; what a completion
  brought of its own stands for the fills of its order only until one comes.  The record is right exactly when these
  cancel out.  `Strategy.LateFill` and `Strategy.FilledFailure` say when one such event makes it
  wrong.  An intent whose two legs both fail to be placed is reported balanced (`Strategy.BothLegsFail`).
* The efforts in the stored rows and the accumulator fall short of the committed difficulty exactly when some parent
  block repeats a stored hash after new work (`DbWorker.RunReadsBack`, `DbWorker.BlockVisible`).
* The log collector never reopens a rotated file: a line written between the last pass and the rotation is not handled
  (`LogTail.LostAtRotation`).  `LogTail.NothingSkipped` lists the steps that skip lines and `LogTail.RunTracks` shows
  that nothing else does.  A pass handles lines twice exactly when it begins before the end of what was handled, as it
  does for a file that comes back under an inode other than the stored one (`LogTail.HandledAgain`); and a line is cut
  exactly when the last ten megabytes of a file lie inside it when the file is first met (`LogTail.CutLine`).
* When the trunk is lost after a miner arrived and before the strand handled its opening frame, the session is dropped
  but the frame goes out over the next connection: the origin keeps a bridge that nobody closes
  (`TrunkDepartures.StrandedBridge`).  `TrunkDepartures.StepDeparts` says exactly which steps leave a bridge or a session
  behind.
* A frame longer than the receiver's limit is written all the same and closes the session (`Sv2Framing.OversizeCloses`).
* BIP 173 limits a Bech32 string to 90 characters; the decoder has only the dispatcher's limit of 128, which
  `Address.OneMeaning` shows to exclude no address.

## Model

| member | source | states |
|---|---|---|
| `EquihashVerify.Verify200_9` | yumtech/mkpool-src/src/equihash.hpp:153-238 | accepts exactly the 1344-byte strings whose unpacked indices are an Equihash (200, 9) solution, for any hash function on header and index: distinct indices, ordered subtrees, every aligned block of 2^r leaves zero on its first 3r bytes, and zero in total; EquihashLeaves.DigestHolds says what the leaves are |
| `EquihashTheorem.RoundsDecide` | yumtech/mkpool-src/src/equihash.hpp:213-238 | for every hash function, header and list of 512 words, passing the nine rounds and the zero test is the declarative solution condition |
| `EquihashTheorem.Sound` | yumtech/mkpool-src/src/equihash.hpp:213-238 | comparing indices only between sibling blocks still makes all 512 distinct, and comparing 3 bytes a round still makes the whole prefix of every block vanish |
| `EquihashTheorem.Complete` | yumtech/mkpool-src/src/equihash.hpp:213-238 | no solution is refused by the trimming, the sibling tests or the byte order comparison |
| `EquihashLeaves.DigestHolds` | yumtech/mkpool-src/src/equihash.hpp:200-207 | the ten 20-bit groups of leaf 2g followed by those of leaf 2g + 1 are the twenty consecutive 20-bit groups of the 50 bytes hashed from the header and the number g, for every hash function |
| `EquihashLeaves.LE32Value` | yumtech/mkpool-src/src/equihash.hpp:37-43 | the four bytes that are hashed after the header are the number in little-endian order, for every number below 2^32 |
| `BitGroups.GroupIsBits` | yumtech/mkpool-src/src/equihash.hpp:57-89 | an expanded group is the number that its bits of the input spell, most significant first |
| `EquihashVerify.SolutionBytesUnique` | yumtech/mkpool-src/src/equihash.hpp:91-105 | two 1344-byte strings that unpack to the same indices are equal, so no proof has a second encoding |
| `EquihashVerify.AllRounds` | yumtech/mkpool-src/src/equihash.hpp:213-236 | the loop ends with one row that holds the whole list exactly when every round's condition holds |
| `EquihashVerify.Round` | yumtech/mkpool-src/src/equihash.hpp:214-233 | passes exactly when every pair of sibling blocks does; the rows left represent all blocks of the next size |
| `EquihashVerify.CheckPair` | yumtech/mkpool-src/src/equihash.hpp:218-226 | the byte tests on two rows decide that the blocks they represent collide, are ordered and share no index |
| `EquihashVerify.CollidePair` | yumtech/mkpool-src/src/equihash.hpp:227-229 | the merged row represents the concatenation of both blocks one round later, so the swap never fires |
| `EquihashVerify.DistinctIndices` | yumtech/mkpool-src/src/equihash.hpp:142-151 | true exactly when the two index areas share no 32-bit word |
| `EquihashVerify.StepRow.Init` | yumtech/mkpool-src/src/equihash.hpp:115-119 | a row starts as its leaf's expanded hash followed by the big-endian index |
| `EquihashVerify.StepRow.InitCollide` | yumtech/mkpool-src/src/equihash.hpp:121-132 | trimmed exclusive or, then both index lists with the smaller first; no write passes the 2054 bytes |
| `EquihashVerify.StepRow.IsZero` | yumtech/mkpool-src/src/equihash.hpp:134-139 | true exactly when the given prefix of the row is all zero |
| `BitGroups.ExpandArray` | yumtech/mkpool-src/src/equihash.hpp:57-89 | the accumulator loop writes the big-endian bit slices of the input, each zero-padded to whole bytes, and nothing else |
| `BitGroups.GetIndicesFromMinimal` | yumtech/mkpool-src/src/equihash.hpp:91-105 | returns the consecutive (c+1)-bit slices, for every whole number of them |
| `BitGroups.UnpackPack` | yumtech/mkpool-src/src/equihash.hpp:91-105 | unpacking undoes the standard packer, index by index |
| `BitGroups.PackUnpack` | yumtech/mkpool-src/src/equihash.hpp:91-105 | packing undoes unpacking, so unpacking is injective |
| `Base58.Base58Decode` | yumtech/mkpool-src/src/address.cpp:72-102 | fails exactly on a character outside the alphabet and never with BadLength; otherwise one zero byte per leading 1, then the base-58 value in base 256 without leading zeros |
| `Base58.RoomFor` | yumtech/mkpool-src/src/address.cpp:84-94 | 58^n < 256^(733n/1000 + 1) for every n: the buffer guess is always large enough |
| `Base58.DecodeEncode` | yumtech/mkpool-src/src/address.cpp:72-102 | decoding the standard encoding of any byte string gives it back |
| `Base58.EncodeDecode` | yumtech/mkpool-src/src/address.cpp:72-102 | encoding what a string decodes to gives the string back, so no two strings decode alike |
| `Base58.MultiplyAdd` | yumtech/mkpool-src/src/address.cpp:88-93 | the in-place carry loop takes the number to 58 times itself plus the digit, carry included |
| `Base58.Accumulate` | yumtech/mkpool-src/src/address.cpp:85-95 | the buffer's base-256 value equals the base-58 value of what was read, and the last carry is always zero |
| `Base58.DigitOfAlphabet` | yumtech/mkpool-src/src/address.cpp:69-77 | the decoder's table is the inverse of the 58-character alphabet |
| `Checksum.Bech32Polymod` | yumtech/mkpool-src/src/address.cpp:120-131 | the masked 32-bit loop computes the 30-bit register of six symbols |
| `Checksum.CashAddrPolymod` | yumtech/mkpool-src/src/address.cpp:237-250 | the masked 64-bit loop computes the 40-bit register; zero is returned exactly when it ends at 1 |
| `Checksum.Bech32Good` | yumtech/mkpool-src/src/address.cpp:121-129 | the five constants fit 30 bits and their last symbols are linearly independent |
| `Checksum.CashAddrGood` | yumtech/mkpool-src/src/address.cpp:238-248 | the same for the five 40-bit constants |
| `Checksum.StepXor` | yumtech/mkpool-src/src/address.cpp:124-129 | a step is linear over exclusive or |
| `Checksum.StepInjective` | yumtech/mkpool-src/src/address.cpp:124-129 | for each symbol, different states step to different states |
| `Checksum.StepSurjective` | yumtech/mkpool-src/src/address.cpp:243-248 | for each symbol, every state is reached from one |
| `Checksum.Bech32Inverse` | yumtech/mkpool-src/src/address.cpp:121-129 | five constants that recover a Bech32 feedback from its last symbol, so StepSurjective applies |
| `Checksum.CashAddrInverse` | yumtech/mkpool-src/src/address.cpp:238-248 | five constants that do so for CashAddr |
| `Checksum.BurstDetected` | yumtech/mkpool-src/src/address.cpp:120-131 | changing anything within a window as long as the checksum changes the final state, at every length |
| `Checksum.SubstitutionDetected` | yumtech/mkpool-src/src/address.cpp:237-250 | replacing any one symbol changes the final state, at every length |
| `Checksum.SumReaches` | yumtech/mkpool-src/src/address.cpp:173-177 | exactly one tail of checksum length takes given data to a given constant |
| `PublishedSums.Bech32Published` | yumtech/mkpool-src/src/address.cpp:113-179 | the checksums that the encoder of this model writes for the part "a" and no data are the published ones: 2uel5l in Bech32 (BIP 173) and lqfn3a in Bech32m (BIP 350) |
| `PublishedSums.CashAddrPublished` | yumtech/mkpool-src/src/address.cpp:233-262 | the checksum it writes for the prefix "p" and no data is the gpf8m4h7 of the CashAddr specification |
| `ConvertBits.ConvertBits` | yumtech/mkpool-src/src/address.cpp:184-206 | the truncated register computes the regrouping of the whole bit string, padding and both errors included |
| `ConvertBits.WidenNarrow` | yumtech/mkpool-src/src/address.cpp:184-206 | regrouping to narrower symbols with padding and back without is the identity on every input |
| `ConvertBits.NarrowWiden` | yumtech/mkpool-src/src/address.cpp:184-206 | whenever regrouping to wider symbols succeeds, re-encoding gives back exactly the same symbols |
| `ConvertBits.RegroupInjective` | yumtech/mkpool-src/src/address.cpp:184-206 | no two symbol strings regroup to the same program |
| `Charset.ReadSymbols` | yumtech/mkpool-src/src/address.cpp:163-169 | the symbols of a string over the alphabet, and a failure exactly when some character is outside it |
| `Charset.SpellRead` | yumtech/mkpool-src/src/address.cpp:115-169 | reading symbols and spelling them again gives the string back |
| `Bech32.Bech32Decode` | yumtech/mkpool-src/src/address.cpp:142-182 | equals the decoding that DecodesExactly characterises, with the source's error for every branch; the constants of its two encodings are those of PublishedSums.Bech32Published |
| `Bech32.DecodesExactly` | yumtech/mkpool-src/src/address.cpp:142-182 | a string decodes to an encoding and data exactly when it is the encoding of them in one letter case that PublishedSums.Bech32Published identifies as the standard one |
| `Bech32.BurstRejected` | yumtech/mkpool-src/src/address.cpp:142-182 | two accepted strings of the same encoding never differ only within six neighbouring symbols |
| `Bech32.SegwitDecode` | yumtech/mkpool-src/src/address.cpp:214-231 | equals the decoding that SegwitDecodesExactly characterises, with the source's error for every branch, under the constants of PublishedSums.Bech32Published |
| `Bech32.SegwitDecodesExactly` | yumtech/mkpool-src/src/address.cpp:214-231 | accepted for a witness program exactly when it is that program's BIP 173 or BIP 350 address, whose constants PublishedSums.Bech32Published identifies: one address a program and one program an address |
| `CashAddr.CashAddrDecode` | yumtech/mkpool-src/src/address.cpp:266-320 | equals the decoding that DecodesExactly characterises, with the source's error for every branch |
| `CashAddr.DecodesExactly` | yumtech/mkpool-src/src/address.cpp:266-320 | a string decodes to a five-bit type and a hash under a prefix exactly when its payload is their encoding in one letter case; whether the standard assigns the type is left to Address.DecodesExactly |
| `CashAddr.TypeShown` | yumtech/mkpool-src/src/address.cpp:305-309 | the first character of an accepted payload says the type: q exactly for 0, p exactly for 1 |
| `CashAddr.RoundTrip` | yumtech/mkpool-src/src/address.cpp:266-320 | decoding an encoded type and hash gives them back, with its prefix and, for bitcoincash, without |
| `Address.DecodesExactly` | yumtech/mkpool-src/src/address.cpp:328-462 | one of the three standard encoders writes an address for a kind, network and program exactly when it decodes to them and, if it is a CashAddr, its payload begins with q or p; what decodes as a CashAddr and begins otherwise has a type that the standard does not assign and is read as a script hash |
| `Address.OneMeaning` | yumtech/mkpool-src/src/address.cpp:331-337 | no accepted string stands for two destinations, and no string that would be accepted reaches the length limit |
| `Address.DecodeAddress` | yumtech/mkpool-src/src/address.cpp:328-462 | equals the decoding that DecodesExactly characterises, with the source's error for every branch; the checksum constants are those of PublishedSums, and what an address shows of its kind and network is in AddressShown |
| `AddressShown.Base58Shown` | yumtech/mkpool-src/src/address.cpp:417-453 | the first character of a Base58Check address, on Zcash the second, tells key hash from script hash and the network: 1, L, D; 3, M, 9, A, S; m, n, s, t; 2, Q, y; and t1, t3, tm, t2 |
| `AddressShown.SegwitShown` | yumtech/mkpool-src/src/address.cpp:364-397 | the script of a segwit address pays to the version and program that the address spells, and the prefix it begins with names the network |
| `AddressShown.CashShown` | yumtech/mkpool-src/src/address.cpp:341-361 | the prefix of a CashAddr names the network, and with 20 bytes it pays to a key hash for type 0 and to a script hash otherwise |
| `Address.Base58Length` | yumtech/mkpool-src/src/address.cpp:400-406 | payloads of at most 26 bytes take at most 41 characters, fewer than any segwit or CashAddr address |
| `Address.ScriptReads` | yumtech/mkpool-src/src/address.cpp:475-491 | a script reads back as its template and program exactly when the program has the length the script declares |
| `Address.AddressScript` | yumtech/mkpool-src/src/address.cpp:475-496 | the script of a decoded address reads back as the decoded kind and program, except exactly for a CashAddr whose hash is not 20 bytes long |
| `Address.CashScript` | yumtech/mkpool-src/src/address.cpp:350-361 | the script of a CashAddr pays to what its hash stands for exactly when the hash has 20 bytes and the type is 0, 1 or 3 |
| `Address.TokenKeyHash` | yumtech/mkpool-src/src/address.cpp:350-361 | every 20-byte key hash in the token-aware form, type 2, is accepted with the script of a script hash, and no standard encoder writes that address |
| `Address.LongHash` | yumtech/mkpool-src/src/address.cpp:350-361 | an accepted address whose script no template reads |
| `Address.ScriptsDiffer` | yumtech/mkpool-src/src/address.cpp:475-491 | equal scripts mean the same template and program |
| `Address.ScriptPubkeyHex` | yumtech/mkpool-src/src/address.cpp:475-491 | the hexadecimal form of the script that ScriptReads characterises |
| `Coinbase.ReadsBack` | yumtech/mkpool-src/src/client_session.cpp:1247-1346 | parsing the bytes gives exactly the declared outputs, and fails exactly for eCash with a witness commitment |
| `Coinbase.AddsUp` | yumtech/mkpool-src/src/client_session.cpp:1247-1346 | the written values sum to the coinbase value if and only if the two funds fit into it |
| `CoinbasePayees.PaidTo` | yumtech/mkpool-src/src/client_session.cpp:1247-1346 | where the funds fit, each script is paid its own amount: a fund its stated value or the integer nearest to 32 or 10 percent, the donation the integer nearest to its share of the rest, and the miner what is left |
| `Coinbase.BuildSessionCoinbase2` | yumtech/mkpool-src/src/client_session.cpp:1247-1346 | the appended bytes are the declared count and the payouts that ReadsBack and AddsUp speak about; empty without a miner script |
| `Coinbase.WholePaysOut` | yumtech/mkpool-src/src/client_session.cpp:48-62 | a node reads from the witness form of the whole coinbase exactly the declared payouts, worth the coinbase value if and only if the funds fit, and hashes the legacy bytes; it cannot read it exactly for eCash with a commitment |
| `Coinbase.TxidUnchanged` | yumtech/mkpool-src/src/client_session.cpp:48-62 | the witness form parses under BIP 144 to the same transaction, and stripping it restores the legacy bytes |
| `Coinbase.BuildDogeCoinbase` | yumtech/mkpool-src/src/client_session.cpp:67-107 | the bytes of a whole legacy transaction, or nothing when the script needs more than one length byte |
| `Coinbase.DogeAddsUp` | yumtech/mkpool-src/src/client_session.cpp:67-107 | miner and donation always sum to the value |
| `CoinbasePayees.DogePaidTo` | yumtech/mkpool-src/src/client_session.cpp:67-107 | the donation is paid the integer nearest to its share, or nothing when that exceeds the value, and the miner the rest |
| `Sv2Framing.RoundTrip` | yumtech/mkpool-src/src/client_session.cpp:1970-2103 | any messages, cut into reads in any way, arrive in order with type and payload unchanged and with the channel bit that the writer sets in the extension type, and both ends have used equally many counter values |
| `Sv2Framing.FeedAllIsFeed` | yumtech/mkpool-src/src/client_session.cpp:1970-2103 | however the bytes are cut, the reader ends as if they had come at once, also on malformed input |
| `Sv2Framing.NeverStarves` | yumtech/mkpool-src/src/client_session.cpp:1970-2103 | on whole frames the session never waits for more bytes than are still to come |
| `Sv2Framing.FrameArrives` | yumtech/mkpool-src/src/client_session.cpp:1999-2103 | the message of a frame arrives exactly when its payload is within the limit, for payloads of every length |
| `Sv2Framing.OversizeCloses` | yumtech/mkpool-src/src/client_session.cpp:1999-2103 | a length field over the limit closes the session and nothing is delivered |
| `Sv2Framing.HeaderRoundTrip` | yumtech/mkpool-src/src/sv2_messages.hpp:126-141 | every header within its field widths reads back |
| `Sv2Framing.HeaderLayout` | yumtech/mkpool-src/src/sv2_messages.hpp:126-141 | bytes 0 and 1 spell the extension type, byte 2 is the message type and bytes 3 to 5 spell the length, least significant byte first |
| `Sv2Framing.ChannelBit` | yumtech/mkpool-src/src/sv2_messages.hpp:539-549 | the top bit of the extension type is set for exactly the twelve channel messages, or where it was set before; the other bits stay |
| `Sv2Framing.Session.SendV2Message` | yumtech/mkpool-src/src/client_session.cpp:2326-2348 | hands over the frame whose stream RoundTrip recovers, and advances the counter by the units sealed |
| `Sv2Framing.Session.ProcessV2Buffer` | yumtech/mkpool-src/src/client_session.cpp:1999-2103 | takes decoding steps until one needs more bytes or the session closes; each unit is opened once, with the next counter |
| `Sv2Framing.Session.Receive` | yumtech/mkpool-src/src/client_session.cpp:1970-1997 | the read loop, at most 4096 bytes a read, delivers every message of a stream |
| `ShareVerdict.NoSolveLost` | yumtech/mkpool-src/src/client_session.cpp:2749-2757 | over every run of the three handlers and tip changes, every hashed share that meets its network target has been submitted, whatever its verdict |
| `ShareVerdict.NoneLostExactly` | yumtech/mkpool-src/src/client_session.cpp:1627-1766 | in any run, with the eCash guard and shares that disagree on their targets included, every solve is submitted or held back when handled exactly when none finds its hash in the table unless an earlier solve put it there |
| `ShareVerdict.StepDeals` | yumtech/mkpool-src/src/client_session.cpp:1627-1766 | after any one share a solve has been submitted or held back by the eCash guard, and nothing submitted before is forgotten |
| `ShareVerdict.RunCountsEarned` | yumtech/mkpool-src/src/client_session.cpp:1627-1766 | in every run each hash V1 counts was submitted by a share that was in time and met its difficulty |
| `ShareVerdict.LowExactly` | yumtech/mkpool-src/src/client_session.cpp:1656-1683 | a share is low exactly when it meets neither the tolerated fraction of the current difficulty nor, in the seconds after a change, that of the previous one; the fractions and seconds of the three handlers |
| `ShareVerdict.Sv2Verdicts` | yumtech/mkpool-src/src/client_session.cpp:2749-2813 | an SV2 solve that is sighted first goes out whatever the verdict, and the verdict looks at difficulty and, on extended channels, the share's time alone |
| `ShareVerdict.RunCountsAll` | yumtech/mkpool-src/src/client_session.cpp:1627-1766 | in every run V1 counts exactly the shares that were in time, at their difficulty and sighted for the first time since the table was cleared |
| `ShareVerdict.RunCountsOnce` | yumtech/mkpool-src/src/client_session.cpp:1690-1760 | in every run V1 counts no hash twice between two clearings of the table |
| `ShareVerdict.NoneTwicePerTip` | yumtech/mkpool-src/src/stratifier.cpp:320-326 | with at most a million shares between tip changes V1 counts no hash twice for one tip |
| `ShareVerdict.Stratifier.RegisterShare` | yumtech/mkpool-src/src/stratifier.cpp:423-430 | true exactly on a first sighting since the table was cleared, by a tip or by its size |
| `ShareVerdict.Stratifier.OnNewTip` | yumtech/mkpool-src/src/stratifier.cpp:320-326 | a new tip empties the table |
| `ShareVerdict.ClientSession.HandleSubmit` | yumtech/mkpool-src/src/client_session.cpp:1627-1766 | takes the V1 step of the runs above and raises exactly one of the two counters |
| `ShareVerdict.ClientSession.HandleSubmitSharesV2` | yumtech/mkpool-src/src/client_session.cpp:2749-2813 | takes the standard-channel step, which submits a solve before judging the share |
| `ShareVerdict.ClientSession.HandleSubmitSharesExtendedV2` | yumtech/mkpool-src/src/client_session.cpp:2935-2990 | takes the extended-channel step, likewise |
| `DbWorker.RunInOrder` | yumtech/mkpool-src/src/db_worker.cpp:138-463 | when flushes fail only by a broken connection, committed, batch and queue together are the accepted records in order, for each queue: exactly once through every reconnect |
| `DbWorker.RunAccounted` | yumtech/mkpool-src/src/db_worker.cpp:138-463 | in every run each accepted record is in exactly one place: committed, dropped, in the batch or queued |
| `DbWorker.RunEffort` | yumtech/mkpool-src/src/db_worker.cpp:297-432 | in every run the round efforts of processed parent blocks plus the accumulator equal the start plus all committed accepted difficulty |
| `DbWorker.RunEffortCounts` | yumtech/mkpool-src/src/db_worker.cpp:297-432 | that growth is the difficulty of the committed shares that were accepted and of no others |
| `DbWorker.BlockConserves` | yumtech/mkpool-src/src/db_worker.cpp:409-432 | a block of the own coin, named or left empty, takes the running effort into its row and closes the round; any other moves none; the total stays |
| `DbWorker.BlockVisible` | yumtech/mkpool-src/src/db_worker.cpp:409-432 | rows and accumulator together never grow by a block, and keep their sum exactly unless a parent block repeats a stored hash after new work |
| `DbWorker.RunReadsBack` | yumtech/mkpool-src/src/db_worker.cpp:297-432 | in every run, from whatever table it starts with, stored efforts plus accumulator grow by all committed accepted difficulty exactly when no committed parent block repeated a stored hash after new work; otherwise they fall short |
| `DbWorker.FlushEffort` | yumtech/mkpool-src/src/db_worker.cpp:297-432 | the loops over shares and blocks make the transaction that RunEffort speaks about |
| `DbWorker.PushBack` | yumtech/mkpool-src/src/db_worker.cpp:447-456 | pushing to the front in reverse restores the batch in order before the queue |
| `DbWorker.Worker.EnqueueShare` | yumtech/mkpool-src/src/db_worker.cpp:68-79 | takes the enqueue step of the runs above; refused exactly when the queue is full |
| `DbWorker.Worker.TryReconnect` | yumtech/mkpool-src/src/db_worker.cpp:152-172 | takes the reconnect step, which touches no record |
| `DbWorker.Worker.DrainQueues` | yumtech/mkpool-src/src/db_worker.cpp:191-205 | takes the drain step: all five queues become the batch |
| `DbWorker.Worker.CommitBatch` | yumtech/mkpool-src/src/db_worker.cpp:434-435 | takes the commit step: the batch is in the database with its effort |
| `DbWorker.Worker.DropBatch` | yumtech/mkpool-src/src/db_worker.cpp:459-463 | takes the failure step: the batch is dropped and the database unchanged |
| `DbWorker.Worker.RequeueBatch` | yumtech/mkpool-src/src/db_worker.cpp:436-458 | takes the broken-connection step: all five batches are back in front |
| `Trunk.RunSafe` | yumtech/mkpool-src/src/cluster_ingest.cpp:51-174 | in every run with losses, reconnects and closes, what reached a miner's loopback is an in-order subsequence of what that miner sent, and came over its own connection only |
| `TrunkSteady.RunComplete` | yumtech/mkpool-src/src/cluster_ingest.cpp:51-174 | for a miner that connects after the last loss of the trunk in any run: while the new trunk stays up, the miner's loopback stays open and the caps of 100000 and 64 are not hit, what arrived, waits, is on the wire and waits at the edge is exactly what the miner sent, in order, over the new trunk |
| `TrunkSteady.RunDownComplete` | yumtech/mkpool-src/src/cluster_trunk.cpp:143-185 | under the same conditions what was delivered to the miner and what is on the wire is exactly what its loopback sent |
| `TrunkSteady.NeverDisturbed` | yumtech/mkpool-src/src/cluster_trunk.cpp:90-253 | under the same conditions no step of either end drops a line of the miner: its opening frame goes first, frames flow only after the welcome, and the bridge is there when data arrives |
| `TrunkDepartures.StepDeparts` | yumtech/mkpool-src/src/cluster_trunk.cpp:187-253 | in any state of a run, whatever happens next: a bridge that stands at the origin on a live connection stays claimed by a session or a closing frame on its way exactly unless the step is one of the listed ones that strand it, and a session stays served by a bridge exactly unless the step orphans it |
| `TrunkDepartures.BridgeClaimed` | yumtech/mkpool-src/src/cluster_trunk.cpp:235-242 | in every run without such a step: while a bridge stands on a connection that is up, its miner is attached or its closing frame waits at the edge or is on the wire, so none of a departed miner is left once all is taken |
| `TrunkDepartures.SessionsAreBridges` | yumtech/mkpool-src/src/cluster_trunk.cpp:222-253 | in every run without such steps: once every frame has been taken, exactly the attached miners have a bridge |
| `TrunkDepartures.StrandedBridge` | yumtech/mkpool-src/src/cluster_trunk.cpp:187-229 | a run that leaves a bridge for good: the trunk is lost after a miner arrived and before the strand handled its opening frame |
| `Trunk.RunDown` | yumtech/mkpool-src/src/cluster_trunk.cpp:143-185 | in every run what is delivered to a miner is an in-order subsequence of what its own loopback sent |
| `Trunk.StepFlows` | yumtech/mkpool-src/src/cluster_trunk.cpp:90-253 | every step of either end keeps the invariant and a miner's pipeline, and can drop its lines only in the listed circumstances; TrunkDepartures.StepDeparts says the same of sessions and bridges |
| `Trunk.StepDown` | yumtech/mkpool-src/src/cluster_trunk.cpp:143-185 | the same for the way from the loopback to the miner |
| `TrunkObjects.ClusterTrunk.Attach` | yumtech/mkpool-src/src/cluster_trunk.cpp:222-229 | takes the protocol's connect step with a cid never used before |
| `TrunkObjects.ClusterTrunk.ClientLine` | yumtech/mkpool-src/src/cluster_trunk.cpp:231-233 | takes the protocol's step for a line of a known miner |
| `TrunkObjects.ClusterTrunk.Detach` | yumtech/mkpool-src/src/cluster_trunk.cpp:235-242 | takes the protocol's departure step, whose closing frame TrunkDepartures.BridgeClaimed needs |
| `TrunkObjects.ClusterTrunk.ConnectAgain` | yumtech/mkpool-src/src/cluster_trunk.cpp:101-132 | takes the protocol's connect step: a new connection, not yet welcomed |
| `TrunkObjects.ClusterTrunk.RunStrandOnce` | yumtech/mkpool-src/src/cluster_trunk.cpp:209-220 | takes the protocol's strand step: send, buffer up to 100000, or drop |
| `TrunkObjects.ClusterTrunk.OnFrameFrom` | yumtech/mkpool-src/src/cluster_trunk.cpp:143-185 | takes the protocol's step for each kind of frame from the origin |
| `TrunkObjects.ClusterTrunk.OnClose` | yumtech/mkpool-src/src/cluster_trunk.cpp:187-197 | takes the protocol's loss step: sessions and buffered frames are gone |
| `TrunkObjects.ClusterIngestSession.OnLoopbackConnected` | yumtech/mkpool-src/src/cluster_ingest.cpp:141-147 | takes the protocol's step: what waited goes out in order before anything newer |
| `TrunkObjects.ClusterIngestSession.OnClientData` | yumtech/mkpool-src/src/cluster_ingest.cpp:149-159 | takes the protocol's step: pass on, buffer up to 64, or drop |
| `TrunkObjects.ClusterIngestSession.OnFrameFrom` | yumtech/mkpool-src/src/cluster_ingest.cpp:51-106 | takes the protocol's step for each kind of frame from the edge; nothing before a good hello |
| `RpcRetry.SubmissionDelivers` | yumtech/mkpool-src/src/bitcoin_client.cpp:58-88 | delivers the first answer any node gives; reports failure only after every node was contacted in each of the rounds |
| `RpcRetry.RoundIsCyclic` | yumtech/mkpool-src/src/bitcoin_client.cpp:160-189 | a round contacts nodes in cyclic order, each at most once, and stops at the first answer |
| `RpcRetry.BitcoinClient.RpcTryEndpoint` | yumtech/mkpool-src/src/bitcoin_client.cpp:160-189 | makes the round that RoundIsCyclic characterises; only an answering node becomes current |
| `RpcRetry.BitcoinClient.SubmitWithRetry` | yumtech/mkpool-src/src/bitcoin_client.cpp:58-88 | exactly one outcome is delivered, that of at most five rounds |
| `Pricing.CappedIsLowerBound` | yumtech-arbitrage/app/coordinator.py:30-59 | after the linear scaling of a budget cap, promised profit plus buffer is still at most what walking both books for the capped amount nets |
| `Pricing.PricedIsLowerBound` | yumtech-arbitrage/app/domain.py:80-98 | promised profit plus buffer is at most what walking both books for the quantized amount nets |
| `PricingDecision.ExecutableExactly` | yumtech-arbitrage/app/domain.py:80-98 | executable exactly when the amount is positive, the asks are worth the budget and the bids take the amount, both to a hundred-millionth, and the net is at least the minimum profit rate times the priced cost |
| `PricingDecision.AmountAndBuffer` | yumtech-arbitrage/app/domain.py:80-98 | the amount is the largest multiple of the step in what the budget, or the whole book, buys, and the buffer is its rate of the cost |
| `PricingDecision.PricedUnless` | yumtech-arbitrage/app/domain.py:74-98 | there is no opportunity exactly when something can be bought and the step is not positive |
| `PricingDecision.ExecutableEarns` | yumtech-arbitrage/app/domain.py:80-98 | walking both books for the amount of an executable opportunity nets at least the minimum profit rate times its cost, plus the buffer |
| `PricingDecision.CapIsMost` | yumtech-arbitrage/app/coordinator.py:30-59 | a capped order is the largest number of hundred-millionths that the order and both budgets allow; there is none exactly when a figure or budget is not positive or one hundred-millionth is too much |
| `PricingDecision.CapProportional` | yumtech-arbitrage/app/coordinator.py:30-59 | gross profit, fees and buffer stay in proportion to the order |
| `PricingDecision.CappedEarns` | yumtech-arbitrage/app/coordinator.py:30-59 | walking both books for a capped executable order still nets the minimum profit rate of its cost, plus the buffer |
| `Pricing.CostConvex` | yumtech-arbitrage/app/domain.py:44-57 | on ascending asks buying less never has the higher average price |
| `Pricing.RevenueConcave` | yumtech-arbitrage/app/domain.py:60-71 | on descending bids selling less never has the lower average price, however thin the book |
| `Pricing.BoughtIsMost` | yumtech-arbitrage/app/domain.py:44-57 | what a budget buys costs no more than the budget, and exactly it unless the book runs out |
| `Pricing.BuyForQuote` | yumtech-arbitrage/app/domain.py:44-57 | the loop takes the live levels from the front, as BoughtIsMost characterises |
| `Pricing.SellBase` | yumtech-arbitrage/app/domain.py:60-71 | the loop sells into the live levels from the front, as RevenueConcave characterises |
| `Pricing.QuantizeDown` | yumtech-arbitrage/app/domain.py:74-77 | the largest multiple of the step not above a non-negative value; refused exactly for a step that is not positive |
| `Pricing.CalculateOpportunity` | yumtech-arbitrage/app/domain.py:80-98 | the opportunity that PricedIsLowerBound bounds and that PricingDecision.ExecutableExactly and AmountAndBuffer describe, with the source's error for a bad step |
| `Pricing.CapRespected` | yumtech-arbitrage/app/coordinator.py:30-59 | a cap never raises the order, and both legs at their average prices stay within their budgets |
| `Engine.ProfitCoversExpected` | yumtech-arbitrage/app/execution.py:274-361 | a balanced fill without recovery at the priced fee rates realizes at least the expected profit plus the buffer |
| `Engine.CappedProfitCovers` | yumtech-arbitrage/app/execution.py:274-361 | so does one priced from any two books and capped to any budgets |
| `Engine.ProfitDemanded` | yumtech-arbitrage/app/execution.py:274-361 | the profit booked for an executable opportunity that is capped and filled in balance is at least the minimum profit rate times its cost, plus the buffer |
| `Engine.RecoveryRouted` | yumtech-arbitrage/app/execution.py:339-353 | legs that differ are recovered exactly unless the estimated loss exceeds the limit: a surplus is sold in full on the buying side, a shortage bought on the selling side, and no other wallet changes |
| `Engine.ExecutionConserves` | yumtech-arbitrage/app/execution.py:274-361 | the money of both wallets changes by exactly what the fills netted, their base by the exposure plus seeding, nothing else at all; also when blocked or raising |
| `Engine.ProfitIsMoneyGained` | yumtech-arbitrage/app/execution.py:355-361 | the booked profit is the money gained, and once seeded the exposure is the base gained |
| `Engine.RecoveryShrinks` | yumtech-arbitrage/app/execution.py:339-353 | what a recovery leaves has the sign of the imbalance and is no larger |
| `Engine.JournalLegal` | yumtech-arbitrage/app/domain.py:115-128 | every recorded step is an allowed transition; a completed execution is balanced exactly when no exposure is left and it recovered or filled all |
| `Engine.RunConserves` | yumtech-arbitrage/app/execution.py:265-361 | over every run of executions the wallets hold the start plus what all fills netted, and no balance is ever negative |
| `Engine.ExecutionSolvent` | yumtech-arbitrage/app/execution.py:274-353 | an execution on best-first books makes no balance negative |
| `Engine.ArbitrageExecutionEngine.ExecutePaper` | yumtech-arbitrage/app/execution.py:265-330 | leaves wallets, result and journal as the execution that the theorems above speak about |
| `Engine.ArbitrageExecutionEngine.RecoverImbalance` | yumtech-arbitrage/app/execution.py:339-353 | leaves them as the recovery that RecoveryShrinks bounds |
| `PaperAdapter.RunKeepsNonNegative` | yumtech-arbitrage/app/execution.py:119-242 | over every sequence of configurations, orders and recoveries on best-first books no balance is ever negative |
| `PaperAdapter.OrderKeepsNonNegative` | yumtech-arbitrage/app/execution.py:197-242 | re-walking for what the wallet can carry always suffices: a smaller purchase is never dearer on average |
| `PaperAdapter.OrderConserves` | yumtech-arbitrage/app/execution.py:197-242 | a fill states exactly what the wallet gained and paid, apart from seeding on first use |
| `PaperAdapter.FillWithinLimit` | yumtech-arbitrage/app/execution.py:164-187 | a fill is never worse on average than its limit and never more than requested |
| `PaperAdapter.TakenIs` | yumtech-arbitrage/app/execution.py:164-187 | the walk takes at most the amount, all but dust unless the book runs out, at exactly its cost |
| `PaperFills.WalkTakes` | yumtech-arbitrage/app/execution.py:164-187 | on a best-first book a limited walk takes what is asked for or all that is offered at prices no worse than the limit, whichever is less, up to dust, and pays what that much of the front of the book costs |
| `PaperFills.OrderFills` | yumtech-arbitrage/app/execution.py:197-227 | an order fills that much if the wallet carries it, and else what the wallet carries, up to dust: the base it holds, or the share of the amount that its money is of the price with the fee |
| `PaperFills.OrderStates` | yumtech-arbitrage/app/execution.py:228-242 | a fill states its fee, its distance from the best price and whether it filled the request, a part or nothing |
| `PaperFills.FirstSale` | yumtech-arbitrage/app/execution.py:148-156 | the first sale of an asset is never cut short by the wallet |
| `PaperAdapter.WalkBook` | yumtech-arbitrage/app/execution.py:164-187 | the loop with its two early exits computes the walk that PaperFills.WalkTakes characterises |
| `PaperAdapter.HummingbotPaperAdapter.ConfigureProfile` | yumtech-arbitrage/app/execution.py:119-131 | takes the configuration step of the runs above; unchanged when the profile is unreadable or out of range |
| `PaperAdapter.HummingbotPaperAdapter.EnsureSeed` | yumtech-arbitrage/app/execution.py:148-156 | seeds an asset on first use only, and never lowers its balance |
| `PaperAdapter.HummingbotPaperAdapter.ExecuteOrder` | yumtech-arbitrage/app/execution.py:197-242 | leaves wallet and fill as the order that PaperFills.OrderFills, PaperFills.OrderStates and OrderConserves speak about |
| `Strategy.RunSafe` | yumtech-arbitrage/hummingbot-overlay/scripts/yumtech_paper_arbitrage.py:182-388 | in every run at most one intent is open and it waits for an order that has not ended; each intent places at most one buy, sell and recovery; each submitted intent that is closed has exactly one completed record, and no order is left |
| `Strategy.RunRecords` | yumtech-arbitrage/hummingbot-overlay/scripts/yumtech_paper_arbitrage.py:320-346 | in every run, however events are timed, each completed record and what it missed add up to everything ever reported for its intent, the fills of each order or, while none comes, what its completion brought; and it is right exactly when what it missed is zero |
| `Strategy.TimedRecords` | yumtech-arbitrage/hummingbot-overlay/scripts/yumtech_paper_arbitrage.py:242-388 | nothing is missed in a run where fills come while their order is tracked and not ended and failed orders have no fills |
| `Strategy.StepValid` | yumtech-arbitrage/hummingbot-overlay/scripts/yumtech_paper_arbitrage.py:182-388 | every event, in any order, keeps the invariant behind RunSafe |
| `Strategy.StepCounts` | yumtech-arbitrage/hummingbot-overlay/scripts/yumtech_paper_arbitrage.py:242-388 | every event at whatever time keeps legs and open orders equal to what was seen of the fills, and any record it emits says so |
| `Strategy.LateFill` | yumtech-arbitrage/hummingbot-overlay/scripts/yumtech_paper_arbitrage.py:242-251 | after a right record was emitted, one more fill of an order of its intent leaves the record as it is, and right exactly when that fill says what the completion of its order had said for want of fills, or nothing if there was a fill |
| `Strategy.FilledFailure` | yumtech-arbitrage/hummingbot-overlay/scripts/yumtech_paper_arbitrage.py:378-388 | the failure of a filled order keeps the sums right exactly when its fills cancel out |
| `StrategyRecovery.RunRecovers` | yumtech-arbitrage/hummingbot-overlay/scripts/yumtech_paper_arbitrage.py:287-318 | in every run a tracked recovery order brings the imbalance of its intent to zero when filled, on the venue that holds the surplus, at an estimated loss within the limit |
| `StrategyRecovery.RecoveryRecord` | yumtech-arbitrage/hummingbot-overlay/scripts/yumtech_paper_arbitrage.py:320-388 | in every run the event that ends a recovery emits the record with the imbalance less what it filled: zero exactly when it filled what it asked for, and never larger or turned round by a fill of no more |
| `StrategyRecovery.RecoveryDecided` | yumtech-arbitrage/hummingbot-overlay/scripts/yumtech_paper_arbitrage.py:347-388 | in every run, when an order of a leg ends: nothing follows while the other leg is out; legs that agree are recorded balanced; else a recovery is placed exactly when its loss is within the limit and the connector takes it, and otherwise the imbalance is recorded |
| `StrategyRecovery.PlainRound` | yumtech-arbitrage/hummingbot-overlay/scripts/yumtech_paper_arbitrage.py:200-388 | a tick buys on the buying and sells on the selling venue, and two completions of one amount are recorded balanced with the proceeds less the cost less each venue's own fee |
| `Strategy.BothLegsFail` | yumtech-arbitrage/hummingbot-overlay/scripts/yumtech_paper_arbitrage.py:221-240 | a tick that opens an intent and places neither order records it at once as balanced, with no exposure and no profit |
| `Strategy.YumtechPaperArbitrage.OnTickEvent` | yumtech-arbitrage/hummingbot-overlay/scripts/yumtech_paper_arbitrage.py:182-240 | takes the tick step of the runs above |
| `Strategy.YumtechPaperArbitrage.DidFillOrder` | yumtech-arbitrage/hummingbot-overlay/scripts/yumtech_paper_arbitrage.py:242-251 | takes the fill step |
| `Strategy.YumtechPaperArbitrage.EndOrder` | yumtech-arbitrage/hummingbot-overlay/scripts/yumtech_paper_arbitrage.py:361-388 | takes the completion or failure step, with what follows from it |
| `Strategy.YumtechPaperArbitrage.SubmitRecovery` | yumtech-arbitrage/hummingbot-overlay/scripts/yumtech_paper_arbitrage.py:287-318 | places the recovery order that StrategyRecovery.RunRecovers describes or says that it did not, changing nothing then |
| `Strategy.YumtechPaperArbitrage.FinalizeIntent` | yumtech-arbitrage/hummingbot-overlay/scripts/yumtech_paper_arbitrage.py:320-346 | emits the record and removes the intent and every order of it, once both legs are known |
| `MarketBook.RunContiguous` | yumtech-arbitrage/app/market_stream.py:50-84 | when every call has an id, a stored book with id u is its last snapshot s with exactly the deltas s+1 to u, none missing and none twice |
| `MarketBook.RunPresent` | yumtech-arbitrage/app/market_stream.py:50-84 | when every call has an id, a book is stored exactly when it had a snapshot and since the last one the id of each delta is at most one above the snapshot's or an earlier delta's: a gap removes it until the next snapshot |
| `MarketBook.RunExplained` | yumtech-arbitrage/app/market_stream.py:50-84 | after any calls at all a stored book is its last snapshot with the taken deltas folded in, in order |
| `MarketBook.RunPositive` | yumtech-arbitrage/app/market_stream.py:28-84 | in every run all stored amounts are positive |
| `MarketBook.ServedBestFirst` | yumtech-arbitrage/app/market_stream.py:87-93 | what is served after any run is positive and best first, as pricing and execution need |
| `MarketBook.TopUnique` | yumtech-arbitrage/app/market_stream.py:87-93 | the list of the best levels is determined by its properties |
| `MarketBook.OrderBookStore.TopLevels` | yumtech-arbitrage/app/market_stream.py:87-93 | the best levels, strictly best first, each as stored, every other one worse |
| `MarketBook.OrderBookStore.Get` | yumtech-arbitrage/app/market_stream.py:87-93 | nothing for a missing or stale book, otherwise the two lists that ServedBestFirst speaks about |
| `MarketBook.OrderBookStore.ReplaceBook` | yumtech-arbitrage/app/market_stream.py:50-57 | takes the snapshot step of the runs above |
| `MarketBook.OrderBookStore.ApplyDelta` | yumtech-arbitrage/app/market_stream.py:59-84 | takes the delta step of the runs above, and returns true exactly when the delta was folded in |
| `LogTail.RunTracks` | ckpool-dashboard/yumtech_dashboard/collector.py:169-194 | over growth, rotation, truncation and passes in any order, as long as no other content is taken for the known file in mid-line and no file is first met inside a line of ten megabytes: what was handled and what a next pass would find is part of what was written, in order and none twice, and all of it exactly when nothing was skipped |
| `LogTail.RunCounts` | ckpool-dashboard/yumtech_dashboard/collector.py:169-194 | in every run without any condition the lines written are as many as those handled, those a next pass would find and those skipped |
| `LogTail.NothingSkipped` | ckpool-dashboard/yumtech_dashboard/collector.py:169-194 | nothing is skipped exactly when every file was read up before it was replaced, none was taken for a known one, and none had lines before its last ten megabytes when first met |
| `LogTail.LostAtRotation` | ckpool-dashboard/yumtech_dashboard/collector.py:169-194 | a run whose one line, written between a pass and a rotation, is never handled |
| `LogTail.HandledAgain` | ckpool-dashboard/yumtech_dashboard/collector.py:174-190 | of a file whose first n bytes were handled before, a pass handles exactly the lines between where it begins and n again, so none exactly when it begins at n |
| `LogTail.CutLine` | ckpool-dashboard/yumtech_dashboard/collector.py:175-180 | the line being written when a file is first met is handled whole once it ends, exactly unless the last ten megabytes lie inside it; then its end is handled as a line |
| `LogTail.CollectCatchesUp` | ckpool-dashboard/yumtech_dashboard/collector.py:169-194 | after a pass only an unfinished line is left, and exactly the lines from where the pass began were handled, once and in order |
| `LogTail.Resumable` | ckpool-dashboard/yumtech_dashboard/collector.py:169-194 | a pass now and one after the file has grown leave what one later pass leaves |
| `LogTail.LogCollector.CollectOnce` | ckpool-dashboard/yumtech_dashboard/collector.py:169-194 | makes the pass that CollectCatchesUp characterises and returns how many lines it handled |

## Left out

- Sockets, TLS, strands and timers, JSON, SQL text, HTTP, websockets, file syncing, clocks, logging, dashboards, configuration and the supervisor are left out; what the code learns from them is an input of a step.
- SHA-256, BLAKE2b, scrypt and the Noise ciphers are arbitrary functions; the cipher is indexed by its counter and opens what it sealed.  Wrap-around of the 64-bit counter and a failing libsodium initialisation are not modelled.
- BitGroups.ExpandArray: groups of 8 to 25 bits, which the 32-bit accumulator holds without loss; the callers use 20 and 21.
- BitGroups.GetIndicesFromMinimal: for a whole number of groups, as in the one call; on other lengths the source's loop reads past its buffer, which has no meaning to state.
- Checksum.Bech32Polymod: values are symbols of five bits, which is all the decoders pass; a prefix is ASCII.
- Checksum.CashAddrPolymod: values are symbols of five bits, which is all the decoder passes.
- Bech32.Bech32Decode: the prefix that the caller expects is ASCII; all callers pass one of the constant prefixes.
- Bech32.SegwitDecode: the same; nothing is assumed of the address itself.
- ConvertBits.ConvertBits: the register is not truncated to 32 bits, which makes no difference up to the widths 5 and 8 that the callers use.
- Address.DecodeAddress: an exception inside the decoder (Internal) and the size estimates and error texts of the same file are not modelled.
- Address.DecodesExactly: the standard's CashAddr types are 0 and 1; the token-aware types 2 and 3 count as not assigned, and Address.CashScript speaks of them.
- Coinbase.AddsUp: for all non-negative 64-bit coinbase values and all fund values; subtractions are exact, so two funds that together exceed the value by more than 2^63, where the signed subtraction would overflow, are judged as wrapping.
- Coinbase.ReadsBack: for scripts below 253 bytes; a longer script would need a longer length field than the one byte the code writes.
- Coinbase.BuildSessionCoinbase2: scripts are the bytes an address decodes to; the first half of a coinbase with the height encoding, and Zcash jobs, are not modelled.
- Sv2Framing.RoundTrip: for payloads the receiver accepts; Sv2Framing.FrameArrives says of every other payload that it does not arrive, not what the bytes after a wrapped length field decode to.
- ShareVerdict.NoSolveLost: one share is one step, and equal hashes agree on meeting their network target; custom jobs that change the target for the same header, aux-chain submission and the checks before a share is hashed are not modelled.  Duplicate-free counting is claimed for V1 only.
- ShareVerdict.LowExactly: for a difficulty that is not negative and a tolerance of at most 1, as all the session ever has.
- DbWorker.RunEffort: difficulties are exact reals, and the effort row exists; a commit whose outcome is unknown counts as not committed, and what is queued at shutdown, the network difficulty and the finder's effort of a block are not modelled.
- TrunkSteady.RunComplete: for a miner that connects after the last loss of the trunk, and connections lost earlier deliver nothing any more to the edge; the block relay to nodes is left out.
- Trunk.RunSafe: makes no such assumption: frames of a lost connection may still arrive, and bridges that the origin keeps after a loss are not excluded.
- TrunkDepartures.StepDeparts: a bridge that stays behind on a connection that was lost or replaced is the concern of the origin's own clean-up and not claimed.
- RpcRetry.SubmissionDelivers: the answer of the k-th contact is an input; the watchdog, the broadcast submission and a retry timer cancelled at shutdown are left out.
- Pricing.PricedIsLowerBound: amounts are exact reals, so rounding to 28 digits is not modelled; the same holds for PaperAdapter, Engine and Strategy.
- Engine.ArbitrageExecutionEngine.ExecutePaper: the two adapters are distinct and their legs run one after the other, which on distinct wallets is any interleaving; an adapter raises only after seeding its wallet, and the database records are the journal.
- PaperAdapter.WalkBook: a limit price of zero is no limit, as in the source, where zero is falsy; the fixture adapter that fills a configured ratio is left out.
- PaperFills.OrderFills: for books that are sorted best first, as MarketBook.ServedBestFirst shows of every served one, and wallets without a negative balance, as PaperAdapter.RunKeepsNonNegative shows of every run.
- Strategy.YumtechPaperArbitrage.OnTickEvent: the candidate that a tick finds is an input; how the strategy walks and prices it is not modelled here.
- Strategy.RunSafe: assumes that connectors never hand out an order id twice.
- MarketBook.RunContiguous: nothing is claimed after a snapshot without an id.
- LogTail.RunTracks: for orderly runs, in which no other content is taken for the known file with the stored offset inside one of its lines and no file is first met while its last ten megabytes lie inside one line; for other runs LogTail.RunCounts still balances the lines.  The content of a file that comes back counts as written again.  A crash between handling lines and storing the offset is not covered, and parsing of a line is left out.
- The secp256k1 key derivation of the identity script is left out.

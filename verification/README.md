# Verified model of a Thought node adapter

A Dafny model of the parts of a Rosetta adapter for the Thought chain whose correctness spans several
functions, with machine-checked proofs.

- **Coin lookups in the indexer** (`WaitTable`, `Indexer`, `IndexerSafety`, `IndexerChannels`, `IndexerAborts`,
  `IndexerObject`): goroutines that look up coins for blocks fetched ahead of the head, beside `BlockSeen` and
  `BlockAdded`. A transition system with one step per critical section, storage snapshot or unlocked read; runs are
  arbitrary sequences of steps. The table of waiting lookups and the shared fields are also classes whose methods
  perform those steps in place.
- **The script virtual machine** (`ScriptNum`, `Tokens`, `Scripts`, `Stack`, `Opcodes`, `OpcodeLaws`, `Handlers`,
  `SigHash`, `Commitments`, `SigCheck`, `MultiSig`, `Engine`, `EngineSafety`, `EngineMeaning`, `EnginePanics`,
  `Conditionals`, `Branches`, `PayToScriptHash`, `PayToPubKeyHash`, `ScriptEngine`): state functions for one
  step and whole runs, the invariants of every run, the meaning of a run as a chain of separately evaluated scripts, what
  each opcode, a whole conditional and a signature hash mean in terms of items and fields, and an object that executes
  in place against them.
- **Script building and signing** (`Builder`, `Merge`, `MultiSigSpend`, `MultiSigLaws`, `MergeLaws`).
- **Codecs** (`Bytes`, `Wire`, `TxCodec`, `WireLimits`, `Slots`, `PooledDecode`, `Radix`, `Base58`, `Address`):
  transactions on the wire, decoding through the pool of script buffers with an explicit memory and the message as it
  is filled, base58 in ten-digit chunks, addresses. Strings of base58 and addresses are bytes.
- **Blocks to operations** (`BlockOps`, `Ledger`, `Translation`).

`dafny verify dfyconfig.toml` checks everything.

Hash functions and signature primitives are fields of the `Crypto` datatype, arbitrary functions about which only
digest sizes, the least length the signature parser looks at (8 bytes) and "strict DER parses like lax BER" are assumed
(`Crypto.Sound`); there is no upper bound, because the parser ignores trailing bytes. Addresses of public keys also
assume the key formats (`Crypto.KeysSound`).

Facts about the code that the proofs bring out:

- A signature check on an empty signature reads index -1. `EnginePanics` shows that this is the only panic in any run
  of the modelled engine, exactly when it happens, and a run that reaches it.
- `mergeMultiSig` drops the builder's error. A signature of more than 520 bytes, or signatures of more than 10000 bytes
  together, are matched to their keys and then lost: the script ends before the first push refused and does not spend.
- A registration left behind by a cancelled lookup of a lower height hides its entry from the aborting pass, so a lookup
  for the next block that waits for the same transaction is not aborted (`AbortWakes`, `AbandonedHides`).
- Decoding a base58 string, and so an address, panics on runes of 256 and more and on runes cut by the ten-byte blocks.
- The witness encoding of a transaction without inputs never decodes back, and a witness marker followed by only
  empty witnesses is accepted but not reproduced by encoding.
- The comment on popIfBool asks for an element of length at least one; the code accepts the empty element and refuses
  longer ones. The model follows the code.
- `numOps` grows only by the number of multi-signature keys, so no limit on the number of opcodes is stated.

## Model

| member | source | states |
|---|---|---|
| IndexerSafety.RunInv | indexer/indexer.go:358-750 | every interleaving of lookup, BlockSeen and BlockAdded steps, from the empty indexer on, keeps the whole protocol invariant: stages, cache contents, table entries, outstanding registrations, lock ownership and what each waiting lookup knows |
| IndexerChannels.NoLostWakeUp | indexer/indexer.go:424-506 | in every reachable state a lookup parked on a coin of a block whose closing pass has finished can be woken: the very channel it took from the table is closed |
| IndexerChannels.NextBlockNotStuck | indexer/indexer.go:396-410 | a lookup for the block after the head, waiting for a coin created by an earlier block, can always go on |
| IndexerChannels.CapturedChannel | indexer/indexer.go:695-704 | in every reachable state the channel a lookup blocks on is the channel of its transaction's entry, never a stale one |
| IndexerChannels.NeverClosedTwice | indexer/indexer.go:396-410 | in every reachable state neither pass would close a channel that is closed already |
| IndexerChannels.NoSpuriousAbort | indexer/indexer.go:393-410 | when every lookup asks only for coins created by earlier blocks, no entry is ever marked aborted and no lookup ends with the orphan-head error |
| IndexerAborts.AbortDoes | indexer/indexer.go:393-410 | in every reachable state where the aborting pass can run: each entry that was open with earliestBlock at the next height ends closed and marked aborted with its channel closed, no open entry of that height is left, every other entry and every lookup is unchanged, and no other channel is closed |
| IndexerAborts.CloseDoes | indexer/indexer.go:472-497 | the closing pass of a block leaves the entries of its transactions closed, their marks as they were, and every other entry and channel unchanged |
| IndexerAborts.AbortWakes | indexer/indexer.go:393-410 | a lookup for the next block that is parked when the aborting pass runs can be woken afterwards if and only if its channel was closed before or no registration for the transaction has a lower height; registrations of lower height belong to lookups that have ended |
| IndexerAborts.AbandonedHides | indexer/indexer.go:396-410 | the exception is reachable: a run in which a cancelled lookup for block 1 hides the entry of a lookup for block 2, which the pass after block 1 leaves parked |
| IndexerAborts.OrphanIff | indexer/indexer.go:690-735 | over every run a lookup that was not cancelled ends with the orphan-head error if and only if one of the waits it gave back had been aborted |
| IndexerAborts.ClosedForCause | indexer/indexer.go:393-497 | in every reachable state a closed entry was closed by a block with its transaction or aborted, and aborted entries have an earliest block at most the next one |
| IndexerAborts.CacheExact | indexer/indexer.go:377-454 | in every reachable state the cache holds exactly the coins of blocks that were seen and not yet cleaned away after being added |
| IndexerAborts.NoWaitBeforeHead | indexer/indexer.go:546-560 | while there is no head block the table is empty and no lookup waits |
| Indexer.StoredIff | indexer/indexer.go:563-575 | coin storage holds a coin exactly when an added block created it and no added block spent it since |
| IndexerSafety.Accounting | indexer/wait_table.go:74-81 | in every reachable state an entry exists exactly when some registration was not given back (abandoned ones included), listeners is their number, earliestBlock is the least height registered, aborted implies closed |
| IndexerSafety.AlwaysInWaiter | indexer/indexer.go:695-718 | neither "not in waiter" return is ever taken |
| IndexerSafety.LookupResult | indexer/indexer.go:656-750 | a finished findCoins call returns exactly the coins it was started with, each with the account and amount of the operation that created it, however blocks move between cache and storage |
| IndexerSafety.NotClosedYet | indexer/indexer.go:588-628 | when the re-check under the lock finds head and seen unchanged, the closing pass of the block that creates the coin is still to come |
| IndexerSafety.NotStored | indexer/indexer.go:546-575 | a coin missing from a storage snapshot was created by no block added before that snapshot |
| IndexerSafety.CloseKeeps | indexer/indexer.go:472-497 | the closing pass of BlockSeen keeps the invariant; in particular it wakes every registration for the block's coins |
| IndexerSafety.RegisterKeeps | indexer/indexer.go:588-630 | the critical section of findCoin keeps the invariant on both outcomes |
| IndexerSafety.ReleaseKeeps | indexer/indexer.go:707-730 | decrementing or deleting the entry after a wake-up keeps the invariant |
| IndexerSafety.CleanKeeps | indexer/indexer.go:377-391 | cleaning the cache after a block is added removes that block's coins and no others |
| IndexerObject.IndexerFields.SeenLoad | indexer/indexer.go:432-454 | the loop over the block's operations under the cache lock performs exactly the protocol's load step |
| IndexerObject.CreatedByIff | indexer/indexer.go:432-454 | the coins a block makes accessible are exactly those some operation of some transaction creates |
| IndexerObject.IndexerFields.SeenCount | indexer/indexer.go:456-459 | incrementing seen is the protocol's count step |
| IndexerObject.HashesIff | indexer/indexer.go:474-476 | the closing pass is given exactly the hashes of the block's transactions |
| IndexerObject.IndexerFields.SeenClose | indexer/indexer.go:472-497 | the pass over the block's transactions is the protocol's close step |
| IndexerObject.IndexerFields.AddedClean | indexer/indexer.go:377-391 | the deleting loop is the protocol's clean step |
| IndexerObject.IndexerFields.AddedAbort | indexer/indexer.go:393-410 | the pass over the wait table is the protocol's abort step |
| IndexerObject.IndexerFields.LookupWait | indexer/indexer.go:695-701 | taking the entry's channel before blocking is the protocol's wait step |
| IndexerObject.IndexerFields.LookupRegister | indexer/indexer.go:608-630 | comparing seen and joining the entry is the protocol's register step |
| IndexerObject.IndexerFields.LookupRelease | indexer/indexer.go:707-730 | the critical section after a wake-up is the protocol's release step |
| WaitTable.WaitTableObject.Register | indexer/indexer.go:613-629 | an existing entry object is updated in place, a missing one created; all other entries keep their values |
| WaitTable.WaitTableObject.Release | indexer/indexer.go:708-729 | listeners drops by one and the last listener deletes the entry; reports presence and the aborted mark |
| WaitTable.WaitTableObject.ClosePass | indexer/indexer.go:474-497 | exactly the entries of the listed transactions end closed, and no channel is closed twice |
| WaitTable.WaitTableObject.AbortPass | indexer/indexer.go:396-410 | exactly the open entries whose earliest block comes next end closed and aborted, and no channel is closed twice |
| EngineMeaning.ExecuteIsValidate | thoughtd/txscript/engine.go:496-624 | a run of the engine from NewEngine has the outcome of evaluating signature script, output script and (pay-to-script-hash) redeem script separately and in order, each on the data stack the one before left |
| EngineMeaning.ReachableInv | thoughtd/txscript/engine.go:496-603 | every state reached from NewEngine satisfies the invariant: a token comes next, the code separator is a token boundary, items have at most 520 bytes, the stacks together at most 1000 items, the condition stack mirrors the conditionals read |
| EngineSafety.StepKeepsInv | thoughtd/txscript/engine.go:496-603 | Step keeps that invariant, ends only past the last script, and never yields ErrInvalidProgramCounter or ErrScriptUnfinished |
| EngineSafety.NewEngineOk | thoughtd/txscript/engine.go:932-1030 | every engine NewEngine accepts satisfies the invariant |
| EngineSafety.StepFindsToken | thoughtd/txscript/engine.go:507-523 | a state in position has a next token, the tokenizer never fails or runs out, and subScript parses |
| EngineMeaning.ExecuteKeepsPlace | thoughtd/txscript/engine.go:607-624 | no run ends with ErrInvalidProgramCounter or ErrScriptUnfinished |
| Engine.StepDecreases | thoughtd/txscript/engine.go:607-624 | every step that does not end the run lowers (scripts left, bytes left), so Execute terminates |
| Engine.ExecuteKeepsPosition | thoughtd/txscript/engine.go:340-376 | no handler moves the program counter or touches the script list or the saved stack |
| EngineSafety.ExecuteSmall | thoughtd/txscript/opcode.go:1194-1946 | every handler keeps items within 520 bytes, and the code separator is the old one or the current token boundary |
| EngineSafety.ExecuteErrors | thoughtd/txscript/opcode.go:767-2256 | the internal errors no handler gives, and exactly when a handler panics |
| EnginePanics.StepPanicsIff | thoughtd/txscript/sigvalidate.go:64-65 | a step panics if and only if an executing CHECKSIG or CHECKSIGVERIFY is about to read the last byte of an empty signature |
| EnginePanics.ExecutePanicsIff | thoughtd/txscript/engine.go:607-624 | from any engine NewEngine accepts, Execute panics if and only if some state it reaches is about to check an empty signature |
| EnginePanics.ReachableSaved | thoughtd/txscript/engine.go:554-575 | in every reachable state of a pay-to-script-hash run the saved first stack is non-empty once the output script hashed its top, so the redeem script can be taken from it |
| EnginePanics.EmptySignaturePanics | thoughtd/txscript/sigvalidate.go:46-65 | two empty pushes against a bare CHECKSIG are accepted by NewEngine and make the run panic |
| PayToScriptHash.ExecuteIsBip16 | thoughtd/txscript/engine.go:554-600 | a pay-to-script-hash run: the signature script is push-only; an empty stack is an error; the redeem script is the last item it left, only if its HASH160 is the one in the output, and it runs on the remaining items in order (Specification section of BIP 16) |
| PayToScriptHash.ExecuteAccepts | thoughtd/txscript/engine.go:457-624 | which transactions the engine accepts: the signature script runs on nothing, the output script on what it leaves; for pay-to-script-hash the last of those items (fewer than 1000) parses, has the RIPEMD-160 of its SHA-256 in bytes 2 to 21 of the output, and runs on the others; the last stack has a number other than zero on top, alone under the clean-stack flag |
| PayToScriptHash.NewEngineIff | thoughtd/txscript/engine.go:932-1030 | an engine is made if and only if the index is in range, not both scripts are empty, both parse and have at most 10000 bytes, and the signature script only pushes where the flag or a script-hash output asks for it |
| PayToScriptHash.ScriptHashIff | thoughtd/txscript/standard.go:169-187 | the one form of a script-hash output, in bytes |
| PayToScriptHash.EvalScriptHash | thoughtd/txscript/opcode.go:1389-1401 | the script-hash output script compares the hash of the top item and leaves the items below alone, on every stack |
| PayToScriptHash.RunPushes | thoughtd/txscript/opcode.go:789-815 | a run of pushes succeeds exactly when each push is acceptable and they fit the stack limit, and leaves the items in order |
| Conditionals.EvalIsRefEval | thoughtd/txscript/opcode.go:840-985 | evaluating any script with the three-valued condition stack gives the same outcome as the textbook rule: one boolean per open IF, taken from whether the popped item denotes a number other than zero, and execution when all are true |
| Branches.IfElseRuns | thoughtd/txscript/opcode.go:840-985 | for all balanced A and B and every item x on top: IF A ELSE B ENDIF refuses x exactly by the minimal-if rule; otherwise, when x denotes a number other than zero, it runs A in its place on the items below as if nothing else were there, and when x denotes zero it runs B; NOTIF the other way round. The run succeeds if and only if that part does and the part passed over has no disabled opcode, OP_VERIF, OP_VERNOTIF or push over 520 bytes, and then leaves that part's state, past the end |
| Branches.IfRuns | thoughtd/txscript/opcode.go:840-985 | the same without an ELSE |
| Branches.IfNeedsItem | thoughtd/txscript/opcode.go:840-847 | with nothing to pop the conditional fails |
| Branches.ChoosesBranch | thoughtd/txscript/opcode.go:893-985 | IF 2 ELSE 3 ENDIF leaves 2 for every item that denotes a number other than zero and 3 for every other, NOTIF the other way round |
| Branches.RunPassable | thoughtd/txscript/engine.go:340-362 | a run that succeeds contains no disabled or always-illegal opcode and no push over 520 bytes, executed or not |
| Conditionals.ExecutingIffAllSet | thoughtd/txscript/engine.go:210-215 | testing only the top of condStack is equivalent to every enclosing condition being true |
| EngineSafety.ConditionalNests | thoughtd/txscript/opcode.go:893-985 | each conditional keeps: an entry is Skip exactly when the one below is not True, and depth follows the nesting of the tokens |
| EngineMeaning.EvalBalanced | thoughtd/txscript/engine.go:537-542 | every script that ends without error has balanced IF and ENDIF |
| EngineMeaning.EvalBounds | thoughtd/txscript/engine.go:526-533 | the stack a script leaves obeys the element and depth limits |
| EngineMeaning.ExecuteRunsTokens | thoughtd/txscript/engine.go:496-624 | from any reachable position Execute runs the remaining tokens of the script one by one and then moves on |
| ScriptEngine.NewMachine | thoughtd/txscript/engine.go:932-1030 | refuses with the first failing check, or builds an engine object in position with the given scripts |
| ScriptEngine.Machine.Execute | thoughtd/txscript/engine.go:607-624 | the loop over Step computes what a run without a signature cache computes, whatever good cache is shared, and leaves the cache good |
| ScriptEngine.Machine.Step | thoughtd/txscript/engine.go:496-603 | one step in place, through the tokenizer object, the two stack objects and the cache, equals one step of the state function |
| ScriptEngine.Machine.EndOfScript | thoughtd/txscript/engine.go:537-600 | the end-of-script branch resets and advances exactly as specified |
| ScriptEngine.Machine.NextScript | thoughtd/txscript/engine.go:554-583 | the switch that saves the first stack, appends the redeem script or moves on |
| ScriptEngine.Machine.TakeRedeem | thoughtd/txscript/engine.go:566-578 | the redeem script is the top of the saved stack and the rest becomes the data stack, or the right error |
| ScriptEngine.Machine.SetStack | thoughtd/txscript/engine.go:896-903 | the data stack becomes the given items |
| ScriptEngine.Machine.CheckFinished | thoughtd/txscript/engine.go:457-488 | the final verdict, with the examined boolean taken off |
| ScriptEngine.Machine.RunOpcode | thoughtd/txscript/engine.go:340-376 | the checks before dispatch and the handler's effect |
| ScriptEngine.Machine.Branch | thoughtd/txscript/opcode.go:893-985 | IF, NOTIF, ELSE and ENDIF on the condition stack |
| ScriptEngine.Machine.PopIf | thoughtd/txscript/opcode.go:840-876 | the popped boolean, with the minimal-if rule when the flag asks for it |
| ScriptEngine.Machine.OpcodeCheckSignature | thoughtd/txscript/opcode.go:1962-2000 | pops key and signature and pushes the verdict of the check without a cache |
| ScriptEngine.Machine.OpcodeCheckMultiSig | thoughtd/txscript/opcode.go:2043-2238 | counts, pops, dummy, greedy loop and null-fail rule, with any good cache, equal the specification |
| ScriptEngine.Machine.Stacking | thoughtd/txscript/opcode.go:1194-1938 | every handler that only touches the stacks equals its specification |
| Handlers.RearrangeData | thoughtd/txscript/opcode.go:1222-1369 | each rearranging opcode moves exactly the blocks its documentation shows |
| OpcodeLaws.PairOpcodes | thoughtd/txscript/opcode.go:1222-1262 | 2DROP, 2DUP, 3DUP, 2OVER, 2ROT and 2SWAP, item by item on any stack |
| OpcodeLaws.SingleOpcodes | thoughtd/txscript/opcode.go:1266-1369 | IFDUP, DEPTH, DROP, DUP, NIP, OVER, ROT, SWAP and TUCK, item by item on any stack |
| OpcodeLaws.IndexedOpcodes | thoughtd/txscript/opcode.go:1325-1348 | PICK copies and ROLL moves the item n below the top, and both fail outside the stack |
| OpcodeLaws.AltOpcodes | thoughtd/txscript/opcode.go:1194-1216 | TOALTSTACK and FROMALTSTACK undo each other and fail on an empty stack |
| OpcodeLaws.Underflow | thoughtd/txscript/opcode.go:1222-1369 | with fewer items than it needs each rearranging opcode fails |
| OpcodeLaws.ByteOpcodes | thoughtd/txscript/opcode.go:992-1415 | VERIFY, SIZE, EQUAL and EQUALVERIFY on any items |
| OpcodeLaws.HashOpcodes | thoughtd/txscript/opcode.go:1869-1938 | each hash opcode replaces the top item by the digest of the named primitives |
| OpcodeLaws.ReturnNotExecuted | thoughtd/txscript/opcode.go:1013-1015 | a run that succeeds passed over every RETURN in it: no script whose run executes one succeeds |
| OpcodeLaws.SeparatorCuts | thoughtd/txscript/opcode.go:1942-1946 | after CODESEPARATOR signatures cover exactly the rest of the script |
| OpcodeLaws.PushOpcodes | thoughtd/txscript/opcode.go:789-815 | the item each push leaves, and the minimal-push rule |
| OpcodeLaws.NopOpcodes | thoughtd/txscript/opcode.go:820-834 | NOP does nothing; the upgradable ones fail exactly when discouraged |
| OpcodeLaws.ReservedOpcodes | thoughtd/txscript/opcode.go:774-785 | reserved and unassigned opcodes fail when executed |
| OpcodeLaws.LockOpcodes | thoughtd/txscript/opcode.go:1043-1186 | both lock opcodes leave the state alone; enabled, they succeed exactly on an operand of at most five bytes that is not negative and that the locks allow |
| OpcodeLaws.CheckSigOpcodes | thoughtd/txscript/opcode.go:1962-2015 | the key is on top and the signature below it; the answer or the error of the check over the code after the last separator; CHECKSIGVERIFY fails on false |
| Handlers.Arithmetic | thoughtd/txscript/opcode.go:1422-1857 | numeric opcodes compute the documented number from their operands and push its minimal encoding |
| OpcodeLaws.OperandIff | thoughtd/txscript/scriptnum.go:197-237 | an item is an operand if and only if it has at most four bytes and, under the flag, is the shortest encoding of its number |
| OpcodeLaws.UnaryOpcodes | thoughtd/txscript/opcode.go:1422-1520 | the six one-operand opcodes in arithmetic |
| OpcodeLaws.ArithmeticOpcodes | thoughtd/txscript/opcode.go:1526-1827 | ADD, SUB, MIN and MAX; the upper item is the right operand |
| OpcodeLaws.ComparisonOpcodes | thoughtd/txscript/opcode.go:1568-1780 | the boolean and comparing opcodes in arithmetic |
| OpcodeLaws.NumEqualVerify | thoughtd/txscript/opcode.go:1648-1654 | removes two equal numbers and fails on others |
| OpcodeLaws.WithinOpcode | thoughtd/txscript/opcode.go:1835-1857 | true exactly when the lower bound is at most the number and the number below the upper bound |
| Handlers.PushConstant | thoughtd/txscript/opcode.go:789-815 | the push handlers leave the specified item |
| Handlers.PopLoop | thoughtd/txscript/opcode.go:2068-2100 | keys and signatures come off in pop order, or the stack was too short |
| MultiSig.GreedyIsComplete | thoughtd/txscript/opcode.go:2127-2224 | without a script error the greedy loop answers true if and only if some strictly order-preserving assignment of signatures to keys verifies every pair |
| MultiSigSpend.CheckMultiSigDecides | thoughtd/txscript/opcode.go:2043-2238 | the boolean CHECKMULTISIG pushes is true if and only if the popped signatures can be so assigned to the popped keys |
| MultiSigLaws.MultiSigOpcode | thoughtd/txscript/opcode.go:2043-2238 | on dummy, signatures, count, keys, count: more than 20 keys, more than 201 operations, more signatures than keys and a filled dummy under the flag are the errors, in that order; then, unless a pair breaks an encoding rule, the items are replaced by whether the signatures can be assigned to the keys in order, with the null-fail rule |
| MultiSig.TryPairIs | thoughtd/txscript/opcode.go:2141-2208 | the rules for one pair in order: hash types 1, 2, 3 with or without 0x80, the DER check, the parser the flags select, keys of 33 bytes from 2 or 3 or 65 bytes from 4, verification over the whole script |
| MultiSig.CheckLoop | thoughtd/txscript/opcode.go:2122-2224 | the loop with its counters, parse-once records and cache equals that decision; both array indices stay in range |
| SigCheck.SigCache.Add | thoughtd/txscript/sigcache.go:76-102 | only valid triples are held and the size never exceeds the maximum, whichever entry is evicted |
| SigCheck.VerifySig | thoughtd/txscript/sigvalidate.go:128-144 | with any good cache the answer is that of verification without one, and the cache stays good |
| SigCheck.OpcodeCheckSig | thoughtd/txscript/opcode.go:1962-2000 | encoding errors, unparsable keys and signatures, removal of the signature from the script, null-fail: as specified, with any good cache |
| SigCheck.CheckSigIs | thoughtd/txscript/sigvalidate.go:46-97 | the rules for a single check in order, by length and first byte: under strict encoding exactly hash types 1, 2, 3, 0x81, 0x82, 0x83 and keys of 33 bytes from 2 or 3 or 65 bytes from 4 pass; which parser is used; false or the null-fail error |
| Merge.MergeMultiSig | thoughtd/txscript/sign.go:167-276 | the extracting, matching and building loops return the specified script, on any input: dummy, signatures in key order and padding up to the first item the builder refuses, or one of the two inputs on the early exits |
| Merge.AddrToSigOk | thoughtd/txscript/sign.go:206-243 | every signature kept for an address verifies for every key of that address |
| MergeLaws.MergedWithout | thoughtd/txscript/sign.go:175-203 | an empty or unreadable script leaves the other one as it is |
| MergeLaws.CoveredCount | thoughtd/txscript/sign.go:206-243 | the number of keys the merge has signatures for is the number of keys whose address some push of either script verifies for, at its first matching key |
| MergeLaws.HasSignatureIff | thoughtd/txscript/sign.go:206-243 | when no push verifies for two addresses, a key has a signature if and only if some push of either script verifies for it |
| MergeLaws.MergedShape | thoughtd/txscript/sign.go:245-275 | a dummy and n places: signatures first, empty items for the missing ones |
| MergeLaws.NoSignatureLost | thoughtd/txscript/sign.go:167-276 | when the pushes of the two scripts are signatures for at least n keys, the merged script takes n of those pushes, and it spends the output if and only if they keep the limits of 520 and 10000 bytes |
| MultiSigSpend.MergedSpendsIff | thoughtd/txscript/sign.go:167-276 | when the two scripts hold signatures for at least n of the keys, NewEngine accepts the merged script for the bare multi-signature output, and the run succeeds if and only if the builder took every item and no pair of the check fails an encoding rule; under any flags |
| MultiSigSpend.MergedSpends | thoughtd/txscript/sign.go:167-276 | when the chosen signatures and the keys pass the encoding checks the flags ask for, the run succeeds if and only if each chosen signature has at most 520 bytes and the script at most 10000 |
| MultiSigSpend.LongSignatureLost | thoughtd/txscript/sign.go:245-275 | a matching signature of more than 520 bytes, which the parser accepts with its trailing bytes, is matched and then dropped: the merged script is the dummy alone and the run fails |
| MultiSigSpend.LongSignatureInput | thoughtd/thtec/ecdsa/signature.go:72-80 | such an input: a one-of-one output and a signature of 600 bytes |
| MultiSigSpend.EvalMultiSig | thoughtd/txscript/opcode.go:2043-2238 | under any flags, a bare multi-signature script on a dummy and n signatures answers with the verdict, and leaves true if and only if no pair fails an encoding rule and the signatures can be assigned to the keys in order |
| MultiSigSpend.EvalMultiSigShort | thoughtd/txscript/opcode.go:2084-2108 | with fewer items than signatures asked for plus the dummy, the script fails |
| SigHash.PreimageIgnoresScripts | thoughtd/txscript/sighash.go:85-172 | transactions that differ only in signature scripts and witnesses have the same preimage, for every hash type |
| Commitments.PreimageCommits | thoughtd/txscript/sighash.go:85-172 | for transactions within the wire limits two preimages for an input are equal if and only if the hash types are equal, the scripts are equal without separators, and the transactions agree in version, lock time, the signed input's outpoint and sequence and: all outpoints, unless ANYONECANPAY; all sequences, unless ANYONECANPAY, NONE or SINGLE; all outputs, or for SINGLE the one of that index, or for NONE none. There is no preimage exactly for SINGLE without that output |
| Commitments.SameSignedScript | thoughtd/txscript/sighash.go:115-116 | scripts that parse are equal without separators if and only if their tokens other than OP_CODESEPARATOR are equal |
| Commitments.HashIs | thoughtd/txscript/sighash.go:103-171 | the digest is the double SHA-256 of the transaction with those fields blanked (value -1 and no script for earlier outputs under SINGLE, sequence 0), without witnesses, followed by the hash type in four bytes; or one, little endian |
| PayToPubKeyHash.PayloadCommits | services/construction_service.go:326-361 | the payload is the double SHA-256 of bytes that two transactions share if and only if they agree in version, lock time, every output, and the outpoint and sequence of every input |
| SigHash.CalcPreimage | thoughtd/txscript/sighash.go:85-172 | the copy-and-overwrite code computes the specified preimage and changes nothing of the caller's transaction |
| SigHash.ShallowCopyTx | thoughtd/txscript/sighash.go:44-66 | new input and output objects with the same values |
| PayToPubKeyHash.SignedHashIsVerifiedHash | services/construction_service.go:326-361 | for a pay-to-pubkey-hash output the engine accepts signature and key if and only if the key hashes to the output's hash, the encodings pass, and the signature verifies over the payload handed out for the unsigned transaction |
| PayToPubKeyHash.EvalPubKeyHash | thoughtd/txscript/opcode.go:1962-2000 | what a pay-to-pubkey-hash output answers for every signature and key |
| PayToPubKeyHash.NothingRemoved | thoughtd/txscript/script.go:195-231 | a signature longer than 20 bytes leaves the output script as it is |
| PayToPubKeyHash.ExtractsExactly | thoughtd/txscript/standard.go:141-181 | extraction returns a hash if and only if the script is the constructed one for that hash |
| PayToPubKeyHash.TemplatesAre | thoughtd/txscript/standard.go:541-575 | the three templates, byte for byte |
| PayToPubKeyHash.ExtractsKeyExactly | thoughtd/txscript/standard.go:84-130 | a public key is extracted if and only if the script is the constructed one for a key of one of the five forms |
| PayToPubKeyHash.PayToPubKeyHashScript | thoughtd/txscript/standard.go:556-560 | the builder calls produce the pay-to-pubkey-hash template |
| PayToPubKeyHash.PayToScriptHashScript | thoughtd/txscript/standard.go:564-567 | the builder calls produce the pay-to-script-hash template |
| PayToPubKeyHash.PayToPubKeyScript | thoughtd/txscript/standard.go:571-574 | the builder calls produce the pay-to-pubkey template |
| Builder.BuiltPushes | thoughtd/txscript/scriptbuilder.go:193-221 | what AddData builds from a list tokenizes to one minimal push per item, takes canonicalDataSize bytes each, and executes to exactly those items in order, the single byte zero becoming the empty item (rules 3 and 4 of BIP 62) |
| Builder.MinimalIffShortest | thoughtd/txscript/engine.go:293-335 | checkMinimalDataPush accepts a push if and only if no other push of the same item is shorter |
| Builder.BuildData | thoughtd/txscript/scriptbuilder.go:193-221 | a chain of AddData calls succeeds exactly when every item and the total fit the limits, and otherwise holds the items before the first one refused |
| Builder.FullScriptIff | thoughtd/txscript/sign.go:245-275 | the script a builder returns after its error is dropped is the full one if and only if every item and the total fit the limits |
| Builder.PushTokenMeans | thoughtd/txscript/scriptbuilder.go:99-169 | each chosen push is well formed, minimal, means its data, and has the predicted size |
| Builder.IntTokenMeans | thoughtd/txscript/scriptbuilder.go:226-252 | executing what AddInt64 appends pushes the minimal encoding of the integer |
| Builder.ScriptBuilder.AddData | thoughtd/txscript/scriptbuilder.go:193-221 | refuses exactly what breaks a limit and then keeps the script |
| Builder.ScriptBuilder.AddDataUnchecked | thoughtd/txscript/scriptbuilder.go:128-169 | appends the bytes of the compact push |
| Builder.ScriptBuilder.AddInt64 | thoughtd/txscript/scriptbuilder.go:226-252 | appends the push of the integer or refuses |
| Builder.ScriptBuilder.AddOp | thoughtd/txscript/scriptbuilder.go:58-74 | appends the opcode or refuses |
| Builder.ScriptBuilder.AddOps | thoughtd/txscript/scriptbuilder.go:79-95 | appends the opcodes or refuses |
| Tokens.RenderOfTokens | thoughtd/txscript/tokenizer.go:63-149 | tokens and unread tail account for every byte of any script |
| Tokens.TokensOfRender | thoughtd/txscript/tokenizer.go:63-149 | tokenizing undoes rendering of well-formed tokens and goes on with what follows |
| Tokens.NextBoundary | thoughtd/txscript/tokenizer.go:63-149 | reading one token moves from one token boundary to the next; it fails only where no token starts |
| Tokens.RawIs | thoughtd/txscript/tokenizer.go:63-150 | the bytes of a token: direct pushes, length fields of one, two and four bytes least significant first, single opcodes |
| Scripts.ScriptTokenizer.Next | thoughtd/txscript/tokenizer.go:63-149 | reads the i-th token, or stops with an error exactly when bytes remain |
| Scripts.CheckScriptParses | thoughtd/txscript/script.go:371-377 | true exactly when the whole script tokenizes |
| Scripts.IsPushOnlyScript | thoughtd/txscript/script.go:74-86 | true exactly when the script parses and has only pushes |
| Scripts.RemovalIsFiltering | thoughtd/txscript/script.go:125-231 | on scripts that parse, the token sequence after removal is the filtered token sequence |
| Scripts.RemoveOpcodeRaw | thoughtd/txscript/script.go:125-150 | the removal loop for one opcode, on every script |
| Scripts.RemoveOpcodeByData | thoughtd/txscript/script.go:195-231 | the removal loop for data; on scripts that parse the result is filtering |
| Scripts.DropsTokens | thoughtd/txscript/script.go:160-231 | a token is dropped if and only if its data contains the given bytes and it is not one of the four kinds of needlessly long pushes |
| ScriptNum.ValueOfBytes | thoughtd/txscript/scriptnum.go:104-237 | decoding undoes encoding on every integer |
| ScriptNum.NumValueIs | thoughtd/txscript/scriptnum.go:215-237 | least significant byte first, the top bit of the last byte is the sign |
| ScriptNum.MinimalIffCanonical | thoughtd/txscript/scriptnum.go:62-87 | a byte string passes the minimal check if and only if it is the encoding of the number it denotes |
| ScriptNum.Encode | thoughtd/txscript/scriptnum.go:104-144 | the loop produces the sign-and-magnitude encoding, at most eight bytes |
| ScriptNum.Decode | thoughtd/txscript/scriptnum.go:197-237 | the accumulating loop and the sign mask give the denoted number, or the right error, within the stated range |
| ScriptNum.TruthyIffNonZero | thoughtd/txscript/stack.go:13-24 | the boolean reading holds if and only if the item decodes to a non-zero number, negative zero included |
| ScriptNum.AsBool | thoughtd/txscript/stack.go:13-24 | the loop computes that reading |
| ScriptNum.EncodedSize | thoughtd/txscript/scriptnum.go:104-144 | exactly the numbers below 2^(8k-1) in magnitude fit in k bytes |
| Opcodes.ComputedBound | thoughtd/txscript/opcode.go:1422-1857 | every number a numeric opcode pushes lies within ±(2^32-2) |
| Opcodes.NumericLaws | thoughtd/txscript/opcode.go:1422-1827 | laws between the numeric opcodes that fix operand order and results: OP_SUB undoes OP_ADD, comparisons negate their opposites and follow the sign of the difference, OP_MIN and OP_MAX order the two operands, De Morgan |
| Opcodes.IncrementUndone | thoughtd/txscript/opcode.go:1422-1445 | on the stack, OP_1SUB undoes OP_1ADD if and only if the item is minimally encoded and the sum still fits an operand |
| Stack.DataStack.NipN | thoughtd/txscript/stack.go:146-167 | all three branches remove exactly the idx-th item |
| Stack.DataStack.DropN | thoughtd/txscript/stack.go:205-218 | removes the top n items, or fails exactly when there are fewer |
| Stack.DataStack.DupN | thoughtd/txscript/stack.go:225-241 | copies the top n items as a block |
| Stack.DataStack.RotN | thoughtd/txscript/stack.go:248-266 | the loop of single moves is one rotation of the top 3n items |
| Stack.DataStack.SwapN | thoughtd/txscript/stack.go:273-290 | the loop of single moves exchanges the two top blocks of n |
| Stack.DataStack.OverN | thoughtd/txscript/stack.go:297-315 | copies the second block of n |
| Stack.DataStack.PickN | thoughtd/txscript/stack.go:323-331 | copies the n-th item to the top |
| Stack.DataStack.RollN | thoughtd/txscript/stack.go:339-348 | moves the n-th item to the top |
| Stack.DataStack.Tuck | thoughtd/txscript/stack.go:184-198 | inserts the top item below the second |
| Stack.DataStack.PopInt | thoughtd/txscript/stack.go:83-90 | pops and decodes under the stack's minimality rule |
| Stack.RotatedIsPermutation | thoughtd/txscript/stack.go:248-290 | rotations and swaps neither lose nor duplicate items |
| Stack.SwapTwice | thoughtd/txscript/stack.go:273-290 | swapping the same blocks twice restores the stack |
| TxCodec.DecodeEncode | thoughtd/wire/msgtx.go:438-769 | within the limits decoding undoes encoding and leaves the rest of the stream; the base form drops witnesses (Serialization section of BIP 144) |
| WireLimits.DecodesIff | thoughtd/wire/msgtx.go:438-678 | a transaction with fields of proper widths decodes from its bytes if and only if it has at most 818401 inputs and 3728271 outputs, scripts of at most 33554432 bytes and, in the witness form, at most 500000 items of at most 11000 bytes per input; one more of any is refused as too large |
| WireLimits.Layout | thoughtd/wire/msgtx.go:709-769 | a transaction with one input and one output, byte for byte, in both encodings |
| WireLimits.CountBytes | thoughtd/wire/common.go:539-565 | the four forms of a count, byte for byte |
| TxCodec.EncodeDecodeBase | thoughtd/wire/msgtx.go:438-769 | under BaseEncoding re-encoding any accepted input gives back exactly the consumed bytes |
| TxCodec.EncodeDecodeWitness | thoughtd/wire/msgtx.go:438-769 | under WitnessEncoding that holds if and only if a set marker comes with some non-empty witness |
| TxCodec.EmptyWitnessesNotReproduced | thoughtd/wire/msgtx.go:438-769 | an accepted input of 12 bytes that encoding does not reproduce: a marker and no witness |
| TxCodec.MarkedWithoutWitness | thoughtd/wire/msgtx.go:438-769 | every transaction with inputs and no witness decodes from its form with the marker and is not encoded back to it |
| TxCodec.NoInputsNoRoundTrip | thoughtd/wire/msgtx.go:453-488 | the witness round trip holds if and only if the transaction has an input |
| TxCodec.ThtEncode | thoughtd/wire/msgtx.go:709-769 | the writing loops produce the specified bytes |
| TxCodec.SerializeSize | thoughtd/wire/msgtx.go:833-848 | equals the length of the witness encoding |
| TxCodec.SerializeSizeStripped | thoughtd/wire/msgtx.go:814-829 | equals the length of the base encoding |
| Wire.VarIntBack | thoughtd/wire/common.go:477-565 | reading undoes writing of variable length integers |
| Wire.VarIntWhole | thoughtd/wire/common.go:477-535 | an accepted variable length integer is the canonical encoding of its value |
| Wire.ElementsUndo | thoughtd/wire/msgtx.go:926-1036 | inputs and outputs decode back from their encodings |
| Wire.ElementsFaithful | thoughtd/wire/msgtx.go:926-1036 | accepted inputs and outputs re-encode to the consumed bytes |
| PooledDecode.ThtDecode | thoughtd/wire/msgtx.go:438-678 | on every input: outcome as the format prescribes, buffers lent out afterwards are those lent out before and untouched, the pool holds only 512-byte buffers, and on success the scripts tile one new buffer exactly, in order, outside the pool, with the decoded contents |
| PooledDecode.Decoder.ReturnScriptBuffers | thoughtd/wire/msgtx.go:490-513 | walking the message's fields and skipping nil hands back every buffer borrowed so far, each exactly once |
| PooledDecode.Decoder.ReadIn | thoughtd/wire/msgtx.go:980-993 | the script field of the input is nil until its script is read and names the buffer afterwards, also when the sequence number is cut off; the non-nil fields of the message are always exactly the borrowed buffers |
| PooledDecode.Decoder.ReadItems | thoughtd/wire/msgtx.go:579-593 | the witness starts as nils and is filled item by item, with the same correspondence at every error |
| Slots.WalkIsBorrowed | thoughtd/wire/msgtx.go:490-513 | the walk input by input and output by output meets exactly the buffers that were filled in wire order, and no buffer twice |
| PooledDecode.ScriptPool.Borrow | thoughtd/wire/msgtx.go:165-177 | a slice of the requested length over a buffer nobody else holds |
| PooledDecode.ScriptPool.Return | thoughtd/wire/msgtx.go:184-198 | only a lent buffer is handed back, hence never twice; only full-capacity buffers enter the pool |
| PooledDecode.TilesDisjoint | thoughtd/wire/msgtx.go:609-675 | slices that tile a buffer are pairwise disjoint |
| Base58.Encode | thoughtd/base58/base58.go:88-138 | the chunked loop, the leading ones and the in-place reversal equal plain conversion to radix 58 |
| Base58.Decode | thoughtd/base58/base58.go:30-85 | the chunked loop equals plain conversion from radix 58; other characters give the empty result, or the panic of the table index, as specified |
| Base58.DecodedEncoded | thoughtd/base58/base58.go:30-138 | decoding undoes encoding on all byte strings |
| Base58.EncodedDecoded | thoughtd/base58/base58.go:30-138 | encoding undoes decoding on all strings over the alphabet |
| Base58.AlphabetIs | thoughtd/base58/alphabet.go:9-49 | the alphabet is the ASCII digits and letters in increasing order without 0, I, O and l |
| Base58.EncodedIff | thoughtd/base58/base58.go:88-138 | the encoding is the one string over the alphabet that denotes the same number and has a 1 in front for each zero byte in front |
| Base58.DecodedPanicsIff | thoughtd/base58/base58.go:57-61 | decoding panics if and only if the first byte outside the alphabet is not ASCII and does not start a two-byte rune below 256 inside its ten bytes; ASCII strings never panic |
| Base58.CutRunePanics | thoughtd/base58/base58.go:57-61 | inputs: the same two-byte letter is refused inside a block and panics across the border of two blocks |
| Base58.EuroSignPanics | thoughtd/base58/base58.go:57-61 | input: a three-byte rune panics |
| Base58.ReadChunk | thoughtd/base58/base58.go:50-66 | ten bytes at a time, rune by rune: the running total below 58^10, a miss, or an index past the table |
| Base58.ReverseInPlace | thoughtd/base58/base58.go:131-135 | the swapping loop reverses the buffer |
| Base58.EncodedLength | thoughtd/base58/base58.go:88-138 | 25 bytes take at most 35 characters |
| Base58.CheckDecodeEncode | thoughtd/base58/base58check.go:28-52 | checksummed decoding undoes checksummed encoding |
| Base58.CheckEncodeDecode | thoughtd/base58/base58check.go:28-52 | an accepted string is the only encoding of what it decodes to |
| Base58.CheckDecodeIff | thoughtd/base58/base58check.go:20-52 | a string is accepted with a payload and version if and only if it is the encoding of the version, the payload and the first four bytes of the SHA-256 of the SHA-256 of both |
| Base58.CheckRefuses | thoughtd/base58/base58check.go:38-52 | exactly when each refusal results |
| Address.AddressRoundTrip | thoughtd/util/address.go:82-119 | an address decodes back from its string if and only if it is a public key or the network's two version bytes differ; otherwise the collision error results |
| Address.StringIs | thoughtd/util/address.go:40-47 | an address string is the encoding of the version byte, the hash (for a key the RIPEMD-160 of its SHA-256) and the first four bytes of their double SHA-256 |
| Address.DecodeAddressIff | thoughtd/util/address.go:82-119 | a string is read as a hash address if and only if it is that encoding of 20 bytes under the version byte of that kind and no other |
| Address.DecodeKeyIff | thoughtd/util/address.go:84-95 | a string is read as a public key if and only if it has 66 or 130 characters of hexadecimal that parse as a key |
| Address.HexChars | thoughtd/util/address.go:336-338 | two lower-case digits per byte, the high half first |
| Address.StringSurvives | thoughtd/util/address.go:82-119 | string to address to script to address to string: a hash address always comes back, a public key if and only if it was in lower case and not hybrid |
| Address.DecodePanicsIff | thoughtd/util/address.go:82-101 | decoding an address string panics if and only if base58 does, on strings of other lengths than 66 and 130 |
| Address.ScriptRoundTrip | thoughtd/txscript/standard.go:693-714 | the address is recovered from the script that pays to it, for all three kinds |
| Address.PayToAddrScript | thoughtd/txscript/standard.go:578-608 | all three address kinds give their template |
| BlockOps.ParseTransactions | thought/client.go:481-549 | the loop parses each transaction with the coins of those before it, or fails |
| BlockOps.ParseTxOperations | thought/client.go:553-616 | input operations up to a coinbase input, then output operations, numbered by position |
| Translation.BlockDescribed | thought/client.go:481-791 | every transaction of a translated block: the coinbase operation or one operation per input with the account and negated amount of its coin, then one per output, numbered by position; output j has its value, network index j, the account of its sole non-empty address, of its script when there is not exactly one address, or of the output itself when that name is blank, and creates its coin if and only if it is not null data |
| Translation.BlockFailsIff | thought/client.go:572-581 | the translation fails if and only if some transaction that is not the coinbase spends a coin neither given nor created before it |
| Translation.CoinsKnown | thought/client.go:521-545 | the coin map after a block holds the given coins and every spendable output of the block, with the output's account and value |
| BlockOps.GetRawCoins | thought/client.go:213-241 | the list holds the spent coins whose transaction is not in the block so far |
| Translation.AskedCoins | thought/client.go:213-241 | a coin is asked for if and only if some input other than the coinbase spends it and no transaction up to that one has its hash |
| Ledger.ParseSucceeds | thought/client.go:222-240 | with the listed coins fetched, parsing a well-ordered block succeeds and every operation is the one the ledger's own coins give |
| Ledger.SpendCarriesCoin | thought/client.go:706-742 | each spend carries the coin's account and exactly its negated amount |
| Ledger.CoinHasMaker | thought/client.go:620-769 | every coin of the ledger was made by an output of an earlier transaction and carries its value and its account: the sole non-empty address, the script when there is not exactly one, the output itself when that is blank |
| Ledger.TxConserves | thought/client.go:553-616 | over a transaction an account's operation total is the change of its unspent amount plus its null-data outputs |
| Ledger.ChainConserves | thought/client.go:481-549 | over every prefix of a well-ordered chain each block parses and an account's operation total equals its unspent coins plus its null-data outputs |

## Left out

- HTTP, JSON-RPC, JSON and hexadecimal wrapping, configuration, logging, process start-up: no hard property.
- `BlockRemoved`, the header match check and liveness during reorganisations: the protocol claims are for one chain, unique coin identifiers, coins spent at most once, `BlockSeen` complete before `BlockAdded` of the same block, and no block added while a lookup for it runs.
- Storage, syncer and parser internals: coin storage is a map committed with the head; a failing storage call or cancellation is the cancel step of a lookup, and a failing `SeeBlock` is a block that never reaches its closing pass.
- Reads of `seen` are atomic, and the head re-check and the registration are two steps of one critical section.
- SHA-1, SHA-256, RIPEMD-160, secp256k1, signature parsing and the byte rules of the DER check: parameters of the model.
- The comparisons of CHECKLOCKTIMEVERIFY and CHECKSEQUENCEVERIFY with the transaction: a parameter decides them; flag handling, operand decoding and the sign check are modelled.
- Error codes that only name the failing opcode (verify, equal-verify, check-sig-verify, and the three lock time errors) are one code each.
- `HashCache`, script versions other than 0, disassembly and opcode names.
- SigCheck.CheckSig: defined on non-empty signatures; the engine model reports a panic for empty ones.
- Merge.MergeMultiSig: addresses are represented by their keys and a function from key to address string; equal strings must mean equal keys.
- The pooled integer buffers of the element readers.
- Multi-signature and null-data extraction of addresses, and the other standard script constructors.
- The slicing of raw signatures in `ConstructionCombine` and floating-point amounts: output values are natural numbers.
- Other wire messages, address messages, alerts, filters and message framing.
- Metadata, currency and status fields of operations, and the skipping of duplicate transactions, which is switched off.

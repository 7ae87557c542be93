# Models of glog, Detours and the sequence server

This project models the parts of the repository whose correctness is not plain from their text, and proves
what they promise. Each file is one component:

- `DemangleOutput`, `DemangleGrammar`, `DemangleAllowance`, `DemangleState`, `Demangle`, `DemangleRoundTrip`,
  `DemangleRewind`, `DemangleSpeech`, `DemangleSpoken`, `DemangleStarts`, `DemangleRules`, `DemangleTypeRules`,
  `DemangleSyntax`, `DemangleFaithful`, `DemangleSymbols`: the Itanium demangler of glog. `DemangleGrammar` writes the parse functions down as data
  (`Body`) in the small language they are programmed in, and says what such a program recognises (`Eval`)
  without looking at the output. An identifier of negative length moves the cursor back, so `Eval` takes an
  allowance: how often that may happen on the way. `DemangleAllowance` proves that the allowance does not
  matter once it is enough, so a name has an outcome exactly when the C program comes to an end on it.
  `DemangleState` is the C program: a class with the fields of `State`, a buffer filled in place, copies saved
  and put back. Each of its methods is proved against `Eval`.
  `DemangleSyntax` knows nothing of `Body`: it has trees for encodings, names, types, expressions and template
  arguments, with functions for the mangled text of a tree and for what is printed for it, tables of its own
  for operators, builtin types and standard abbreviations, and conditions under which no part of the text runs
  into the next. `DemangleFaithful` proves by induction on the trees that demangling the mangled text prints the
  tree. It uses one rule for each production (`DemangleRules`, `DemangleTypeRules`), a table of the characters
  that each parse function can start with (`DemangleStarts`), and a reading of output scripts in which undone
  tries leave no trace (`DemangleSpeech`). `DemangleSymbols` spells out what some families of symbols print.
- `DetourWindow`, `DetourRegions`, `DetourTransaction`, `DetourRestore`, `DetourHooks`, `DetourEngine`: the x64
  hooking engine. `DetourRegions` is the trampoline allocator with its intrusive free lists; `DetourTransaction` says
  what each call does; `DetourRestore` proves that hooks come out again and `DetourHooks` what a transaction of
  calls leaves behind; `DetourEngine` is the engine that changes code bytes, pointers and lists in place, proved
  against `DetourTransaction`.
- `Sequence`: the range server, as interleaved steps of any number of threads, and a system of servers.
- `PayloadStore`, `ImportTables`, `ImportEmission`, `ImageOutput`, `ImportLoader`: the payload store of an image
  and the `.detour` section with its import tables, down to its bytes and to what a loader reads from them.
- `Glob`, `LineReader`, `ShellQuote`, `LogTruncate`: the wildcard matcher, the line reader, shell quoting and
  in-place truncation of glog. `Basics` holds what several files share.

## What the proofs found

- `Demangle("_ZN1an2")` never returns: the identifier length `n2` is read as -2 and leads `ParsePrefix` back to
  where it was, round after round (`GoesRoundInCircles`). The grammar asks for a positive length
  (demangle.cc:606), the code refuses only -1 (demangle.cc:693). A negative length need not be fatal:
  `Demangle("_ZN1an3E")` goes back once and returns false (`GoesBackAndEnds`). `Demangle` is proved for every
  name on which the C program ends (`Ends`). Two conditions can be evaluated before the call: `Forwards`, which
  asks that no length below -1 can be read anywhere in the name and so also turns down ordinary names with a
  negative literal such as `_Z1fILin5EEvv`, and the finer `TopLevel(m).Done?`, which asks that none is read on
  the way.
- An enumerator as a template argument, such as `L3Foo1E`, is not read as a literal: types are tried first, and
  `L3Foo` is a local name, so the argument ends in front of the value (`EnumeratorIsMisread`). Literals whose type
  does not start like a length are read (`DemanglesFaithfully`).
- What an undone try has written stays in the buffer: `Written` keeps those bytes, and they count for the
  room a name needs.
- `SafeFNMatch_` reads a final `**` as `*?`, and a `*` in the string is taken by a `*` of the pattern on its
  own. `CompleteWithoutStars` and `CompleteForAllStrings` give the exact patterns for which it is complete.
- Detaching the same pointer twice in one transaction is accepted (`DetachedTwice`) and frees the trampoline
  twice. Freeing trampolines leaves a region with a free list exactly when all of them were in use and none
  comes up twice (`FreesAreLinkedExactly`); otherwise the links lead round in a knot and never to NULL. After a
  commit the allocator is in order exactly when no trampoline that was detached twice lies in a region that is
  still there (`Engine.Commit`): releasing the whole region is all that undoes a knot.
- `DetourUpdateThread` does not ask whether there is a transaction. Over any run the suspend count of a thread
  grows by exactly the number of calls that had to suspend it outside of one (`SuspendCountsReturn`).
- Attaching a detour to itself returns `NO_ERROR` and attaches nothing (`AttachedToItself`,
  detours.cpp:1857-1867): the error variable is still 0 when it is stored.
- `CImageData::Set` deletes the old record before it asks for memory, so a failed `Set` loses it; it fails exactly
  when more memory is needed and not granted (`ImageData.Set`).
- `SequenceServiceI.h:83-90` speaks of 27 bits for the sequence; the code uses 26 (`31 - 5`). The model
  follows the code.
- The pre-PE data need not be a multiple of 8 bytes as long as the file alignment is one (`RequestIsEnough`).

## Model

| member | source | states |
|---|---|---|
| `DemangleOutput.AppendFits` | app/glog/src/demangle.cc:272-287 | Append copies all of its text and a terminator when they fit behind the cursor and touches nothing else; otherwise it overflows; also when it copies from the output itself |
| `DemangleOutput.QuietIsSilent` | app/glog/src/demangle.cc:329-375 | with the append flag off no script of output calls changes a byte, the cursor, the remembered name or the overflow flag |
| `DemangleOutput.NeutralRestores` | app/glog/src/demangle.cc:460-466 | a failed attempt changes nothing but bytes of the buffer |
| `DemangleOutput.BalancedRestores` | app/glog/src/demangle.cc:357-378 | a successful attempt gives back the append flag and the nest level |
| `DemangleOutput.TextGrows` | app/glog/src/demangle.cc:329-401 | whatever is tried and undone, the text printed so far is only extended |
| `DemangleOutput.MachineFollowsTape` | app/glog/src/demangle.cc:272-401 | no attempted Append runs out of room exactly when the buffer holds every byte an endless tape would use, and then buffer and tape agree |
| `DemangleGrammar.NoLeftRecursion` | app/glog/src/demangle.cc:488-1280 | before consuming a character every parse function calls only functions of lower rank, so the recursion is well-founded |
| `DemangleGrammar.ReadNumber` | app/glog/src/demangle.cc:635-656 | a number ends inside the name and a successful one consumes something |
| `DemangleRoundTrip.NumberIsDecimal` | app/glog/src/demangle.cc:635-656 | the value is what the digits spell, with the sign, wrapped once to a 32-bit int; there is one exactly when there is a digit |
| `DemangleGrammar.LeafIsSound` | app/glog/src/demangle.cc:210-242 | tokens and scans stay inside the name and advance when they succeed |
| `DemangleGrammar.Eval` | app/glog/src/demangle.cc:488-1280 | every parse function stays inside the name, advances strictly on success unless an identifier led back, leaves cursor and state on failure, restores flag and nest level on success, and has an outcome without going back if no length below -1 can be read |
| `DemangleGrammar.EvalPrefix` | app/glog/src/demangle.cc:574-596 | ParsePrefix never fails, does not go back unless an identifier leads it there, and gives back the append flag |
| `DemangleGrammar.TopLevel` | app/glog/src/demangle.cc:1284-1302 | the whole name: inside the input, flags restored, an outcome for every name without negative lengths |
| `DemangleAllowance.Settles` | app/glog/src/demangle.cc:488-1280 | a call of a parse function that ends with some number of moves back ends the same way with more |
| `DemangleAllowance.AllowanceDoesNotMatter` | app/glog/src/demangle.cc:1284-1302 | two allowances that are both enough give the same outcome for the whole name |
| `DemangleState.State.Append` | app/glog/src/demangle.cc:272-287 | the copying loop does to the buffer what the specification of Append says |
| `DemangleState.State.MaybeAppendWithLength` | app/glog/src/demangle.cc:329-345 | spacing, remembering the name and appending, as specified |
| `DemangleState.State.ParseNumber` | app/glog/src/demangle.cc:635-656 | the digit loop with its wrap-around reads ReadNumber |
| `DemangleState.State.ParseIdentifier` | app/glog/src/demangle.cc:692-704 | the identifier, the anonymous namespace, or for a negative length nothing and a cursor moved back |
| `DemangleState.State.Parse` | app/glog/src/demangle.cc:488-1280 | for every output buffer and state: wherever the C program ends, answer, cursor and output of a parse function are those of Eval, which sees only the name |
| `DemangleState.State.ParseAlt` | app/glog/src/demangle.cc:460-466 | one alternative: copy, chain of steps, copy put back on failure |
| `DemangleState.State.ParsePrefix` | app/glog/src/demangle.cc:574-596 | the loop over components, separators and template arguments meets EvalPrefix |
| `DemangleState.State.ZeroOrMore` | app/glog/src/demangle.cc:263-267 | the repetition meets its specification |
| `DemangleState.State.IsFunctionCloneSuffix` | app/glog/src/demangle.cc:305-325 | the scan accepts exactly (.letters.digits)* up to the end |
| `DemangleState.State.ParseTopLevelMangledName` | app/glog/src/demangle.cc:1284-1302 | the whole parse meets TopLevel for every output buffer |
| `Demangler.Demangle` | app/glog/src/demangle.cc:1306-1334 | for every name on which the C program ends: true exactly when the name is recognised, which does not depend on the buffer, and nothing overflowed; with Need bytes of room the answer is the recogniser's and the text is fixed |
| `Demangler.ResultIs` | app/glog/src/demangle.cc:1306-1334 | the result of a name is the outcome for any allowance that is enough |
| `Demangler.ForwardsEnds` | app/glog/src/demangle.cc:604-615 | the C program ends on every name in which no length below -1 can be read |
| `Demangler.SizeDoesNotMatter` | app/glog/src/demangle.cc:272-401 | an attempt overflows exactly when the buffer has less than Need bytes; any two larger buffers get the same bytes |
| `Demangler.ConventionHolds` | app/glog/src/demangle.cc:460-466 | the parse convention, for every function, name, position and output state |
| `Demangler.ParameterListIsParentheses` | app/glog/src/demangle.cc:1010-1020 | a parameter list of any length adds exactly "()" |
| `Demangler.TemplateArgsAreBrackets` | app/glog/src/demangle.cc:1083-1098 | template arguments add exactly "<>", with one space before it after '<' |
| `DemangleRoundTrip.ReadsLength` | app/glog/src/demangle.cc:635-656 | a length written in decimal is read back |
| `DemangleRoundTrip.NothingAtTheEnd` | app/glog/src/demangle.cc:488-1280 | at the end of the name every function fails and writes nothing |
| `DemangleRoundTrip.PrefixRoundTrip` | app/glog/src/demangle.cc:574-596 | length-prefixed identifiers are read and printed with "::" between them, from any nest level |
| `DemangleRoundTrip.NestedNameRoundTrip` | app/glog/src/demangle.cc:549-615 | "_ZN" parts "E" is recognised, prints the parts joined by "::" and needs three bytes more |
| `DemangleRoundTrip.NestedFunctionRoundTrip` | app/glog/src/demangle.cc:488-503 | with "v" behind it the same, followed by "()", in the same room |
| `DemangleRoundTrip.NestedNameInAnyBuffer` | app/glog/src/demangle.cc:1306-1334 | in every buffer of the joined length plus 3 the C string found there is the joined name, with "()" for a function |
| `DemangleRewind.RoundStandsStill` | app/glog/src/demangle.cc:574-596 | one round of ParsePrefix at position 5 of "_ZN1an2" succeeds, writes nothing and ends at position 5 |
| `DemangleRewind.PrefixNeverEnds` | app/glog/src/demangle.cc:574-596 | no number of rounds is enough for ParsePrefix from there |
| `DemangleRewind.GoesRoundInCircles` | app/glog/src/demangle.cc:1306-1334 | Demangle does not end on "_ZN1an2" |
| `DemangleRewind.GoesBackAndEnds` | app/glog/src/demangle.cc:692-704 | Demangle goes back on "_ZN1an3E" and returns false |
| `DemangleSpeech.WriteShows` | app/glog/src/demangle.cc:329-401 | text, remembered name, nest level and flag after a script depend on the text before and on what was not undone, whatever bytes undone tries left behind |
| `DemangleSpeech.WriteShuts` | app/glog/src/demangle.cc:272-287 | the text is followed by a terminator after every script that ends with something printed |
| `DemangleStarts.NothingStarts` | app/glog/src/demangle.cc:488-1280 | every parse function fails and writes nothing at a character that is not in its table of first characters |
| `DemangleRules.SymbolRule` | app/glog/src/demangle.cc:736-752 | two letters of the independent operator table are read and print "operator", a space before a word, and the symbol |
| `DemangleRules.CtorRule` | app/glog/src/demangle.cc:870-880 | C1, C2 and C3 print the last name again |
| `DemangleRules.DtorRule` | app/glog/src/demangle.cc:881-892 | D0, D1 and D2 print "~" and the last name |
| `DemangleRules.StandardRule` | app/glog/src/demangle.cc:1264-1279 | the S-abbreviations of the independent table print "std" or "std::" and the name |
| `DemangleFaithful.ParsesUnqualified` | app/glog/src/demangle.cc:599-704 | every identifier, local identifier, operator, constructor and destructor is read to its end and printed as its tree says |
| `DemangleFaithful.ParsesParts` | app/glog/src/demangle.cc:574-596 | so are the parts of a nested name, with "::" between them but not before arguments |
| `DemangleFaithful.ParsesName` | app/glog/src/demangle.cc:505-547 | so are nested, local, template and unscoped names |
| `DemangleFaithful.ParsesEncoding` | app/glog/src/demangle.cc:488-849 | so are functions, data and all nine special names |
| `DemangleFaithful.ParsesTypes` | app/glog/src/demangle.cc:1010-1020 | a list of types is read as exactly these types |
| `DemangleFaithful.ParsesType` | app/glog/src/demangle.cc:913-1075 | every type with its qualifiers and modifiers is read to its end and printed as its tree says |
| `DemangleFaithful.ParsesArgs` | app/glog/src/demangle.cc:1083-1123 | template arguments with types, literals, packs and expressions are read to their end and print "<>" |
| `DemangleFaithful.ParsesPrimary` | app/glog/src/demangle.cc:1185-1216 | every literal and external name is read to its end and printed as its tree says |
| `DemangleFaithful.ParsesExpr` | app/glog/src/demangle.cc:1133-1179 | so is every expression, with operators of one, two or three operands |
| `DemangleFaithful.SymbolIsRecognised` | app/glog/src/demangle.cc:1284-1302 | "_Z", the text of any tree and a clone or version suffix are recognised, and what is written starts with the C string printed for the tree |
| `DemangleFaithful.DemanglesFaithfully` | app/glog/src/demangle.cc:1306-1334 | in every buffer with room for the longest attempt, demangling the symbol of any tree leaves exactly what is printed for the tree |
| `DemangleFaithful.SuffixIsClones` | app/glog/src/demangle.cc:301-325 | whatever the scan takes for a clone suffix is a list of marks, each of letters and digits behind dots |
| `DemangleFaithful.RecognisedExactly` | app/glog/src/demangle.cc:1284-1302 | what stands behind the text of a tree is accepted if and only if it is nothing, the marks of clones or a version |
| `DemangleFaithful.EnumeratorIsMisread` | app/glog/src/demangle.cc:1101-1123 | a template argument that is a literal whose type is an identifier ends in front of its value |
| `DemangleSymbols.CtorsAndDtors` | app/glog/src/demangle.cc:870-892 | "_ZN", a class name, C1 to C3 or D0 to D2 and "Ev" print the name twice, with "::" or "::~" in between, and "()" |
| `DemangleSymbols.TemplatePrints` | app/glog/src/demangle.cc:1083-1098 | a function template prints its name, "<>" and "()", whatever its arguments and parameters |
| `DemangleSymbols.OperatorPrints` | app/glog/src/demangle.cc:736-752 | an operator function prints "operator", a space before a word, the symbol and "()" |
| `DemangleSymbols.LocalPrints` | app/glog/src/demangle.cc:1219-1234 | a local entity prints its function, "::" and its name, also when it has a discriminator |
| `DetourWindow.WindowIsInReach` | app/hook-win32/src/detours.cpp:413-449 | every address in the computed window is within reach of the target and of its relative jump's destination, also when that wraps around |
| `DetourWindow.Int32ReadsBack` | app/hook-win32/src/detours.cpp:342-348 | a displacement stored as INT32 is read back |
| `DetourWindow.JumpsLand` | app/hook-win32/src/detours.cpp:342-357 | for a trampoline in the window the jump over the target fits 32 bits and decodes to rbCodeIn, and the trampoline's own jumps go through pbDetour and pbRemain |
| `DetourRegions.PopHolds` | app/hook-win32/src/detours.cpp:1180-1188 | taking the head of a free list gives an unused trampoline and leaves an acyclic list of the others |
| `DetourRegions.PushHolds` | app/hook-win32/src/detours.cpp:1261-1269 | freeing a trampoline in use keeps the list acyclic and the two sets apart |
| `DetourRegions.FreedAgain` | app/hook-win32/src/detours.cpp:1261-1269 | freeing a trampoline that is free already makes the links of its region a closed knot without NULL |
| `DetourRegions.FreesAreLinkedExactly` | app/hook-win32/src/detours.cpp:1261-1269 | after freeing any sequence of trampolines a region has a free list if and only if all were in use and none came up twice |
| `DetourRegions.Conserved` | app/hook-win32/src/detours.cpp:1016-1017 | free and used trampolines of a region always total 679 |
| `DetourRegions.NewRegion` | app/hook-win32/src/detours.cpp:1246-1254 | the loop chains trampolines 2 to 680 in order and leaves the others zero |
| `DetourRegions.IsRegionEmpty` | app/hook-win32/src/detours.cpp:1271-1293 | true exactly when every pbRemain is NULL or inside the region |
| `DetourRegions.EmptyMeansUnused` | app/hook-win32/src/detours.cpp:1271-1293 | that is so exactly when no trampoline of the region is in use |
| `DetourRegions.Allocator.Alloc` | app/hook-win32/src/detours.cpp:1160-1259 | gives a trampoline exactly when the list of some region, or a new region, starts in the window; it is the head of the preferred region, else of the first that fits, else the first of the new one, it was free, and its region is preferred next; a region is added only when none fits |
| `DetourRegions.Allocator.Free` | app/hook-win32/src/detours.cpp:1261-1269 | exactly this trampoline becomes free; its region is broken exactly if it was free before, all other regions stay as they are |
| `DetourRegions.Allocator.BrokenHasNoList` | app/hook-win32/src/detours.cpp:1261-1269 | a region has a free list exactly when it is not broken |
| `DetourRegions.Allocator.FreeUnusedRegions` | app/hook-win32/src/detours.cpp:1295-1312 | exactly the regions without a used trampoline are released, broken or not, the others stay in order |
| `DetourTransaction.StepKeepsPending` | app/hook-win32/src/detours.cpp:1741-1780 | during a transaction no call touches code or pointers, new trampolines are exactly those of pending attaches, suspend counts exceed the old ones by the pending threads |
| `DetourTransaction.ResumedCounts` | app/hook-win32/src/detours.cpp:1432-1441 | resuming lowers each thread's count by how often it is in the list |
| `DetourTransaction.AbortRestores` | app/hook-win32/src/detours.cpp:1403-1445 | an abort gives back code, pointers, trampolines and suspend counts |
| `DetourTransaction.NothingHappened` | app/hook-win32/src/detours.cpp:1482-1487 | after any calls, an abort or a commit with a pending error leaves the world as at begin and reports the error |
| `DetourTransaction.UpdateSuspends` | app/hook-win32/src/detours.cpp:1741-1780 | with no error pending, another thread, memory and no error of the system exactly this thread's count rises by one and it is listed; otherwise nothing changes but the error, which is the one that came up |
| `DetourTransaction.SuspendedUntilTheEnd` | app/hook-win32/src/detours.cpp:1379-1780 | throughout a transaction the count of a thread is higher by the calls that had to suspend it, and after its commit or abort it is what it was |
| `DetourTransaction.ErrorStays` | app/hook-win32/src/detours.cpp:1745-1748 | once an error is pending no call of the transaction does anything |
| `DetourTransaction.UpdateErrorAborts` | app/hook-win32/src/detours.cpp:1755-1772 | missing memory or an error of the system is what the commit returns after any further calls, and nothing has happened |
| `DetourTransaction.AttachAdds` | app/hook-win32/src/detours.cpp:1790-2142 | an attach takes the trampoline, with the bytes of the target, the way back and the detour, and lists the operation, exactly when nothing is in its way |
| `DetourTransaction.AttachRefused` | app/hook-win32/src/detours.cpp:1790-2142 | which single obstacle gives which error, and which of them become pending |
| `DetourTransaction.DetachAdds` | app/hook-win32/src/detours.cpp:2144-2281 | a detach returns NO_ERROR and lists the removal exactly when nothing is in its way |
| `DetourTransaction.DetachRefused` | app/hook-win32/src/detours.cpp:2144-2281 | with another detour it returns ERROR_INVALID_BLOCK, lists nothing and leaves the hook; the other single obstacles likewise give their errors |
| `DetourTransaction.OneOwner` | app/hook-win32/src/detours.cpp:1379-1480 | while a transaction is open nobody can begin another, and only its own thread can end it |
| `DetourTransaction.DetachedTwice` | app/hook-win32/src/detours.cpp:2144-2281 | a second detach of the same trampoline in a transaction is accepted |
| `DetourTransaction.AttachedToItself` | app/hook-win32/src/detours.cpp:1857-1894 | a detour that is its own target is accepted and nothing changes |
| `DetourTransaction.SuspendCountsReturn` | app/hook-win32/src/detours.cpp:1379-1780 | over any run that begins and ends without a transaction, with any mixture of aborts and commits, the suspend count of a thread grows by exactly the number of calls that had to suspend it outside of transactions |
| `DetourRestore.CallKeepsOverlay` | app/hook-win32/src/detours.cpp:1790-2281 | calls that fail, attaches to bytes no hook covers and single detaches keep "code is the original with the live jumps written over it, each trampoline in reach of its target" |
| `DetourRestore.CommittedCode` | app/hook-win32/src/detours.cpp:1494-1600 | after a commit each live hook's bytes are its jump and all others are the original |
| `DetourRestore.CommittedPointers` | app/hook-win32/src/detours.cpp:1494-1600 | after a commit an attached pointer leads to its trampoline, a detached one to its target, all others as before |
| `DetourRestore.CommitKeepsOverlay` | app/hook-win32/src/detours.cpp:1472-1739 | a commit keeps the overlay |
| `DetourRestore.AbortKeepsOverlay` | app/hook-win32/src/detours.cpp:1403-1445 | an abort keeps the overlay |
| `DetourRestore.HooksComeOut` | app/hook-win32/src/detours.cpp:1472-1739 | over any sequence of transactions with non-overlapping hooks no byte outside the live hooks differs from the original; when all trampolines are free the code is the original and pointers are at their targets |
| `DetourRestore.AllDetached` | app/hook-win32/src/detours.cpp:1472-1739 | committing the removal of every hook restores all code, leaves the pointers at their targets and frees every trampoline |
| `DetourRestore.LiveHookJumps` | app/hook-win32/src/detours.cpp:1494-1600 | the bytes at every live hook decode to a jump to rbCodeIn of its own trampoline, which is always in reach; breakpoints fill the rest of the moved instructions |
| `DetourHooks.EveryCallTakesEffect` | app/hook-win32/src/detours.cpp:1472-2281 | the commit of a transaction without errors and conflicts returns NO_ERROR; after it the pointer of every attach with nothing in its way leads to its trampoline with that detour, the saved bytes and the jump in place, and every such detach has its trampoline free, its pointer at the target and the code there as before |
| `DetourHooks.DetachingAllGivesBack` | app/hook-win32/src/detours.cpp:1472-2281 | for any number of hooks: detaching each with its own detour and committing returns NO_ERROR and gives back all code, pointers and trampolines |
| `DetourEngine.MeasureTarget` | app/hook-win32/src/detours.cpp:1955-1990 | the bytes to be moved are the first whole instructions that reach 5 bytes, or eight of them, or those up to one that ends the function, and then whole pieces of filler while there are fewer than 5; at most 19 |
| `DetourEngine.MeasuredOnce` | app/hook-win32/src/detours.cpp:1955-1990 | the code at the target decides how many bytes that is |
| `DetourEngine.Engine.Begin` | app/hook-win32/src/detours.cpp:1379-1401 | one transaction at a time, as specified |
| `DetourEngine.Engine.UpdateThread` | app/hook-win32/src/detours.cpp:1741-1780 | suspends and lists the thread, or records the error |
| `DetourEngine.Engine.Attach` | app/hook-win32/src/detours.cpp:1790-2142 | all error paths give the trampoline back; there is one exactly when the allocator has one; success saves the measured bytes, so that every trampoline leads back to the end of whole instructions, and lists the operation |
| `DetourEngine.Engine.Detach` | app/hook-win32/src/detours.cpp:2144-2281 | lists the removal of the trampoline behind the pointer, or an error |
| `DetourEngine.Engine.Abort` | app/hook-win32/src/detours.cpp:1403-1445 | the loops over operations and threads do what Abort says, regions are kept |
| `DetourEngine.Engine.Commit` | app/hook-win32/src/detours.cpp:1472-1739 | the loops patch, free, release empty regions and resume as Commit says, for every transaction; the free lists are in order afterwards if and only if no trampoline of a remaining region was detached twice |
| `Sequence.StepKeepsInvariant` | app/sequence/Classes/DefaultSequenceWorker.cpp:165-213 | one step of any thread keeps the lock exclusive, blocks, grants and claims apart, and loses no id |
| `Sequence.GrantsAreDisjoint` | app/sequence/Classes/DefaultSequenceWorker.cpp:165-213 | under every interleaving granted ranges are non-empty, inside a database block and pairwise disjoint |
| `Sequence.SpentBlockIsPartitioned` | app/sequence/Classes/DefaultSequenceWorker.cpp:165-179 | once value has reached max and nobody is between adding and returning, an id is in a grant of the block exactly when it is in the block, and in one grant only |
| `Sequence.GrantAnswersItsCall` | app/sequence/Classes/DefaultSequenceWorker.cpp:165-195 | in every run a granted range holds exactly as many ids as its thread asked for in the call it answers, or it ends with the block and holds fewer |
| `Sequence.CallAlone` | app/sequence/Classes/DefaultSequenceWorker.cpp:165-179 | an undisturbed call gets the next `step` ids, or all that are left |
| `Sequence.CallAloneRefills` | app/sequence/Classes/DefaultSequenceWorker.cpp:181-195 | when none are left it draws a block and gets its first `step` ids, or the whole block |
| `Sequence.RetryNeverFails` | app/sequence/Classes/DefaultSequenceWorker.cpp:189-195 | the retry under the write lock always gets a range |
| `SequenceSystem.OrIsAddition` | app/sequence/Classes/DefaultSequenceWorker.cpp:197-207 | or-ing a multiple of 2^k with a smaller number adds them |
| `SequenceSystem.TagIsAddition` | app/sequence/Classes/DefaultSequenceWorker.cpp:125-150 | for valid data centres the tag adds the mask and stays within 31 or 61 bits |
| `SequenceSystem.TagKeepsRanges` | app/sequence/Classes/DefaultSequenceWorker.cpp:197-210 | a tagged range is contiguous, as long, and holds exactly the tagged ids |
| `SequenceSystem.NoIdTwice` | app/sequence/Classes/DefaultSequenceWorker.cpp:181-213 | over any steps of any workers with distinct data centres no id is issued twice |
| `PayloadStore.RecordAt` | app/hook-win32/src/image.cpp:489-511 | the records tile the bytes from 0 to the end |
| `PayloadStore.RecordStarts` | app/hook-win32/src/image.cpp:542-560 | length, GUID and data of record k stand at its offset |
| `PayloadStore.ImageData.SizeTo` | app/hook-win32/src/image.cpp:451-478 | grows the buffer and keeps the records, or fails without memory |
| `PayloadStore.ImageData.Find` | app/hook-win32/src/image.cpp:542-579 | finds exactly the record of the GUID, its place and its data |
| `PayloadStore.ImageData.Delete` | app/hook-win32/src/image.cpp:581-607 | removes exactly that record; the others keep data and order |
| `PayloadStore.ImageData.Set` | app/hook-win32/src/image.cpp:609-642 | the padded record at the end instead of the old one; it fails exactly when the new size is beyond the buffer and no memory is granted, and then the old one is gone |
| `PayloadStore.ImageData.Purge` | app/hook-win32/src/image.cpp:480-487 | no records are left |
| `PayloadStore.ImageData.Enumerate` | app/hook-win32/src/image.cpp:513-540 | record k at its offset, then the next offset; nothing at the end |
| `PayloadStore.ImageData.EnumerateAll` | app/hook-win32/src/image.cpp:513-540 | enumerating from 0 visits every record once, in order |
| `PayloadStore.WithoutKeepsOrder` | app/hook-win32/src/image.cpp:581-607 | removing a GUID leaves exactly the other records in order |
| `PayloadStore.OpRefinesMap` | app/hook-win32/src/image.cpp:581-642 | set, delete and purge on the records are the same operations on a map from GUID to padded data |
| `PayloadStore.RunRefinesMap` | app/hook-win32/src/image.cpp:451-642 | over every sequence of operations the store is that map |
| `ImportTables.CheckImportsNeeded` | app/hook-win32/src/image.cpp:1374-1424 | counts exactly the descriptors, thunks and characters that will be written, and reports an edit exactly when there is one |
| `ImportTables.TableSizes` | app/hook-win32/src/image.cpp:1374-1424 | the lookup thunks are as many as counted, the bound thunks no more |
| `ImportEmission.Thunks.Allocate` | app/hook-win32/src/image.cpp:677-690 | stores the eight bytes of a thunk behind the others while there is room, and no other byte |
| `ImportEmission.CharTable.Put` | app/hook-win32/src/image.cpp:718-766 | stores hint, string, NUL and padding behind the others while there is room, and no other byte |
| `ImportEmission.LookupWritten` | app/hook-win32/src/image.cpp:677-690 | a thunk written to its table leaves the other tables and everything around them as they are |
| `ImportEmission.EmitFile` | app/hook-win32/src/image.cpp:1858-1901 | one import file adds its names, thunks and descriptor to the tables in the buffer |
| `ImportEmission.EmitFiles` | app/hook-win32/src/image.cpp:1855-1903 | with tables of the counted sizes no allocation fails, lookup and name table end exactly full, and the buffer holds the bytes of all tables |
| `ImportLoader.FileLoads` | app/hook-win32/src/image.cpp:1858-1901 | from the bytes of its descriptor a loader gets the name of a file, its imports in order with hint and name or ordinal, and the byway's ordinal 1 through both tables |
| `ImportLoader.SectionLoads` | app/hook-win32/src/image.cpp:1855-1903 | the import table in the bytes of the section loads as exactly the list of files it was made from |
| `ImportLoader.FilledSectionLoads` | app/hook-win32/src/image.cpp:1743-1903 | what WriteDetourSection has laid out and filled loads as the imports it was given |
| `ImportLoader.FilledSectionRereads` | app/hook-win32/src/image.cpp:1297-1349 | reading the section again gives back every original header field, the pre-PE data and the payloads it was written with |
| `ImageOutput.Output.SizeOutputBuffer` | app/hook-win32/src/image.cpp:894-921 | at least the requested size, contents kept, the rest zero, a multiple of the file alignment |
| `ImageOutput.Output.AllocateOutput` | app/hook-win32/src/image.cpp:923-940 | the next aligned piece, zeroed, nothing else changed; fails exactly when it does not fit |
| `ImageOutput.Output.AlignFileData` | app/hook-win32/src/image.cpp:1034-1050 | an aligned file address leaves the buffer untouched |
| `ImageOutput.RequestIsEnough` | app/hook-win32/src/image.cpp:1810-1818 | what is requested holds all pieces if the pre-PE size or the file alignment is a multiple of 8 |
| `ImageOutput.LayOutSection` | app/hook-win32/src/image.cpp:1808-1850 | the seven pieces lie one right after the other, 8-aligned, inside the buffer and zero; only memory can be missing |
| `ImageOutput.Output.FinishSection` | app/hook-win32/src/image.cpp:1904-1918 | the next file and virtual addresses advance by the aligned raw size and past the section; the alignment call changes no byte of the buffer, and the raw data lies inside it |
| `ImageOutput.WriteDetourSection` | app/hook-win32/src/image.cpp:1743-1918 | with memory the section is written: the bytes of the buffer are the header, the pre-PE data, the tables the imports call for, the payloads and a zero descriptor, each in its own piece, and the next addresses are those behind it |
| `Glob.SafeFNMatch` | app/glog/src/vlog_is_on.cc:75-102 | terminates with the answer that the lemmas below relate to the wildcard semantics |
| `Glob.Sound` | app/glog/src/vlog_is_on.cc:75-102 | whatever is accepted matches, for all patterns and strings |
| `Glob.DecidesMeaning` | app/glog/src/vlog_is_on.cc:75-102 | on strings without '*' it decides the pattern with a final "**" read as "*?" |
| `Glob.CompleteWithoutStars` | app/glog/src/vlog_is_on.cc:84-97 | complete for strings without '*' exactly for patterns not ending in "**" |
| `Glob.CompleteForAllStrings` | app/glog/src/vlog_is_on.cc:85-89 | complete for all strings exactly for patterns without '*' |
| `LineReader.ReadPersistent` | app/glog/src/symbolize.cc:142-160 | for every schedule of short and interrupted reads: all bytes asked for or up to the end of the file, or -1 |
| `LineReader.Reader.Fill` | app/glog/src/symbolize.cc:419-432 | the unfinished line moves to the front and the buffer is filled with what follows it |
| `LineReader.Reader.ReadLine` | app/glog/src/symbolize.cc:408-443 | true exactly when the next line ends in a newline and fits with it; returns exactly it and leaves the rest |
| `LineReader.ReadLines` | app/glog/src/symbolize.cc:408-443 | repeated, exactly the fitting lines in order, up to an error |
| `LineReader.AllFit` | app/glog/src/symbolize.cc:405-407 | these are all newline-terminated lines exactly when each fits with its newline |
| `LineReader.LinesMakeText` | app/glog/src/symbolize.cc:405-407 | the lines with their newlines and an unterminated rest, which is dropped, make up the file |
| `LineReader.LinesHaveNoNewline` | app/glog/src/symbolize.cc:405-407 | no line contains a newline, so the split of the file into lines is the only one |
| `ShellQuote.ShellEscape` | app/glog/src/logging.cc:1765-1792 | bare, single-quoted or double-quoted form, as specified |
| `ShellQuote.OneWord` | app/glog/src/logging.cc:1760-1792 | by the quoting rules of POSIX the result is one word, and that word is the original |
| `ShellQuote.QuotedReads` | app/glog/src/logging.cc:1760-1792 | wherever a word may start, and with anything after it |
| `ShellQuote.ArgumentsReadBack` | app/glog/src/logging.cc:1760-1792 | a command line of quoted arguments has exactly these arguments |
| `LogTruncate.MidwayStep` | app/glog/src/logging.cc:1991-2002 | a round overwrites no byte that is still to be read |
| `LogTruncate.TruncateLogFile` | app/glog/src/logging.cc:1975-2009 | small files are untouched; otherwise the file is what the rounds saved of its last bytes |
| `LogTruncate.SavedAll` | app/glog/src/logging.cc:1991-2009 | exactly the last `keep` bytes are left if and only if every round was complete |
| `LogTruncate.UndisturbedSavesAll` | app/glog/src/logging.cc:1991-2009 | that is so when nothing fails and no transfer is short |

## Left out

- Demangle: the Windows branch (UnDecorateSymbolName); a negative buffer size acts as 0 and is the empty buffer here.
- DemangleFaithful.DemanglesFaithfully: covers trees in which no piece runs into the next (the Shuns and Good predicates, each of which can be evaluated on the tree): for instance no constructor at the head of a name, no class name that starts like an operator, no literal whose type starts with an identifier. What the demangler makes of other names is covered by the contract of Demangle alone.
- Demangler.Demangle: says nothing about names on which the C program does not end, or leaves the name on its left.
- DemangleGrammar.ReadNumber: signed overflow of the number is modelled as two's complement wrap-around, which C++ leaves undefined.
- DemangleOutput.AppendFits: a read from outside the buffer, possible only after an overflow, gives NUL in the model where C would read whatever is there.
- detour_skip_jmp and DetourCopyInstruction: where a code pointer leads, instruction lengths and filler are parameters.
- DetourEngine.Engine.Attach: does not model the moved code, the bytes DetourCopyInstruction adds to it and the alignment array.
- DetourRestore.HooksComeOut: assumes targets outside trampoline memory, hooks that do not overlap, pointers changed only by the engine, and moved code that does not start with a short jump, so that a detach finds its trampoline.
- DetourEngine.Engine.Detach: memory that is not a trampoline in use is taken not to look like one.
- Instruction pointers of suspended threads at commit, page protections and instruction cache flushes are not modelled.
- The search for free address space (detours.cpp:1066-1158): what it finds is a parameter; the window check after it is modelled.
- The x86, IA64, ARM and ARM64 variants of Detours.
- Sequence: integers are unbounded, so 64-bit overflow of `value` is not modelled; database blocks are taken to be non-empty and disjoint and steps positive, and the SQL of nextRange is not modelled.
- PayloadStore.ImageData.Set: asks that the new size fits 32 bits, which the code does not check before it writes.
- PayloadStore.ImageData.Attach: takes bytes that are well-formed records; malformed sections are not modelled.
- ImageOutput.WriteDetourSection: the header, the pre-PE data and the payloads are stored after the last allocation in place of before it, and addresses do not wrap at 32 bits.
- ImageOutput.Align: rounding up, which the masking of the code does for powers of two.
- CImage::Read, CLR and debug directories, creatwth.cpp, uimports.cpp, modules.cpp and disasm.cpp: mostly structures of the operating system.
- LineReader.Reader.ReadLine: is not called again after it returned false, as its callers do not.
- ShellQuote.OneWord: the word stands where an argument is expected, so a leading `NAME=` is not an assignment.
- LogTruncate.TruncateLogFile: opening the file, its type, and other writers are not modelled.
- MySQLDBPool, SnowflakeIdWorker, the rest of logging.cc, stack unwinding, ELF reading, pvtrace, hook-linux and the Ice clients.

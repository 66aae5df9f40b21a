# SDP RTP-parameter and simulcast utilities of mediasoupAndroid, in Dafny

This project models the two SDP utility files of the mediasoup Android
client library. They work on a session description already parsed by
sdp-transform:

- `UnifiedPlanUtils.kt` (module `UnifiedPlanUtils`) has three operations:
  - `findMediaSection` finds a track's `m=` section by mid, or by kind and `a=msid`.
  - `fillRtpParametersForTrack` fills an RTP parameters object. It takes its
    encodings either from the `a=rid` lines (RID simulcast) or from the
    `a=ssrc` / `a=ssrc-group:FID` lines (the Plan B style branch).
  - `addPlanBSimulcast` appends a SIM group, three FID groups and twelve
    cname/msid lines for the SSRCs s, s+1, s+2 and r, r+1, r+2.
- `PlanBUtils.kt` (module `PlanBUtils`) has two operations:
  - `fillRtpParametersForTrack` fills the parameters from the SSRCs of the
    lines naming the track in the first section of the track's kind.
  - `addSimulcastForTrack` appends the SIM group, and when the track has RTX
    two FID groups, plus the cname and msid lines of the added SSRCs.

Shared parts:

- Module `Sdp` holds the parsed description. A media section (`MediaSection`)
  and the RTP parameters (`RtpParameters`) are classes whose fields the
  operations update in place; lines, groups, encodings and errors are
  datatypes.
- Module `Text` gives the Kotlin library calls the code relies on:
  - `split(' ')`, which keeps empty tokens;
  - `split(Regex("\\s+"))`, which keeps a leading and a trailing empty token;
  - `toIntOrNull` / `toLongOrNull`;
  - decimal string templates.
- Module `SsrcPairing` is the FID pairing loop both files share. It works on
  an insertion-ordered SSRC set, modelled as a sequence without duplicates.

Every exception the code throws is an `Error` variant returned as `Fail`.
This includes an index error on a one-token msid value (`MsidTooShort`) and
`removeAt(0)` on the used-up profile list (`ProfilesExhausted`). Each
operation's contract also says what the code has already written to its
arguments when it throws.

The loops are methods proved against specification functions:

- `PairFids` is the FID loop.
- `TrackSsrcs` and `MsidSsrcs` are SSRC collection.
- `RtxPairs` is Plan B's ordered map.
- `PlanBEncodings` and `EmittedInSomeOrder` are encoding emission.
- `PlanBSimulcastPlan`, `SimulcastPlanOf`, `PlanBSimulcastAppends` and
  `SimulcastAppends` are the reads and writes of the two simulcast synthesizers.

The lemmas beside them prove these properties:

- the error cases in both directions;
- which SSRCs end up paired, and that pairs keep line order;
- that each synthesizer's output parses back to the SSRCs it was built from;
- that running a synthesizer again reads the same plan, so it appends the
  same lines again (it is not idempotent);
- a worked Plan B round trip: simulcast added to a section with one FID
  pair, then the fill, gives three low/medium/high encodings with their RTX
  SSRCs.

The two Plan-B-style fills handle SSRCs that have no FID group differently.
The model follows the code in each file:

- `PlanBUtils.kt:89-92` maps every leftover SSRC to RTX 0, so each one still
  gets an encoding without RTX.
- The Unified Plan branch never enters a leftover SSRC into the map: it only
  inserts paired SSRCs (`UnifiedPlanUtils.kt:117`) and has no
  `ssrcToRtxSsrc[ssrc] = 0`, so the removal loop at
  `UnifiedPlanUtils.kt:123-125` removes nothing (`RemoveSsrcs`,
  `PairWithHashMap`). That branch therefore writes encodings only for SSRCs
  paired by an FID group, and none at all without a readable FID group
  (`PlanBBranchWithoutFid`).

## Model

| member | source | states |
|---|---|---|
| Text.JoinSplitOn | lib/src/main/java/com/versatica/mediasoup/handlers/sdp/PlanBUtils.kt:47 | `split(' ')` loses nothing: joining its tokens with the separator gives back the string |
| Text.SplitOnTokensLackSeparator | lib/src/main/java/com/versatica/mediasoup/handlers/sdp/PlanBUtils.kt:149 | no token of `split(' ')` contains the separator |
| Text.SplitOnFirstSeparator | lib/src/main/java/com/versatica/mediasoup/handlers/sdp/PlanBUtils.kt:145 | splitting "a b" with a space-free `a` gives `a` first and the split of `b` after it |
| Text.SplitWhitespaceTokens | lib/src/main/java/com/versatica/mediasoup/handlers/sdp/PlanBUtils.kt:70 | no token of the whitespace split contains whitespace |
| Text.SplitWhitespaceFirstSpace | lib/src/main/java/com/versatica/mediasoup/handlers/sdp/PlanBUtils.kt:70 | in "a b" with a word `a`, `a` is the first whitespace-split token |
| Text.SplitWhitespaceSingleSpaced | lib/src/main/java/com/versatica/mediasoup/handlers/sdp/PlanBUtils.kt:70 | on single-spaced text, splitting on whitespace runs equals splitting on spaces |
| Text.ParseIntToString | lib/src/main/java/com/versatica/mediasoup/handlers/sdp/PlanBUtils.kt:72-73 | decimal parsing gives back every integer its template text was written from |
| Sdp.FindLine | lib/src/main/java/com/versatica/mediasoup/handlers/sdp/PlanBUtils.kt:95-97 | `ssrcs.find`: the first line with the attribute (and SSRC), or None exactly when no line has them |
| Sdp.FindLineAppend | lib/src/main/java/com/versatica/mediasoup/handlers/sdp/PlanBUtils.kt:176-178 | appending lines never changes a line that was already found |
| Sdp.SecondTokenOfMsid | lib/src/main/java/com/versatica/mediasoup/handlers/sdp/PlanBUtils.kt:145-149 | an msid value "<stream> <track>" has the track id as its second token and the stream as its first |
| Sdp.MsidPrefix | lib/src/main/java/com/versatica/mediasoup/handlers/sdp/PlanBUtils.kt:149 | the msid stream the synthesizers copy holds no space, so the msid values they write split back into stream and track |
| Sdp.SimGroupTokens | lib/src/main/java/com/versatica/mediasoup/sdp/UnifiedPlanUtils.kt:189-194 | the SIM group text splits into three tokens that parse to its three SSRCs |
| SsrcPairing.Without | lib/src/main/java/com/versatica/mediasoup/handlers/sdp/PlanBUtils.kt:77-78 | `set.remove`: exactly the elements outside the removed ones stay |
| SsrcPairing.InsertDistinct | lib/src/main/java/com/versatica/mediasoup/handlers/sdp/PlanBUtils.kt:50 | `set.add` keeps the set duplicate-free and adds exactly the new element |
| SsrcPairing.WithoutWithout | lib/src/main/java/com/versatica/mediasoup/handlers/sdp/PlanBUtils.kt:77-78 | two successive removals remove the union |
| SsrcPairing.PutFresh | lib/src/main/java/com/versatica/mediasoup/handlers/sdp/PlanBUtils.kt:91 | `map[k] = v` for a new key appends the entry at the end of the insertion order |
| SsrcPairing.ToMapKeys | lib/src/main/java/com/versatica/mediasoup/sdp/UnifiedPlanUtils.kt:117 | the hash map built from the pairs has exactly their SSRCs as keys |
| SsrcPairing.ParseFidOfPair | lib/src/main/java/com/versatica/mediasoup/handlers/sdp/PlanBUtils.kt:230-235 | the FID group text the synthesizers write parses back to the pair it was written from |
| SsrcPairing.FidGroupsParse | lib/src/main/java/com/versatica/mediasoup/sdp/UnifiedPlanUtils.kt:247-298 | the three FID groups for (s, r), (s+1, r+1), (s+2, r+2) parse back to those pairs |
| SsrcPairing.FindFid | lib/src/main/java/com/versatica/mediasoup/handlers/sdp/PlanBUtils.kt:158-174 | `ssrcGroups.any`: the first readable FID group whose first SSRC is `s`, or None exactly when there is none |
| SsrcPairing.FindFidAppend | lib/src/main/java/com/versatica/mediasoup/sdp/UnifiedPlanUtils.kt:165-179 | appending groups never changes the FID group already found for an SSRC |
| SsrcPairing.FindFidSnoc | lib/src/main/java/com/versatica/mediasoup/handlers/sdp/PlanBUtils.kt:158-174 | the search over one more group finds the earlier match, else the new group when it matches, else nothing |
| SsrcPairing.PairFidsSnoc | lib/src/main/java/com/versatica/mediasoup/handlers/sdp/PlanBUtils.kt:66-84 | one loop iteration: a readable FID group whose SSRC is still in the set removes both SSRCs and appends the pair; any other group changes nothing |
| SsrcPairing.PairFidsUnpaired | lib/src/main/java/com/versatica/mediasoup/handlers/sdp/PlanBUtils.kt:74-79 | after the loop the set holds exactly the initial SSRCs that no pair mentions, in their first order |
| SsrcPairing.PairFidsFreshKeys | lib/src/main/java/com/versatica/mediasoup/handlers/sdp/PlanBUtils.kt:74-81 | every paired SSRC was collected, and no earlier pair mentions it, as media or RTX SSRC |
| SsrcPairing.PairFidsInLineOrder | lib/src/main/java/com/versatica/mediasoup/handlers/sdp/PlanBUtils.kt:66-84 | the pairs are a subsequence of the readable FID groups, in line order |
| SsrcPairing.PairFidsKeys | lib/src/main/java/com/versatica/mediasoup/handlers/sdp/PlanBUtils.kt:74-81 | the paired keys are distinct, none of them stays in the set, and the set stays duplicate-free |
| SsrcPairing.PairFidsWithoutFid | lib/src/main/java/com/versatica/mediasoup/handlers/sdp/PlanBUtils.kt:66-68 | without a readable FID group nothing is paired and the set is unchanged |
| SsrcPairing.PairFidsSingle | lib/src/main/java/com/versatica/mediasoup/handlers/sdp/PlanBUtils.kt:66-92 | a single SSRC is paired with the RTX SSRC of its first FID group, or stays in the set when it has none |
| UnifiedPlanUtils.FindByMid | lib/src/main/java/com/versatica/mediasoup/sdp/UnifiedPlanUtils.kt:322-324 | the first section with the mid, or None exactly when no section has it |
| UnifiedPlanUtils.FindByMsid | lib/src/main/java/com/versatica/mediasoup/sdp/UnifiedPlanUtils.kt:328-331 | the first section of the track's kind whose msid names the track, or None when there is none; an index error exactly when a one-token msid of that kind comes first |
| UnifiedPlanUtils.FindMediaSection | lib/src/main/java/com/versatica/mediasoup/sdp/UnifiedPlanUtils.kt:317-338 | None for no sections; with a mid, the first section with it, or SectionNotFound exactly when none has it; without a mid, the first msid match, SectionNotFound exactly when no section matches, and the index error exactly when a one-token msid of the track's kind comes before any match |
| UnifiedPlanUtils.PrefixesExclusive | lib/src/main/java/com/versatica/mediasoup/sdp/UnifiedPlanUtils.kt:47-52 | the separate "high" test never adds a second stream, because no RID id starts with both "high" and "low" or "medium" |
| UnifiedPlanUtils.EncodingsFromRids | lib/src/main/java/com/versatica/mediasoup/sdp/UnifiedPlanUtils.kt:38-70 | the RID loop writes one encoding per send stream with its RID and profile, or a single encoding with the cname line's SSRC when there is no stream |
| UnifiedPlanUtils.SendStreamsFromSendRids | lib/src/main/java/com/versatica/mediasoup/sdp/UnifiedPlanUtils.kt:43-53 | every stream comes from a send RID whose id starts with the stream's profile |
| UnifiedPlanUtils.SendStreamsComplete | lib/src/main/java/com/versatica/mediasoup/sdp/UnifiedPlanUtils.kt:43-53 | every send RID whose id starts with low, medium or high yields a stream with that profile |
| UnifiedPlanUtils.SendStreamsEmpty | lib/src/main/java/com/versatica/mediasoup/sdp/UnifiedPlanUtils.kt:59-61 | the single-SSRC encoding is written exactly when no send RID starts with a profile name |
| UnifiedPlanUtils.CollectMsidSsrcs | lib/src/main/java/com/versatica/mediasoup/sdp/UnifiedPlanUtils.kt:78-94 | the loop collects the SSRCs of the msid lines |
| UnifiedPlanUtils.MsidSsrcsMembers | lib/src/main/java/com/versatica/mediasoup/sdp/UnifiedPlanUtils.kt:81-90 | the collected SSRCs are distinct and are exactly the SSRCs of the msid lines |
| UnifiedPlanUtils.PairFidGroups | lib/src/main/java/com/versatica/mediasoup/sdp/UnifiedPlanUtils.kt:99-120 | the FID loop leaves the unpaired SSRCs in the set and the pairs in the hash map |
| UnifiedPlanUtils.RemoveSsrcs | lib/src/main/java/com/versatica/mediasoup/sdp/UnifiedPlanUtils.kt:123-125 | removing the leftover SSRCs drops exactly those keys, keeps every other entry, and changes nothing when none is a key |
| UnifiedPlanUtils.PairWithHashMap | lib/src/main/java/com/versatica/mediasoup/sdp/UnifiedPlanUtils.kt:96-126 | the map holds exactly the FID pairs (the leftover removal finds no key to remove) |
| UnifiedPlanUtils.PairedMapKeys | lib/src/main/java/com/versatica/mediasoup/sdp/UnifiedPlanUtils.kt:96-126 | the map's keys are exactly the paired SSRCs, all of them collected and none left over |
| UnifiedPlanUtils.EmitFromHashMap | lib/src/main/java/com/versatica/mediasoup/sdp/UnifiedPlanUtils.kt:130-148 | one encoding per entry, with a distinct key, the entry's RTX SSRC and the i-th profile when simulcast; the profiles run out exactly when the map has more than three entries |
| UnifiedPlanUtils.EmittedSingle | lib/src/main/java/com/versatica/mediasoup/sdp/UnifiedPlanUtils.kt:132-147 | a one-entry map gives one encoding without profile |
| UnifiedPlanUtils.EmittedProfilesDistinct | lib/src/main/java/com/versatica/mediasoup/sdp/UnifiedPlanUtils.kt:133-145 | with simulcast every encoding has a profile and no two share one |
| UnifiedPlanUtils.EncodingsFromSsrcs | lib/src/main/java/com/versatica/mediasoup/sdp/UnifiedPlanUtils.kt:77-148 | the Plan B style branch fails with SsrcNotFound exactly when a non-empty line list has no msid line; an empty list gives no encoding; otherwise it emits the encodings of the paired SSRCs |
| UnifiedPlanUtils.FillFromSection | lib/src/main/java/com/versatica/mediasoup/sdp/UnifiedPlanUtils.kt:20-149 | RTCP with reduced size, mux and the first cname line's value, or CnameNotFound without one; then the RID or SSRC encodings, with the encodings untouched on an early failure |
| UnifiedPlanUtils.FillRtpParametersForTrack | lib/src/main/java/com/versatica/mediasoup/sdp/UnifiedPlanUtils.kt:11-150 | a lookup failure changes nothing; otherwise the mux id is the mid when one is given; no sections gives CnameNotFound after the RTCP is written; a found section is filled as above |
| UnifiedPlanUtils.PlanBBranchWithoutFid | lib/src/main/java/com/versatica/mediasoup/sdp/UnifiedPlanUtils.kt:96-126 | without a readable FID group the Plan B style branch writes no encoding |
| UnifiedPlanUtils.PlanBBranchEncodingsArePaired | lib/src/main/java/com/versatica/mediasoup/sdp/UnifiedPlanUtils.kt:121-125 | every encoding's SSRC comes from an msid line and was paired by an FID group |
| UnifiedPlanUtils.PlanBSimulcastPlanFailures | lib/src/main/java/com/versatica/mediasoup/sdp/UnifiedPlanUtils.kt:155-183 | SsrcNotFound exactly when no line is an msid line; CnameNotFound exactly when the first msid line's SSRC has no cname line |
| UnifiedPlanUtils.PlanBSimulcastPlanReads | lib/src/main/java/com/versatica/mediasoup/sdp/UnifiedPlanUtils.kt:155-185 | the plan's SSRC is the first msid line's, its cname is that SSRC's first cname line's value, a nonzero RTX SSRC comes from an FID group of that SSRC, and the stream holds no space |
| UnifiedPlanUtils.PlanBSimulcastLinesReadBack | lib/src/main/java/com/versatica/mediasoup/sdp/UnifiedPlanUtils.kt:196-314 | the twelve appended lines are cname lines with the plan's cname and msid lines naming the track |
| UnifiedPlanUtils.PlanBSimulcastSimReadBack | lib/src/main/java/com/versatica/mediasoup/sdp/UnifiedPlanUtils.kt:189-194 | the appended SIM group reads back as s, s+1, s+2 |
| UnifiedPlanUtils.PlanBSimulcastFidsReadBack | lib/src/main/java/com/versatica/mediasoup/sdp/UnifiedPlanUtils.kt:247-298 | the three appended FID groups read back as (s, r), (s+1, r+1), (s+2, r+2) |
| UnifiedPlanUtils.PlanBSimulcastGroupsReadBack | lib/src/main/java/com/versatica/mediasoup/sdp/UnifiedPlanUtils.kt:189-298 | the four appended groups read back as the SIM group and the three FID pairs |
| UnifiedPlanUtils.PlanBSimulcastPlanAppend | lib/src/main/java/com/versatica/mediasoup/sdp/UnifiedPlanUtils.kt:155-185 | appending lines and groups keeps the plan when the RTX SSRC found stays the same |
| UnifiedPlanUtils.FindFidAt | lib/src/main/java/com/versatica/mediasoup/sdp/UnifiedPlanUtils.kt:165-179 | the search stops at the first FID group for the SSRC |
| UnifiedPlanUtils.FindFidAfterMiss | lib/src/main/java/com/versatica/mediasoup/sdp/UnifiedPlanUtils.kt:165-179 | with no match in the old groups, the search finds the first match among the appended ones |
| UnifiedPlanUtils.PlanBSimulcastRtxAgain | lib/src/main/java/com/versatica/mediasoup/sdp/UnifiedPlanUtils.kt:165-179 | after the synthesizer's own groups are appended, the RTX SSRC found for s is unchanged |
| UnifiedPlanUtils.PlanBSimulcastAgain | lib/src/main/java/com/versatica/mediasoup/sdp/UnifiedPlanUtils.kt:152-315 | running the synthesizer again reads the same plan, so it appends the same lines a second time |
| UnifiedPlanUtils.ReadSimulcastPlan | lib/src/main/java/com/versatica/mediasoup/sdp/UnifiedPlanUtils.kt:155-185 | the reads before any write give the plan or its error |
| UnifiedPlanUtils.WriteSimulcast | lib/src/main/java/com/versatica/mediasoup/sdp/UnifiedPlanUtils.kt:186-314 | the lines and groups are appended to the section's lists; a missing group list stays missing |
| UnifiedPlanUtils.AddPlanBSimulcast | lib/src/main/java/com/versatica/mediasoup/sdp/UnifiedPlanUtils.kt:152-315 | a lookup or read failure changes nothing; no sections gives SsrcNotFound; otherwise only the found section's two lists grow by the appends, and every other section and field is unchanged |
| UnifiedPlanUtils.SimulcastLinesInOrder | lib/src/main/java/com/versatica/mediasoup/sdp/UnifiedPlanUtils.kt:196-314 | the twelve lines appended, in the code's append order |
| UnifiedPlanUtils.SimulcastGroupsInOrder | lib/src/main/java/com/versatica/mediasoup/sdp/UnifiedPlanUtils.kt:189-298 | the four groups appended, in the code's append order |
| PlanBUtils.FirstOfKind | lib/src/main/java/com/versatica/mediasoup/handlers/sdp/PlanBUtils.kt:32-34 | the first section of the kind, or None exactly when no section has that kind |
| PlanBUtils.CollectTrackSsrcs | lib/src/main/java/com/versatica/mediasoup/handlers/sdp/PlanBUtils.kt:36-56 | the loop collects the SSRCs of the lines naming the track, and the first SSRC is the first collected one |
| PlanBUtils.TrackSsrcsErrorSticks | lib/src/main/java/com/versatica/mediasoup/handlers/sdp/PlanBUtils.kt:43-47 | once an msid line throws, the later lines do not matter |
| PlanBUtils.TrackSsrcsMeaning | lib/src/main/java/com/versatica/mediasoup/handlers/sdp/PlanBUtils.kt:39-56 | an error exactly when some msid line has a single token; otherwise the distinct SSRCs of exactly the lines naming the track |
| PlanBUtils.ZeroRtx | lib/src/main/java/com/versatica/mediasoup/handlers/sdp/PlanBUtils.kt:89-92 | each leftover SSRC gets RTX 0, in set order |
| PlanBUtils.MapRtx | lib/src/main/java/com/versatica/mediasoup/handlers/sdp/PlanBUtils.kt:61-92 | the map is the FID pairs followed by the leftover SSRCs mapped to 0 |
| PlanBUtils.MapFids | lib/src/main/java/com/versatica/mediasoup/handlers/sdp/PlanBUtils.kt:61-85 | the FID loop leaves the unpaired SSRCs in the set and the pairs in the map |
| PlanBUtils.MapLeftovers | lib/src/main/java/com/versatica/mediasoup/handlers/sdp/PlanBUtils.kt:87-92 | the leftover loop appends each SSRC with RTX 0 |
| PlanBUtils.LeftoverStep | lib/src/main/java/com/versatica/mediasoup/handlers/sdp/PlanBUtils.kt:89-92 | one leftover iteration appends one fresh entry |
| PlanBUtils.LeftoverIsFresh | lib/src/main/java/com/versatica/mediasoup/handlers/sdp/PlanBUtils.kt:89-92 | no leftover SSRC is already a key, so `map[ssrc] = 0` never overwrites a pair |
| PlanBUtils.RtxPairsKeys | lib/src/main/java/com/versatica/mediasoup/handlers/sdp/PlanBUtils.kt:61-92 | the map's keys are the paired SSRCs followed by the leftover SSRCs |
| PlanBUtils.RtxPairsDistinct | lib/src/main/java/com/versatica/mediasoup/handlers/sdp/PlanBUtils.kt:61-92 | the map's keys are distinct |
| PlanBUtils.RtxPairsKeysCollected | lib/src/main/java/com/versatica/mediasoup/handlers/sdp/PlanBUtils.kt:74 | every key is a collected SSRC |
| PlanBUtils.RtxPairsCoverSsrcs | lib/src/main/java/com/versatica/mediasoup/handlers/sdp/PlanBUtils.kt:74-92 | every collected SSRC is in the map, as a media or an RTX SSRC |
| PlanBUtils.PlanBEncodings | lib/src/main/java/com/versatica/mediasoup/handlers/sdp/PlanBUtils.kt:105-121 | as many encodings as entries, but at most three |
| PlanBUtils.EmitEncodings | lib/src/main/java/com/versatica/mediasoup/handlers/sdp/PlanBUtils.kt:103-121 | for each map entry in order: its SSRC, an `rtx` map for a positive RTX SSRC, and the next profile when simulcast; the profiles run out exactly when there are more than three entries |
| PlanBUtils.FillFromSection | lib/src/main/java/com/versatica/mediasoup/handlers/sdp/PlanBUtils.kt:36-121 | a collection error or no SSRC writes nothing; otherwise RTCP with the first SSRC's cname, then the map's encodings |
| PlanBUtils.FillRtpParametersForTrack | lib/src/main/java/com/versatica/mediasoup/handlers/sdp/PlanBUtils.kt:20-122 | SectionNotFound without a section of the kind, with nothing written; otherwise the first such section is filled as above |
| PlanBUtils.FourSsrcsExhaustProfiles | lib/src/main/java/com/versatica/mediasoup/handlers/sdp/PlanBUtils.kt:105-118 | four SSRCs without RTX get low, medium and high, and the fourth exhausts the profiles |
| PlanBUtils.SingleSsrcSingleEncoding | lib/src/main/java/com/versatica/mediasoup/handlers/sdp/PlanBUtils.kt:105-117 | a single SSRC gives one encoding without profile, with its FID RTX SSRC if it has one |
| PlanBUtils.FirstTrackLine | lib/src/main/java/com/versatica/mediasoup/handlers/sdp/PlanBUtils.kt:141-155 | the first line naming the track, None exactly when none does, and an index error exactly when a one-token msid line comes first |
| PlanBUtils.FirstTrackLineAt | lib/src/main/java/com/versatica/mediasoup/handlers/sdp/PlanBUtils.kt:141-155 | the search stops at the first line that names the track or throws |
| PlanBUtils.FirstTrackLineAppend | lib/src/main/java/com/versatica/mediasoup/handlers/sdp/PlanBUtils.kt:141-155 | appending lines never changes a line that was already found |
| PlanBUtils.SimulcastPlanNoSsrc | lib/src/main/java/com/versatica/mediasoup/handlers/sdp/PlanBUtils.kt:141-155 | SsrcNotFound exactly when no line names the track |
| PlanBUtils.SimulcastPlanMsidTooShort | lib/src/main/java/com/versatica/mediasoup/handlers/sdp/PlanBUtils.kt:145 | the index error exactly when a one-token msid line comes before any line naming the track |
| PlanBUtils.SimulcastPlanNoCname | lib/src/main/java/com/versatica/mediasoup/handlers/sdp/PlanBUtils.kt:176-178 | CnameNotFound exactly when the track's first SSRC has no cname line |
| PlanBUtils.SimulcastExtendsFirstSsrc | lib/src/main/java/com/versatica/mediasoup/handlers/sdp/PlanBUtils.kt:141-155 | the synthesizer's SSRC is the first SSRC the fill collects |
| PlanBUtils.TrackSsrcsFirst | lib/src/main/java/com/versatica/mediasoup/handlers/sdp/PlanBUtils.kt:48-53 | the first line naming the track gives the first collected SSRC |
| PlanBUtils.TrackSsrcsNone | lib/src/main/java/com/versatica/mediasoup/handlers/sdp/PlanBUtils.kt:58-59 | with no line naming the track, nothing is collected |
| PlanBUtils.SimulcastLinesReadBack | lib/src/main/java/com/versatica/mediasoup/handlers/sdp/PlanBUtils.kt:194-274 | the appended lines (four, or eight with RTX) are cname lines with the plan's cname and msid lines naming the track |
| PlanBUtils.SimulcastSimReadBack | lib/src/main/java/com/versatica/mediasoup/handlers/sdp/PlanBUtils.kt:187-192 | the appended SIM group reads back as s, s+1, s+2 |
| PlanBUtils.SimulcastFidsReadBack | lib/src/main/java/com/versatica/mediasoup/handlers/sdp/PlanBUtils.kt:230-258 | the two appended FID groups read back as (s+1, r+1) and (s+2, r+2) |
| PlanBUtils.SimulcastGroupsReadBack | lib/src/main/java/com/versatica/mediasoup/handlers/sdp/PlanBUtils.kt:187-258 | the appended groups read back as the SIM group and, with RTX, the two FID pairs |
| PlanBUtils.SimulcastAgain | lib/src/main/java/com/versatica/mediasoup/handlers/sdp/PlanBUtils.kt:130-276 | running the synthesizer again reads the same plan, so it appends the same lines a second time |
| PlanBUtils.ReadSimulcastPlan | lib/src/main/java/com/versatica/mediasoup/handlers/sdp/PlanBUtils.kt:131-180 | the reads before any write give the plan or its error |
| PlanBUtils.WriteSimulcast | lib/src/main/java/com/versatica/mediasoup/handlers/sdp/PlanBUtils.kt:181-275 | the lines and groups are appended; a missing group list is created first |
| PlanBUtils.AddSimulcastForTrack | lib/src/main/java/com/versatica/mediasoup/handlers/sdp/PlanBUtils.kt:130-276 | SectionNotFound or a read failure changes nothing; otherwise only the first section of the kind grows by the appends, and every other section and field is unchanged |
| PlanBUtils.SimulcastInOrder | lib/src/main/java/com/versatica/mediasoup/handlers/sdp/PlanBUtils.kt:187-275 | the lines and groups appended, in the code's append order, with and without RTX |
| PlanBUtils.SimulcastNoRtxInOrder | lib/src/main/java/com/versatica/mediasoup/handlers/sdp/PlanBUtils.kt:187-224 | without RTX: the SIM group and four lines, in order |
| PlanBUtils.SimulcastRtxInOrder | lib/src/main/java/com/versatica/mediasoup/handlers/sdp/PlanBUtils.kt:187-275 | with RTX: the SIM group, two FID groups and eight lines, in order |
| PlanBUtils.TrackSsrcsAddPair | lib/src/main/java/com/versatica/mediasoup/handlers/sdp/PlanBUtils.kt:43-54 | a new cname/msid line pair naming the track adds its SSRC at the end of the collection |
| PlanBUtils.TrackSsrcsAddPairs | lib/src/main/java/com/versatica/mediasoup/handlers/sdp/PlanBUtils.kt:43-54 | several new line pairs add their SSRCs in order |
| PlanBUtils.TypicalPlan | lib/src/main/java/com/versatica/mediasoup/handlers/sdp/PlanBUtils.kt:136-180 | a section with s and its RTX SSRC r paired by FID gives the plan (s, r, cname, stream) |
| PlanBUtils.TypicalLinesAfterSimulcast | lib/src/main/java/com/versatica/mediasoup/handlers/sdp/PlanBUtils.kt:194-274 | that section's lines after simulcast are cname/msid pairs for s, r, s+1, s+2, r+1, r+2 |
| PlanBUtils.TypicalCollectAfterSimulcast | lib/src/main/java/com/versatica/mediasoup/handlers/sdp/PlanBUtils.kt:36-56 | the fill then collects s, r, s+1, s+2, r+1, r+2 |
| PlanBUtils.TypicalPairFids | lib/src/main/java/com/versatica/mediasoup/handlers/sdp/PlanBUtils.kt:66-84 | the FID loop pairs s, s+1, s+2 with r, r+1, r+2 and leaves nothing over |
| PlanBUtils.TypicalPairsAfterSimulcast | lib/src/main/java/com/versatica/mediasoup/handlers/sdp/PlanBUtils.kt:61-92 | the map is the three pairs, in order |
| PlanBUtils.TypicalGroupsAfterSimulcast | lib/src/main/java/com/versatica/mediasoup/handlers/sdp/PlanBUtils.kt:61-92 | with the synthesizer's own groups the map is the three pairs, in order |
| PlanBUtils.SimulcastThenFill | lib/src/main/java/com/versatica/mediasoup/handlers/sdp/PlanBUtils.kt:20-276 | adding simulcast to a section with one FID pair, then filling, gives low/medium/high encodings for s, s+1, s+2 with RTX r, r+1, r+2 |

## Left out

- The sdp-transform parser, the WebRTC `MediaStreamTrack` and `RTCRtpParameters` classes, and the demo application are not part of this model. A parsed description is given directly as media sections, and a track as its kind and id.
- `===` and `!==` on strings (e.g. `UnifiedPlanUtils.kt:29`, `:44`, `:82`, `:102`, `:157`, `:166`, `:182`, `:330`) compare references in Kotlin. The model reads them as value equality, i.e. it assumes the compared strings are the same interned instance whenever they are equal.
- `UnifiedPlanUtils.EmitFromHashMap`: leaves open the iteration order of `hashMapOf`, which depends on hash codes. Its contract states only what holds in every order:
  - how many encodings are emitted;
  - that they carry distinct keys with their RTX SSRCs and the i-th profile;
  - that every entry is emitted when there are at most three.

  `UnifiedPlanUtils.EncodingsFromSsrcs`, `UnifiedPlanUtils.FillFromSection` and `UnifiedPlanUtils.FillRtpParametersForTrack` inherit this.
- SSRCs are unbounded integers. Kotlin's 32-bit `Int` (Unified Plan) and 64-bit `Long` (Plan B) wrap-around in `ssrc + 1` and the range limits of `toIntOrNull` / `toLongOrNull` are not modelled. Digits other than ASCII `0`-`9`, which the Kotlin parsers also accept, are not modelled either.
- Exception messages are not modelled; each exception is the `Error` variant for its cause.
- The unused `firstSsrc` of the Unified Plan branch (`UnifiedPlanUtils.kt:75-89`) is not modelled.
- A missing (`null`) `a=ssrc` or `a=rid` list is modelled as an empty one. This appears to change no outcome, since every operation treats the two alike. A missing `a=ssrc-group` list is kept distinct, because `addPlanBSimulcast` then appends no group and `addSimulcastForTrack` creates the list.
- `findMediaSection` returns the section itself in Kotlin. The model returns its position in the section list, so the caller can name the object it updates.
- The global backing fields that hold `muxId`, `encodings` and `mux` (`UnifiedPlanUtils.kt:358-377`) are not modelled as globals. They are plain fields of the one `RtpParameters` object, so the model does not capture that the fields are shared by every parameters object.

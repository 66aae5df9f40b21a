/**
 * The Plan B SDP utilities: filling an RTP parameters object from the SSRCs
 * of the first section of the track's kind, and adding simulcast SSRCs for
 * a track to that section.
 */
module PlanBUtils {
  import opened Wrappers
  import opened Text
  import opened Sdp
  import opened SsrcPairing

  /** The position of the first section of the kind, as `media.find { it.type == kind }`. */
  function FirstOfKind(media: seq<MediaSection>, kind: string, i: nat): (r: Option<nat>)
    reads media
    requires i <= |media|
    ensures r.Some? ==> i <= r.value < |media| && media[r.value].mediaType == kind
    ensures r.Some? ==> forall j :: i <= j < r.value ==> media[j].mediaType != kind
    ensures r.None? ==> forall j :: i <= j < |media| ==> media[j].mediaType != kind
    decreases |media| - i
  {
    if i == |media| then None
    else if media[i].mediaType == kind then Some(i)
    else FirstOfKind(media, kind, i + 1)
  }

  /**
   * Whether an `a=ssrc` line is an msid line naming the track as its second
   * token; an msid value with a single token raises an index error.
   */
  function NamesTrack(line: SsrcLine, trackId: string): Result<bool>
  {
    if line.attribute != "msid" then Ok(false)
    else match SecondToken(line.value)
      case Err(e) => Err(e)
      case Ok(t) => Ok(t == Some(trackId))
  }

  // ---------------------------------------------------------------------------
  // fillRtpParametersForTrack

  /**
   * Lines 39-56: the SSRCs of the lines naming the track, each once, in
   * order of first appearance; any one-token msid value is an error.
   */
  function TrackSsrcs(lines: seq<SsrcLine>, trackId: string): Result<seq<int>>
  {
    if lines == [] then Ok([])
    else
      var last := lines[|lines| - 1];
      match TrackSsrcs(lines[..|lines| - 1], trackId)
      case Err(e) => Err(e)
      case Ok(s) =>
        match NamesTrack(last, trackId)
        case Err(e) => Err(e)
        case Ok(b) => Ok(if b then Insert(s, last.id) else s)
  }

  /** Lines 36-56, with the first SSRC kept aside as the source does. */
  method CollectTrackSsrcs(lines: seq<SsrcLine>, trackId: string)
    returns (result: Result<seq<int>>, firstSsrc: Option<int>)
    ensures result == TrackSsrcs(lines, trackId)
    ensures result.Ok? ==> (firstSsrc.Some? <==> result.value != [])
    ensures result.Ok? && result.value != [] ==> firstSsrc == Some(result.value[0])
  {
    var ssrcs: seq<int> := [];
    firstSsrc := None;
    for i := 0 to |lines|
      invariant TrackSsrcs(lines[..i], trackId) == Ok(ssrcs)
      invariant firstSsrc.Some? <==> ssrcs != []
      invariant ssrcs != [] ==> firstSsrc == Some(ssrcs[0])
    {
      assert lines[..i + 1][..i] == lines[..i];
      var line := lines[i];
      if line.attribute != "msid" {
        continue;
      }
      var trackIdOfLine := SecondToken(line.value);
      if trackIdOfLine.Err? {
        TrackSsrcsErrorSticks(lines, i + 1, trackId);
        return Err(trackIdOfLine.error), firstSsrc;
      }
      if trackIdOfLine.value == Some(trackId) {
        var ssrc := line.id;
        ssrcs := Insert(ssrcs, ssrc);
        if firstSsrc.None? {
          firstSsrc := Some(ssrc);
        }
      }
    }
    assert lines[..|lines|] == lines;
    result := Ok(ssrcs);
  }

  /** A one-token msid value anywhere makes the whole collection fail. */
  lemma {:induction false} TrackSsrcsErrorSticks(lines: seq<SsrcLine>, n: nat, trackId: string)
    requires n <= |lines| && TrackSsrcs(lines[..n], trackId).Err?
    ensures TrackSsrcs(lines, trackId) == TrackSsrcs(lines[..n], trackId)
    decreases |lines| - n
  {
    if n < |lines| {
      assert lines[..n + 1][..n] == lines[..n];
      TrackSsrcsErrorSticks(lines, n + 1, trackId);
    } else {
      assert lines[..n] == lines;
    }
  }

  /**
   * The collection fails exactly when some msid line has a one-token value;
   * otherwise it holds, once each, exactly the SSRCs of the lines naming the track.
   */
  lemma {:induction false} TrackSsrcsMeaning(lines: seq<SsrcLine>, trackId: string)
    ensures TrackSsrcs(lines, trackId).Err? <==>
      exists i :: 0 <= i < |lines| && NamesTrack(lines[i], trackId).Err?
    ensures TrackSsrcs(lines, trackId).Err? ==> TrackSsrcs(lines, trackId).error == MsidTooShort
    ensures TrackSsrcs(lines, trackId).Ok? ==>
      && Distinct(TrackSsrcs(lines, trackId).value)
      && forall x :: x in TrackSsrcs(lines, trackId).value <==>
           exists i :: 0 <= i < |lines| && NamesTrack(lines[i], trackId) == Ok(true) && lines[i].id == x
  {
    if lines != [] {
      var front, last := lines[..|lines| - 1], lines[|lines| - 1];
      TrackSsrcsMeaning(front, trackId);
      assert forall i :: 0 <= i < |front| ==> lines[i] == front[i];
      if TrackSsrcs(front, trackId).Ok? && NamesTrack(last, trackId).Ok? {
        var s := TrackSsrcs(front, trackId).value;
        if NamesTrack(last, trackId).value {
          InsertDistinct(s, last.id);
        }
        forall x ensures x in TrackSsrcs(lines, trackId).value <==>
          exists i :: 0 <= i < |lines| && NamesTrack(lines[i], trackId) == Ok(true) && lines[i].id == x
        {
          if exists i :: 0 <= i < |lines| && NamesTrack(lines[i], trackId) == Ok(true) && lines[i].id == x {
            var i :| 0 <= i < |lines| && NamesTrack(lines[i], trackId) == Ok(true) && lines[i].id == x;
            if i < |front| {
              assert front[i] == lines[i];
            }
          }
        }
      }
    }
  }

  /** `ssrcToRtxSsrc[ssrc] = 0` for every SSRC left without RTX. */
  function ZeroRtx(ssrcs: seq<int>): (r: seq<SsrcPair>)
    ensures |r| == |ssrcs| && forall i :: 0 <= i < |ssrcs| ==> r[i] == SsrcPair(ssrcs[i], 0)
  {
    if ssrcs == [] then [] else [SsrcPair(ssrcs[0], 0)] + ZeroRtx(ssrcs[1..])
  }

  /**
   * Lines 61-92: the insertion-ordered map from media SSRC to RTX SSRC:
   * first the FID pairs, then every SSRC left over with RTX SSRC 0.
   */
  function RtxPairs(groups: seq<SsrcGroup>, ssrcs: seq<int>): seq<SsrcPair>
  {
    PairFids(groups, ssrcs).pairs + ZeroRtx(PairFids(groups, ssrcs).unpaired)
  }

  /** Lines 61-92, with each entry written by `map[k] = v`. */
  method MapRtx(groups: seq<SsrcGroup>, ssrcs0: seq<int>) returns (ssrcToRtxSsrc: seq<SsrcPair>)
    requires Distinct(ssrcs0)
    ensures ssrcToRtxSsrc == RtxPairs(groups, ssrcs0)
  {
    var ssrcs;
    ssrcs, ssrcToRtxSsrc := MapFids(groups, ssrcs0);
    PairFidsKeys(groups, ssrcs0);
    ssrcToRtxSsrc := MapLeftovers(ssrcToRtxSsrc, ssrcs);
  }

  /** Lines 61-85: the FID loop, taking each paired SSRC and its RTX SSRC out of the set. */
  method MapFids(groups: seq<SsrcGroup>, ssrcs0: seq<int>) returns (ssrcs: seq<int>, ssrcToRtxSsrc: seq<SsrcPair>)
    requires Distinct(ssrcs0)
    ensures ssrcs == PairFids(groups, ssrcs0).unpaired && ssrcToRtxSsrc == PairFids(groups, ssrcs0).pairs
  {
    ssrcToRtxSsrc := [];
    ssrcs := ssrcs0;
    for i := 0 to |groups|
      invariant ssrcs == PairFids(groups[..i], ssrcs0).unpaired
      invariant ssrcToRtxSsrc == PairFids(groups[..i], ssrcs0).pairs
    {
      assert groups[..i + 1] == groups[..i] + [groups[i]];
      PairFidsSnoc(groups[..i], groups[i], ssrcs0);
      PairFidsKeys(groups[..i], ssrcs0);
      var line := groups[i];
      if line.semantics != "FID" {
        continue;
      }
      var splitList := SplitWhitespace(line.ssrcs);
      if |splitList| == 2 {
        var ssrc := ParseInt(splitList[0]);
        var rtxSsrc := ParseInt(splitList[1]);
        if ssrc.Some? && rtxSsrc.Some? && ssrc.value in ssrcs {
          ssrcs := Remove(ssrcs, ssrc.value);
          ssrcs := Remove(ssrcs, rtxSsrc.value);
          PutFresh(ssrcToRtxSsrc, ssrc.value, rtxSsrc.value);
          ssrcToRtxSsrc := Put(ssrcToRtxSsrc, ssrc.value, rtxSsrc.value);
        }
      }
    }
    assert groups[..|groups|] == groups;
  }

  /** Lines 88-92: every SSRC left in the set is mapped to 0. */
  method MapLeftovers(pairs: seq<SsrcPair>, ssrcs: seq<int>) returns (ssrcToRtxSsrc: seq<SsrcPair>)
    requires Distinct(ssrcs) && forall x :: x in KeySet(pairs) ==> x !in ssrcs
    ensures ssrcToRtxSsrc == pairs + ZeroRtx(ssrcs)
  {
    ssrcToRtxSsrc := pairs;
    for j := 0 to |ssrcs|
      invariant ssrcToRtxSsrc == pairs + ZeroRtx(ssrcs[..j])
    {
      LeftoverStep(pairs, ssrcs, j);
      ssrcToRtxSsrc := Put(ssrcToRtxSsrc, ssrcs[j], 0);
    }
    assert ssrcs[..|ssrcs|] == ssrcs;
  }

  lemma LeftoverStep(pairs: seq<SsrcPair>, ssrcs: seq<int>, j: nat)
    requires j < |ssrcs| && Distinct(ssrcs)
    requires forall x :: x in KeySet(pairs) ==> x !in ssrcs
    ensures Put(pairs + ZeroRtx(ssrcs[..j]), ssrcs[j], 0) == pairs + ZeroRtx(ssrcs[..j + 1])
  {
    var z, x := ZeroRtx(ssrcs[..j]), SsrcPair(ssrcs[j], 0);
    assert Put(pairs + z, ssrcs[j], 0) == (pairs + z) + [x] by {
      LeftoverIsFresh(pairs, ssrcs, j);
      PutFresh(pairs + z, ssrcs[j], 0);
    }
    assert ZeroRtx(ssrcs[..j + 1]) == z + [x] by {
      assert ssrcs[..j + 1] == ssrcs[..j] + [ssrcs[j]];
      ZeroRtxSnoc(ssrcs[..j], ssrcs[j]);
    }
    assert (pairs + z) + [x] == pairs + (z + [x]);
  }

  lemma ZeroRtxSnoc(xs: seq<int>, x: int)
    ensures ZeroRtx(xs + [x]) == ZeroRtx(xs) + [SsrcPair(x, 0)]
  {
  }

  lemma LeftoverIsFresh(pairs: seq<SsrcPair>, ssrcs: seq<int>, j: nat)
    requires j < |ssrcs| && Distinct(ssrcs)
    requires forall x :: x in KeySet(pairs) ==> x !in ssrcs
    ensures ssrcs[j] !in KeySet(pairs + ZeroRtx(ssrcs[..j]))
  {
    var z := ZeroRtx(ssrcs[..j]);
    assert ssrcs[j] in ssrcs;
    forall p | p in pairs + z ensures p.ssrc != ssrcs[j] {
      if p in z {
        var i :| 0 <= i < |z| && z[i] == p;
        assert p.ssrc == ssrcs[i];
      } else {
        assert p in pairs;
      }
    }
  }

  /** The keys of the map are the paired SSRCs followed by the leftover ones. */
  lemma RtxPairsKeys(groups: seq<SsrcGroup>, ssrcs: seq<int>)
    ensures Keys(RtxPairs(groups, ssrcs)) == Keys(PairFids(groups, ssrcs).pairs) + PairFids(groups, ssrcs).unpaired
  {
    var p := PairFids(groups, ssrcs);
    KeysAppend(p.pairs, ZeroRtx(p.unpaired));
    KeysZeroRtx(p.unpaired);
  }

  lemma KeysAppend(a: seq<SsrcPair>, b: seq<SsrcPair>)
    ensures Keys(a + b) == Keys(a) + Keys(b)
  {
    assert forall i :: 0 <= i < |a| ==> (a + b)[i] == a[i];
    assert forall i :: |a| <= i < |a + b| ==> (a + b)[i] == b[i - |a|];
  }

  lemma KeysZeroRtx(u: seq<int>)
    ensures Keys(ZeroRtx(u)) == u
  {
  }

  /** The map has one entry per key: no media SSRC is written twice. */
  lemma RtxPairsDistinct(groups: seq<SsrcGroup>, ssrcs: seq<int>)
    requires Distinct(ssrcs)
    ensures Distinct(Keys(RtxPairs(groups, ssrcs)))
  {
    var p := PairFids(groups, ssrcs);
    var ks := Keys(p.pairs);
    PairFidsKeys(groups, ssrcs);
    RtxPairsKeys(groups, ssrcs);
    forall i, j | 0 <= i < j < |ks| + |p.unpaired| ensures (ks + p.unpaired)[i] != (ks + p.unpaired)[j] {
      var s := ks + p.unpaired;
      if j < |ks| {
        assert s[i] == ks[i] && s[j] == ks[j];
      } else if i >= |ks| {
        assert s[i] == p.unpaired[i - |ks|] && s[j] == p.unpaired[j - |ks|];
      } else {
        assert p.pairs[i] in p.pairs && s[i] == p.pairs[i].ssrc && s[j] in p.unpaired;
      }
    }
  }

  /** Every key of the map is a collected media SSRC. */
  lemma RtxPairsKeysCollected(groups: seq<SsrcGroup>, ssrcs: seq<int>)
    ensures forall i :: 0 <= i < |RtxPairs(groups, ssrcs)| ==> RtxPairs(groups, ssrcs)[i].ssrc in ssrcs
  {
    var p := PairFids(groups, ssrcs);
    PairFidsUnpaired(groups, ssrcs);
    PairFidsFreshKeys(groups, ssrcs);
    RtxPairsKeys(groups, ssrcs);
    var ks := Keys(RtxPairs(groups, ssrcs));
    forall i | 0 <= i < |ks| ensures ks[i] in ssrcs {
      if i >= |p.pairs| {
        assert ks[i] == p.unpaired[i - |p.pairs|];
      }
    }
  }

  /** Every collected media SSRC is a key of the map or the RTX SSRC of an entry. */
  lemma RtxPairsCoverSsrcs(groups: seq<SsrcGroup>, ssrcs: seq<int>)
    ensures var m := RtxPairs(groups, ssrcs);
      forall x :: x in ssrcs ==> exists i :: 0 <= i < |m| && (m[i].ssrc == x || m[i].rtxSsrc == x)
  {
    var p := PairFids(groups, ssrcs);
    var m := RtxPairs(groups, ssrcs);
    PairFidsUnpaired(groups, ssrcs);
    forall x | x in ssrcs ensures exists i :: 0 <= i < |m| && (m[i].ssrc == x || m[i].rtxSsrc == x) {
      if x in p.unpaired {
        var i :| 0 <= i < |p.unpaired| && p.unpaired[i] == x;
        assert m[|p.pairs| + i].ssrc == x;
      } else {
        TouchedMembersExact(p.pairs, x);
        var i :| 0 <= i < |p.pairs| && (p.pairs[i].ssrc == x || p.pairs[i].rtxSsrc == x);
        assert m[i] == p.pairs[i];
      }
    }
  }

  lemma {:induction false} TouchedMembersExact(pairs: seq<SsrcPair>, x: int)
    requires x in Touched(pairs)
    ensures exists i :: 0 <= i < |pairs| && (pairs[i].ssrc == x || pairs[i].rtxSsrc == x)
  {
    var front := pairs[..|pairs| - 1];
    if x in Touched(front) {
      TouchedMembersExact(front, x);
      var i :| 0 <= i < |front| && (front[i].ssrc == x || front[i].rtxSsrc == x);
      assert pairs[i] == front[i];
    }
  }

  /** An encoding of the map entry; an RTX SSRC of 0 means no `rtx` map. */
  function PlanBEncoding(pair: SsrcPair, profile: Option<string>): RtpEncoding
  {
    RtpEncoding(None, profile, Some(pair.ssrc),
      if pair.rtxSsrc > 0 then Some(RtxByName(map["ssrc" := pair.rtxSsrc])) else None)
  }

  /**
   * The encodings written for the map, in its order: every entry when the
   * three profiles suffice and the first three otherwise, each with the
   * next profile when there is more than one entry.
   */
  function PlanBEncodings(pairs: seq<SsrcPair>): (r: seq<RtpEncoding>)
    ensures |r| == if |pairs| > |Profiles| then |Profiles| else |pairs|
  {
    var n := if |pairs| > |Profiles| then |Profiles| else |pairs|;
    seq(n, i requires 0 <= i < n => PlanBEncoding(pairs[i], if |pairs| > 1 then Some(Profiles[i]) else None))
  }

  /** Lines 103-121: one encoding per map entry until the profiles run out. */
  method EmitEncodings(pairs: seq<SsrcPair>) returns (encodings: seq<RtpEncoding>, complete: bool)
    ensures encodings == PlanBEncodings(pairs)
    ensures complete <==> |pairs| <= |Profiles|
  {
    var simulcast := |pairs| > 1;
    var simulcastProfiles := Profiles;
    encodings := [];
    for i := 0 to |pairs|
      invariant simulcast ==> i <= |Profiles| && simulcastProfiles == Profiles[i..]
      invariant |encodings| == i
      invariant forall j :: 0 <= j < i ==>
        encodings[j] == PlanBEncoding(pairs[j], if simulcast then Some(Profiles[j]) else None)
    {
      var ssrc, rtxSsrc := pairs[i].ssrc, pairs[i].rtxSsrc;
      var encoding := RtpEncoding(None, None, Some(ssrc), None);
      if rtxSsrc > 0 {
        encoding := encoding.(rtx := Some(RtxByName(map["ssrc" := rtxSsrc])));
      }
      if simulcast {
        if simulcastProfiles == [] {
          return encodings, false;
        }
        encoding := encoding.(profile := Some(simulcastProfiles[0]));
        simulcastProfiles := simulcastProfiles[1..];
      }
      encodings := encodings + [encoding];
    }
    complete := true;
  }

  /**
   * What lines 36-121 leave for the section: an error before anything is
   * written, or the RTCP parameters with the cname of the first SSRC and
   * the encodings of the map.
   */
  ghost predicate FilledFrom(section: MediaSection, trackId: string, outcome: Outcome,
                             rtcp: Option<Rtcp>, encodings: Option<seq<RtpEncoding>>,
                             rtcpBefore: Option<Rtcp>, encodingsBefore: Option<seq<RtpEncoding>>)
    reads section
  {
    match TrackSsrcs(section.ssrcs, trackId)
    case Err(e) => outcome == Fail(e) && rtcp == rtcpBefore && encodings == encodingsBefore
    case Ok(ssrcs) =>
      if ssrcs == [] then
        outcome == Fail(SsrcNotFound) && rtcp == rtcpBefore && encodings == encodingsBefore
      else
        var c := FindLine(section.ssrcs, "cname", Some(ssrcs[0]));
        var pairs := RtxPairs(GroupsOf(section.ssrcGroups), ssrcs);
        && rtcp == Some(Rtcp(if c.Some? then section.ssrcs[c.value].value else None, true, true))
        && encodings == Some(PlanBEncodings(pairs))
        && outcome == if |pairs| <= |Profiles| then Pass else Fail(ProfilesExhausted)
  }

  /** Lines 20-122. The mux id is never written. */
  method FillRtpParametersForTrack(params: RtpParameters, media: seq<MediaSection>, track: Track)
    returns (outcome: Outcome)
    modifies params`rtcp, params`encodings
    ensures FirstOfKind(media, track.kind, 0).None? ==> outcome == Fail(SectionNotFound) && unchanged(params)
    ensures FirstOfKind(media, track.kind, 0).Some? ==>
      FilledFrom(media[FirstOfKind(media, track.kind, 0).value], track.id, outcome, params.rtcp,
                 params.encodings, old(params.rtcp), old(params.encodings))
  {
    var k := FirstOfKind(media, track.kind, 0);
    if k.None? {
      return Fail(SectionNotFound);
    }
    outcome := FillFromSection(params, media[k.value], track.id);
  }

  /** Lines 36-121: the fill once the section is found. */
  method FillFromSection(params: RtpParameters, section: MediaSection, trackId: string) returns (outcome: Outcome)
    modifies params`rtcp, params`encodings
    ensures FilledFrom(section, trackId, outcome, params.rtcp, params.encodings, old(params.rtcp), old(params.encodings))
  {
    var rtcp := Rtcp(None, true, true);
    var collected, firstSsrc := CollectTrackSsrcs(section.ssrcs, trackId);
    if collected.Err? {
      return Fail(collected.error);
    }
    var ssrcs := collected.value;
    if |ssrcs| == 0 {
      return Fail(SsrcNotFound);
    }
    TrackSsrcsMeaning(section.ssrcs, trackId);
    var ssrcToRtxSsrc := MapRtx(GroupsOf(section.ssrcGroups), ssrcs);
    var ssrcCnameLine := FindLine(section.ssrcs, "cname", firstSsrc);
    if ssrcCnameLine.Some? {
      rtcp := rtcp.(cname := section.ssrcs[ssrcCnameLine.value].value);
    }
    params.rtcp := Some(rtcp);
    params.encodings := Some([]);
    var encodings, complete := EmitEncodings(ssrcToRtxSsrc);
    params.encodings := Some(encodings);
    outcome := if complete then Pass else Fail(ProfilesExhausted);
  }

  /** More than three media SSRCs without RTX: low, medium and high are handed out, then the fill fails. */
  lemma FourSsrcsExhaustProfiles(a: int, b: int, c: int, d: int, groups: seq<SsrcGroup>)
    requires forall g :: g in groups ==> ParseFid(g).None?
    ensures var pairs := RtxPairs(groups, [a, b, c, d]);
      && |pairs| > |Profiles|
      && PlanBEncodings(pairs) == [
           RtpEncoding(None, Some("low"), Some(a), None),
           RtpEncoding(None, Some("medium"), Some(b), None),
           RtpEncoding(None, Some("high"), Some(c), None)]
  {
    PairFidsWithoutFid(groups, [a, b, c, d]);
  }

  /** A single media SSRC gives a single encoding without a profile, with its RTX SSRC when one is paired. */
  lemma SingleSsrcSingleEncoding(groups: seq<SsrcGroup>, s: int)
    ensures PlanBEncodings(RtxPairs(groups, [s])) ==
      [PlanBEncoding(SsrcPair(s, if RtxOf(groups, s).Some? then RtxOf(groups, s).value else 0), None)]
  {
    PairFidsSingle(groups, s);
  }

  // ---------------------------------------------------------------------------
  // addSimulcastForTrack

  /**
   * Lines 141-155: the position of the first line naming the track; a
   * one-token msid value before it is an error.
   */
  function FirstTrackLine(lines: seq<SsrcLine>, trackId: string, i: nat): (r: Result<Option<nat>>)
    requires i <= |lines|
    ensures r.Ok? && r.value.Some? ==>
      i <= r.value.value < |lines| && NamesTrack(lines[r.value.value], trackId) == Ok(true)
      && forall j :: i <= j < r.value.value ==> NamesTrack(lines[j], trackId) == Ok(false)
    ensures r == Ok(None) <==> forall j :: i <= j < |lines| ==> NamesTrack(lines[j], trackId) == Ok(false)
    ensures r.Err? ==>
      && r.error == MsidTooShort
      && exists k :: i <= k < |lines| && NamesTrack(lines[k], trackId).Err?
           && forall j :: i <= j < k ==> NamesTrack(lines[j], trackId) == Ok(false)
    decreases |lines| - i
  {
    if i == |lines| then Ok(None)
    else match NamesTrack(lines[i], trackId)
      case Err(e) => Err(e)
      case Ok(true) => Ok(Some(i))
      case Ok(false) => FirstTrackLine(lines, trackId, i + 1)
  }

  /** The values the synthesizer reads before it writes anything. */
  datatype SimulcastPlan = SimulcastPlan(ssrc: int, rtxSsrc: Option<int>, cname: Option<string>, stream: string)

  /**
   * Lines 136-180: the SSRC and stream of the first line naming the track,
   * the RTX SSRC of the first FID group for that SSRC, and its cname.
   */
  function SimulcastPlanOf(lines: seq<SsrcLine>, groups: seq<SsrcGroup>, trackId: string): Result<SimulcastPlan>
  {
    match FirstTrackLine(lines, trackId, 0)
    case Err(e) => Err(e)
    case Ok(None) => Err(SsrcNotFound)
    case Ok(Some(m)) =>
      var ssrc := lines[m].id;
      match FindLine(lines, "cname", Some(ssrc))
      case None => Err(CnameNotFound)
      case Some(c) => Ok(SimulcastPlan(ssrc, RtxOf(groups, ssrc), lines[c].value, MsidPrefix(lines[m].value)))
  }

  /**
   * Lines 181-275: a SIM group of s, s+1 and s+2 with a cname and an msid
   * line for s+1 and s+2; with an RTX SSRC r also FID groups pairing s+1
   * with r+1 and s+2 with r+2 and their cname and msid lines.
   */
  function SimulcastAppends(p: SimulcastPlan, trackId: string): Appends
  {
    var msid := Some(p.stream + " " + trackId);
    var s := p.ssrc;
    var media := [SsrcLine(s + 1, "cname", p.cname), SsrcLine(s + 1, "msid", msid),
                  SsrcLine(s + 2, "cname", p.cname), SsrcLine(s + 2, "msid", msid)];
    match p.rtxSsrc
    case None => Appends(media, [SimGroup(s, s + 1, s + 2)])
    case Some(r) =>
      Appends(media + [SsrcLine(r + 1, "cname", p.cname), SsrcLine(r + 1, "msid", msid),
                       SsrcLine(r + 2, "cname", p.cname), SsrcLine(r + 2, "msid", msid)],
              [SimGroup(s, s + 1, s + 2), FidGroup(s + 1, r + 1), FidGroup(s + 2, r + 2)])
  }

  /** With line k the first to name the track or to fail, the search stops there. */
  lemma {:induction false} FirstTrackLineAt(lines: seq<SsrcLine>, trackId: string, i: nat, k: nat)
    requires i <= k < |lines| && NamesTrack(lines[k], trackId) != Ok(false)
    requires forall j :: i <= j < k ==> NamesTrack(lines[j], trackId) == Ok(false)
    ensures FirstTrackLine(lines, trackId, i) ==
      if NamesTrack(lines[k], trackId).Err? then Err(MsidTooShort) else Ok(Some(k))
    decreases k - i
  {
    if i < k {
      FirstTrackLineAt(lines, trackId, i + 1, k);
    }
  }

  /** The synthesizer finds no SSRC exactly when no line names the track. */
  lemma SimulcastPlanNoSsrc(lines: seq<SsrcLine>, groups: seq<SsrcGroup>, trackId: string)
    ensures SimulcastPlanOf(lines, groups, trackId) == Err(SsrcNotFound) <==>
      forall i :: 0 <= i < |lines| ==> NamesTrack(lines[i], trackId) == Ok(false)
  {
  }

  /** The synthesizer fails on a one-token msid value exactly when one comes before the first line naming the track. */
  lemma SimulcastPlanMsidTooShort(lines: seq<SsrcLine>, groups: seq<SsrcGroup>, trackId: string)
    ensures SimulcastPlanOf(lines, groups, trackId) == Err(MsidTooShort) <==>
      exists k :: 0 <= k < |lines| && NamesTrack(lines[k], trackId).Err?
        && forall j :: 0 <= j < k ==> NamesTrack(lines[j], trackId) == Ok(false)
  {
    if exists k :: 0 <= k < |lines| && NamesTrack(lines[k], trackId).Err?
                   && forall j :: 0 <= j < k ==> NamesTrack(lines[j], trackId) == Ok(false) {
      var k :| 0 <= k < |lines| && NamesTrack(lines[k], trackId).Err?
               && forall j :: 0 <= j < k ==> NamesTrack(lines[j], trackId) == Ok(false);
      FirstTrackLineAt(lines, trackId, 0, k);
    }
  }

  /** The synthesizer misses a cname exactly when the SSRC of the first line naming the track has no cname line. */
  lemma SimulcastPlanNoCname(lines: seq<SsrcLine>, groups: seq<SsrcGroup>, trackId: string)
    ensures SimulcastPlanOf(lines, groups, trackId) == Err(CnameNotFound) <==>
      exists k :: 0 <= k < |lines| && NamesTrack(lines[k], trackId) == Ok(true)
        && (forall j :: 0 <= j < k ==> NamesTrack(lines[j], trackId) == Ok(false))
        && forall j :: 0 <= j < |lines| ==> !(lines[j].attribute == "cname" && lines[j].id == lines[k].id)
  {
    var f := FirstTrackLine(lines, trackId, 0);
    if f.Ok? && f.value.Some? {
      var k := f.value.value;
      var c := FindLine(lines, "cname", Some(lines[k].id));
      if c.Some? {
        assert LineMatches(lines[c.value], "cname", Some(lines[k].id));
      }
      forall k' | 0 <= k' < |lines| && NamesTrack(lines[k'], trackId) == Ok(true)
                  && forall j :: 0 <= j < k' ==> NamesTrack(lines[j], trackId) == Ok(false)
        ensures k' == k
      {
        FirstTrackLineAt(lines, trackId, 0, k');
      }
    }
    if exists k :: 0 <= k < |lines| && NamesTrack(lines[k], trackId) == Ok(true)
                   && forall j :: 0 <= j < k ==> NamesTrack(lines[j], trackId) == Ok(false) {
      var k :| 0 <= k < |lines| && NamesTrack(lines[k], trackId) == Ok(true)
               && forall j :: 0 <= j < k ==> NamesTrack(lines[j], trackId) == Ok(false);
      FirstTrackLineAt(lines, trackId, 0, k);
    }
  }

  lemma SimulcastExtendsFirstSsrc(lines: seq<SsrcLine>, groups: seq<SsrcGroup>, trackId: string)
    requires TrackSsrcs(lines, trackId).Ok? && TrackSsrcs(lines, trackId).value != []
    ensures FirstTrackLine(lines, trackId, 0).Ok? && FirstTrackLine(lines, trackId, 0).value.Some?
    ensures lines[FirstTrackLine(lines, trackId, 0).value.value].id == TrackSsrcs(lines, trackId).value[0]
  {
    TrackSsrcsMeaning(lines, trackId);
    var x := TrackSsrcs(lines, trackId).value[0];
    assert x in TrackSsrcs(lines, trackId).value;
    var i :| 0 <= i < |lines| && NamesTrack(lines[i], trackId) == Ok(true) && lines[i].id == x;
    var k := FirstNamingBelow(lines, trackId, i);
    FirstTrackLineAt(lines, trackId, 0, k);
    TrackSsrcsFirst(lines, trackId, k);
  }

  /** The first line that names the track or fails, given one at position i that does. */
  lemma {:induction false} FirstNamingBelow(lines: seq<SsrcLine>, trackId: string, i: nat) returns (k: nat)
    requires i < |lines| && NamesTrack(lines[i], trackId) != Ok(false)
    ensures k <= i && NamesTrack(lines[k], trackId) != Ok(false)
    ensures forall j :: 0 <= j < k ==> NamesTrack(lines[j], trackId) == Ok(false)
    decreases i
  {
    if forall j :: 0 <= j < i ==> NamesTrack(lines[j], trackId) == Ok(false) {
      k := i;
    } else {
      var j :| 0 <= j < i && NamesTrack(lines[j], trackId) != Ok(false);
      k := FirstNamingBelow(lines, trackId, j);
    }
  }

  /** With no line naming the track before position m, the first collected SSRC is that of line m. */
  lemma {:induction false} TrackSsrcsFirst(lines: seq<SsrcLine>, trackId: string, m: nat)
    requires m < |lines| && NamesTrack(lines[m], trackId) == Ok(true)
    requires forall j :: 0 <= j < m ==> NamesTrack(lines[j], trackId) == Ok(false)
    requires TrackSsrcs(lines, trackId).Ok?
    ensures TrackSsrcs(lines, trackId).value != [] && TrackSsrcs(lines, trackId).value[0] == lines[m].id
  {
    var front := lines[..|lines| - 1];
    if m < |front| {
      assert forall j :: 0 <= j < |front| ==> front[j] == lines[j];
      TrackSsrcsFirst(front, trackId, m);
    } else {
      TrackSsrcsNone(front, trackId);
    }
  }

  lemma {:induction false} TrackSsrcsNone(lines: seq<SsrcLine>, trackId: string)
    requires forall j :: 0 <= j < |lines| ==> NamesTrack(lines[j], trackId) == Ok(false)
    ensures TrackSsrcs(lines, trackId) == Ok([])
  {
    if lines != [] {
      var front := lines[..|lines| - 1];
      assert forall j :: 0 <= j < |front| ==> front[j] == lines[j];
      TrackSsrcsNone(front, trackId);
    }
  }

  /** Every appended cname line carries the cname, every msid line names the track second. */
  lemma SimulcastLinesReadBack(p: SimulcastPlan, trackId: string)
    requires ' ' !in p.stream && ' ' !in trackId
    ensures var lines := SimulcastAppends(p, trackId).ssrcs;
      && |lines| == (if p.rtxSsrc.Some? then 8 else 4)
      && forall i :: 0 <= i < |lines| ==>
           && lines[i].attribute in {"cname", "msid"}
           && (lines[i].attribute == "cname" ==> lines[i].value == p.cname)
           && (lines[i].attribute == "msid" ==> NamesTrack(lines[i], trackId) == Ok(true))
  {
    SecondTokenOfMsid(p.stream, trackId);
  }

  /**
   * The appended groups read back as a SIM group of s, s+1 and s+2 and, with
   * an RTX SSRC r, FID groups pairing s+1 with r+1 and s+2 with r+2.
   */
  lemma SimulcastGroupsReadBack(p: SimulcastPlan, trackId: string)
    ensures var groups := SimulcastAppends(p, trackId).groups;
      var sim := SplitWhitespace(groups[0].ssrcs);
      && |groups| == (if p.rtxSsrc.Some? then 3 else 1)
      && groups[0].semantics == "SIM" && |sim| == 3
      && ParseInt(sim[0]) == Some(p.ssrc) && ParseInt(sim[1]) == Some(p.ssrc + 1)
      && ParseInt(sim[2]) == Some(p.ssrc + 2)
      && (p.rtxSsrc.Some? ==>
            && ParseFid(groups[1]) == Some(SsrcPair(p.ssrc + 1, p.rtxSsrc.value + 1))
            && ParseFid(groups[2]) == Some(SsrcPair(p.ssrc + 2, p.rtxSsrc.value + 2)))
  {
    SimulcastSimReadBack(p, trackId);
    if p.rtxSsrc.Some? {
      SimulcastFidsReadBack(p, trackId);
    }
  }

  lemma SimulcastSimReadBack(p: SimulcastPlan, trackId: string)
    ensures var groups := SimulcastAppends(p, trackId).groups;
      var sim := SplitWhitespace(groups[0].ssrcs);
      && |groups| == (if p.rtxSsrc.Some? then 3 else 1)
      && groups[0].semantics == "SIM" && |sim| == 3
      && ParseInt(sim[0]) == Some(p.ssrc) && ParseInt(sim[1]) == Some(p.ssrc + 1)
      && ParseInt(sim[2]) == Some(p.ssrc + 2)
  {
    SimGroupTokens(p.ssrc, p.ssrc + 1, p.ssrc + 2);
  }

  lemma SimulcastFidsReadBack(p: SimulcastPlan, trackId: string)
    requires p.rtxSsrc.Some?
    ensures var groups := SimulcastAppends(p, trackId).groups;
      && |groups| == 3
      && ParseFid(groups[1]) == Some(SsrcPair(p.ssrc + 1, p.rtxSsrc.value + 1))
      && ParseFid(groups[2]) == Some(SsrcPair(p.ssrc + 2, p.rtxSsrc.value + 2))
  {
    var s, r := p.ssrc, p.rtxSsrc.value;
    assert SimulcastAppends(p, trackId).groups == [SimGroup(s, s + 1, s + 2), FidGroup(s + 1, r + 1), FidGroup(s + 2, r + 2)];
    FidGroupsParse(s, r);
  }

  lemma FirstTrackLineAppend(lines: seq<SsrcLine>, more: seq<SsrcLine>, trackId: string, i: nat)
    requires i <= |lines| && FirstTrackLine(lines, trackId, i).Ok? && FirstTrackLine(lines, trackId, i).value.Some?
    ensures FirstTrackLine(lines + more, trackId, i) == FirstTrackLine(lines, trackId, i)
    decreases |lines| - i
  {
    assert (lines + more)[i] == lines[i];
    if NamesTrack(lines[i], trackId) == Ok(false) {
      FirstTrackLineAppend(lines, more, trackId, i + 1);
    }
  }

  /**
   * The synthesizer is not idempotent: on the section it produced, a second
   * call reads the same plan and so appends the same lines again.
   */
  lemma SimulcastAgain(lines: seq<SsrcLine>, groups: seq<SsrcGroup>, trackId: string)
    requires SimulcastPlanOf(lines, groups, trackId).Ok?
    ensures var p := SimulcastPlanOf(lines, groups, trackId).value;
      var a := SimulcastAppends(p, trackId);
      SimulcastPlanOf(lines + a.ssrcs, groups + a.groups, trackId) == Ok(p)
  {
    var p := SimulcastPlanOf(lines, groups, trackId).value;
    var a := SimulcastAppends(p, trackId);
    var m := FirstTrackLine(lines, trackId, 0).value.value;
    var c := FindLine(lines, "cname", Some(p.ssrc)).value;
    FirstTrackLineAppend(lines, a.ssrcs, trackId, 0);
    FindLineAppend(lines, a.ssrcs, "cname", Some(p.ssrc));
    assert (lines + a.ssrcs)[m] == lines[m] && (lines + a.ssrcs)[c] == lines[c];
    var all := groups + a.groups;
    if FindFid(groups, p.ssrc).Some? {
      FindFidAppend(groups, a.groups, p.ssrc);
      assert all[FindFid(groups, p.ssrc).value] == groups[FindFid(groups, p.ssrc).value];
    } else {
      // Only the SIM group is appended, and it is no FID group.
      assert a.groups == [SimGroup(p.ssrc, p.ssrc + 1, p.ssrc + 2)];
      FindFidSnoc(groups, a.groups[0], p.ssrc);
    }
  }

  /**
   * Lines 130-276. The first section of the kind grows by the appends of its
   * plan, and gets a group list if it had none; a failure changes nothing.
   */
  method AddSimulcastForTrack(media: seq<MediaSection>, track: Track) returns (outcome: Outcome)
    modifies media
    ensures old(FirstOfKind(media, track.kind, 0)).None? ==> outcome == Fail(SectionNotFound) && unchanged(media)
    ensures var k := old(FirstOfKind(media, track.kind, 0));
      k.Some? ==>
        var section := media[k.value];
        var plan := old(SimulcastPlanOf(section.ssrcs, GroupsOf(section.ssrcGroups), track.id));
        && (plan.Err? ==> outcome == Fail(plan.error) && unchanged(media))
        && (plan.Ok? ==>
              var a := SimulcastAppends(plan.value, track.id);
              && outcome == Pass
              && section.ssrcs == old(section.ssrcs) + a.ssrcs
              && section.ssrcGroups == Some(old(GroupsOf(section.ssrcGroups)) + a.groups)
              && section.mediaType == old(section.mediaType) && section.mid == old(section.mid)
              && section.msid == old(section.msid) && section.rids == old(section.rids)
              && forall j :: 0 <= j < |media| && media[j] != section ==> unchanged(media[j]))
  {
    var k := FirstOfKind(media, track.kind, 0);
    if k.None? {
      return Fail(SectionNotFound);
    }
    var section := media[k.value];
    var plan := ReadSimulcastPlan(section, track.id);
    if plan.Err? {
      return Fail(plan.error);
    }
    WriteSimulcast(section, plan.value, track.id);
    outcome := Pass;
  }

  /** Lines 136-180, the reading half of the synthesizer. */
  method ReadSimulcastPlan(section: MediaSection, trackId: string) returns (plan: Result<SimulcastPlan>)
    ensures plan == SimulcastPlanOf(section.ssrcs, GroupsOf(section.ssrcGroups), trackId)
  {
    var lines := section.ssrcs;
    var m := FirstTrackLine(lines, trackId, 0);
    if m.Err? {
      return Err(m.error);
    }
    if m.value.None? {
      return Err(SsrcNotFound);
    }
    var ssrc := lines[m.value.value].id;
    var msid := MsidPrefix(lines[m.value.value].value);
    var groups := GroupsOf(section.ssrcGroups);
    var rtxSsrc: Option<int> := None;
    var fid := FindFid(groups, ssrc);
    if fid.Some? {
      rtxSsrc := Some(ParseFid(groups[fid.value]).value.rtxSsrc);
    }
    var c := FindLine(lines, "cname", Some(ssrc));
    if c.None? {
      return Err(CnameNotFound);
    }
    var cname := lines[c.value].value;
    plan := Ok(SimulcastPlan(ssrc, rtxSsrc, cname, msid));
  }

  /** Lines 180-275, the writing half: the appends in source order. */
  method WriteSimulcast(section: MediaSection, p: SimulcastPlan, trackId: string)
    modifies section`ssrcs, section`ssrcGroups
    ensures var a := SimulcastAppends(p, trackId);
      && section.ssrcs == old(section.ssrcs) + a.ssrcs
      && section.ssrcGroups == Some(old(GroupsOf(section.ssrcGroups)) + a.groups)
  {
    var ssrc, cname := p.ssrc, p.cname;
    var msidValue := p.stream + " " + trackId;
    var ssrc2 := ssrc + 1;
    var ssrc3 := ssrc + 2;
    if section.ssrcGroups.None? {
      section.ssrcGroups := Some([]);
    }
    var groups := section.ssrcGroups.value;
    var lines := section.ssrcs;
    ghost var groups0, lines0 := groups, lines;
    groups := groups + [SimGroup(ssrc, ssrc2, ssrc3)];
    lines := lines + [SsrcLine(ssrc2, "cname", cname)];
    lines := lines + [SsrcLine(ssrc2, "msid", Some(msidValue))];
    lines := lines + [SsrcLine(ssrc3, "cname", cname)];
    lines := lines + [SsrcLine(ssrc3, "msid", Some(msidValue))];
    if p.rtxSsrc.Some? {
      var rtxSsrc2 := p.rtxSsrc.value + 1;
      var rtxSsrc3 := p.rtxSsrc.value + 2;
      groups := groups + [FidGroup(ssrc2, rtxSsrc2)];
      lines := lines + [SsrcLine(rtxSsrc2, "cname", cname)];
      lines := lines + [SsrcLine(rtxSsrc2, "msid", Some(msidValue))];
      groups := groups + [FidGroup(ssrc3, rtxSsrc3)];
      lines := lines + [SsrcLine(rtxSsrc3, "cname", cname)];
      lines := lines + [SsrcLine(rtxSsrc3, "msid", Some(msidValue))];
    }
    SimulcastInOrder(lines0, groups0, p, trackId);
    section.ssrcs := lines;
    section.ssrcGroups := Some(groups);
  }

  lemma SimulcastInOrder(lines: seq<SsrcLine>, groups: seq<SsrcGroup>, p: SimulcastPlan, trackId: string)
    ensures var msid := Some(p.stream + " " + trackId);
      var s, c := p.ssrc, p.cname;
      var a := SimulcastAppends(p, trackId);
      var media := lines + [SsrcLine(s + 1, "cname", c)] + [SsrcLine(s + 1, "msid", msid)]
        + [SsrcLine(s + 2, "cname", c)] + [SsrcLine(s + 2, "msid", msid)];
      && (p.rtxSsrc.None? ==>
            lines + a.ssrcs == media && groups + a.groups == groups + [SimGroup(s, s + 1, s + 2)])
      && (p.rtxSsrc.Some? ==>
            var r := p.rtxSsrc.value;
            && lines + a.ssrcs == media + [SsrcLine(r + 1, "cname", c)] + [SsrcLine(r + 1, "msid", msid)]
                 + [SsrcLine(r + 2, "cname", c)] + [SsrcLine(r + 2, "msid", msid)]
            && groups + a.groups == groups + [SimGroup(s, s + 1, s + 2)] + [FidGroup(s + 1, r + 1)]
                 + [FidGroup(s + 2, r + 2)])
  {
    if p.rtxSsrc.Some? {
      SimulcastRtxInOrder(lines, groups, p, trackId);
    } else {
      SimulcastNoRtxInOrder(lines, groups, p, trackId);
    }
  }

  lemma SimulcastNoRtxInOrder(lines: seq<SsrcLine>, groups: seq<SsrcGroup>, p: SimulcastPlan, trackId: string)
    requires p.rtxSsrc.None?
    ensures var msid := Some(p.stream + " " + trackId);
      var s, c := p.ssrc, p.cname;
      var a := SimulcastAppends(p, trackId);
      && lines + a.ssrcs == lines + [SsrcLine(s + 1, "cname", c)] + [SsrcLine(s + 1, "msid", msid)]
           + [SsrcLine(s + 2, "cname", c)] + [SsrcLine(s + 2, "msid", msid)]
      && groups + a.groups == groups + [SimGroup(s, s + 1, s + 2)]
  {
    AppendFour(lines, SimulcastAppends(p, trackId).ssrcs);
  }

  lemma SimulcastRtxInOrder(lines: seq<SsrcLine>, groups: seq<SsrcGroup>, p: SimulcastPlan, trackId: string)
    requires p.rtxSsrc.Some?
    ensures var msid := Some(p.stream + " " + trackId);
      var s, c, r := p.ssrc, p.cname, p.rtxSsrc.value;
      var a := SimulcastAppends(p, trackId);
      && lines + a.ssrcs == lines + [SsrcLine(s + 1, "cname", c)] + [SsrcLine(s + 1, "msid", msid)]
           + [SsrcLine(s + 2, "cname", c)] + [SsrcLine(s + 2, "msid", msid)]
           + [SsrcLine(r + 1, "cname", c)] + [SsrcLine(r + 1, "msid", msid)]
           + [SsrcLine(r + 2, "cname", c)] + [SsrcLine(r + 2, "msid", msid)]
      && groups + a.groups == groups + [SimGroup(s, s + 1, s + 2)] + [FidGroup(s + 1, r + 1)]
           + [FidGroup(s + 2, r + 2)]
  {
    var a := SimulcastAppends(p, trackId);
    AppendEight(lines, a.ssrcs);
    assert groups + a.groups == groups + [a.groups[0]] + [a.groups[1]] + [a.groups[2]];
  }

  /** Appending eight lines at once is appending them one at a time. */
  lemma AppendEight(lines: seq<SsrcLine>, t: seq<SsrcLine>)
    requires |t| == 8
    ensures lines + t == lines + [t[0]] + [t[1]] + [t[2]] + [t[3]] + [t[4]] + [t[5]] + [t[6]] + [t[7]]
  {
    AppendFour(lines, t[..4]);
    AppendFour(lines + t[..4], t[4..]);
    assert t == t[..4] + t[4..];
  }

  /** Appending four lines at once is appending them one at a time. */
  lemma AppendFour(lines: seq<SsrcLine>, t: seq<SsrcLine>)
    requires |t| == 4
    ensures lines + t == lines + [t[0]] + [t[1]] + [t[2]] + [t[3]]
  {
  }

  // ---------------------------------------------------------------------------
  // The synthesizer and the fill together

  /** A Plan B section for one track: a media SSRC s with its RTX SSRC r. */
  function TypicalLines(s: int, r: int, cname: Option<string>, stream: string, trackId: string): seq<SsrcLine>
  {
    var msid := Some(stream + " " + trackId);
    [SsrcLine(s, "cname", cname), SsrcLine(s, "msid", msid), SsrcLine(r, "cname", cname), SsrcLine(r, "msid", msid)]
  }

  /** The cname line and the msid line the section holds for one SSRC. */
  function LinePair(x: int, cname: Option<string>, msid: Option<string>): seq<SsrcLine>
  {
    [SsrcLine(x, "cname", cname), SsrcLine(x, "msid", msid)]
  }

  /** Appending a cname line and a line naming the track adds a new SSRC to the collection. */
  lemma TrackSsrcsAddPair(lines: seq<SsrcLine>, x: int, cname: Option<string>, stream: string, trackId: string,
                          before: seq<int>)
    requires ' ' !in stream && ' ' !in trackId && TrackSsrcs(lines, trackId) == Ok(before) && x !in before
    ensures TrackSsrcs(lines + LinePair(x, cname, Some(stream + " " + trackId)), trackId) == Ok(before + [x])
  {
    SecondTokenOfMsid(stream, trackId);
    var one := lines + [SsrcLine(x, "cname", cname)];
    var two := one + [SsrcLine(x, "msid", Some(stream + " " + trackId))];
    assert one[..|lines|] == lines;
    assert two[..|one|] == one;
    assert lines + LinePair(x, cname, Some(stream + " " + trackId)) == two;
  }

  /** On the typical section the synthesizer reads s, r, the cname and the stream. */
  lemma TypicalPlan(s: int, r: int, cname: Option<string>, stream: string, trackId: string)
    requires ' ' !in stream && ' ' !in trackId && s != r
    ensures SimulcastPlanOf(TypicalLines(s, r, cname, stream, trackId), [FidGroup(s, r)], trackId)
      == Ok(SimulcastPlan(s, Some(r), cname, stream))
  {
    SecondTokenOfMsid(stream, trackId);
    ParseFidOfPair(s, r);
    var lines := TypicalLines(s, r, cname, stream, trackId);
    assert NamesTrack(lines[0], trackId) == Ok(false);
    assert NamesTrack(lines[1], trackId) == Ok(true);
    assert FirstTrackLine(lines, trackId, 0) == Ok(Some(1));
    assert FindLine(lines, "cname", Some(s)) == Some(0);
    assert FindFid([FidGroup(s, r)], s) == Some(0);
  }

  /** A cname and an msid line for each SSRC in turn. */
  function LinePairs(xs: seq<int>, cname: Option<string>, msid: Option<string>): seq<SsrcLine>
  {
    if xs == [] then [] else LinePairs(xs[..|xs| - 1], cname, msid) + LinePair(xs[|xs| - 1], cname, msid)
  }

  /** Lines naming the track for distinct new SSRCs add those SSRCs to the collection, in order. */
  lemma {:induction false} TrackSsrcsAddPairs(lines: seq<SsrcLine>, xs: seq<int>, cname: Option<string>,
                                              stream: string, trackId: string, before: seq<int>)
    requires ' ' !in stream && ' ' !in trackId && TrackSsrcs(lines, trackId) == Ok(before)
    requires Distinct(before + xs)
    ensures TrackSsrcs(lines + LinePairs(xs, cname, Some(stream + " " + trackId)), trackId) == Ok(before + xs)
  {
    var msid := Some(stream + " " + trackId);
    if xs == [] {
      assert lines + LinePairs(xs, cname, msid) == lines && before + xs == before;
    } else {
      var front, x := xs[..|xs| - 1], xs[|xs| - 1];
      assert before + xs == (before + front) + [x];
      assert forall i :: 0 <= i < |before + front| ==> (before + front)[i] == (before + xs)[i];
      TrackSsrcsAddPairs(lines, front, cname, stream, trackId, before);
      assert x !in before + front by {
        assert (before + xs)[|before + xs| - 1] == x;
      }
      TrackSsrcsAddPair(lines + LinePairs(front, cname, msid), x, cname, stream, trackId, before + front);
      assert lines + LinePairs(xs, cname, msid) == lines + LinePairs(front, cname, msid) + LinePair(x, cname, msid);
    }
  }

  /** The section after the synthesizer holds a cname and an msid line for each of s, r, s+1, s+2, r+1 and r+2. */
  lemma TypicalLinesAfterSimulcast(s: int, r: int, cname: Option<string>, stream: string, trackId: string)
    ensures var msid := Some(stream + " " + trackId);
      TypicalLines(s, r, cname, stream, trackId) + SimulcastAppends(SimulcastPlan(s, Some(r), cname, stream), trackId).ssrcs
        == LinePairs([s, r, s + 1, s + 2, r + 1, r + 2], cname, msid)
  {
    var msid := Some(stream + " " + trackId);
    SixLinePairs(s, r, s + 1, s + 2, r + 1, r + 2, cname, msid);
    ConcatFourEight(TypicalLines(s, r, cname, stream, trackId),
      SimulcastAppends(SimulcastPlan(s, Some(r), cname, stream), trackId).ssrcs);
  }

  lemma ConcatFourEight(x: seq<SsrcLine>, y: seq<SsrcLine>)
    requires |x| == 4 && |y| == 8
    ensures x + y == [x[0], x[1], x[2], x[3], y[0], y[1], y[2], y[3], y[4], y[5], y[6], y[7]]
  {
  }

  lemma SixLinePairs(a: int, b: int, c: int, d: int, e: int, f: int, cname: Option<string>, msid: Option<string>)
    ensures LinePairs([a, b, c, d, e, f], cname, msid)
      == [SsrcLine(a, "cname", cname), SsrcLine(a, "msid", msid), SsrcLine(b, "cname", cname), SsrcLine(b, "msid", msid),
          SsrcLine(c, "cname", cname), SsrcLine(c, "msid", msid), SsrcLine(d, "cname", cname), SsrcLine(d, "msid", msid),
          SsrcLine(e, "cname", cname), SsrcLine(e, "msid", msid), SsrcLine(f, "cname", cname), SsrcLine(f, "msid", msid)]
  {
    var x1, x2, x3 := [a], [a, b], [a, b, c];
    var x4, x5, x6 := [a, b, c, d], [a, b, c, d, e], [a, b, c, d, e, f];
    assert x1[..0] == [] && x2[..1] == x1 && x3[..2] == x2 && x4[..3] == x3 && x5[..4] == x4 && x6[..5] == x5;
    assert LinePairs(x1, cname, msid) == [] + LinePair(a, cname, msid);
    assert LinePairs(x2, cname, msid) == LinePairs(x1, cname, msid) + LinePair(b, cname, msid);
    assert LinePairs(x3, cname, msid) == LinePairs(x2, cname, msid) + LinePair(c, cname, msid);
    assert LinePairs(x4, cname, msid) == LinePairs(x3, cname, msid) + LinePair(d, cname, msid);
    assert LinePairs(x5, cname, msid) == LinePairs(x4, cname, msid) + LinePair(e, cname, msid);
    assert LinePairs(x6, cname, msid) == LinePairs(x5, cname, msid) + LinePair(f, cname, msid);
  }

  /** After the synthesizer the fill collects s and r, then the three new media SSRCs and their RTX SSRCs. */
  lemma TypicalCollectAfterSimulcast(s: int, r: int, cname: Option<string>, stream: string, trackId: string)
    requires ' ' !in stream && ' ' !in trackId && (s + 2 < r || r + 2 < s)
    ensures var a := SimulcastAppends(SimulcastPlan(s, Some(r), cname, stream), trackId);
      TrackSsrcs(TypicalLines(s, r, cname, stream, trackId) + a.ssrcs, trackId) == Ok([s, r, s + 1, s + 2, r + 1, r + 2])
  {
    var xs := [s, r, s + 1, s + 2, r + 1, r + 2];
    var none: seq<SsrcLine> := [];
    assert TrackSsrcs(none, trackId) == Ok([]);
    assert [] + xs == xs;
    TrackSsrcsAddPairs(none, xs, cname, stream, trackId, []);
    TypicalLinesAfterSimulcast(s, r, cname, stream, trackId);
    assert none + LinePairs(xs, cname, Some(stream + " " + trackId)) == LinePairs(xs, cname, Some(stream + " " + trackId));
  }

  /**
   * After the synthesizer the groups read FID s r, SIM, FID s+1 r+1 and
   * FID s+2 r+2; they pair s with r and s+k with r+k, leaving nothing unpaired.
   */
  lemma TypicalPairsAfterSimulcast(s: int, r: int, g0: SsrcGroup, g1: SsrcGroup, g2: SsrcGroup, g3: SsrcGroup)
    requires s + 2 < r || r + 2 < s
    requires ParseFid(g0) == Some(SsrcPair(s, r)) && ParseFid(g1).None?
    requires ParseFid(g2) == Some(SsrcPair(s + 1, r + 1)) && ParseFid(g3) == Some(SsrcPair(s + 2, r + 2))
    ensures RtxPairs([g0, g1, g2, g3], [s, r, s + 1, s + 2, r + 1, r + 2])
      == [SsrcPair(s, r), SsrcPair(s + 1, r + 1), SsrcPair(s + 2, r + 2)]
  {
    var three := [SsrcPair(s, r), SsrcPair(s + 1, r + 1), SsrcPair(s + 2, r + 2)];
    TypicalPairFids(s, r, g0, g1, g2, g3);
    assert three + ZeroRtx([]) == three;
  }

  lemma TypicalPairFids(s: int, r: int, g0: SsrcGroup, g1: SsrcGroup, g2: SsrcGroup, g3: SsrcGroup)
    requires s + 2 < r || r + 2 < s
    requires ParseFid(g0) == Some(SsrcPair(s, r)) && ParseFid(g1).None?
    requires ParseFid(g2) == Some(SsrcPair(s + 1, r + 1)) && ParseFid(g3) == Some(SsrcPair(s + 2, r + 2))
    ensures PairFids([g0, g1, g2, g3], [s, r, s + 1, s + 2, r + 1, r + 2])
      == Pairing([], [SsrcPair(s, r), SsrcPair(s + 1, r + 1), SsrcPair(s + 2, r + 2)])
  {
    var q1 := Pairing([s + 1, s + 2, r + 1, r + 2], [SsrcPair(s, r)]);
    var q3 := Pairing([s + 2, r + 2], [SsrcPair(s, r), SsrcPair(s + 1, r + 1)]);
    var q4 := Pairing([], [SsrcPair(s, r), SsrcPair(s + 1, r + 1), SsrcPair(s + 2, r + 2)]);
    TypicalStepFirst(s, r, g0);
    TypicalStepSecond(s, r, g2);
    TypicalStepThird(s, r, g3);
    FourSteps(g0, g1, g2, g3, [s, r, s + 1, s + 2, r + 1, r + 2], q1, q1, q3, q4);
  }

  lemma TypicalStepFirst(s: int, r: int, g: SsrcGroup)
    requires s + 2 < r || r + 2 < s
    requires ParseFid(g) == Some(SsrcPair(s, r))
    ensures PairStep(Pairing([s, r, s + 1, s + 2, r + 1, r + 2], []), g)
      == Pairing([s + 1, s + 2, r + 1, r + 2], [SsrcPair(s, r)])
  {
    var rest := [s + 1, s + 2, r + 1, r + 2];
    RemoveLeadingTwo(s, r, rest);
    assert [s, r] + rest == [s, r, s + 1, s + 2, r + 1, r + 2];
    assert [] + [SsrcPair(s, r)] == [SsrcPair(s, r)];
  }

  lemma TypicalStepSecond(s: int, r: int, g: SsrcGroup)
    requires s + 2 < r || r + 2 < s
    requires ParseFid(g) == Some(SsrcPair(s + 1, r + 1))
    ensures PairStep(Pairing([s + 1, s + 2, r + 1, r + 2], [SsrcPair(s, r)]), g)
      == Pairing([s + 2, r + 2], [SsrcPair(s, r), SsrcPair(s + 1, r + 1)])
  {
    RemoveFirstAndThird(s + 1, s + 2, r + 1, r + 2);
    assert [SsrcPair(s, r)] + [SsrcPair(s + 1, r + 1)] == [SsrcPair(s, r), SsrcPair(s + 1, r + 1)];
  }

  lemma TypicalStepThird(s: int, r: int, g: SsrcGroup)
    requires s + 2 < r || r + 2 < s
    requires ParseFid(g) == Some(SsrcPair(s + 2, r + 2))
    ensures PairStep(Pairing([s + 2, r + 2], [SsrcPair(s, r), SsrcPair(s + 1, r + 1)]), g)
      == Pairing([], [SsrcPair(s, r), SsrcPair(s + 1, r + 1), SsrcPair(s + 2, r + 2)])
  {
    RemoveLeadingTwo(s + 2, r + 2, []);
    assert [s + 2, r + 2] + [] == [s + 2, r + 2];
    assert [SsrcPair(s, r), SsrcPair(s + 1, r + 1)] + [SsrcPair(s + 2, r + 2)]
      == [SsrcPair(s, r), SsrcPair(s + 1, r + 1), SsrcPair(s + 2, r + 2)];
  }

  /** Four groups pair as their four steps do, one after the other. */
  lemma FourSteps(g0: SsrcGroup, g1: SsrcGroup, g2: SsrcGroup, g3: SsrcGroup, init: seq<int>,
                  q1: Pairing, q2: Pairing, q3: Pairing, q4: Pairing)
    requires PairStep(Pairing(init, []), g0) == q1 && PairStep(q1, g1) == q2
    requires PairStep(q2, g2) == q3 && PairStep(q3, g3) == q4
    ensures PairFids([g0, g1, g2, g3], init) == q4
  {
    var f0: seq<SsrcGroup> := [];
    PairFidsStep(f0, g0, init, Pairing(init, []), q1);
    PairFidsStep(f0 + [g0], g1, init, q1, q2);
    PairFidsStep(f0 + [g0] + [g1], g2, init, q2, q3);
    PairFidsStep(f0 + [g0] + [g1] + [g2], g3, init, q3, q4);
    FourGroups(g0, g1, g2, g3);
  }

  lemma FourGroups(g0: SsrcGroup, g1: SsrcGroup, g2: SsrcGroup, g3: SsrcGroup)
    ensures var none: seq<SsrcGroup> := []; none + [g0] + [g1] + [g2] + [g3] == [g0, g1, g2, g3]
  {
  }

  lemma PairFidsStep(front: seq<SsrcGroup>, g: SsrcGroup, init: seq<int>, p: Pairing, q: Pairing)
    requires PairFids(front, init) == p && PairStep(p, g) == q
    ensures PairFids(front + [g], init) == q
  {
    assert (front + [g])[..|front|] == front;
  }

  lemma RemoveLeadingTwo(a: int, b: int, t: seq<int>)
    requires a != b && a !in t && b !in t
    ensures a in [a, b] + t && Remove(Remove([a, b] + t, a), b) == t
  {
    assert [a, b] + t == [a] + ([b] + t);
    RemoveFirst(a, [b] + t);
    RemoveFirst(b, t);
  }

  lemma RemoveFirstAndThird(a: int, b: int, c: int, d: int)
    requires a != b && a != c && a != d && b != c && b != d && c != d
    ensures a in [a, b, c, d] && Remove(Remove([a, b, c, d], a), c) == [b, d]
  {
    assert [a, b, c, d] == [a] + [b, c, d];
    RemoveFirst(a, [b, c, d]);
    assert [b, c, d] == [b] + [c, d];
    RemoveOther(b, [c, d], c);
    assert [c, d] == [c] + [d];
    RemoveFirst(c, [d]);
    assert [b] + [d] == [b, d];
  }

  lemma {:induction false} RemoveAbsent(t: seq<int>, x: int)
    requires x !in t
    ensures Remove(t, x) == t
  {
    if t != [] {
      assert t[0] != x;
      assert t[0] !in {x};
      RemoveAbsent(t[1..], x);
      assert t == [t[0]] + t[1..];
    }
  }

  lemma RemoveFirst(x: int, t: seq<int>)
    requires x !in t
    ensures Remove([x] + t, x) == t
  {
    assert ([x] + t)[1..] == t;
    RemoveAbsent(t, x);
  }

  lemma RemoveOther(a: int, t: seq<int>, x: int)
    requires a != x
    ensures Remove([a] + t, x) == [a] + Remove(t, x)
  {
    assert ([a] + t)[1..] == t;
  }

  /** The groups after the synthesizer pair s with r and s+k with r+k. */
  lemma TypicalGroupsAfterSimulcast(s: int, r: int, cname: Option<string>, stream: string, trackId: string)
    requires s + 2 < r || r + 2 < s
    ensures var a := SimulcastAppends(SimulcastPlan(s, Some(r), cname, stream), trackId);
      RtxPairs([FidGroup(s, r)] + a.groups, [s, r, s + 1, s + 2, r + 1, r + 2])
        == [SsrcPair(s, r), SsrcPair(s + 1, r + 1), SsrcPair(s + 2, r + 2)]
  {
    var a := SimulcastAppends(SimulcastPlan(s, Some(r), cname, stream), trackId);
    var g0, g1, g2, g3 := FidGroup(s, r), SimGroup(s, s + 1, s + 2), FidGroup(s + 1, r + 1), FidGroup(s + 2, r + 2);
    TypicalGroupsList(s, r, cname, stream, trackId);
    FidGroupsParse(s, r);
    SimGroupNotFid(s, s + 1, s + 2);
    TypicalPairsAfterSimulcast(s, r, g0, g1, g2, g3);
  }

  lemma TypicalGroupsList(s: int, r: int, cname: Option<string>, stream: string, trackId: string)
    ensures [FidGroup(s, r)] + SimulcastAppends(SimulcastPlan(s, Some(r), cname, stream), trackId).groups
      == [FidGroup(s, r), SimGroup(s, s + 1, s + 2), FidGroup(s + 1, r + 1), FidGroup(s + 2, r + 2)]
  {
  }


  /** Three entries get the three profiles in order. */
  lemma ThreeEncodings(p0: SsrcPair, p1: SsrcPair, p2: SsrcPair)
    ensures PlanBEncodings([p0, p1, p2]) ==
      [PlanBEncoding(p0, Some("low")), PlanBEncoding(p1, Some("medium")), PlanBEncoding(p2, Some("high"))]
  {
  }

  /**
   * The synthesizer and the fill agree: on a section with one media SSRC s
   * and its RTX SSRC r, adding simulcast and then filling the parameters
   * yields the three encodings s/r low, s+1/r+1 medium and s+2/r+2 high.
   */
  lemma SimulcastThenFill(s: int, r: int, cname: Option<string>, stream: string, trackId: string)
    requires ' ' !in stream && ' ' !in trackId && r > 0 && (s + 2 < r || r + 2 < s)
    ensures var lines := TypicalLines(s, r, cname, stream, trackId);
      var plan := SimulcastPlanOf(lines, [FidGroup(s, r)], trackId);
      && plan.Ok?
      && var a := SimulcastAppends(plan.value, trackId);
         var collected := TrackSsrcs(lines + a.ssrcs, trackId);
         && collected.Ok? && collected.value != []
         && PlanBEncodings(RtxPairs([FidGroup(s, r)] + a.groups, collected.value)) == [
              RtpEncoding(None, Some("low"), Some(s), Some(RtxByName(map["ssrc" := r]))),
              RtpEncoding(None, Some("medium"), Some(s + 1), Some(RtxByName(map["ssrc" := r + 1]))),
              RtpEncoding(None, Some("high"), Some(s + 2), Some(RtxByName(map["ssrc" := r + 2])))]
  {
    var lines := TypicalLines(s, r, cname, stream, trackId);
    var p := SimulcastPlan(s, Some(r), cname, stream);
    assert SimulcastPlanOf(lines, [FidGroup(s, r)], trackId) == Ok(p) by {
      TypicalPlan(s, r, cname, stream, trackId);
    }
    var a := SimulcastAppends(p, trackId);
    var collected := [s, r, s + 1, s + 2, r + 1, r + 2];
    assert TrackSsrcs(lines + a.ssrcs, trackId) == Ok(collected) by {
      TypicalCollectAfterSimulcast(s, r, cname, stream, trackId);
    }
    var pairs := [SsrcPair(s, r), SsrcPair(s + 1, r + 1), SsrcPair(s + 2, r + 2)];
    assert RtxPairs([FidGroup(s, r)] + a.groups, collected) == pairs by {
      TypicalGroupsAfterSimulcast(s, r, cname, stream, trackId);
    }
    assert PlanBEncodings(pairs) == [
        RtpEncoding(None, Some("low"), Some(s), Some(RtxByName(map["ssrc" := r]))),
        RtpEncoding(None, Some("medium"), Some(s + 1), Some(RtxByName(map["ssrc" := r + 1]))),
        RtpEncoding(None, Some("high"), Some(s + 2), Some(RtxByName(map["ssrc" := r + 2])))] by {
      ThreeEncodings(pairs[0], pairs[1], pairs[2]);
    }
  }
}

/**
 * The Unified Plan SDP utilities: locating a track's `m=` section, filling an
 * RTP parameters object from that section (RID-based simulcast or the Plan B
 * style SSRC simulcast), and synthesizing the extra SSRCs that Plan B style
 * simulcast needs.
 */
module UnifiedPlanUtils {
  import opened Wrappers
  import opened Text
  import opened Sdp
  import opened SsrcPairing

  // ---------------------------------------------------------------------------
  // findMediaSection

  /** The position of the first section whose mid is `mid`. */
  function FindByMid(media: seq<MediaSection>, mid: string, i: nat): (r: Option<nat>)
    reads media
    requires i <= |media|
    ensures r.Some? ==> i <= r.value < |media| && media[r.value].mid == Some(mid)
    ensures r.Some? ==> forall j :: i <= j < r.value ==> media[j].mid != Some(mid)
    ensures r.None? ==> forall j :: i <= j < |media| ==> media[j].mid != Some(mid)
    decreases |media| - i
  {
    if i == |media| then None
    else if media[i].mid == Some(mid) then Some(i)
    else FindByMid(media, mid, i + 1)
  }

  /**
   * Whether the msid search takes the section: the media type is the track's
   * kind and the second token of `a=msid` is the track id. A section of the
   * right kind whose msid value has a single token raises an index error.
   */
  function MsidSelects(section: MediaSection, track: Track): Result<bool>
    reads section
  {
    if section.mediaType == track.kind && section.msid.Some? then
      match SecondToken(section.msid)
      case Ok(t) => Ok(t == Some(track.id))
      case Err(e) => Err(e)
    else Ok(false)
  }

  /** The position of the first section the msid search takes. */
  function FindByMsid(media: seq<MediaSection>, track: Track, i: nat): (r: Result<Option<nat>>)
    reads media
    requires i <= |media|
    ensures r.Ok? && r.value.Some? ==>
      i <= r.value.value < |media| && MsidSelects(media[r.value.value], track) == Ok(true)
      && forall j :: i <= j < r.value.value ==> MsidSelects(media[j], track) == Ok(false)
    ensures r == Ok(None) <==> forall j :: i <= j < |media| ==> MsidSelects(media[j], track) == Ok(false)
    ensures r.Err? ==>
      && r.error == MsidTooShort
      && exists k :: i <= k < |media| && MsidSelects(media[k], track).Err?
           && forall j :: i <= j < k ==> MsidSelects(media[j], track) == Ok(false)
    decreases |media| - i
  {
    if i == |media| then Ok(None)
    else match MsidSelects(media[i], track)
      case Err(e) => Err(e)
      case Ok(true) => Ok(Some(i))
      case Ok(false) => FindByMsid(media, track, i + 1)
  }

  /**
   * The section for a track: `None` for a session without sections, else the
   * first section with the given mid or, without a mid, the first section the
   * msid search takes; no such section is an error.
   */
  function FindMediaSection(media: seq<MediaSection>, track: Track, mid: Option<string>): (r: Result<Option<nat>>)
    reads media
    ensures media == [] <==> r == Ok(None)
    ensures r.Ok? && r.value.Some? ==> r.value.value < |media|
    ensures mid.Some? && media != [] ==>
      (r.Err? <==> forall j :: 0 <= j < |media| ==> media[j].mid != mid)
    ensures mid.Some? && r.Err? ==> r.error == SectionNotFound
    ensures mid.Some? && r.Ok? && r.value.Some? ==>
      media[r.value.value].mid == mid && forall j :: 0 <= j < r.value.value ==> media[j].mid != mid
    ensures mid.None? && r.Ok? && r.value.Some? ==>
      MsidSelects(media[r.value.value], track) == Ok(true)
      && forall j :: 0 <= j < r.value.value ==> MsidSelects(media[j], track) == Ok(false)
    ensures mid.None? && media != [] ==>
      (r == Err(SectionNotFound) <==> forall j :: 0 <= j < |media| ==> MsidSelects(media[j], track) == Ok(false))
    ensures mid.None? ==>
      (r == Err(MsidTooShort) <==>
         exists k :: 0 <= k < |media| && MsidSelects(media[k], track).Err?
           && forall j :: 0 <= j < k ==> MsidSelects(media[j], track) == Ok(false))
  {
    if media == [] then Ok(None)
    else if mid.Some? then
      match FindByMid(media, mid.value, 0)
      case Some(k) => Ok(Some(k))
      case None => Err(SectionNotFound)
    else
      match FindByMsid(media, track, 0)
      case Err(e) => Err(e)
      case Ok(Some(k)) => Ok(Some(k))
      case Ok(None) => Err(SectionNotFound)
  }

  // ---------------------------------------------------------------------------
  // RID-based simulcast

  /**
   * The profile a RID id selects: "low" or "medium" by prefix, and "high" by
   * a separate prefix test. No id starts with two of the three words.
   */
  function RidProfile(id: string): Option<string>
  {
    if StartsWith(id, "low") then Some("low")
    else if StartsWith(id, "medium") then Some("medium")
    else if StartsWith(id, "high") then Some("high")
    else None
  }

  /** One stream per send RID whose id selects a profile, in line order. */
  function SendStreams(rids: seq<Rid>): seq<SimulcastStream>
  {
    if rids == [] then []
    else
      var last := rids[|rids| - 1];
      SendStreams(rids[..|rids| - 1])
        + (if last.direction == "send" && RidProfile(last.id).Some?
           then [SimulcastStream(last.id, RidProfile(last.id).value)] else [])
  }

  /**
   * The encodings the RID branch writes: one per stream with its RID and
   * profile, or a single encoding with the cname line's SSRC when there is
   * no stream.
   */
  function RidEncodings(streams: seq<SimulcastStream>, ssrc: int): seq<RtpEncoding>
  {
    if streams == [] then [RtpEncoding(None, None, Some(ssrc), None)]
    else seq(|streams|, i requires 0 <= i < |streams| =>
           RtpEncoding(Some(streams[i].rid), Some(streams[i].profile), None, None))
  }

  lemma PrefixesExclusive(id: string)
    ensures !(StartsWith(id, "low") && StartsWith(id, "high"))
    ensures !(StartsWith(id, "medium") && StartsWith(id, "high"))
  {
    if StartsWith(id, "high") {
      assert id[0] == id[..4][0] == 'h';
    }
  }

  /** Lines 38-70: the streams of the send RIDs, then one encoding per stream. */
  method EncodingsFromRids(rids: seq<Rid>, ssrc: int) returns (encodings: seq<RtpEncoding>)
    ensures encodings == RidEncodings(SendStreams(rids), ssrc)
  {
    var streams: seq<SimulcastStream> := [];
    for i := 0 to |rids|
      invariant streams == SendStreams(rids[..i])
    {
      assert rids[..i + 1][..i] == rids[..i];
      var rid := rids[i];
      if rid.direction != "send" {
        continue;
      }
      PrefixesExclusive(rid.id);
      if StartsWith(rid.id, "low") {
        streams := streams + [SimulcastStream(rid.id, "low")];
      } else if StartsWith(rid.id, "medium") {
        streams := streams + [SimulcastStream(rid.id, "medium")];
      }
      if StartsWith(rid.id, "high") {
        streams := streams + [SimulcastStream(rid.id, "high")];
      }
    }
    assert rids[..|rids|] == rids;
    encodings := [];
    if |streams| == 0 {
      encodings := encodings + [RtpEncoding(None, None, Some(ssrc), None)];
    } else {
      for i := 0 to |streams|
        invariant |encodings| == i
        invariant forall j :: 0 <= j < i ==>
          encodings[j] == RtpEncoding(Some(streams[j].rid), Some(streams[j].profile), None, None)
      {
        encodings := encodings + [RtpEncoding(Some(streams[i].rid), Some(streams[i].profile), None, None)];
      }
    }
  }

  /**
   * Every stream comes from a send RID line, carries one of the three
   * simulcast profiles and has a RID id that starts with that profile.
   */
  lemma {:induction false} SendStreamsFromSendRids(rids: seq<Rid>)
    ensures forall st :: st in SendStreams(rids) ==>
      Rid(st.rid, "send") in rids && st.profile in Profiles && StartsWith(st.rid, st.profile)
  {
    if rids != [] {
      var front := rids[..|rids| - 1];
      SendStreamsFromSendRids(front);
      assert forall r :: r in front ==> r in rids;
      assert rids[|rids| - 1] in rids;
    }
  }

  /** Every send RID whose id selects a profile gives a stream with that profile. */
  lemma {:induction false} SendStreamsComplete(rids: seq<Rid>)
    ensures forall i :: 0 <= i < |rids| && rids[i].direction == "send" && RidProfile(rids[i].id).Some? ==>
      SimulcastStream(rids[i].id, RidProfile(rids[i].id).value) in SendStreams(rids)
  {
    if rids != [] {
      var front := rids[..|rids| - 1];
      SendStreamsComplete(front);
      forall i | 0 <= i < |rids| - 1 ensures rids[i] == front[i] {
      }
    }
  }

  /** There is no stream exactly when no send RID id starts with a profile. */
  lemma {:induction false} SendStreamsEmpty(rids: seq<Rid>)
    ensures SendStreams(rids) == [] <==>
      forall r :: r in rids && r.direction == "send" ==>
        !StartsWith(r.id, "low") && !StartsWith(r.id, "medium") && !StartsWith(r.id, "high")
  {
    if rids != [] {
      var front := rids[..|rids| - 1];
      SendStreamsEmpty(front);
      assert rids == front + [rids[|rids| - 1]];
      assert forall r :: r in rids <==> r in front || r == rids[|rids| - 1];
    }
  }

  // ---------------------------------------------------------------------------
  // Plan B style simulcast: collecting SSRCs

  predicate IsMsidLine(line: SsrcLine)
  {
    line.attribute == "msid"
  }

  /** The SSRCs of all msid lines, each once, in order of first appearance. */
  function MsidSsrcs(lines: seq<SsrcLine>): seq<int>
  {
    if lines == [] then []
    else
      var last := lines[|lines| - 1];
      var s := MsidSsrcs(lines[..|lines| - 1]);
      if IsMsidLine(last) then Insert(s, last.id) else s
  }

  /** Lines 78-94: the loop over the `a=ssrc` lines. */
  method CollectMsidSsrcs(lines: seq<SsrcLine>) returns (ssrcs: seq<int>)
    ensures ssrcs == MsidSsrcs(lines)
  {
    ssrcs := [];
    for i := 0 to |lines|
      invariant ssrcs == MsidSsrcs(lines[..i])
    {
      assert lines[..i + 1][..i] == lines[..i];
      var line := lines[i];
      if line.attribute != "msid" {
        continue;
      }
      ssrcs := Insert(ssrcs, line.id);
    }
    assert lines[..|lines|] == lines;
  }

  /** The collected SSRCs are distinct and are exactly the SSRCs of msid lines. */
  lemma {:induction false} MsidSsrcsMembers(lines: seq<SsrcLine>)
    ensures Distinct(MsidSsrcs(lines))
    ensures forall x :: x in MsidSsrcs(lines) <==>
      exists i :: 0 <= i < |lines| && IsMsidLine(lines[i]) && lines[i].id == x
  {
    if lines != [] {
      var front := lines[..|lines| - 1];
      MsidSsrcsMembers(front);
      if IsMsidLine(lines[|lines| - 1]) {
        InsertDistinct(MsidSsrcs(front), lines[|lines| - 1].id);
      }
      forall x ensures x in MsidSsrcs(lines) <==>
        exists i :: 0 <= i < |lines| && IsMsidLine(lines[i]) && lines[i].id == x
      {
        if x in MsidSsrcs(front) {
          var i :| 0 <= i < |front| && IsMsidLine(front[i]) && front[i].id == x;
          assert lines[i] == front[i];
        }
        if exists i :: 0 <= i < |lines| && IsMsidLine(lines[i]) && lines[i].id == x {
          var i :| 0 <= i < |lines| && IsMsidLine(lines[i]) && lines[i].id == x;
          if i < |front| {
            assert front[i] == lines[i];
          }
        }
      }
    }
  }

  // ---------------------------------------------------------------------------
  // Plan B style simulcast: pairing media and RTX SSRCs

  /**
   * Lines 97-126: the FID loop fills the map, then the leftover SSRCs are
   * removed from it (they were never keys, so the removal keeps the map).
   */
  method PairWithHashMap(groups: seq<SsrcGroup>, init: seq<int>) returns (m: map<int, int>, keys: seq<int>)
    requires Distinct(init)
    ensures m == ToMap(PairFids(groups, init).pairs)
    ensures keys == Keys(PairFids(groups, init).pairs)
  {
    m := map[];
    keys := [];
    if |groups| == 0 {
      return;
    }
    var ssrcs, paired;
    ssrcs, paired, keys := PairFidGroups(groups, init);
    m := RemoveSsrcs(paired, ssrcs);
    PairedMapKeys(groups, init);
  }

  /** Lines 98-122: the FID loop, recording each pair in the map. */
  method PairFidGroups(groups: seq<SsrcGroup>, init: seq<int>) returns (ssrcs: seq<int>, m: map<int, int>, keys: seq<int>)
    requires Distinct(init)
    ensures ssrcs == PairFids(groups, init).unpaired
    ensures m == ToMap(PairFids(groups, init).pairs)
    ensures keys == Keys(PairFids(groups, init).pairs)
  {
    m := map[];
    keys := [];
    ssrcs := init;
    for i := 0 to |groups|
      invariant ssrcs == PairFids(groups[..i], init).unpaired
      invariant m == ToMap(PairFids(groups[..i], init).pairs)
      invariant keys == Keys(PairFids(groups[..i], init).pairs)
    {
      assert groups[..i + 1] == groups[..i] + [groups[i]];
      PairFidsSnoc(groups[..i], groups[i], init);
      ghost var p := PairFids(groups[..i], init);
      var line := groups[i];
      if line.semantics != "FID" {
        continue;
      }
      var splitList := SplitWhitespace(line.ssrcs);
      if |splitList| == 2 {
        var ssrc := ParseInt(splitList[0]);
        var rtxSsrc := ParseInt(splitList[1]);
        if ssrc.Some? && rtxSsrc.Some? && ssrc.value in ssrcs {
          ssrcs := Remove(ssrcs, ssrc.value);
          ssrcs := Remove(ssrcs, rtxSsrc.value);
          var pair := SsrcPair(ssrc.value, rtxSsrc.value);
          assert (p.pairs + [pair])[..|p.pairs|] == p.pairs;
          assert Keys(p.pairs + [pair]) == Keys(p.pairs) + [pair.ssrc];
          m := m[ssrc.value := rtxSsrc.value];
          keys := keys + [ssrc.value];
        }
      }
    }
    assert groups[..|groups|] == groups;
  }

  /**
   * Lines 123-125: every SSRC left in the set is removed from the map; when
   * none of them is a key, the map is unchanged.
   */
  method RemoveSsrcs(m0: map<int, int>, ssrcs: seq<int>) returns (m: map<int, int>)
    ensures forall x :: x in m <==> x in m0 && x !in ssrcs
    ensures forall x :: x in m ==> m[x] == m0[x]
    ensures (forall x :: x in ssrcs ==> x !in m0) ==> m == m0
  {
    m := m0;
    for j := 0 to |ssrcs|
      invariant forall x :: x in m <==> x in m0 && x !in ssrcs[..j]
      invariant forall x :: x in m ==> m[x] == m0[x]
      invariant (forall x :: x in ssrcs ==> x !in m0) ==> m == m0
    {
      assert ssrcs[..j + 1] == ssrcs[..j] + [ssrcs[j]];
      if forall x :: x in ssrcs ==> x !in m0 {
        assert ssrcs[j] in ssrcs;
        DropAbsent(m, ssrcs[j]);
      }
      m := m - {ssrcs[j]};
    }
    assert ssrcs[..|ssrcs|] == ssrcs;
  }

  lemma DropAbsent(m: map<int, int>, k: int)
    requires k !in m
    ensures m - {k} == m
  {
  }

  /** The map has an entry for a media SSRC exactly when a FID group paired it. */
  lemma PairedMapKeys(groups: seq<SsrcGroup>, init: seq<int>)
    requires Distinct(init)
    ensures var p := PairFids(groups, init);
      (forall x :: x in ToMap(p.pairs) <==> exists i :: 0 <= i < |p.pairs| && p.pairs[i].ssrc == x)
      && (forall x :: x in p.unpaired ==> x !in ToMap(p.pairs))
      && (forall x :: x in ToMap(p.pairs) ==> x in init)
  {
    var p := PairFids(groups, init);
    ToMapKeys(p.pairs);
    PairFidsKeys(groups, init);
    PairFidsFreshKeys(groups, init);
    forall x | x in ToMap(p.pairs) ensures exists i :: 0 <= i < |p.pairs| && p.pairs[i].ssrc == x {
      var q :| q in p.pairs && q.ssrc == x;
      var i :| 0 <= i < |p.pairs| && p.pairs[i] == q;
    }
  }

  // ---------------------------------------------------------------------------
  // Plan B style simulcast: writing the encodings

  /** An encoding of the map entry (ssrc, rtxSsrc); a zero RTX SSRC means no `rtx` map. */
  function MapEntryEncoding(ssrc: int, rtxSsrc: int, profile: Option<string>): RtpEncoding
  {
    RtpEncoding(None, profile, Some(ssrc),
      if rtxSsrc > 0 then Some(RtxByPrimary(map[ssrc := rtxSsrc])) else None)
  }

  /**
   * The encodings of a hash map taken in some order the model does not fix:
   * distinct keys of the map, each encoded with its value and the next
   * profile when there is more than one entry; all of them when the three
   * profiles suffice, and the first three otherwise.
   */
  ghost predicate EmittedInSomeOrder(m: map<int, int>, encodings: seq<RtpEncoding>)
  {
    && |encodings| == (if |m| > |Profiles| then |Profiles| else |m|)
    && (forall i :: 0 <= i < |encodings| ==>
          encodings[i].ssrc.Some? && encodings[i].ssrc.value in m
          && encodings[i] == MapEntryEncoding(encodings[i].ssrc.value, m[encodings[i].ssrc.value],
                                              if |m| > 1 then Some(Profiles[i]) else None))
    && (forall i, j :: 0 <= i < j < |encodings| ==> encodings[i].ssrc != encodings[j].ssrc)
    && (|m| <= |Profiles| ==>
          forall k :: k in m ==> exists i :: 0 <= i < |encodings| && encodings[i].ssrc == Some(k))
  }

  /** The sequence without its `i`-th element. */
  function RemoveAt(s: seq<int>, i: nat): (r: seq<int>)
    requires i < |s|
    ensures |r| == |s| - 1
    ensures Distinct(s) ==> Distinct(r) && forall x :: x in r <==> x in s && x != s[i]
  {
    assert forall j :: 0 <= j < i ==> s[..i][j] == s[j];
    assert forall j :: i + 1 <= j < |s| ==> s[i + 1..][j - i - 1] == s[j];
    s[..i] + s[i + 1..]
  }

  lemma {:induction false} DistinctCard(s: seq<int>)
    requires Distinct(s)
    ensures |set x | x in s| == |s|
  {
    if s != [] {
      DistinctCard(s[1..]);
      assert (set x | x in s) == {s[0]} + (set x | x in s[1..]);
      assert s[0] !in s[1..];
    }
  }

  /** A duplicate-free enumeration of a map's keys has one element per entry. */
  lemma KeyCount(m: map<int, int>, keys: seq<int>)
    requires Distinct(keys) && forall k :: k in m <==> k in keys
    ensures |m| == |keys|
  {
    DistinctCard(keys);
    ghost var keySet := set x | x in keys;
    assert forall x :: x in m.Keys <==> x in keySet;
    assert m.Keys == keySet;
    assert |m| == |m.Keys|;
  }

  /** The encodings written so far are those of the keys `taken`, in that order. */
  ghost predicate EmittedAlong(m: map<int, int>, taken: seq<int>, encodings: seq<RtpEncoding>, simulcast: bool)
  {
    && |encodings| == |taken|
    && (simulcast ==> |taken| <= |Profiles|)
    && forall i :: 0 <= i < |taken| ==>
         taken[i] in m
         && encodings[i] == MapEntryEncoding(taken[i], m[taken[i]], if simulcast then Some(Profiles[i]) else None)
  }

  /** Moving one key from the remaining ones to the taken ones keeps both duplicate-free. */
  lemma TakeOne(taken: seq<int>, remaining: seq<int>, next: nat)
    requires Distinct(taken + remaining) && next < |remaining|
    ensures Distinct((taken + [remaining[next]]) + RemoveAt(remaining, next))
    ensures forall k :: k in taken + remaining <==> k in (taken + [remaining[next]]) + RemoveAt(remaining, next)
  {
    var all := taken + remaining;
    assert Distinct(remaining) && Distinct(taken) by {
      assert forall i :: 0 <= i < |remaining| ==> remaining[i] == all[|taken| + i];
      assert forall i :: 0 <= i < |taken| ==> taken[i] == all[i];
    }
    assert remaining[next] !in taken by {
      assert remaining[next] == all[|taken| + next];
      assert forall i :: 0 <= i < |taken| ==> taken[i] == all[i];
    }
    var after := (taken + [remaining[next]]) + RemoveAt(remaining, next);
    forall i, j | 0 <= i < j < |after| ensures after[i] != after[j] {
      if j > |taken| && i < |taken| {
        assert after[j] in remaining && after[j] != remaining[next];
        assert after[i] == all[i];
        var j' :| 0 <= j' < |remaining| && remaining[j'] == after[j];
        assert after[j] == all[|taken| + j'];
      }
    }
  }

  lemma EmittedAlongSnoc(m: map<int, int>, taken: seq<int>, encodings: seq<RtpEncoding>, simulcast: bool,
                         k: int, encoding: RtpEncoding)
    requires EmittedAlong(m, taken, encodings, simulcast) && k in m
    requires simulcast ==> |taken| < |Profiles|
    requires encoding == MapEntryEncoding(k, m[k], if simulcast then Some(Profiles[|taken|]) else None)
    ensures EmittedAlong(m, taken + [k], encodings + [encoding], simulcast)
  {
  }

  lemma EmittedAlongInSomeOrder(m: map<int, int>, taken: seq<int>, encodings: seq<RtpEncoding>)
    requires EmittedAlong(m, taken, encodings, |m| > 1) && Distinct(taken)
    requires |taken| == if |m| > |Profiles| then |Profiles| else |m|
    requires |taken| == |m| ==> forall k :: k in m ==> k in taken
    ensures EmittedInSomeOrder(m, encodings)
  {
    forall k | k in m && |m| <= |Profiles|
      ensures exists i :: 0 <= i < |encodings| && encodings[i].ssrc == Some(k)
    {
      var i :| 0 <= i < |taken| && taken[i] == k;
      assert encodings[i].ssrc == Some(k);
    }
  }

  /**
   * Lines 130-148: one encoding per map entry; with more than one entry each
   * takes the next profile, and taking a fourth one fails. The hash map's
   * iteration order is left open: each step takes any key not yet taken,
   * drawn from `keys`, which enumerates the map's keys.
   */
  method EmitFromHashMap(m: map<int, int>, keys: seq<int>) returns (encodings: seq<RtpEncoding>, complete: bool)
    requires Distinct(keys) && forall k :: k in m <==> k in keys
    ensures EmittedInSomeOrder(m, encodings)
    ensures complete <==> |m| <= |Profiles|
  {
    KeyCount(m, keys);
    var simulcast := |m| > 1;
    var simulcastProfiles := Profiles;
    var remaining := keys;
    ghost var taken: seq<int> := [];
    encodings := [];
    while |remaining| > 0
      invariant EmittedAlong(m, taken, encodings, simulcast)
      invariant Distinct(taken + remaining)
      invariant forall k :: k in m <==> k in taken + remaining
      invariant |taken| + |remaining| == |m|
      invariant simulcast ==> simulcastProfiles == Profiles[|taken|..]
      decreases |remaining|
    {
      var next :| 0 <= next < |remaining|;
      var ssrc := remaining[next];
      var rtxSsrc := m[ssrc];
      var encoding := RtpEncoding(None, None, Some(ssrc), None);
      if rtxSsrc > 0 {
        encoding := encoding.(rtx := Some(RtxByPrimary(map[ssrc := rtxSsrc])));
      }
      if simulcast {
        if simulcastProfiles == [] {
          complete := false;
          assert Distinct(taken) by {
            assert forall i :: 0 <= i < |taken| ==> taken[i] == (taken + remaining)[i];
          }
          EmittedAlongInSomeOrder(m, taken, encodings);
          return;
        }
        encoding := encoding.(profile := Some(simulcastProfiles[0]));
        simulcastProfiles := simulcastProfiles[1..];
      }
      TakeOne(taken, remaining, next);
      EmittedAlongSnoc(m, taken, encodings, simulcast, ssrc, encoding);
      encodings := encodings + [encoding];
      taken := taken + [ssrc];
      remaining := RemoveAt(remaining, next);
    }
    complete := true;
    assert taken + remaining == taken;
    EmittedAlongInSomeOrder(m, taken, encodings);
  }

  /** A single map entry gives a single encoding without a profile. */
  lemma EmittedSingle(ssrc: int, rtxSsrc: int, encodings: seq<RtpEncoding>)
    requires EmittedInSomeOrder(map[ssrc := rtxSsrc], encodings)
    ensures encodings == [MapEntryEncoding(ssrc, rtxSsrc, None)]
  {
    assert |map[ssrc := rtxSsrc]| == 1;
  }

  /** With two or three entries every entry is written once, each with a different profile. */
  lemma EmittedProfilesDistinct(m: map<int, int>, encodings: seq<RtpEncoding>)
    requires EmittedInSomeOrder(m, encodings) && 1 < |m|
    ensures forall i, j :: 0 <= i < j < |encodings| ==>
      encodings[i].profile.Some? && encodings[i].profile != encodings[j].profile
  {
  }

  // ---------------------------------------------------------------------------
  // fillRtpParametersForTrack

  /** The map the Plan B style branch builds for a section. */
  function SsrcBranchMap(lines: seq<SsrcLine>, groups: seq<SsrcGroup>): map<int, int>
  {
    ToMap(PairFids(groups, MsidSsrcs(lines)).pairs)
  }

  /**
   * Lines 77-148: a non-empty list without an msid line is an error (an empty
   * list skips the check at line 80 and gives no encoding); otherwise the
   * encodings of the paired SSRCs, all of them exactly when the profiles
   * suffice.
   */
  method EncodingsFromSsrcs(lines: seq<SsrcLine>, groups: seq<SsrcGroup>)
    returns (result: Result<seq<RtpEncoding>>, complete: bool)
    ensures result.Err? <==> lines != [] && MsidSsrcs(lines) == []
    ensures result.Err? ==> result.error == SsrcNotFound
    ensures lines == [] ==> result == Ok([]) && complete
    ensures result.Ok? ==> EmittedInSomeOrder(SsrcBranchMap(lines, groups), result.value)
    ensures result.Ok? ==> (complete <==> |SsrcBranchMap(lines, groups)| <= |Profiles|)
  {
    var ssrcs := CollectMsidSsrcs(lines);
    if |lines| != 0 && |ssrcs| == 0 {
      return Err(SsrcNotFound), false;
    }
    MsidSsrcsMembers(lines);
    var ssrcToRtxSsrc, keys := PairWithHashMap(groups, ssrcs);
    PairFidsKeys(groups, ssrcs);
    PairedMapKeys(groups, ssrcs);
    var encodings;
    encodings, complete := EmitFromHashMap(ssrcToRtxSsrc, keys);
    result := Ok(encodings);
  }

  /**
   * What lines 27-149 leave for a found section: the cname of its first
   * cname line, then the RID encodings or the SSRC encodings.
   */
  ghost predicate FilledFrom(section: MediaSection, planBSimulcast: bool, outcome: Outcome,
                             rtcp: Option<Rtcp>, encodings: Option<seq<RtpEncoding>>,
                             before: Option<seq<RtpEncoding>>)
    reads section
  {
    var c := FindLine(section.ssrcs, "cname", None);
    if c.None? then
      outcome == Fail(CnameNotFound) && rtcp == Some(Rtcp(None, true, true)) && encodings == before
    else
      && rtcp == Some(Rtcp(section.ssrcs[c.value].value, true, true))
      && (!planBSimulcast ==>
            outcome == Pass
            && encodings == Some(RidEncodings(SendStreams(section.rids), section.ssrcs[c.value].id)))
      && (planBSimulcast && MsidSsrcs(section.ssrcs) == [] ==>
            outcome == Fail(SsrcNotFound) && encodings == before)
      && (planBSimulcast && MsidSsrcs(section.ssrcs) != [] ==>
            var m := SsrcBranchMap(section.ssrcs, GroupsOf(section.ssrcGroups));
            && encodings.Some?
            && EmittedInSomeOrder(m, encodings.value)
            && outcome == if |m| <= |Profiles| then Pass else Fail(ProfilesExhausted))
  }

  /** Lines 20-149 on a found section. */
  method FillFromSection(params: RtpParameters, section: MediaSection, planBSimulcast: bool) returns (outcome: Outcome)
    modifies params`rtcp, params`encodings
    ensures FilledFrom(section, planBSimulcast, outcome, params.rtcp, params.encodings, old(params.encodings))
  {
    params.rtcp := Some(Rtcp(None, true, true));
    var c := FindLine(section.ssrcs, "cname", None);
    if c.None? {
      return Fail(CnameNotFound);
    }
    var ssrcCnameLine := section.ssrcs[c.value];
    params.rtcp := Some(params.rtcp.value.(cname := ssrcCnameLine.value));
    if !planBSimulcast {
      var encodings := EncodingsFromRids(section.rids, ssrcCnameLine.id);
      params.encodings := Some(encodings);
      return Pass;
    }
    // The cname line makes the list of a=ssrc lines non-empty.
    var result, complete := EncodingsFromSsrcs(section.ssrcs, GroupsOf(section.ssrcGroups));
    if result.Err? {
      return Fail(result.error);
    }
    params.encodings := Some([]);
    params.encodings := Some(result.value);
    outcome := if complete then Pass else Fail(ProfilesExhausted);
  }

  /**
   * Lines 11-150. A failure leaves what was written before it: the mux id
   * and the RTCP parameters once the section is found, and the encodings
   * taken before the profiles ran out.
   */
  method FillRtpParametersForTrack(params: RtpParameters, media: seq<MediaSection>, track: Track,
                                   mid: Option<string>, planBSimulcast: bool) returns (outcome: Outcome)
    modifies params
    ensures FindMediaSection(media, track, mid).Err? ==>
      outcome == Fail(FindMediaSection(media, track, mid).error) && unchanged(params)
    ensures FindMediaSection(media, track, mid).Ok? ==>
      params.muxId == (if mid.Some? then mid else old(params.muxId))
    ensures FindMediaSection(media, track, mid) == Ok(None) ==>
      outcome == Fail(CnameNotFound) && params.rtcp == Some(Rtcp(None, true, true))
      && params.encodings == old(params.encodings)
    ensures var found := FindMediaSection(media, track, mid);
      found.Ok? && found.value.Some? ==>
        FilledFrom(media[found.value.value], planBSimulcast, outcome, params.rtcp, params.encodings,
                   old(params.encodings))
  {
    var found := FindMediaSection(media, track, mid);
    if found.Err? {
      return Fail(found.error);
    }
    if mid.Some? {
      params.muxId := mid;
    }
    if found.value.None? {
      params.rtcp := Some(Rtcp(None, true, true));
      return Fail(CnameNotFound);
    }
    outcome := FillFromSection(params, media[found.value.value], planBSimulcast);
  }

  /**
   * Only SSRCs paired by FID groups get an encoding: without a readable FID
   * group the Plan B style branch writes no encoding at all.
   */
  lemma PlanBBranchWithoutFid(section: MediaSection, encodings: seq<RtpEncoding>)
    requires forall g :: g in GroupsOf(section.ssrcGroups) ==> ParseFid(g).None?
    requires EmittedInSomeOrder(SsrcBranchMap(section.ssrcs, GroupsOf(section.ssrcGroups)), encodings)
    ensures encodings == []
  {
    PairFidsWithoutFid(GroupsOf(section.ssrcGroups), MsidSsrcs(section.ssrcs));
  }

  /** Every encoding of the Plan B style branch is an msid SSRC with the RTX SSRC of its FID group. */
  lemma PlanBBranchEncodingsArePaired(groups: seq<SsrcGroup>, lines: seq<SsrcLine>, encodings: seq<RtpEncoding>)
    requires EmittedInSomeOrder(SsrcBranchMap(lines, groups), encodings)
    ensures forall i :: 0 <= i < |encodings| ==>
      var s := encodings[i].ssrc.value;
      && (exists j :: 0 <= j < |lines| && IsMsidLine(lines[j]) && lines[j].id == s)
      && s !in PairFids(groups, MsidSsrcs(lines)).unpaired
  {
    MsidSsrcsMembers(lines);
    PairedMapKeys(groups, MsidSsrcs(lines));
  }

  // ---------------------------------------------------------------------------
  // addPlanBSimulcast

  /** The values the synthesizer reads before it writes anything. */
  datatype SimulcastPlan = SimulcastPlan(ssrc: int, rtxSsrc: int, cname: Option<string>, stream: string)

  /**
   * Lines 155-185: the section's first msid SSRC s, the RTX SSRC of its first
   * FID group (0 without one), the first token of its msid value and the
   * value of its cname line.
   */
  function PlanBSimulcastPlan(lines: seq<SsrcLine>, groups: seq<SsrcGroup>): Result<SimulcastPlan>
  {
    match FindLine(lines, "msid", None)
    case None => Err(SsrcNotFound)
    case Some(m) =>
      var ssrc := lines[m].id;
      var rtxSsrc := match RtxOf(groups, ssrc) case Some(r) => r case None => 0;
      match FindLine(lines, "cname", Some(ssrc))
      case None => Err(CnameNotFound)
      case Some(c) => Ok(SimulcastPlan(ssrc, rtxSsrc, lines[c].value, MsidPrefix(lines[m].value)))
  }

  /**
   * Lines 189-314: a SIM group and three FID groups when the section has a
   * group list, and a cname and an msid line for each of s, s+1, s+2, r,
   * r+1 and r+2.
   */
  function PlanBSimulcastAppends(p: SimulcastPlan, hasGroups: bool, trackId: string): Appends
  {
    var msid := p.stream + " " + trackId;
    var s, r := p.ssrc, p.rtxSsrc;
    Appends(
      [SsrcLine(s, "cname", p.cname), SsrcLine(s, "msid", Some(msid)),
       SsrcLine(s + 1, "cname", p.cname), SsrcLine(s + 1, "msid", Some(msid)),
       SsrcLine(s + 2, "cname", p.cname), SsrcLine(s + 2, "msid", Some(msid)),
       SsrcLine(r, "cname", p.cname), SsrcLine(r, "msid", Some(msid)),
       SsrcLine(r + 1, "cname", p.cname), SsrcLine(r + 1, "msid", Some(msid)),
       SsrcLine(r + 2, "cname", p.cname), SsrcLine(r + 2, "msid", Some(msid))],
      if hasGroups then [SimGroup(s, s + 1, s + 2), FidGroup(s, r), FidGroup(s + 1, r + 1), FidGroup(s + 2, r + 2)]
      else [])
  }

  lemma PlanBSimulcastPlanFailures(lines: seq<SsrcLine>, groups: seq<SsrcGroup>)
    ensures PlanBSimulcastPlan(lines, groups) == Err(SsrcNotFound) <==>
      forall i :: 0 <= i < |lines| ==> lines[i].attribute != "msid"
    ensures PlanBSimulcastPlan(lines, groups) == Err(CnameNotFound) <==>
      exists i :: 0 <= i < |lines| && lines[i].attribute == "msid"
        && (forall j :: 0 <= j < i ==> lines[j].attribute != "msid")
        && forall j :: 0 <= j < |lines| ==> !(lines[j].attribute == "cname" && lines[j].id == lines[i].id)
  {
    var m := FindLine(lines, "msid", None);
    if m.Some? {
      var c := FindLine(lines, "cname", Some(lines[m.value].id));
      if c.Some? {
        forall i | 0 <= i < |lines| && lines[i].attribute == "msid"
                   && (forall j :: 0 <= j < i ==> lines[j].attribute != "msid")
          ensures exists j :: 0 <= j < |lines| && lines[j].attribute == "cname" && lines[j].id == lines[i].id
        {
          assert !(m.value < i) && !(i < m.value);
          assert LineMatches(lines[c.value], "cname", Some(lines[i].id));
        }
      }
    }
  }

  /** The plan reads the first msid line, the first FID group for its SSRC and that SSRC's cname line. */
  lemma PlanBSimulcastPlanReads(lines: seq<SsrcLine>, groups: seq<SsrcGroup>)
    requires PlanBSimulcastPlan(lines, groups).Ok?
    ensures var p := PlanBSimulcastPlan(lines, groups).value;
      && (exists i :: 0 <= i < |lines| && lines[i].attribute == "msid" && lines[i].id == p.ssrc
            && forall j :: 0 <= j < i ==> lines[j].attribute != "msid")
      && (exists i :: 0 <= i < |lines| && lines[i] == SsrcLine(p.ssrc, "cname", p.cname)
            && forall j :: 0 <= j < i ==> !(lines[j].attribute == "cname" && lines[j].id == p.ssrc))
      && (p.rtxSsrc != 0 ==> exists g :: g in groups && ParseFid(g) == Some(SsrcPair(p.ssrc, p.rtxSsrc)))
      && ' ' !in p.stream
  {
    var p := PlanBSimulcastPlan(lines, groups).value;
    var m := FindLine(lines, "msid", None).value;
    var c := FindLine(lines, "cname", Some(p.ssrc)).value;
    assert lines[c] == SsrcLine(p.ssrc, "cname", p.cname);
    if p.rtxSsrc != 0 {
      var k := FindFid(groups, p.ssrc).value;
      assert groups[k] in groups;
    }
  }

  /** Every appended cname line carries the cname, every msid line names the track second. */
  lemma PlanBSimulcastLinesReadBack(p: SimulcastPlan, hasGroups: bool, trackId: string)
    requires ' ' !in p.stream && ' ' !in trackId
    ensures var lines := PlanBSimulcastAppends(p, hasGroups, trackId).ssrcs;
      && |lines| == 12
      && forall i :: 0 <= i < |lines| ==>
           && lines[i].attribute in {"cname", "msid"}
           && (lines[i].attribute == "cname" ==> lines[i].value == p.cname)
           && (lines[i].attribute == "msid" ==> SecondToken(lines[i].value) == Ok(Some(trackId)))
  {
    SecondTokenOfMsid(p.stream, trackId);
  }

  /**
   * The appended groups read back as a SIM group of s, s+1 and s+2 and FID
   * groups pairing s+k with r+k.
   */
  lemma PlanBSimulcastGroupsReadBack(p: SimulcastPlan, trackId: string)
    ensures var groups := PlanBSimulcastAppends(p, true, trackId).groups;
      var sim := SplitWhitespace(groups[0].ssrcs);
      && |groups| == 4
      && groups[0].semantics == "SIM" && |sim| == 3
      && ParseInt(sim[0]) == Some(p.ssrc) && ParseInt(sim[1]) == Some(p.ssrc + 1)
      && ParseInt(sim[2]) == Some(p.ssrc + 2)
      && ParseFid(groups[1]) == Some(SsrcPair(p.ssrc, p.rtxSsrc))
      && ParseFid(groups[2]) == Some(SsrcPair(p.ssrc + 1, p.rtxSsrc + 1))
      && ParseFid(groups[3]) == Some(SsrcPair(p.ssrc + 2, p.rtxSsrc + 2))
  {
    PlanBSimulcastSimReadBack(p, trackId);
    PlanBSimulcastFidsReadBack(p, trackId);
  }

  lemma PlanBSimulcastSimReadBack(p: SimulcastPlan, trackId: string)
    ensures var groups := PlanBSimulcastAppends(p, true, trackId).groups;
      var sim := SplitWhitespace(groups[0].ssrcs);
      && |groups| == 4
      && groups[0].semantics == "SIM" && |sim| == 3
      && ParseInt(sim[0]) == Some(p.ssrc) && ParseInt(sim[1]) == Some(p.ssrc + 1)
      && ParseInt(sim[2]) == Some(p.ssrc + 2)
  {
    PlanBSimulcastGroupsList(p, trackId);
    SimGroupTokens(p.ssrc, p.ssrc + 1, p.ssrc + 2);
  }

  lemma PlanBSimulcastFidsReadBack(p: SimulcastPlan, trackId: string)
    ensures var groups := PlanBSimulcastAppends(p, true, trackId).groups;
      && |groups| == 4
      && ParseFid(groups[1]) == Some(SsrcPair(p.ssrc, p.rtxSsrc))
      && ParseFid(groups[2]) == Some(SsrcPair(p.ssrc + 1, p.rtxSsrc + 1))
      && ParseFid(groups[3]) == Some(SsrcPair(p.ssrc + 2, p.rtxSsrc + 2))
  {
    PlanBSimulcastGroupsList(p, trackId);
    FidGroupsParse(p.ssrc, p.rtxSsrc);
  }

  lemma PlanBSimulcastGroupsList(p: SimulcastPlan, trackId: string)
    ensures var s, r := p.ssrc, p.rtxSsrc;
      PlanBSimulcastAppends(p, true, trackId).groups
        == [SimGroup(s, s + 1, s + 2), FidGroup(s, r), FidGroup(s + 1, r + 1), FidGroup(s + 2, r + 2)]
  {
  }

  /** Without a group list the synthesizer appends no group. */
  lemma PlanBSimulcastNoGroupList(p: SimulcastPlan, trackId: string)
    ensures PlanBSimulcastAppends(p, false, trackId).groups == []
  {
  }

  /** Appending lines and groups keeps a plan whose RTX lookup gives the same answer. */
  lemma PlanBSimulcastPlanAppend(lines: seq<SsrcLine>, more: seq<SsrcLine>,
                                 groups: seq<SsrcGroup>, moreGroups: seq<SsrcGroup>)
    requires PlanBSimulcastPlan(lines, groups).Ok?
    requires var p := PlanBSimulcastPlan(lines, groups).value;
      (match RtxOf(groups + moreGroups, p.ssrc) case Some(r) => r case None => 0) == p.rtxSsrc
    ensures PlanBSimulcastPlan(lines + more, groups + moreGroups) == PlanBSimulcastPlan(lines, groups)
  {
    var p := PlanBSimulcastPlan(lines, groups).value;
    FindLineAppend(lines, more, "msid", None);
    FindLineAppend(lines, more, "cname", Some(p.ssrc));
    var m := FindLine(lines, "msid", None).value;
    var c := FindLine(lines, "cname", Some(p.ssrc)).value;
    assert (lines + more)[m] == lines[m] && (lines + more)[c] == lines[c];
  }

  /**
   * The FID lookup for s gives the same RTX SSRC after the appends: the old
   * FID group still comes first, or else the appended "s 0" does.
   */
  lemma PlanBSimulcastRtxAgain(groups: seq<SsrcGroup>, p: SimulcastPlan, trackId: string)
    requires p.rtxSsrc == match RtxOf(groups, p.ssrc) case Some(r) => r case None => 0
    ensures (match RtxOf(groups + PlanBSimulcastAppends(p, true, trackId).groups, p.ssrc)
             case Some(r) => r case None => 0) == p.rtxSsrc
  {
    var more := PlanBSimulcastAppends(p, true, trackId).groups;
    var all := groups + more;
    if FindFid(groups, p.ssrc).Some? {
      FindFidAppend(groups, more, p.ssrc);
      assert all[FindFid(groups, p.ssrc).value] == groups[FindFid(groups, p.ssrc).value];
    } else {
      assert !IsFidFor(more[0], p.ssrc);
      assert IsFidFor(more[1], p.ssrc) && ParseFid(more[1]).value.rtxSsrc == 0 by {
        ParseFidOfPair(p.ssrc, 0);
      }
      FindFidAfterMiss(groups, more, p.ssrc, 1);
      assert all[|groups| + 1] == more[1];
    }
  }

  /** When no group of the front pairs `s`, the first of the appended groups that does is found. */
  lemma FindFidAfterMiss(groups: seq<SsrcGroup>, more: seq<SsrcGroup>, s: int, k: nat)
    requires FindFid(groups, s).None?
    requires k < |more| && IsFidFor(more[k], s)
    requires forall j :: 0 <= j < k ==> !IsFidFor(more[j], s)
    ensures FindFid(groups + more, s) == Some(|groups| + k)
  {
    var all := groups + more;
    forall j | 0 <= j < |groups| + k ensures !IsFidFor(all[j], s) {
      if j < |groups| {
        assert all[j] == groups[j];
      } else {
        assert all[j] == more[j - |groups|];
      }
    }
    assert all[|groups| + k] == more[k];
    FindFidAt(all, s, |groups| + k);
  }

  /** The search stops at the first group that pairs `s`. */
  lemma {:induction false} FindFidAt(groups: seq<SsrcGroup>, s: int, k: nat)
    requires k < |groups| && IsFidFor(groups[k], s)
    requires forall j :: 0 <= j < k ==> !IsFidFor(groups[j], s)
    ensures FindFid(groups, s) == Some(k)
  {
    if k > 0 {
      assert !IsFidFor(groups[0], s);
      forall j | 0 <= j < k - 1 ensures !IsFidFor(groups[1..][j], s) {
        assert groups[1..][j] == groups[j + 1];
      }
      FindFidAt(groups[1..], s, k - 1);
    }
  }

  /**
   * The synthesizer is not idempotent: on the section it produced, a second
   * call reads the same plan and so appends the same lines again.
   */
  lemma PlanBSimulcastAgain(lines: seq<SsrcLine>, groups: Option<seq<SsrcGroup>>, trackId: string)
    requires PlanBSimulcastPlan(lines, GroupsOf(groups)).Ok?
    ensures var p := PlanBSimulcastPlan(lines, GroupsOf(groups)).value;
      var a := PlanBSimulcastAppends(p, groups.Some?, trackId);
      PlanBSimulcastPlan(lines + a.ssrcs, GroupsOf(groups) + a.groups) == Ok(p)
  {
    var gs := GroupsOf(groups);
    var p := PlanBSimulcastPlan(lines, gs).value;
    var a := PlanBSimulcastAppends(p, groups.Some?, trackId);
    if groups.Some? {
      PlanBSimulcastRtxAgain(gs, p, trackId);
    } else {
      assert gs + a.groups == [];
    }
    PlanBSimulcastPlanAppend(lines, a.ssrcs, gs, a.groups);
  }

  /**
   * Lines 152-315. The section the lookup finds grows by the appends of its
   * plan; a failure changes nothing.
   */
  method AddPlanBSimulcast(media: seq<MediaSection>, track: Track, mid: Option<string>) returns (outcome: Outcome)
    modifies media
    ensures old(FindMediaSection(media, track, mid)).Err? ==>
      outcome == Fail(old(FindMediaSection(media, track, mid)).error) && unchanged(media)
    ensures old(FindMediaSection(media, track, mid)) == Ok(None) ==> outcome == Fail(SsrcNotFound)
    ensures var found := old(FindMediaSection(media, track, mid));
      found.Ok? && found.value.Some? ==>
        var section := media[found.value.value];
        var plan := old(PlanBSimulcastPlan(section.ssrcs, GroupsOf(section.ssrcGroups)));
        && (plan.Err? ==> outcome == Fail(plan.error) && unchanged(media))
        && (plan.Ok? ==>
              var a := PlanBSimulcastAppends(plan.value, old(section.ssrcGroups).Some?, track.id);
              && outcome == Pass
              && section.ssrcs == old(section.ssrcs) + a.ssrcs
              && section.ssrcGroups ==
                   (if old(section.ssrcGroups).Some? then Some(old(section.ssrcGroups).value + a.groups) else None)
              && section.mediaType == old(section.mediaType) && section.mid == old(section.mid)
              && section.msid == old(section.msid) && section.rids == old(section.rids)
              && forall j :: 0 <= j < |media| && media[j] != section ==> unchanged(media[j]))
  {
    var found := FindMediaSection(media, track, mid);
    if found.Err? {
      return Fail(found.error);
    }
    if found.value.None? {
      return Fail(SsrcNotFound);
    }
    var section := media[found.value.value];
    var plan := ReadSimulcastPlan(section);
    if plan.Err? {
      return Fail(plan.error);
    }
    WriteSimulcast(section, plan.value, track.id);
    outcome := Pass;
  }

  /** Lines 155-187, the reading half of the synthesizer. */
  method ReadSimulcastPlan(section: MediaSection) returns (plan: Result<SimulcastPlan>)
    ensures plan == PlanBSimulcastPlan(section.ssrcs, GroupsOf(section.ssrcGroups))
  {
    var m := FindLine(section.ssrcs, "msid", None);
    if m.None? {
      return Err(SsrcNotFound);
    }
    var ssrcMsidLine := section.ssrcs[m.value];
    var ssrc := ssrcMsidLine.id;
    var msid := MsidPrefix(ssrcMsidLine.value);
    var rtxSsrc := 0;
    var groups := GroupsOf(section.ssrcGroups);
    var fid := FindFid(groups, ssrc);
    if fid.Some? {
      rtxSsrc := ParseFid(groups[fid.value]).value.rtxSsrc;
    }
    var c := FindLine(section.ssrcs, "cname", Some(ssrc));
    if c.None? {
      return Err(CnameNotFound);
    }
    var cname := section.ssrcs[c.value].value;
    plan := Ok(SimulcastPlan(ssrc, rtxSsrc, cname, msid));
  }

  /** Lines 186-314, the writing half: the appends in source order. */
  method WriteSimulcast(section: MediaSection, p: SimulcastPlan, trackId: string)
    modifies section`ssrcs, section`ssrcGroups
    ensures var a := PlanBSimulcastAppends(p, old(section.ssrcGroups).Some?, trackId);
      && section.ssrcs == old(section.ssrcs) + a.ssrcs
      && section.ssrcGroups ==
           (if old(section.ssrcGroups).Some? then Some(old(section.ssrcGroups).value + a.groups) else None)
  {
    var ssrc, rtxSsrc, cname := p.ssrc, p.rtxSsrc, p.cname;
    var msidValue := p.stream + " " + trackId;
    var ssrc2 := ssrc + 1;
    var ssrc3 := ssrc + 2;
    var groups := section.ssrcGroups;
    var lines := section.ssrcs;
    groups := AddGroupIfPresent(groups, SimGroup(ssrc, ssrc2, ssrc3));
    lines := lines + [SsrcLine(ssrc, "cname", cname)];
    lines := lines + [SsrcLine(ssrc, "msid", Some(msidValue))];
    lines := lines + [SsrcLine(ssrc2, "cname", cname)];
    lines := lines + [SsrcLine(ssrc2, "msid", Some(msidValue))];
    lines := lines + [SsrcLine(ssrc3, "cname", cname)];
    lines := lines + [SsrcLine(ssrc3, "msid", Some(msidValue))];
    var rtxSsrc2 := rtxSsrc + 1;
    var rtxSsrc3 := rtxSsrc + 2;
    groups := AddGroupIfPresent(groups, FidGroup(ssrc, rtxSsrc));
    lines := lines + [SsrcLine(rtxSsrc, "cname", cname)];
    lines := lines + [SsrcLine(rtxSsrc, "msid", Some(msidValue))];
    groups := AddGroupIfPresent(groups, FidGroup(ssrc2, rtxSsrc2));
    lines := lines + [SsrcLine(rtxSsrc2, "cname", cname)];
    lines := lines + [SsrcLine(rtxSsrc2, "msid", Some(msidValue))];
    groups := AddGroupIfPresent(groups, FidGroup(ssrc3, rtxSsrc3));
    lines := lines + [SsrcLine(rtxSsrc3, "cname", cname)];
    lines := lines + [SsrcLine(rtxSsrc3, "msid", Some(msidValue))];
    SimulcastLinesInOrder(section.ssrcs, p, trackId);
    if section.ssrcGroups.Some? {
      SimulcastGroupsInOrder(section.ssrcGroups.value, p, trackId);
    }
    section.ssrcs := lines;
    section.ssrcGroups := groups;
  }

  /** `ssrcGroups?.add(group)`: a missing list stays missing. */
  function AddGroupIfPresent(groups: Option<seq<SsrcGroup>>, group: SsrcGroup): Option<seq<SsrcGroup>>
  {
    if groups.Some? then Some(groups.value + [group]) else None
  }

  lemma SimulcastLinesInOrder(lines: seq<SsrcLine>, p: SimulcastPlan, trackId: string)
    ensures var msid := Some(p.stream + " " + trackId);
      var s, r, c := p.ssrc, p.rtxSsrc, p.cname;
      lines + PlanBSimulcastAppends(p, true, trackId).ssrcs ==
        lines + [SsrcLine(s, "cname", c)] + [SsrcLine(s, "msid", msid)]
          + [SsrcLine(s + 1, "cname", c)] + [SsrcLine(s + 1, "msid", msid)]
          + [SsrcLine(s + 2, "cname", c)] + [SsrcLine(s + 2, "msid", msid)]
          + [SsrcLine(r, "cname", c)] + [SsrcLine(r, "msid", msid)]
          + [SsrcLine(r + 1, "cname", c)] + [SsrcLine(r + 1, "msid", msid)]
          + [SsrcLine(r + 2, "cname", c)] + [SsrcLine(r + 2, "msid", msid)]
  {
    var t := PlanBSimulcastAppends(p, true, trackId).ssrcs;
    AppendTwelve(lines, t);
  }

  /** Appending twelve lines at once is appending them one at a time. */
  lemma AppendTwelve(lines: seq<SsrcLine>, t: seq<SsrcLine>)
    requires |t| == 12
    ensures lines + t == lines + [t[0]] + [t[1]] + [t[2]] + [t[3]] + [t[4]] + [t[5]]
      + [t[6]] + [t[7]] + [t[8]] + [t[9]] + [t[10]] + [t[11]]
  {
    assert lines + t[..6] == lines + [t[0]] + [t[1]] + [t[2]] + [t[3]] + [t[4]] + [t[5]];
    assert t[..6] + t[6..] == t;
    assert t[6..] == [t[6]] + [t[7]] + [t[8]] + [t[9]] + [t[10]] + [t[11]];
  }

  lemma SimulcastGroupsInOrder(groups: seq<SsrcGroup>, p: SimulcastPlan, trackId: string)
    ensures var s, r := p.ssrc, p.rtxSsrc;
      groups + PlanBSimulcastAppends(p, true, trackId).groups ==
        groups + [SimGroup(s, s + 1, s + 2)] + [FidGroup(s, r)] + [FidGroup(s + 1, r + 1)] + [FidGroup(s + 2, r + 2)]
  {
  }
}

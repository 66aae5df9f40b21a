/**
 * The parsed session description the SDP utilities work on (one media
 * section per `m=` block, with its `a=ssrc`, `a=ssrc-group` and `a=rid`
 * lines), the RTP parameters they fill in, and the failures they raise.
 */
module Sdp {
  import opened Wrappers
  import opened Text

  /** The exceptions the utilities throw, one variant per distinct cause. */
  datatype Error =
    | SectionNotFound    // no m= section for the kind, the mid or the track's msid
    | SsrcNotFound       // no a=ssrc line (with msid information) for the track
    | CnameNotFound      // no a=ssrc line with a cname attribute (for the SSRC)
    | MsidTooShort       // `split(' ')[1]` on an msid value with a single token
    | ProfilesExhausted  // `removeAt(0)` on the used-up list of simulcast profiles

  datatype Result<+T> = Ok(value: T) | Err(error: Error)

  datatype Outcome = Pass | Fail(error: Error)

  /** `a=ssrc:<id> <attribute>:<value>` */
  datatype SsrcLine = SsrcLine(id: int, attribute: string, value: Option<string>)

  /** `a=ssrc-group:<semantics> <ssrcs>` */
  datatype SsrcGroup = SsrcGroup(semantics: string, ssrcs: string)

  /** `a=rid:<id> <direction>` */
  datatype Rid = Rid(id: string, direction: string)

  /** The two things the utilities ask of a media track. */
  datatype Track = Track(kind: string, id: string)

  datatype Rtcp = Rtcp(cname: Option<string>, reducedSize: bool, mux: bool)

  /**
   * The one-entry `rtx` map of an encoding: the Unified Plan utilities key it
   * by the primary SSRC, the Plan B utilities by the name "ssrc".
   */
  datatype RtxMap = RtxByPrimary(bySsrc: map<int, int>) | RtxByName(byName: map<string, int>)

  datatype RtpEncoding = RtpEncoding(
    encodingId: Option<string>,
    profile: Option<string>,
    ssrc: Option<int>,
    rtx: Option<RtxMap>)

  /** A send RID line together with the simulcast profile its id selects. */
  datatype SimulcastStream = SimulcastStream(rid: string, profile: string)

  /** The simulcast profiles, handed out front to back. */
  const Profiles: seq<string> := ["low", "medium", "high"]

  /** What a simulcast synthesizer appends to a section's two lists. */
  datatype Appends = Appends(ssrcs: seq<SsrcLine>, groups: seq<SsrcGroup>)

  /** `a=ssrc-group:FID <ssrc> <rtxSsrc>` */
  function FidGroup(ssrc: int, rtxSsrc: int): SsrcGroup
  {
    SsrcGroup("FID", IntToString(ssrc) + " " + IntToString(rtxSsrc))
  }

  /** `a=ssrc-group:SIM <a> <b> <c>` */
  function SimGroup(a: int, b: int, c: int): SsrcGroup
  {
    SsrcGroup("SIM", IntToString(a) + " " + IntToString(b) + " " + IntToString(c))
  }

  /** The SIM group lists its three SSRCs as three whitespace-separated numbers. */
  lemma SimGroupTokens(a: int, b: int, c: int)
    ensures var tokens := SplitWhitespace(SimGroup(a, b, c).ssrcs);
      |tokens| == 3 && ParseInt(tokens[0]) == Some(a) && ParseInt(tokens[1]) == Some(b)
      && ParseInt(tokens[2]) == Some(c)
  {
    IntToStringNoWhitespace(a);
    IntToStringNoWhitespace(b);
    IntToStringNoWhitespace(c);
    assert IntToString(a) + " " + IntToString(b) + " " + IntToString(c)
        == IntToString(a) + " " + (IntToString(b) + " " + IntToString(c));
    SplitWhitespaceFirstSpace(IntToString(b), IntToString(c));
    SplitWhitespaceFirstSpace(IntToString(a), IntToString(b) + " " + IntToString(c));
    SplitWhitespaceWord(IntToString(c));
    ParseIntToString(a);
    ParseIntToString(b);
    ParseIntToString(c);
  }

  /** One `m=` section. A missing `a=ssrc` or `a=rid` list is an empty one. */
  class MediaSection {
    var mediaType: string
    var mid: Option<string>
    var msid: Option<string>
    var ssrcs: seq<SsrcLine>
    var ssrcGroups: Option<seq<SsrcGroup>>
    var rids: seq<Rid>

    constructor (mediaType: string, mid: Option<string>, msid: Option<string>,
                 ssrcs: seq<SsrcLine>, ssrcGroups: Option<seq<SsrcGroup>>, rids: seq<Rid>)
      ensures this.mediaType == mediaType && this.mid == mid && this.msid == msid
      ensures this.ssrcs == ssrcs && this.ssrcGroups == ssrcGroups && this.rids == rids
    {
      this.mediaType := mediaType;
      this.mid := mid;
      this.msid := msid;
      this.ssrcs := ssrcs;
      this.ssrcGroups := ssrcGroups;
      this.rids := rids;
    }
  }

  /** The RTP parameters object the fill operations write into. */
  class RtpParameters {
    var muxId: Option<string>
    var rtcp: Option<Rtcp>
    var encodings: Option<seq<RtpEncoding>>

    constructor ()
      ensures muxId == None && rtcp == None && encodings == None
    {
      muxId := None;
      rtcp := None;
      encodings := None;
    }
  }

  /** A missing `a=ssrc-group` list reads as an empty one. */
  function GroupsOf(groups: Option<seq<SsrcGroup>>): seq<SsrcGroup>
  {
    if groups.Some? then groups.value else []
  }

  /** The line has the attribute and, when `id` is given, that SSRC. */
  predicate LineMatches(line: SsrcLine, attribute: string, id: Option<int>)
  {
    line.attribute == attribute && (id.None? || line.id == id.value)
  }

  /** The position of the first line with the attribute (and SSRC), as `find` does. */
  function FindLine(lines: seq<SsrcLine>, attribute: string, id: Option<int>): (r: Option<nat>)
    ensures r.Some? ==> r.value < |lines| && LineMatches(lines[r.value], attribute, id)
    ensures r.Some? ==> forall j :: 0 <= j < r.value ==> !LineMatches(lines[j], attribute, id)
    ensures r.None? ==> forall j :: 0 <= j < |lines| ==> !LineMatches(lines[j], attribute, id)
  {
    if lines == [] then None
    else if LineMatches(lines[0], attribute, id) then Some(0)
    else match FindLine(lines[1..], attribute, id)
      case None => None
      case Some(k) => Some(k + 1)
  }

  /** Appending lines never moves a line that was already found. */
  lemma FindLineAppend(lines: seq<SsrcLine>, more: seq<SsrcLine>, attribute: string, id: Option<int>)
    requires FindLine(lines, attribute, id).Some?
    ensures FindLine(lines + more, attribute, id) == FindLine(lines, attribute, id)
  {
    var k := FindLine(lines, attribute, id).value;
    assert (lines + more)[k] == lines[k];
  }

  /**
   * `value?.split(' ')?.get(1)`: no token when there is no value, the second
   * token otherwise, and an index error when the value has a single token.
   */
  function SecondToken(value: Option<string>): (r: Result<Option<string>>)
  {
    if value.None? then Ok(None)
    else
      var tokens := SplitOn(value.value, ' ');
      if |tokens| < 2 then Err(MsidTooShort) else Ok(Some(tokens[1]))
  }

  /** An msid value "<stream> <track>" yields the track id as second token. */
  lemma SecondTokenOfMsid(stream: string, trackId: string)
    requires ' ' !in stream && ' ' !in trackId
    ensures SecondToken(Some(stream + " " + trackId)) == Ok(Some(trackId))
    ensures SplitOn(stream + " " + trackId, ' ')[0] == stream
  {
    SplitOnFirstSeparator(stream, ' ', trackId);
    SplitOnWithoutSeparator(trackId, ' ');
  }

  /**
   * `value?.split(' ')?.get(0)` rendered by a string template or by
   * `toString()`: the first token, or the text "null" for a missing value.
   */
  function MsidPrefix(value: Option<string>): (r: string)
    ensures ' ' !in r
  {
    if value.None? then "null"
    else
      SplitOnTokensLackSeparator(value.value, ' ');
      SplitOn(value.value, ' ')[0]
  }
}

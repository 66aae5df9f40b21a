/**
 * Reconciling `a=ssrc` SSRCs with `a=ssrc-group:FID` lines into a map from
 * media SSRC to RTX SSRC, shared by both files of the SDP utilities.
 *
 * The working set of SSRCs is Kotlin's insertion-ordered `mutableSetOf`,
 * modelled as a sequence without duplicates; the ordered result map is a
 * sequence of pairs.
 */
module SsrcPairing {
  import opened Wrappers
  import opened Text
  import opened Sdp

  datatype SsrcPair = SsrcPair(ssrc: int, rtxSsrc: int)

  predicate Distinct(s: seq<int>)
  {
    forall i, j :: 0 <= i < j < |s| ==> s[i] != s[j]
  }

  /** `set.add(x)` on an insertion-ordered set. */
  function Insert(s: seq<int>, x: int): seq<int>
  {
    if x in s then s else s + [x]
  }

  /** The elements of `s` outside `xs`, in their order in `s`. */
  function Without(s: seq<int>, xs: set<int>): (r: seq<int>)
    ensures forall x :: x in r <==> x in s && x !in xs
  {
    if s == [] then [] else (if s[0] in xs then [] else [s[0]]) + Without(s[1..], xs)
  }

  /** `set.remove(x)` on an insertion-ordered set. */
  function Remove(s: seq<int>, x: int): seq<int>
  {
    Without(s, {x})
  }

  lemma {:induction false} WithoutWithout(s: seq<int>, xs: set<int>, ys: set<int>)
    ensures Without(Without(s, xs), ys) == Without(s, xs + ys)
  {
    if s != [] {
      WithoutWithout(s[1..], xs, ys);
      var t := Without(s, xs);
      if s[0] in xs {
        assert t == Without(s[1..], xs);
      } else {
        assert t == [s[0]] + Without(s[1..], xs);
        assert t[0] == s[0] && t[1..] == Without(s[1..], xs);
        assert Without(t, ys) == (if s[0] in ys then [] else [s[0]]) + Without(t[1..], ys);
      }
    }
  }

  lemma {:induction false} WithoutNothing(s: seq<int>)
    ensures Without(s, {}) == s
  {
    if s != [] {
      WithoutNothing(s[1..]);
    }
  }

  lemma {:induction false} WithoutDistinct(s: seq<int>, xs: set<int>)
    requires Distinct(s)
    ensures Distinct(Without(s, xs))
  {
    if s != [] {
      assert Distinct(s[1..]);
      WithoutDistinct(s[1..], xs);
      assert s[0] !in s[1..];
    }
  }

  lemma {:induction false} InsertDistinct(s: seq<int>, x: int)
    requires Distinct(s)
    ensures Distinct(Insert(s, x)) && x in Insert(s, x)
    ensures forall y :: y in Insert(s, x) <==> y in s || y == x
  {
  }

  // ---------------------------------------------------------------------------
  // The insertion-ordered map `mutableMapOf<Long, Long>()`.

  function KeySet(m: seq<SsrcPair>): set<int>
  {
    set p | p in m :: p.ssrc
  }

  function Keys(m: seq<SsrcPair>): (r: seq<int>)
    ensures |r| == |m| && forall i :: 0 <= i < |m| ==> r[i] == m[i].ssrc
  {
    if m == [] then [] else [m[0].ssrc] + Keys(m[1..])
  }

  /** `map[k] = v`: replaces the value of a present key in place, appends a new one. */
  function Put(m: seq<SsrcPair>, k: int, v: int): seq<SsrcPair>
  {
    if m == [] then [SsrcPair(k, v)]
    else if m[0].ssrc == k then [SsrcPair(k, v)] + m[1..]
    else [m[0]] + Put(m[1..], k, v)
  }

  lemma {:induction false} PutFresh(m: seq<SsrcPair>, k: int, v: int)
    requires k !in KeySet(m)
    ensures Put(m, k, v) == m + [SsrcPair(k, v)]
  {
    if m != [] {
      assert m[0] in m;
      assert KeySet(m[1..]) <= KeySet(m) by {
        forall p | p in m[1..] ensures p in m { }
      }
      PutFresh(m[1..], k, v);
    }
  }

  /** The pairs as a map, for the Unified Plan code's `hashMapOf`. */
  function ToMap(m: seq<SsrcPair>): map<int, int>
  {
    if m == [] then map[] else ToMap(m[..|m| - 1])[m[|m| - 1].ssrc := m[|m| - 1].rtxSsrc]
  }

  lemma {:induction false} ToMapKeys(m: seq<SsrcPair>)
    ensures ToMap(m).Keys == KeySet(m)
  {
    if m != [] {
      ToMapKeys(m[..|m| - 1]);
      assert m == m[..|m| - 1] + [m[|m| - 1]];
      assert KeySet(m) == KeySet(m[..|m| - 1]) + {m[|m| - 1].ssrc};
    }
  }

  // ---------------------------------------------------------------------------
  // FID groups.

  /**
   * A FID group whose SSRC list splits on whitespace into exactly two tokens
   * that both parse as integers; every other group yields nothing.
   */
  function ParseFid(g: SsrcGroup): Option<SsrcPair>
  {
    if g.semantics != "FID" then None
    else
      var tokens := SplitWhitespace(g.ssrcs);
      if |tokens| != 2 then None
      else match (ParseInt(tokens[0]), ParseInt(tokens[1]))
        case (Some(a), Some(b)) => Some(SsrcPair(a, b))
        case _ => None
  }

  /** The group text "<a> <b>" the synthesizers write reads back as the pair (a, b). */
  lemma ParseFidOfPair(a: int, b: int)
    ensures ParseFid(SsrcGroup("FID", IntToString(a) + " " + IntToString(b))) == Some(SsrcPair(a, b))
  {
    IntToStringNoWhitespace(a);
    IntToStringNoWhitespace(b);
    SplitWhitespaceFirstSpace(IntToString(a), IntToString(b));
    SplitWhitespaceWord(IntToString(b));
    ParseIntToString(a);
    ParseIntToString(b);
  }

  predicate IsFidFor(g: SsrcGroup, s: int)
  {
    ParseFid(g).Some? && ParseFid(g).value.ssrc == s
  }

  /** The three FID groups the synthesizers write for s, s+1, s+2 and r, r+1, r+2 read back. */
  lemma FidGroupsParse(s: int, r: int)
    ensures ParseFid(FidGroup(s, r)) == Some(SsrcPair(s, r))
    ensures ParseFid(FidGroup(s + 1, r + 1)) == Some(SsrcPair(s + 1, r + 1))
    ensures ParseFid(FidGroup(s + 2, r + 2)) == Some(SsrcPair(s + 2, r + 2))
  {
    ParseFidOfPair(s, r);
    ParseFidOfPair(s + 1, r + 1);
    ParseFidOfPair(s + 2, r + 2);
  }

  lemma SimGroupNotFid(a: int, b: int, c: int)
    ensures ParseFid(SimGroup(a, b, c)).None?
  {
  }

  /** The position of the first readable FID group whose first SSRC is `s`. */
  function FindFid(groups: seq<SsrcGroup>, s: int): (r: Option<nat>)
    ensures r.Some? ==> r.value < |groups| && IsFidFor(groups[r.value], s)
    ensures r.Some? ==> forall j :: 0 <= j < r.value ==> !IsFidFor(groups[j], s)
    ensures r.None? ==> forall j :: 0 <= j < |groups| ==> !IsFidFor(groups[j], s)
  {
    if groups == [] then None
    else if IsFidFor(groups[0], s) then Some(0)
    else match FindFid(groups[1..], s)
      case None => None
      case Some(k) => Some(k + 1)
  }

  /** The RTX SSRC of the first FID group for `s`, if there is one. */
  function RtxOf(groups: seq<SsrcGroup>, s: int): Option<int>
  {
    match FindFid(groups, s)
    case Some(k) => Some(ParseFid(groups[k]).value.rtxSsrc)
    case None => None
  }

  lemma FindFidAppend(groups: seq<SsrcGroup>, more: seq<SsrcGroup>, s: int)
    requires FindFid(groups, s).Some?
    ensures FindFid(groups + more, s) == FindFid(groups, s)
  {
    var k := FindFid(groups, s).value;
    assert (groups + more)[k] == groups[k];
  }

  // ---------------------------------------------------------------------------
  // The pairing loop: each FID group (a, b) whose a is still in the working
  // set removes a and b from the set and maps a to b.

  datatype Pairing = Pairing(unpaired: seq<int>, pairs: seq<SsrcPair>)

  function PairStep(p: Pairing, g: SsrcGroup): Pairing
  {
    match ParseFid(g)
    case Some(pair) =>
      if pair.ssrc in p.unpaired then
        Pairing(Remove(Remove(p.unpaired, pair.ssrc), pair.rtxSsrc), p.pairs + [pair])
      else p
    case None => p
  }

  function PairFids(groups: seq<SsrcGroup>, init: seq<int>): Pairing
  {
    if groups == [] then Pairing(init, [])
    else PairStep(PairFids(groups[..|groups| - 1], init), groups[|groups| - 1])
  }

  /** Every SSRC a pair mentions. */
  function Touched(pairs: seq<SsrcPair>): set<int>
  {
    if pairs == [] then {}
    else Touched(pairs[..|pairs| - 1]) + {pairs[|pairs| - 1].ssrc, pairs[|pairs| - 1].rtxSsrc}
  }

  /** The readable FID groups, in line order. */
  function ParsedFids(groups: seq<SsrcGroup>): seq<SsrcPair>
  {
    if groups == [] then []
    else
      var last := groups[|groups| - 1];
      ParsedFids(groups[..|groups| - 1]) + (if ParseFid(last).Some? then [ParseFid(last).value] else [])
  }

  predicate IsSubsequence(a: seq<SsrcPair>, b: seq<SsrcPair>)
    decreases |b|
  {
    if a == [] then true
    else if b == [] then false
    else if a[|a| - 1] == b[|b| - 1] then IsSubsequence(a[..|a| - 1], b[..|b| - 1])
    else IsSubsequence(a, b[..|b| - 1])
  }

  lemma {:induction false} SubsequenceSnoc(a: seq<SsrcPair>, b: seq<SsrcPair>, x: SsrcPair)
    requires IsSubsequence(a, b)
    ensures IsSubsequence(a, b + [x])
    decreases |b|, 1
  {
    assert (b + [x])[..|b|] == b;
    if a != [] && a[|a| - 1] == x {
      SubsequenceDropLast(a, b);
    }
  }

  lemma {:induction false} SubsequenceDropLast(a: seq<SsrcPair>, b: seq<SsrcPair>)
    requires IsSubsequence(a, b) && a != []
    ensures IsSubsequence(a[..|a| - 1], b)
    decreases |b|, 0
  {
    var a', b' := a[..|a| - 1], b[..|b| - 1];
    assert b' + [b[|b| - 1]] == b;
    if a[|a| - 1] == b[|b| - 1] {
      SubsequenceSnoc(a', b', b[|b| - 1]);
    } else {
      SubsequenceDropLast(a, b');
      SubsequenceSnoc(a', b', b[|b| - 1]);
    }
  }

  lemma {:induction false} TouchedMembers(pairs: seq<SsrcPair>)
    ensures forall i :: 0 <= i < |pairs| ==> pairs[i].ssrc in Touched(pairs) && pairs[i].rtxSsrc in Touched(pairs)
  {
    if pairs != [] {
      TouchedMembers(pairs[..|pairs| - 1]);
    }
  }

  /**
   * One step of the pairing loop: a readable FID group whose media SSRC is
   * still unpaired is appended to the pairs, every other group changes nothing.
   */
  lemma PairFidsSnoc(front: seq<SsrcGroup>, last: SsrcGroup, init: seq<int>)
    ensures var p := PairFids(front, init);
      PairFids(front + [last], init) ==
        if ParseFid(last).Some? && ParseFid(last).value.ssrc in p.unpaired then
          Pairing(Remove(Remove(p.unpaired, ParseFid(last).value.ssrc), ParseFid(last).value.rtxSsrc),
                  p.pairs + [ParseFid(last).value])
        else p
    ensures ParsedFids(front + [last]) ==
      ParsedFids(front) + (if ParseFid(last).Some? then [ParseFid(last).value] else [])
  {
    var groups := front + [last];
    assert groups[..|groups| - 1] == front && groups[|groups| - 1] == last;
  }

  /**
   * The set left over by the pairing loop is the initial set minus every
   * SSRC of an accepted pair, in its original order.
   */
  lemma {:induction false} PairFidsUnpaired(groups: seq<SsrcGroup>, init: seq<int>)
    ensures PairFids(groups, init).unpaired == Without(init, Touched(PairFids(groups, init).pairs))
  {
    if groups == [] {
      WithoutNothing(init);
    } else {
      var front, last := groups[..|groups| - 1], groups[|groups| - 1];
      assert front + [last] == groups;
      PairFidsUnpaired(front, init);
      PairFidsSnoc(front, last, init);
      var p := PairFids(front, init);
      if ParseFid(last).Some? && ParseFid(last).value.ssrc in p.unpaired {
        var pair := ParseFid(last).value;
        var q := PairFids(groups, init);
        assert q.pairs[..|q.pairs| - 1] == p.pairs;
        WithoutWithout(init, Touched(p.pairs), {pair.ssrc});
        WithoutWithout(init, Touched(p.pairs) + {pair.ssrc}, {pair.rtxSsrc});
        assert Touched(q.pairs) == Touched(p.pairs) + {pair.ssrc} + {pair.rtxSsrc};
      }
    }
  }

  /**
   * Each accepted pair's media SSRC was in the initial set and untouched by
   * the pairs accepted before it, so the map's keys are distinct and new.
   */
  lemma {:induction false} PairFidsFreshKeys(groups: seq<SsrcGroup>, init: seq<int>)
    ensures var p := PairFids(groups, init);
      forall i :: 0 <= i < |p.pairs| ==> p.pairs[i].ssrc in init && p.pairs[i].ssrc !in Touched(p.pairs[..i])
  {
    if groups != [] {
      var front, last := groups[..|groups| - 1], groups[|groups| - 1];
      assert front + [last] == groups;
      PairFidsFreshKeys(front, init);
      PairFidsUnpaired(front, init);
      PairFidsSnoc(front, last, init);
      var p := PairFids(front, init);
      if ParseFid(last).Some? && ParseFid(last).value.ssrc in p.unpaired {
        FreshKeysSnoc(p.pairs, ParseFid(last).value, init);
      }
    }
  }

  lemma FreshKeysSnoc(pairs: seq<SsrcPair>, x: SsrcPair, init: seq<int>)
    requires forall i :: 0 <= i < |pairs| ==> pairs[i].ssrc in init && pairs[i].ssrc !in Touched(pairs[..i])
    requires x.ssrc in init && x.ssrc !in Touched(pairs)
    ensures var q := pairs + [x];
      forall i :: 0 <= i < |q| ==> q[i].ssrc in init && q[i].ssrc !in Touched(q[..i])
  {
    var q := pairs + [x];
    assert q[..|pairs|] == pairs;
    forall i | 0 <= i < |pairs| ensures q[..i] == pairs[..i] && q[i] == pairs[i] {
    }
  }

  /** The accepted pairs are readable FID groups, in line order. */
  lemma {:induction false} PairFidsInLineOrder(groups: seq<SsrcGroup>, init: seq<int>)
    ensures IsSubsequence(PairFids(groups, init).pairs, ParsedFids(groups))
  {
    if groups != [] {
      var front, last := groups[..|groups| - 1], groups[|groups| - 1];
      assert front + [last] == groups;
      PairFidsInLineOrder(front, init);
      PairFidsSnoc(front, last, init);
      var p := PairFids(front, init);
      if ParseFid(last).Some? {
        var x := ParseFid(last).value;
        if x.ssrc in p.unpaired {
          assert (p.pairs + [x])[..|p.pairs|] == p.pairs;
          assert (ParsedFids(front) + [x])[..|ParsedFids(front)|] == ParsedFids(front);
          assert IsSubsequence(p.pairs + [x], ParsedFids(front) + [x]);
          assert PairFids(groups, init).pairs == p.pairs + [x];
          assert ParsedFids(groups) == ParsedFids(front) + [x];
          assert IsSubsequence(PairFids(groups, init).pairs, ParsedFids(groups));
        } else {
          SubsequenceSnoc(p.pairs, ParsedFids(front), x);
          assert IsSubsequence(PairFids(groups, init).pairs, ParsedFids(groups));
        }
      } else {
        assert ParsedFids(groups) == ParsedFids(front);
        assert IsSubsequence(PairFids(groups, init).pairs, ParsedFids(groups));
      }
    }
  }

  /** The accepted pairs have distinct media SSRCs, none of them still unpaired. */
  lemma PairFidsKeys(groups: seq<SsrcGroup>, init: seq<int>)
    requires Distinct(init)
    ensures var p := PairFids(groups, init);
      && Distinct(Keys(p.pairs))
      && (forall x :: x in KeySet(p.pairs) ==> x !in p.unpaired)
      && Distinct(p.unpaired)
  {
    PairFidsUnpaired(groups, init);
    PairFidsFreshKeys(groups, init);
    var p := PairFids(groups, init);
    WithoutDistinct(init, Touched(p.pairs));
    TouchedMembers(p.pairs);
    forall i, j | 0 <= i < j < |p.pairs| ensures p.pairs[i].ssrc != p.pairs[j].ssrc {
      TouchedMembers(p.pairs[..j]);
      assert p.pairs[..j][i] == p.pairs[i];
    }
  }

  /** Without any readable FID group every SSRC stays unpaired. */
  lemma {:induction false} PairFidsWithoutFid(groups: seq<SsrcGroup>, init: seq<int>)
    requires forall g :: g in groups ==> ParseFid(g).None?
    ensures PairFids(groups, init) == Pairing(init, [])
  {
    if groups != [] {
      assert groups[|groups| - 1] in groups;
      assert forall g :: g in groups[..|groups| - 1] ==> g in groups;
      PairFidsWithoutFid(groups[..|groups| - 1], init);
    }
  }

  lemma FindFidSnoc(front: seq<SsrcGroup>, last: SsrcGroup, s: int)
    ensures FindFid(front + [last], s) ==
      if FindFid(front, s).Some? then FindFid(front, s)
      else if IsFidFor(last, s) then Some(|front|)
      else None
  {
    var groups := front + [last];
    if FindFid(front, s).Some? {
      FindFidAppend(front, [last], s);
    } else {
      assert forall j :: 0 <= j < |front| ==> groups[j] == front[j];
      assert groups[|front|] == last;
    }
  }

  /**
   * A single SSRC is paired with the RTX SSRC of its first FID group, exactly
   * as the synthesizers look it up; without such a group it stays unpaired.
   */
  lemma {:induction false} PairFidsSingle(groups: seq<SsrcGroup>, s: int)
    ensures PairFids(groups, [s]) ==
      if RtxOf(groups, s).Some? then Pairing([], [SsrcPair(s, RtxOf(groups, s).value)])
      else Pairing([s], [])
  {
    if groups != [] {
      var front := groups[..|groups| - 1];
      var last := groups[|groups| - 1];
      assert front + [last] == groups;
      PairFidsSingle(front, s);
      FindFidSnoc(front, last, s);
      if FindFid(front, s).Some? {
        assert groups[FindFid(front, s).value] == front[FindFid(front, s).value];
      } else if IsFidFor(last, s) {
        var pair := ParseFid(last).value;
        assert Without([s][1..], {s}) == [];
        assert Without([s], {s}) == [] + Without([s][1..], {s});
        assert Remove(Remove([s], s), pair.rtxSsrc) == [];
      }
    }
  }
}

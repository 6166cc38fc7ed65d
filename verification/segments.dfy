/** The tenant-scoped segment store of the TypeScript backend
    (backend/src/services/segment.service.ts) and the DRAFT campaign it
    creates beside each new segment (backend/src/services/campaign.service.ts).
    Segments are kept in creation order; the random audience size is drawn
    by the caller and passed in. */
module Segments {
  import opened Wrappers
  import opened Records
  import Json

  /** One segment rule; its value is any JSON value. */
  datatype Rule = Rule(field: string, operator: string, value: Json.Json)

  datatype Segment = Segment(
    id: Id,
    name: string,
    rules: seq<Rule>,
    audienceSize: int,
    userId: Id)

  /** The body of an update: an absent field leaves the column alone. An
      empty rule list is still present. */
  datatype SegmentPatch = SegmentPatch(name: Option<string>, rules: Option<seq<Rule>>)

  datatype SegmentError = SegmentNotFound

  const WELCOME_PREFIX: string := "Welcome Campaign - "
  const WELCOME_MESSAGE: string := "Hi {name}, here's 10% off on your next order!"

  /** `calculateAudienceSize`: `Math.floor(draw * 1000)` for the draw
      `Math.random()` returned; the rules are not consulted. */
  function AudienceSize(draw: real): (n: int)
    requires 0.0 <= draw < 1.0
    ensures 0 <= n <= 999
    ensures n as real <= draw * 1000.0 < n as real + 1.0
  {
    (draw * 1000.0).Floor
  }

  /** The default campaign created for a new segment. */
  function WelcomeCampaign(segment: Segment): (c: Campaign)
    ensures c.status == Draft && c.segmentId == segment.id && c.userId == segment.userId
    ensures c.name == WELCOME_PREFIX + segment.name && c.message == WELCOME_MESSAGE
  {
    Campaign(WELCOME_PREFIX + segment.name, WELCOME_MESSAGE, Draft, segment.userId, segment.id)
  }

  /** No two segments share an id. */
  predicate DistinctIds(segments: seq<Segment>) {
    forall i, j :: 0 <= i < j < |segments| ==> segments[i].id != segments[j].id
  }

  /** The position of the segment with this id, if any. */
  function IndexOf(segments: seq<Segment>, id: Id): (r: Option<nat>)
    ensures r.None? <==> forall k :: 0 <= k < |segments| ==> segments[k].id != id
    ensures r.Some? ==> r.value < |segments| && segments[r.value].id == id
  {
    if |segments| == 0 then None
    else if segments[|segments| - 1].id == id then Some(|segments| - 1)
    else IndexOf(segments[..|segments| - 1], id)
  }

  /** `getSegment`: the segment when both the id and the owner match,
      otherwise NotFound. */
  function Lookup(segments: seq<Segment>, id: Id, userId: Id): (r: Result<Segment, SegmentError>)
    requires DistinctIds(segments)
    ensures r.Success? <==> exists k :: 0 <= k < |segments| && segments[k].id == id && segments[k].userId == userId
    ensures r.Success? ==> r.value in segments && r.value.id == id && r.value.userId == userId
    ensures r.Failure? ==> r.error == SegmentNotFound
  {
    var i := IndexOf(segments, id);
    if i.Some? && segments[i.value].userId == userId then Success(segments[i.value])
    else Failure(SegmentNotFound)
  }

  /** The segments of one owner, in creation order. */
  function Owned(segments: seq<Segment>, userId: Id): (r: seq<Segment>)
    ensures |r| <= |segments|
  {
    if |segments| == 0 then []
    else if segments[0].userId == userId then [segments[0]] + Owned(segments[1..], userId)
    else Owned(segments[1..], userId)
  }

  /** The selection holds exactly the owner's segments. */
  lemma {:induction false} OwnedExact(segments: seq<Segment>, userId: Id)
    ensures forall s :: s in Owned(segments, userId) <==> s in segments && s.userId == userId
  {
    if |segments| > 0 {
      OwnedExact(segments[1..], userId);
      assert forall s :: s in segments <==> s == segments[0] || s in segments[1..];
    }
  }

  function Reverse(s: seq<Segment>): (r: seq<Segment>)
    ensures |r| == |s|
    ensures forall k :: 0 <= k < |s| ==> r[k] == s[|s| - 1 - k]
    ensures forall x :: x in r <==> x in s
  {
    if |s| == 0 then []
    else
      assert forall x :: x in s <==> x == s[0] || x in s[1..];
      Reverse(s[1..]) + [s[0]]
  }

  /** The segment after an update. */
  function Patched(s: Segment, patch: SegmentPatch, draw: real): (u: Segment)
    requires 0.0 <= draw < 1.0
    ensures u.id == s.id && u.userId == s.userId
    ensures u.name == patch.name.GetOr(s.name)
    ensures patch.rules.None? ==> u.rules == s.rules && u.audienceSize == s.audienceSize
    ensures patch.rules.Some? ==> u.rules == patch.rules.value && u.audienceSize == AudienceSize(draw)
  {
    if patch.rules.Some? then
      s.(name := patch.name.GetOr(s.name), rules := patch.rules.value, audienceSize := AudienceSize(draw))
    else
      s.(name := patch.name.GetOr(s.name))
  }

  class SegmentService {
    /** The segment table in creation order. */
    var segments: seq<Segment>
    var campaigns: map<Id, Campaign>

    ghost predicate Valid()
      reads this
    {
      DistinctIds(segments)
    }

    constructor ()
      ensures Valid() && segments == [] && campaigns == map[]
    {
      segments := [];
      campaigns := map[];
    }

    /** `createSegment`: one new segment with the drawn audience size, and
        one DRAFT welcome campaign that references it. `segmentId` and
        `campaignId` are the ids the database generates. */
    method CreateSegment(name: string, rules: seq<Rule>, userId: Id, segmentId: Id, campaignId: Id, draw: real)
      returns (segment: Segment)
      requires Valid()
      requires 0.0 <= draw < 1.0
      requires forall k :: 0 <= k < |segments| ==> segments[k].id != segmentId
      requires campaignId !in campaigns
      modifies this
      ensures Valid()
      ensures segment == Segment(segmentId, name, rules, AudienceSize(draw), userId)
      ensures segments == old(segments) + [segment]
      ensures campaigns == old(campaigns)[campaignId := WelcomeCampaign(segment)]
    {
      segment := Segment(segmentId, name, rules, AudienceSize(draw), userId);
      segments := segments + [segment];
      campaigns := campaigns[campaignId := WelcomeCampaign(segment)];
    }

    function GetSegment(id: Id, userId: Id): (r: Result<Segment, SegmentError>)
      reads this
      requires Valid()
      ensures r == Lookup(segments, id, userId)
    {
      Lookup(segments, id, userId)
    }

    /** `updateSegment`: NotFound unless the caller owns the segment; a new
        rule list replaces the rules and redraws the audience size. */
    method UpdateSegment(id: Id, userId: Id, patch: SegmentPatch, draw: real)
      returns (r: Result<Segment, SegmentError>)
      requires Valid()
      requires 0.0 <= draw < 1.0
      modifies this`segments
      ensures Valid()
      ensures Lookup(old(segments), id, userId).Failure? ==>
        r == Failure(SegmentNotFound) && segments == old(segments)
      ensures Lookup(old(segments), id, userId).Success? ==>
        var i := IndexOf(old(segments), id).value;
        && r == Success(Patched(old(segments)[i], patch, draw))
        && segments == old(segments)[i := r.value]
    {
      var found := GetSegment(id, userId);
      if found.Failure? {
        return Failure(SegmentNotFound);
      }
      var i := IndexOf(segments, id).value;
      var u := Patched(segments[i], patch, draw);
      segments := segments[i := u];
      r := Success(u);
    }

    /** `deleteSegment`: NotFound unless the caller owns the segment;
        otherwise exactly that segment is removed. */
    method DeleteSegment(id: Id, userId: Id) returns (r: Result<(), SegmentError>)
      requires Valid()
      modifies this`segments
      ensures Valid()
      ensures Lookup(old(segments), id, userId).Failure? ==>
        r == Failure(SegmentNotFound) && segments == old(segments)
      ensures Lookup(old(segments), id, userId).Success? ==>
        var i := IndexOf(old(segments), id).value;
        && r == Success(())
        && segments == old(segments)[..i] + old(segments)[i + 1..]
    {
      var found := GetSegment(id, userId);
      if found.Failure? {
        return Failure(SegmentNotFound);
      }
      var i := IndexOf(segments, id).value;
      segments := segments[..i] + segments[i + 1..];
      r := Success(());
    }

    /** `listSegments`: the caller's segments, newest first. */
    function ListSegments(userId: Id): (r: seq<Segment>)
      reads this
      ensures forall s :: s in r <==> s in segments && s.userId == userId
      ensures r == Reverse(Owned(segments, userId))
    {
      OwnedExact(segments, userId);
      Reverse(Owned(segments, userId))
    }
  }

  /** A segment just created is found by its id and owner, and by no other
      owner; every other lookup is as before. */
  lemma LookupAfterCreate(segments: seq<Segment>, s: Segment, id: Id, userId: Id)
    requires DistinctIds(segments)
    requires forall k :: 0 <= k < |segments| ==> segments[k].id != s.id
    ensures DistinctIds(segments + [s])
    ensures Lookup(segments + [s], s.id, s.userId) == Success(s)
    ensures userId != s.userId ==> Lookup(segments + [s], s.id, userId) == Failure(SegmentNotFound)
    ensures id != s.id ==> Lookup(segments + [s], id, userId) == Lookup(segments, id, userId)
  {
    var all := segments + [s];
    assert all[..|all| - 1] == segments;
  }

  /** A new segment heads its owner's list; the lists of other owners stay. */
  lemma {:induction false} ListAfterCreate(segments: seq<Segment>, s: Segment, userId: Id)
    ensures userId == s.userId ==> Reverse(Owned(segments + [s], userId)) == [s] + Reverse(Owned(segments, userId))
    ensures userId != s.userId ==> Reverse(Owned(segments + [s], userId)) == Reverse(Owned(segments, userId))
  {
    OwnedAppend(segments, [s], userId);
    assert [s][1..] == [];
    var before := Owned(segments, userId);
    if userId == s.userId {
      assert Owned([s], userId) == [s];
      ReverseAppend(before, [s]);
      assert Reverse([s]) == [s];
    } else {
      assert Owned([s], userId) == [];
      assert before + [] == before;
    }
  }

  lemma {:induction false} OwnedAppend(a: seq<Segment>, b: seq<Segment>, userId: Id)
    ensures Owned(a + b, userId) == Owned(a, userId) + Owned(b, userId)
  {
    if |a| > 0 {
      OwnedAppend(a[1..], b, userId);
      assert (a + b)[1..] == a[1..] + b;
    } else {
      assert a + b == b;
    }
  }

  lemma ReverseAppend(a: seq<Segment>, b: seq<Segment>)
    ensures Reverse(a + b) == Reverse(b) + Reverse(a)
  {
    var l := Reverse(a + b);
    var r := Reverse(b) + Reverse(a);
    forall k | 0 <= k < |l|
      ensures l[k] == r[k]
    {
      if k < |b| {
        assert l[k] == (a + b)[|a| + |b| - 1 - k] == b[|b| - 1 - k];
      } else {
        assert l[k] == (a + b)[|a| + |b| - 1 - k] == a[|a| + |b| - 1 - k];
      }
    }
  }

  /** Deleting a segment removes it from every lookup and leaves every other
      segment's lookup as before. */
  lemma LookupAfterDelete(segments: seq<Segment>, i: nat, id: Id, userId: Id)
    requires DistinctIds(segments) && i < |segments|
    ensures DistinctIds(segments[..i] + segments[i + 1..])
    ensures Lookup(segments[..i] + segments[i + 1..], segments[i].id, userId) == Failure(SegmentNotFound)
    ensures id != segments[i].id ==>
      Lookup(segments[..i] + segments[i + 1..], id, userId) == Lookup(segments, id, userId)
  {
    var rest := segments[..i] + segments[i + 1..];
    RemovedAt(segments, i);
    if id != segments[i].id {
      var a := IndexOf(rest, id);
      var b := IndexOf(segments, id);
      if b.Some? {
        assert a.Some? by {
          var k := if b.value < i then b.value else b.value - 1;
          assert rest[k].id == id;
        }
        var k := if a.value < i then a.value else a.value + 1;
        assert segments[k].id == id;
        assert segments[b.value] == rest[a.value];
      }
    }
  }

  /** The positions of a table with one segment removed. */
  lemma RemovedAt(segments: seq<Segment>, i: nat)
    requires DistinctIds(segments) && i < |segments|
    ensures var rest := segments[..i] + segments[i + 1..];
      && |rest| == |segments| - 1
      && (forall k :: 0 <= k < |rest| ==> rest[k] == segments[if k < i then k else k + 1])
      && DistinctIds(rest)
      && (forall k :: 0 <= k < |rest| ==> rest[k].id != segments[i].id)
  {
    var rest := segments[..i] + segments[i + 1..];
    forall k | 0 <= k < |rest|
      ensures rest[k] == segments[if k < i then k else k + 1]
    {
    }
  }
}

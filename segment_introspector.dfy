/**
 * The document segment types read from the graph: a module-level cache
 * filled on the first successful load, the segment-to-universe-field
 * mappings for RP and MFN, and the reference check run after each load.
 * Whether a driver is connected and what the query returns are inputs.
 */
module SegmentIntrospector {
  import opened Wrappers
  import opened Collections

  /** One document segment type; the universe fields are optional attributes. */
  datatype Segment = Segment(
    segmentTypeId: string,
    name: string,
    findDescription: string,
    displayOrder: int,
    rpUniverseField: Option<string>,
    mfnUniverseField: Option<string>)

  function DisplayKey(s: Segment): SortKey
  {
    SortKey(s.displayOrder, 0)
  }

  /** `s.get(field)` is truthy: present and not the empty string. */
  predicate Mapped(field: Option<string>)
  {
    field.Some? && field.value != ""
  }

  /** The two universes a segment can feed. */
  datatype Universe = RP | MFN

  function Field(s: Segment, u: Universe): Option<string>
  {
    match u
    case RP => s.rpUniverseField
    case MFN => s.mfnUniverseField
  }

  /** The (id, field) pairs of the segments whose field is truthy, in segment order. */
  function FieldPairs(segments: seq<Segment>, u: Universe): (ps: seq<(string, string)>)
    ensures |ps| <= |segments|
  {
    if segments == [] then []
    else
      var prev := FieldPairs(segments[..|segments| - 1], u);
      var s := segments[|segments| - 1];
      if Mapped(Field(s, u)) then prev + [(s.segmentTypeId, Field(s, u).value)] else prev
  }

  lemma {:induction false} FieldPairsMembers(segments: seq<Segment>, u: Universe)
    ensures forall p :: p in FieldPairs(segments, u) <==>
      exists s :: s in segments && Mapped(Field(s, u)) && p == (s.segmentTypeId, Field(s, u).value)
    decreases |segments|
  {
    if segments != [] {
      var init := segments[..|segments| - 1];
      var s := segments[|segments| - 1];
      FieldPairsMembers(init, u);
      assert segments == init + [s];
    }
  }

  /** A `{s["segment_type_id"]: s[field] for s in segments if s.get(field)}` comprehension: later segments overwrite earlier ones. */
  function Mapping(segments: seq<Segment>, u: Universe): (m: map<string, string>)
    ensures m.Keys <= KnownIds(segments)
  {
    FieldPairsMembers(segments, u);
    var ps := FieldPairs(segments, u);
    assert forall i :: 0 <= i < |ps| ==> ps[i] in ps;
    Updated(map[], ps)
  }

  function KnownIds(segments: seq<Segment>): set<string>
  {
    set s | s in segments :: s.segmentTypeId
  }

  /**
   * A mapping's keys are exactly the IDs of the segments whose field is
   * truthy, so they are known IDs, and each maps to the field of a segment
   * with that ID.
   */
  lemma MappingExact(segments: seq<Segment>, u: Universe)
    ensures var m := Mapping(segments, u);
      (forall id :: id in m <==> exists s :: s in segments && Mapped(Field(s, u)) && s.segmentTypeId == id) &&
      m.Keys <= KnownIds(segments) &&
      (forall id :: id in m ==> exists s :: s in segments && s.segmentTypeId == id && Field(s, u) == Some(m[id]))
  {
    var ps := FieldPairs(segments, u);
    var m := Mapping(segments, u);
    FieldPairsMembers(segments, u);
    forall id | id in m ensures exists s :: s in segments && Mapped(Field(s, u)) && s.segmentTypeId == id {
      var i :| 0 <= i < |ps| && ps[i].0 == id;
      assert ps[i] in ps;
    }
    forall id | (exists s :: s in segments && Mapped(Field(s, u)) && s.segmentTypeId == id) ensures id in m {
      var s :| s in segments && Mapped(Field(s, u)) && s.segmentTypeId == id;
      var p := (s.segmentTypeId, Field(s, u).value);
      assert p in ps;
      var i :| 0 <= i < |ps| && ps[i] == p;
    }
    forall id | id in m ensures exists s :: s in segments && s.segmentTypeId == id && Field(s, u) == Some(m[id]) {
      LastIndexOf(ps, id);
      var i :| 0 <= i < |ps| && ps[i].0 == id && forall j :: i < j < |ps| ==> ps[j].0 != id;
      assert ps[i] in ps;
    }
  }

  /** A key that occurs among the pairs has a last occurrence. */
  lemma LastIndexOf(ps: seq<(string, string)>, id: string)
    requires exists i :: 0 <= i < |ps| && ps[i].0 == id
    ensures exists i :: 0 <= i < |ps| && ps[i].0 == id && forall j :: i < j < |ps| ==> ps[j].0 != id
  {
    var k :| 0 <= k < |ps| && ps[k].0 == id;
    var i := k;
    while i + 1 < |ps| && exists j :: i < j < |ps| && ps[j].0 == id
      invariant k <= i < |ps| && ps[i].0 == id
      decreases |ps| - i
    {
      var j :| i < j < |ps| && ps[j].0 == id;
      i := j;
    }
  }

  /** What `validate_segment_references` finds: it skips with no known IDs, else reports the referenced and the missing IDs. */
  datatype Validation = Skipped | Checked(referenced: set<string>, missing: set<string>)

  /**
   * The reference check over the loaded segments: the referenced IDs are
   * the keys of both mappings, and since the mappings are built from the
   * same segments, none is ever missing.
   */
  function ValidateReferences(segments: seq<Segment>): (v: Validation)
    ensures v.Skipped? <==> segments == []
    ensures v.Checked? ==> v.missing == {} && v.referenced <= KnownIds(segments)
  {
    var known := KnownIds(segments);
    if known == {} then
      assert segments != [] ==> segments[0].segmentTypeId in known;
      Skipped
    else
      MappingExact(segments, RP);
      MappingExact(segments, MFN);
      var referenced := Mapping(segments, RP).Keys + Mapping(segments, MFN).Keys;
      Checked(referenced, referenced - known)
  }

  /** What a read returns: the cache, else the sorted load when connected and the query succeeds, else []. */
  function SegmentsAfter(cache: Option<seq<Segment>>, connected: bool, load: Result<seq<Segment>>): seq<Segment>
  {
    if cache.Some? then cache.value
    else if connected && load.Success? then SortBy(load.value, DisplayKey)
    else []
  }

  class SegmentCache {
    /** `_segment_cache`: None until the first successful load. */
    var segments: Option<seq<Segment>>

    constructor ()
      ensures segments.None?
    {
      segments := None;
    }

    /**
     * `get_segment_types`: the cache when there is one; otherwise, with no
     * driver or a failing query, [] and nothing cached (the next call
     * retries); a successful load is sorted by display order, cached and
     * checked.
     */
    method GetSegmentTypes(connected: bool, load: Result<seq<Segment>>) returns (result: seq<Segment>)
      modifies this
      ensures result == SegmentsAfter(old(segments), connected, load)
      ensures segments == if old(segments).None? && connected && load.Success? then Some(result) else old(segments)
      ensures old(segments).None? && connected && load.Success? ==>
        SortedBy(result, DisplayKey) && multiset(result) == multiset(load.value)
    {
      if segments.Some? {
        return segments.value;
      }
      if !connected {
        return [];
      }
      match load
      case Failure(_) =>
        return [];
      case Success(rows) =>
        var sorted := SortBy(rows, DisplayKey);
        segments := Some(sorted);
        var report := ValidateReferences(sorted);
        return sorted;
    }

    /** `get_rp_segment_mapping`: segment ID to RP universe field, for the segments that have one. */
    method GetRpSegmentMapping(connected: bool, load: Result<seq<Segment>>) returns (m: map<string, string>)
      modifies this
      ensures m == Mapping(SegmentsAfter(old(segments), connected, load), RP)
      ensures segments == if old(segments).None? && connected && load.Success? then Some(SegmentsAfter(old(segments), connected, load)) else old(segments)
    {
      var all := GetSegmentTypes(connected, load);
      m := Mapping(all, RP);
    }

    /** `get_mfn_segment_mapping`: segment ID to MFN universe field, for the segments that have one. */
    method GetMfnSegmentMapping(connected: bool, load: Result<seq<Segment>>) returns (m: map<string, string>)
      modifies this
      ensures m == Mapping(SegmentsAfter(old(segments), connected, load), MFN)
      ensures segments == if old(segments).None? && connected && load.Success? then Some(SegmentsAfter(old(segments), connected, load)) else old(segments)
    {
      var all := GetSegmentTypes(connected, load);
      m := Mapping(all, MFN);
    }

    /** `validate_segment_references`, reading the segments through the cache as the three nested reads do. */
    method ValidateSegmentReferences(connected: bool, load: Result<seq<Segment>>) returns (v: Validation)
      modifies this
      ensures v == ValidateReferences(SegmentsAfter(old(segments), connected, load))
      ensures v.Checked? ==> v.missing == {}
      ensures segments == if old(segments).None? && connected && load.Success? then Some(SegmentsAfter(old(segments), connected, load)) else old(segments)
    {
      var all := GetSegmentTypes(connected, load);
      var known := KnownIds(all);
      if known == {} {
        assert all != [] ==> all[0].segmentTypeId in known;
        return Skipped;
      }
      var rp := GetRpSegmentMapping(connected, load);
      var mfn := GetMfnSegmentMapping(connected, load);
      var referenced := rp.Keys + mfn.Keys;
      v := Checked(referenced, referenced - known);
    }

    /** `clear_cache`: the next read loads again. */
    method ClearCache()
      modifies this
      ensures segments.None?
      ensures forall connected, load :: SegmentsAfter(segments, connected, load) == SegmentsAfter(None, connected, load)
    {
      segments := None;
    }
  }
}

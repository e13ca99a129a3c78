/**
 * The lecture rows of the catalog and the helper that numbers a list of
 * topics into a plan.
 */
module Lectures {
  import opened Wrappers
  import opened Text

  /** A duration in hours, held as a whole number of tenths of an hour (1.5 hours is `Tenths(15)`). */
  datatype Duration = Tenths(tenths: nat)

  /** One scheduled session; an absent `notesUrl`/`dppUrl` means "not published yet", not an error. */
  datatype LectureRow = LectureRow(
    lecture: nat,
    topic: string,
    duration: Duration,
    notesUrl: Option<string>,
    dppUrl: Option<string>)

  /** A partial row that may supply resource links for one index; a missing link is `None`. */
  datatype Preset = Preset(notesUrl: Option<string>, dppUrl: Option<string>)

  datatype CourseType = School | College

  datatype SchoolBatch = English | Computers

  /**
   * `String(d)` for a duration that is a multiple of 0.1: the whole hours, then
   * a point and the tenths digit unless it is zero (JavaScript prints 2.0 as "2").
   */
  function DurationToString(d: Duration): (r: string)
    ensures d.tenths % 10 == 0 ==> r == NatToString(d.tenths / 10)
    ensures d.tenths % 10 != 0 ==>
      |r| >= 3 && r[..|r| - 2] == NatToString(d.tenths / 10) && r[|r| - 2] == '.'
      && IsDigit(r[|r| - 1]) && DigitValue(r[|r| - 1]) == d.tenths % 10
  {
    var whole := NatToString(d.tenths / 10);
    if d.tenths % 10 == 0 then whole else whole + "." + [DigitChar(d.tenths % 10)]
  }

  /** Two durations that print alike are the same duration. */
  lemma DurationToStringInjective(a: Duration, b: Duration)
    ensures DurationToString(a) == DurationToString(b) ==> a == b
  {
    var ra, rb := DurationToString(a), DurationToString(b);
    if ra == rb {
      // A printed whole number has no '.', so both sides have the same shape.
      NatToStringInjective(a.tenths / 10, b.tenths / 10);
    }
  }

  /** The notes link preset for index `i`, or `None` when there is no preset there (`presets?.[i]?.notesUrl ?? null`). */
  function PresetNotes(presets: seq<Preset>, i: nat): Option<string> {
    if i < |presets| then presets[i].notesUrl else None
  }

  /** The practice-problem link preset for index `i`, or `None`. */
  function PresetDpp(presets: seq<Preset>, i: nat): Option<string> {
    if i < |presets| then presets[i].dppUrl else None
  }

  /** `toLecturePlanFromTopics`: one row per topic, numbered from 1, all with the same duration. */
  function ToLecturePlanFromTopics(topics: seq<string>, defaultDuration: Duration, presets: seq<Preset>): (plan: seq<LectureRow>)
    ensures |plan| == |topics|
  {
    seq(|topics|, i requires 0 <= i < |topics| =>
      LectureRow(i + 1, topics[i], defaultDuration, PresetNotes(presets, i), PresetDpp(presets, i)))
  }

  /** The value `defaultDuration` takes when a caller leaves it out: 1.5 hours. */
  const DefaultDuration := Tenths(15)

  /** Row `i` of a plan carries lecture number `i + 1`. */
  ghost predicate IsNumbered(rows: seq<LectureRow>) {
    forall i :: 0 <= i < |rows| ==> rows[i].lecture == i + 1
  }

  /** The topics of a list of rows, in order. */
  function Topics(rows: seq<LectureRow>): (ts: seq<string>)
    ensures |ts| == |rows|
    ensures forall k :: 0 <= k < |rows| ==> ts[k] == rows[k].topic
  {
    if rows == [] then [] else [rows[0].topic] + Topics(rows[1..])
  }

  /** Each row of a built plan: its number, its topic, the uniform duration and the preset links. */
  lemma PlanRowAt(topics: seq<string>, d: Duration, presets: seq<Preset>, i: nat)
    requires i < |topics|
    ensures var row := ToLecturePlanFromTopics(topics, d, presets)[i];
      && row.lecture == i + 1 && row.topic == topics[i] && row.duration == d
      && (i < |presets| ==> row.notesUrl == presets[i].notesUrl && row.dppUrl == presets[i].dppUrl)
      && (i >= |presets| ==> row.notesUrl == None && row.dppUrl == None)
  {
  }

  /** A built plan is numbered 1, 2, ..., the numbers are unique, and it gives back exactly its topics. */
  lemma PlanWellFormed(topics: seq<string>, d: Duration, presets: seq<Preset>)
    ensures var plan := ToLecturePlanFromTopics(topics, d, presets);
      && IsNumbered(plan)
      && (forall i, j :: 0 <= i < |plan| && 0 <= j < |plan| && plan[i].lecture == plan[j].lecture ==> i == j)
      && Topics(plan) == topics
  {
  }

  /** With no presets, or presets only for a prefix of the topics, the remaining rows have no links. */
  lemma NoPresetsNoLinks(topics: seq<string>, d: Duration, presets: seq<Preset>)
    ensures var plan := ToLecturePlanFromTopics(topics, d, presets);
      forall i :: |presets| <= i < |plan| ==> plan[i].notesUrl == None && plan[i].dppUrl == None
  {
  }
}

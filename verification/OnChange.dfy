/** The on-change sampler of one generation: change detection and the shortest
    interval between two rows of a tag (apps/banto-hub-sink/src/group.rs). */
module OnChange {
  import opened Rows

  datatype Sample = Sample(value: Option<FloatBits>, quality: string, ptimeMs: int)

  /** What the subscription last delivered. */
  datatype ValueView = ValueView(live: bool, values: map<string, Sample>) {
    function Get(name: string): Option<Sample> {
      if live && name in values then Some(values[name]) else None
    }
  }

  datatype TagRef = TagRef(tagId: int, externalName: string)

  /** Two samples are the same to the gate if their bits and qualities are. */
  datatype Key = Key(value: Option<FloatBits>, quality: string)

  datatype Settings = Settings(tags: seq<TagRef>, storeBad: bool, intervalMs: int)

  /** A row and when it was emitted. */
  datatype Emission = Emission(row: Row, at: int) {
    function Pair(): Key { Key(row.value, row.quality) }
  }

  const I64_MIN: int := -0x8000_0000_0000_0000
  const I64_MAX: int := 0x7FFF_FFFF_FFFF_FFFF

  predicate InI64(x: int) { I64_MIN <= x <= I64_MAX }

  /** `i64::saturating_sub`. */
  function SatSub(a: int, b: int): int { Max(I64_MIN, Min(I64_MAX, a - b)) }

  predicate IsStorable(quality: string, storeBad: bool) { storeBad || quality == "good" }

  function RowTs(ptimeMs: int, nowMs: int): int { if ptimeMs > 0 then ptimeMs else nowMs }

  function KeyOf(s: Sample): Key { Key(s.value, s.quality) }

  function RowOf(tag: TagRef, s: Sample, nowMs: int): Row {
    Row(RowTs(s.ptimeMs, nowMs), tag.tagId, tag.externalName, s.value, s.quality)
  }

  // --- The gate -------------------------------------------------------------------

  datatype Gate = Gate(emitted: map<int, Key>, emittedAt: map<int, int>) {
    predicate Admits(tagId: int, key: Key, nowMs: int, intervalMs: int) {
      && !(tagId in emitted && emitted[tagId] == key)
      && !(tagId in emittedAt && SatSub(nowMs, emittedAt[tagId]) < intervalMs)
    }

    function Noting(tagId: int, key: Key, nowMs: int): Gate {
      Gate(emitted[tagId := key], emittedAt[tagId := nowMs])
    }
  }

  class OnChangeGate {
    var lastEmitted: map<int, Key>
    var lastEmittedAt: map<int, int>

    function State(): Gate
      reads this
    {
      Gate(lastEmitted, lastEmittedAt)
    }

    constructor ()
      ensures State() == Gate(map[], map[])
    {
      lastEmitted, lastEmittedAt := map[], map[];
    }

    /** `admit`: what is admitted is remembered, what is not changes nothing, so a
        change that comes too early is still a change later. */
    method Admit(tagId: int, value: Option<FloatBits>, quality: string, nowMs: int, intervalMs: int) returns (admitted: bool)
      modifies this
      ensures admitted == old(State()).Admits(tagId, Key(value, quality), nowMs, intervalMs)
      ensures State() == if admitted then old(State()).Noting(tagId, Key(value, quality), nowMs) else old(State())
    {
      var key := Key(value, quality);
      if tagId in lastEmitted && lastEmitted[tagId] == key {
        return false;
      }
      if tagId in lastEmittedAt {
        var previous := lastEmittedAt[tagId];
        if SatSub(nowMs, previous) < intervalMs {
          return false;
        }
      }
      lastEmitted := lastEmitted[tagId := key];
      lastEmittedAt := lastEmittedAt[tagId := nowMs];
      admitted := true;
    }
  }

  // --- One evaluation ---------------------------------------------------------------

  /** The sample of a tag, if there is one to store. */
  function Storable(view: ValueView, tag: TagRef, storeBad: bool): (sample: Option<Sample>)
    ensures sample.Some? <==>
              && view.live && tag.externalName in view.values
              && (view.values[tag.externalName].quality == "good" || storeBad)
    ensures sample.Some? ==> sample.value == view.values[tag.externalName]
  {
    var sample := view.Get(tag.externalName);
    if sample.Some? && IsStorable(sample.value.quality, storeBad) then sample else None
  }

  /** The gate and the rows after the first `n` tags. */
  function Evaluated(gate: Gate, view: ValueView, s: Settings, nowMs: int, n: nat): (Gate, seq<Row>)
    requires n <= |s.tags|
  {
    if n == 0 then (gate, [])
    else
      var (before, rows) := Evaluated(gate, view, s, nowMs, n - 1);
      var tag := s.tags[n - 1];
      var sample := Storable(view, tag, s.storeBad);
      if sample.Some? && before.Admits(tag.tagId, KeyOf(sample.value), nowMs, s.intervalMs) then
        (before.Noting(tag.tagId, KeyOf(sample.value), nowMs), rows + [RowOf(tag, sample.value, nowMs)])
      else (before, rows)
  }

  /** `sample_on_change`. */
  method SampleOnChange(gate: OnChangeGate, view: ValueView, s: Settings, nowMs: int) returns (rows: seq<Row>)
    modifies gate
    ensures (gate.State(), rows) == Evaluated(old(gate.State()), view, s, nowMs, |s.tags|)
  {
    rows := [];
    for i := 0 to |s.tags|
      invariant (gate.State(), rows) == Evaluated(old(gate.State()), view, s, nowMs, i)
    {
      var tag := s.tags[i];
      var sample := view.Get(tag.externalName);
      if sample.None? || !IsStorable(sample.value.quality, s.storeBad) {
        continue;
      }
      var admitted := gate.Admit(tag.tagId, sample.value.value, sample.value.quality, nowMs, s.intervalMs);
      if admitted {
        rows := rows + [RowOf(tag, sample.value, nowMs)];
      }
    }
  }

  // --- A whole generation -------------------------------------------------------------

  datatype Evaluation = Evaluation(view: ValueView, nowMs: int)

  function Stamped(rows: seq<Row>, at: int): (emissions: seq<Emission>)
    ensures |emissions| == |rows| && forall i :: 0 <= i < |rows| ==> emissions[i] == Emission(rows[i], at)
  {
    seq(|rows|, i requires 0 <= i < |rows| => Emission(rows[i], at))
  }

  /** The gate and everything emitted after a sequence of evaluations. */
  function Generation(s: Settings, evaluations: seq<Evaluation>): (Gate, seq<Emission>) {
    if evaluations == [] then (Gate(map[], map[]), [])
    else
      var last := evaluations[|evaluations| - 1];
      var (gate, stream) := Generation(s, evaluations[..|evaluations| - 1]);
      var (after, rows) := Evaluated(gate, last.view, s, last.nowMs, |s.tags|);
      (after, stream + Stamped(rows, last.nowMs))
  }

  /** The evaluations of the loop in `run_on_change_producer`, on the real gate. */
  method RunOnChange(s: Settings, evaluations: seq<Evaluation>) returns (stream: seq<Emission>)
    ensures stream == Generation(s, evaluations).1
  {
    var gate := new OnChangeGate();
    stream := [];
    for i := 0 to |evaluations|
      invariant (gate.State(), stream) == Generation(s, evaluations[..i])
    {
      assert evaluations[..i + 1][..i] == evaluations[..i];
      var rows := SampleOnChange(gate, evaluations[i].view, s, evaluations[i].nowMs);
      stream := stream + Stamped(rows, evaluations[i].nowMs);
    }
    assert evaluations[..|evaluations|] == evaluations;
  }

  /** Emission `e` is the sample of `tag` that the view held then, column by column. */
  predicate TakenFrom(e: Emission, tag: TagRef, taken: Evaluation, storeBad: bool) {
    && taken.view.live && tag.externalName in taken.view.values && e.at == taken.nowMs
    && var sample := taken.view.values[tag.externalName];
       && e.row.tagId == tag.tagId && e.row.externalName == tag.externalName
       && e.row.value == sample.value && e.row.quality == sample.quality
       && (sample.ptimeMs > 0 ==> e.row.tsMs == sample.ptimeMs)
       && (sample.ptimeMs <= 0 ==> e.row.tsMs == taken.nowMs)
       && (sample.quality != "good" ==> storeBad)
  }

  ghost predicate TakenThen(e: Emission, s: Settings, taken: Evaluation) { exists tag :: tag in s.tags && TakenFrom(e, tag, taken, s.storeBad) }

  ghost predicate IsTaken(e: Emission, s: Settings, evaluations: seq<Evaluation>) {
    exists k :: 0 <= k < |evaluations| && TakenThen(e, s, evaluations[k])
  }

  lemma {:induction false} EvaluationTakes(gate: Gate, taken: Evaluation, s: Settings, n: nat)
    requires n <= |s.tags|
    ensures var rows := Evaluated(gate, taken.view, s, taken.nowMs, n).1;
            forall row :: row in rows ==> TakenThen(Emission(row, taken.nowMs), s, taken)
  {
    if n > 0 {
      EvaluationTakes(gate, taken, s, n - 1);
      var tag := s.tags[n - 1];
      var sample := Storable(taken.view, tag, s.storeBad);
      if sample.Some? {
        assert TakenFrom(Emission(RowOf(tag, sample.value, taken.nowMs), taken.nowMs), tag, taken, s.storeBad);
      }
    }
  }

  /** Every row that is ever emitted is a storable sample of one of the tags, with its
      own columns and its own time, or the time of the evaluation if it has none. */
  lemma {:induction false} EveryRowIsASample(s: Settings, evaluations: seq<Evaluation>)
    ensures forall e :: e in Generation(s, evaluations).1 ==> IsTaken(e, s, evaluations)
  {
    if evaluations != [] {
      var n := |evaluations| - 1;
      var (gate, stream) := Generation(s, evaluations[..n]);
      var rows := Evaluated(gate, evaluations[n].view, s, evaluations[n].nowMs, |s.tags|).1;
      EveryRowIsASample(s, evaluations[..n]);
      EvaluationTakes(gate, evaluations[n], s, |s.tags|);
      forall e | e in Generation(s, evaluations).1 ensures IsTaken(e, s, evaluations) {
        if e in stream {
          assert IsTaken(e, s, evaluations[..n]);
          var k :| 0 <= k < n && TakenThen(e, s, evaluations[..n][k]);
          assert TakenThen(e, s, evaluations[k]);
        } else {
          var i :| 0 <= i < |rows| && Stamped(rows, evaluations[n].nowMs)[i] == e;
          assert rows[i] in rows && e == Emission(rows[i], evaluations[n].nowMs);
          assert TakenThen(e, s, evaluations[n]);
        }
      }
    }
  }

  /** The last emission of a tag. */
  function LastOf(stream: seq<Emission>, tagId: int): Option<Emission> {
    if stream == [] then None
    else if stream[|stream| - 1].row.tagId == tagId then Some(stream[|stream| - 1])
    else LastOf(stream[..|stream| - 1], tagId)
  }

  /** `later` may follow `earlier` in the stream of a tag. */
  predicate Apart(earlier: Emission, later: Emission, intervalMs: int) {
    earlier.Pair() != later.Pair() && later.at - earlier.at >= intervalMs
  }

  /** Every emission is apart from the previous one of its tag. */
  ghost predicate Spaced(stream: seq<Emission>, intervalMs: int) {
    forall j :: 0 <= j < |stream| ==> FollowsWell(stream, j, intervalMs)
  }

  ghost predicate FollowsWell(stream: seq<Emission>, j: nat, intervalMs: int)
    requires j < |stream|
  {
    var previous := LastOf(stream[..j], stream[j].row.tagId);
    previous.Some? ==> Apart(previous.value, stream[j], intervalMs)
  }

  /** What the gate remembers is the last emission of each tag. */
  ghost predicate Remembers(gate: Gate, stream: seq<Emission>) {
    forall id :: Memory(gate, id) == RememberedOf(LastOf(stream, id))
  }

  function Memory(gate: Gate, id: int): (Option<Key>, Option<int>) {
    (if id in gate.emitted then Some(gate.emitted[id]) else None,
     if id in gate.emittedAt then Some(gate.emittedAt[id]) else None)
  }

  function RememberedOf(last: Option<Emission>): (Option<Key>, Option<int>) {
    if last.Some? then (Some(last.value.Pair()), Some(last.value.at)) else (None, None)
  }

  /** Saturating does not change the comparison. */
  lemma SaturationIsExact(a: int, b: int, intervalMs: int)
    requires InI64(intervalMs) && 0 <= intervalMs
    ensures SatSub(a, b) < intervalMs <==> a - b < intervalMs
  {
  }

  lemma Emitting(gate: Gate, stream: seq<Emission>, tag: TagRef, sample: Sample, nowMs: int, intervalMs: int)
    requires Remembers(gate, stream) && Spaced(stream, intervalMs) && InI64(intervalMs) && 0 <= intervalMs
    requires gate.Admits(tag.tagId, KeyOf(sample), nowMs, intervalMs)
    ensures var more := stream + [Emission(RowOf(tag, sample, nowMs), nowMs)];
            Remembers(gate.Noting(tag.tagId, KeyOf(sample), nowMs), more) && Spaced(more, intervalMs)
  {
    var one := Emission(RowOf(tag, sample, nowMs), nowMs);
    var more := stream + [one];
    assert more[..|stream|] == stream;
    assert Memory(gate, tag.tagId) == RememberedOf(LastOf(stream, tag.tagId));
    if tag.tagId in gate.emittedAt {
      SaturationIsExact(nowMs, gate.emittedAt[tag.tagId], intervalMs);
    }
    forall j | 0 <= j < |more| ensures FollowsWell(more, j, intervalMs) {
      if j < |stream| {
        assert FollowsWell(stream, j, intervalMs);
        assert more[..j] == stream[..j];
      }
    }
    forall id ensures Memory(gate.Noting(tag.tagId, KeyOf(sample), nowMs), id) == RememberedOf(LastOf(more, id)) {
      assert Memory(gate, id) == RememberedOf(LastOf(stream, id));
    }
  }

  lemma {:induction false} EvaluationSpaced(gate: Gate, stream: seq<Emission>, view: ValueView, s: Settings, nowMs: int, n: nat)
    requires n <= |s.tags| && InI64(s.intervalMs) && 0 <= s.intervalMs
    requires Remembers(gate, stream) && Spaced(stream, s.intervalMs)
    ensures var (after, rows) := Evaluated(gate, view, s, nowMs, n);
            var more := stream + Stamped(rows, nowMs);
            Remembers(after, more) && Spaced(more, s.intervalMs)
  {
    if n == 0 {
      assert stream + Stamped([], nowMs) == stream;
    } else {
      EvaluationSpaced(gate, stream, view, s, nowMs, n - 1);
      var (before, rows) := Evaluated(gate, view, s, nowMs, n - 1);
      var more := stream + Stamped(rows, nowMs);
      var tag := s.tags[n - 1];
      var sample := Storable(view, tag, s.storeBad);
      if sample.Some? && before.Admits(tag.tagId, KeyOf(sample.value), nowMs, s.intervalMs) {
        Emitting(before, more, tag, sample.value, nowMs, s.intervalMs);
        var row := RowOf(tag, sample.value, nowMs);
        assert stream + Stamped(rows + [row], nowMs) == more + [Emission(row, nowMs)];
      }
    }
  }

  /** Whatever the snapshots and clock readings, also backwards ones, the gate
      knows the last emission of every tag, and two consecutive rows of a tag
      differ in bits or quality and are at least the interval apart. */
  lemma {:induction false} StreamIsSpaced(s: Settings, evaluations: seq<Evaluation>)
    requires InI64(s.intervalMs) && 0 <= s.intervalMs
    ensures Remembers(Generation(s, evaluations).0, Generation(s, evaluations).1)
    ensures Spaced(Generation(s, evaluations).1, s.intervalMs)
  {
    if evaluations != [] {
      var before := evaluations[..|evaluations| - 1];
      var last := evaluations[|evaluations| - 1];
      StreamIsSpaced(s, before);
      EvaluationSpaced(Generation(s, before).0, Generation(s, before).1, last.view, s, last.nowMs, |s.tags|);
    }
  }

  ghost predicate UniqueTags(s: Settings) {
    forall i, j :: 0 <= i < j < |s.tags| ==> s.tags[i].tagId != s.tags[j].tagId
  }

  /** Only tag `k` can change what the gate remembers of tag `k`. */
  lemma {:induction false} OwnTagDecides(gate: Gate, view: ValueView, s: Settings, nowMs: int, n: nat, k: nat)
    requires n <= |s.tags| && k < |s.tags| && UniqueTags(s)
    ensures var sample := Storable(view, s.tags[k], s.storeBad);
            var id := s.tags[k].tagId;
            Memory(Evaluated(gate, view, s, nowMs, n).0, id)
            == if k < n && sample.Some? && gate.Admits(id, KeyOf(sample.value), nowMs, s.intervalMs)
               then (Some(KeyOf(sample.value)), Some(nowMs)) else Memory(gate, id)
  {
    if n > 0 {
      OwnTagDecides(gate, view, s, nowMs, n - 1, k);
      if n - 1 != k {
        assert s.tags[n - 1].tagId != s.tags[k].tagId;
      } else {
        var before := Evaluated(gate, view, s, nowMs, n - 1).0;
        assert Memory(before, s.tags[k].tagId) == Memory(gate, s.tags[k].tagId);
      }
    }
  }

  /** A change may be delayed but is not lost: after an evaluation the last row of
      a tag is its current storable sample exactly if it was before, if there was
      no row yet, or if the interval has passed since. */
  lemma CurrentUnlessThrottled(s: Settings, evaluations: seq<Evaluation>, last: Evaluation, k: nat)
    requires InI64(s.intervalMs) && 0 <= s.intervalMs && UniqueTags(s) && k < |s.tags|
    requires Storable(last.view, s.tags[k], s.storeBad).Some?
    ensures var id := s.tags[k].tagId;
            var current := KeyOf(Storable(last.view, s.tags[k], s.storeBad).value);
            var before := LastOf(Generation(s, evaluations).1, id);
            var after := LastOf(Generation(s, evaluations + [last]).1, id);
            after.Some? && (after.value.Pair() == current
                            <==> before.None? || before.value.Pair() == current || last.nowMs - before.value.at >= s.intervalMs)
  {
    var id := s.tags[k].tagId;
    var more := evaluations + [last];
    assert more[..|more| - 1] == evaluations;
    StreamIsSpaced(s, evaluations);
    StreamIsSpaced(s, more);
    var gate, after := Generation(s, evaluations).0, Generation(s, more).0;
    OwnTagDecides(gate, last.view, s, last.nowMs, |s.tags|, k);
    assert Memory(gate, id) == RememberedOf(LastOf(Generation(s, evaluations).1, id));
    assert Memory(after, id) == RememberedOf(LastOf(Generation(s, more).1, id));
  }
}

/** One running generation of a sink group: its configuration, the queue it may
    share with the previous generation, and the status the Hub sees
    (apps/banto-hub-sink/src/group.rs). */
module Groups {
  import opened Rows
  import opened RowQueues
  import opened Plans

  datatype GroupState = Running | Backoff | Error

  datatype SetupError = UnknownMode | InvalidTableName | NoTags

  predicate IsLetter(c: char) { 'a' <= c <= 'z' || 'A' <= c <= 'Z' || c == '_' }

  predicate IsSegment(s: string) {
    0 < |s| <= 63 && IsLetter(s[0]) && forall i :: 0 < i < |s| ==> IsLetter(s[i]) || '0' <= s[i] <= '9'
  }

  /** `split('.')`. */
  function Segments(s: string): (segments: seq<string>)
    ensures segments != []
    ensures |segments| == 1 ==> segments[0] == s && '.' !in s
  {
    if s == [] then [[]]
    else
      var later := Segments(s[1..]);
      if s[0] == '.' then [[]] + later else [[s[0]] + later[0]] + later[1..]
  }

  /** `is_valid_table_name`. */
  predicate IsTableName(s: string) {
    var segments := Segments(s);
    |segments| <= 2 && forall segment :: segment in segments ==> IsSegment(segment)
  }

  lemma {:induction false} TwoSegments(s: string)
    ensures |Segments(s)| == 2 <==> exists i :: CutAt(s, i) && '.' !in s[..i] && '.' !in s[i + 1..]
    ensures forall i :: CutAt(s, i) && '.' !in s[..i] && '.' !in s[i + 1..] ==> Segments(s) == [s[..i], s[i + 1..]]
  {
    if s != [] {
      TwoSegments(s[1..]);
      if s[0] == '.' {
        OneSegment(s[1..]);
        assert CutAt(s, 0) && s[..0] == [];
        if |Segments(s)| == 2 {
          assert '.' !in s[..0] && '.' !in s[0 + 1..];
        }
        forall i | CutAt(s, i) && i > 0 ensures '.' in s[..i] {
          assert s[..i][0] == '.';
        }
      } else {
        if |Segments(s)| == 2 {
          var i :| CutAt(s[1..], i) && '.' !in s[1..][..i] && '.' !in s[1..][i + 1..];
          assert CutAt(s, i + 1) && s[..i + 1] == [s[0]] + s[1..][..i] && s[i + 1 + 1..] == s[1..][i + 1..];
        }
        forall i | CutAt(s, i) && '.' !in s[..i] && '.' !in s[i + 1..] ensures Segments(s) == [s[..i], s[i + 1..]] {
          assert s[..i] == [s[0]] + s[1..][..i - 1] && s[i + 1..] == s[1..][i - 1 + 1..];
          assert CutAt(s[1..], i - 1);
        }
      }
    }
  }

  predicate CutAt(s: string, i: int) { 0 <= i < |s| && s[i] == '.' }

  lemma {:induction false} OneSegment(s: string)
    ensures |Segments(s)| == 1 <==> '.' !in s
  {
    if s != [] {
      OneSegment(s[1..]);
    }
  }

  lemma SegmentHasNoDot(s: string)
    requires IsSegment(s)
    ensures '.' !in s
  {
  }

  ghost predicate TwoParts(s: string, i: int) { CutAt(s, i) && IsSegment(s[..i]) && IsSegment(s[i + 1..]) }

  lemma TwoPartsIff(s: string)
    ensures |Segments(s)| == 2 && IsTableName(s) <==> exists i :: TwoParts(s, i)
  {
    TwoSegments(s);
    if |Segments(s)| == 2 && IsTableName(s) {
      var i :| CutAt(s, i) && '.' !in s[..i] && '.' !in s[i + 1..];
      assert Segments(s) == [s[..i], s[i + 1..]] && Segments(s)[0] in Segments(s) && Segments(s)[1] in Segments(s);
      assert TwoParts(s, i);
    }
    if i :| TwoParts(s, i) {
      SegmentHasNoDot(s[..i]);
      SegmentHasNoDot(s[i + 1..]);
      assert CutAt(s, i) && '.' !in s[..i] && '.' !in s[i + 1..];
    }
  }

  /** `table` or `schema.table`, and nothing else. */
  lemma TableNameIff(s: string)
    ensures IsTableName(s) <==> IsSegment(s) || exists i :: TwoParts(s, i)
  {
    OneSegment(s);
    TwoPartsIff(s);
    if IsSegment(s) {
      SegmentHasNoDot(s);
    }
    if |Segments(s)| == 1 && IsTableName(s) {
      assert Segments(s)[0] in Segments(s);
    }
  }

  /** So a name that is put between quotes holds no quote. */
  lemma TableNameIsPlain(s: string)
    requires IsTableName(s)
    ensures forall c :: c in s ==> IsLetter(c) || '0' <= c <= '9' || c == '.'
  {
    TableNameIff(s);
    if i :| TwoParts(s, i) {
      assert s == s[..i] + [s[i]] + s[i + 1..];
    }
  }

  /** Why `with_queue` refuses a configuration, in the order it looks. */
  function SetupProblem(config: GroupConfig): (problem: Option<SetupError>)
    ensures problem == Some(UnknownMode) <==> config.mode !in ["interval", "on_change"]
    ensures problem == Some(InvalidTableName) <==> config.mode in ["interval", "on_change"] && !IsTableName(config.tableName)
    ensures problem.None? <==> config.mode in ["interval", "on_change"] && IsTableName(config.tableName) && |config.tags| > 0
  {
    if config.mode != "interval" && config.mode != "on_change" then Some(UnknownMode)
    else if !IsTableName(config.tableName) then Some(InvalidTableName)
    else if config.tags == [] then Some(NoTags)
    else None
  }

  class GroupRuntime {
    const config: GroupConfig
    const queue: RowQueue
    var state: GroupState
    var tableReady: bool
    var nextCheckAt: Option<int>
    var lastFlushAt: Option<int>
    var lastError: Option<string>

    /** A new generation starts unchecked, also when it inherits its queue. */
    constructor WithQueue(config: GroupConfig, queue: RowQueue)
      requires SetupProblem(config).None?
      ensures this.config == config && this.queue == queue
      ensures state == Running && !tableReady && nextCheckAt == None && lastFlushAt == None && lastError == None
    {
      this.config, this.queue := config, queue;
      state, tableReady, nextCheckAt, lastFlushAt, lastError := Running, false, None, None, None;
    }

    method MarkFlushed(now: int)
      modifies this
      ensures state == Running && lastFlushAt == Some(now) && lastError == None
      ensures tableReady == old(tableReady) && nextCheckAt == old(nextCheckAt)
    {
      state, lastFlushAt, lastError := Running, Some(now), None;
    }

    /** A connection-level failure: the table must be checked again. */
    method MarkBackoff(message: string)
      modifies this
      ensures state == Backoff && !tableReady && lastError == Some(message)
      ensures nextCheckAt == old(nextCheckAt) && lastFlushAt == old(lastFlushAt)
    {
      state, lastError, tableReady := Backoff, Some(message), false;
    }

    /** A group-level failure: checked again only after `recheck`. */
    method MarkError(message: string, now: int, recheck: nat)
      modifies this
      ensures state == Error && !tableReady && lastError == Some(message) && nextCheckAt == Some(now + recheck)
      ensures lastFlushAt == old(lastFlushAt)
    {
      state, lastError, tableReady, nextCheckAt := Error, Some(message), false, Some(now + recheck);
    }

    method MarkTableReady()
      modifies this
      ensures state == Running && tableReady && lastError == None && nextCheckAt == None
      ensures lastFlushAt == old(lastFlushAt)
    {
      tableReady, state, lastError, nextCheckAt := true, Running, None, None;
    }

    predicate MayCheckTable(now: int)
      reads this
    {
      nextCheckAt.None? || now >= nextCheckAt.value
    }
  }
}

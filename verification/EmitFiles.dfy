/** One producer writing an event file with nobody else in the directory. */
module EmitFiles {
  import LaneEventLog
  import opened Options

  /** The fields of a job record; `rest` are the other compared ones, `stamp` those a comparison leaves out. */
  datatype JobRecord = JobRecord(kind: string, job: string, epoch: nat, reportPath: string, reason: string,
                                 question: string, rest: seq<string>, stamp: string)

  /** One name in the listing: its sequence number if it has one, and its record if it is a readable event file. */
  datatype Listed<T> = Listed(sequence: Option<nat>, record: Option<T>)

  datatype Verdict = Reuse(at: nat) | Conflict | Fresh

  // ---------------------------------------------------------------- job events

  predicate SameKey(a: JobRecord, b: JobRecord) {
    a.kind == b.kind && a.job == b.job && a.epoch == b.epoch && a.reportPath == b.reportPath && a.reason == b.reason
  }

  /** emitDedupeRecord.matches. */
  predicate Matches(a: JobRecord, b: JobRecord) {
    a == b.(job := a.job, stamp := a.stamp)
  }

  /** The file decides the write: it has the record's key, and is not a different question or a different loss. */
  predicate Decides(f: Listed<JobRecord>, r: JobRecord) {
    f.record.Some? && SameKey(f.record.value, r) &&
    !(r.kind == "job.escalate" && r.reportPath == "" && f.record.value.question != r.question) &&
    !(r.kind == "job.lost" && !Matches(f.record.value, r))
  }

  function Decision(files: seq<Listed<JobRecord>>, r: JobRecord): Verdict {
    if files == [] then Fresh
    else
      var before := Decision(files[..|files| - 1], r);
      if before != Fresh || !Decides(files[|files| - 1], r) then before
      else if Matches(files[|files| - 1].record.value, r) then Reuse(|files| - 1)
      else Conflict
  }

  /** The highest sequence in a listing. */
  function Highest<T>(files: seq<Listed<T>>): nat {
    if files == [] then 0
    else
      var before := Highest(files[..|files| - 1]);
      var last := files[|files| - 1].sequence;
      if last.Some? && last.value > before then last.value else before
  }

  lemma {:induction false} HighestIsTop<T>(files: seq<Listed<T>>)
    ensures forall i | 0 <= i < |files| && files[i].sequence.Some? :: files[i].sequence.value <= Highest(files)
  {
    if files != [] { HighestIsTop(files[..|files| - 1]); }
  }

  /** File i is the first that decides the write. */
  predicate FirstDeciding(files: seq<Listed<JobRecord>>, r: JobRecord, i: nat) {
    i < |files| && Decides(files[i], r) && forall j | 0 <= j < i :: !Decides(files[j], r)
  }

  lemma FirstPush(files: seq<Listed<JobRecord>>, r: JobRecord, i: nat)
    requires i < |files| - 1
    ensures FirstDeciding(files, r, i) <==> FirstDeciding(files[..|files| - 1], r, i)
  {
  }

  /** The file that decides first is the one the write is judged by. */
  lemma {:induction false} DecidedBy(files: seq<Listed<JobRecord>>, r: JobRecord, i: nat)
    requires FirstDeciding(files, r, i)
    ensures Decision(files, r) == (if Matches(files[i].record.value, r) then Reuse(i) else Conflict)
  {
    if i < |files| - 1 {
      FirstPush(files, r, i);
      DecidedBy(files[..|files| - 1], r, i);
    } else {
      Undecided(files[..|files| - 1], r);
    }
  }

  lemma {:induction false} Undecided(files: seq<Listed<JobRecord>>, r: JobRecord)
    requires forall i | 0 <= i < |files| :: !Decides(files[i], r)
    ensures Decision(files, r) == Fresh
  {
    if files != [] { Undecided(files[..|files| - 1], r); }
  }

  lemma {:induction false} SomeDecides(files: seq<Listed<JobRecord>>, r: JobRecord, k: nat) returns (i: nat)
    requires k < |files| && Decides(files[k], r)
    ensures FirstDeciding(files, r, i)
  {
    i := k;
    if j :| 0 <= j < k && Decides(files[j], r) { i := SomeDecides(files, r, j); }
  }

  /** The first file that decides the write reuses it or refuses it, and without one the write is fresh. */
  lemma DecisionMeans(files: seq<Listed<JobRecord>>, r: JobRecord)
    ensures Decision(files, r) == Fresh <==> forall i | 0 <= i < |files| :: !Decides(files[i], r)
    ensures forall i: nat :: Decision(files, r) == Reuse(i) <==> FirstDeciding(files, r, i) && Matches(files[i].record.value, r)
    ensures Decision(files, r) == Conflict <==>
      exists i: nat :: FirstDeciding(files, r, i) && !Matches(files[i].record.value, r)
  {
    if k: nat :| k < |files| && Decides(files[k], r) {
      var i := SomeDecides(files, r, k);
      DecidedBy(files, r, i);
    } else {
      Undecided(files, r);
    }
  }

  class JobDirectory {
    /** The directory in listing order. */
    var files: seq<Listed<JobRecord>>

    constructor ()
      ensures files == []
    {
      files := [];
    }

    /** writeEmitRecord; `place` is where the new name sorts, `fits` whether the record can be read back. */
    method Write(r: JobRecord, place: nat, fits: bool) returns (v: Verdict)
      requires place <= |files|
      modifies this
      ensures v == Decision(old(files), r)
      ensures v != Fresh ==> files == old(files)
      ensures v == Fresh ==>
        files == old(files)[..place] + [Listed(Some(Highest(old(files)) + 1), if fits then Some(r) else None)] + old(files)[place..]
    {
      var highest := 0;
      for i := 0 to |files|
        invariant files == old(files)
        invariant highest == Highest(files[..i])
        invariant Decision(files[..i], r) == Fresh
      {
        var f := files[i];
        assert files[..i + 1][..i] == files[..i];
        if f.sequence.Some? && f.sequence.value > highest { highest := f.sequence.value; }
        if Decides(f, r) {
          var later := if Matches(f.record.value, r) then Reuse(i) else Conflict;
          assert Decision(files[..i + 1], r) == later;
          DecidedEarly(files, r, i + 1);
          return later;
        }
      }
      assert files[..|files|] == files;
      files := files[..place] + [Listed(Some(highest + 1), if fits then Some(r) else None)] + files[place..];
      return Fresh;
    }
  }

  lemma {:induction false} DecidedEarly(files: seq<Listed<JobRecord>>, r: JobRecord, i: nat)
    requires i <= |files| && Decision(files[..i], r) != Fresh
    ensures Decision(files, r) == Decision(files[..i], r)
    decreases |files|
  {
    if i == |files| {
      assert files[..i] == files;
    } else {
      assert files[..|files| - 1][..i] == files[..i];
      DecidedEarly(files[..|files| - 1], r, i);
    }
  }

  /** Once a readable record is on disk, writing it again finds that very file, wherever its name sorts. */
  lemma WriteAgain(files: seq<Listed<JobRecord>>, r: JobRecord, place: nat, seqno: nat)
    requires place <= |files| && Decision(files, r) == Fresh
    ensures Decision(files[..place] + [Listed(Some(seqno), Some(r))] + files[place..], r) == Reuse(place)
  {
    DecisionMeans(files, r);
    DecidedBy(files[..place] + [Listed(Some(seqno), Some(r))] + files[place..], r, place);
  }

  /** Two losses that differ, and two questions without a report, are two events; any other same-key difference is a conflict. */
  lemma SecondRecord(files: seq<Listed<JobRecord>>, k: nat, first: JobRecord, second: JobRecord)
    requires k < |files| && files[k].record == Some(first) && SameKey(first, second) && !Matches(first, second)
    requires forall j | 0 <= j < |files| && j != k && files[j].record.Some? :: !SameKey(files[j].record.value, second)
    ensures Decision(files, second) ==
      (if second.kind == "job.lost" ||
          (second.kind == "job.escalate" && second.reportPath == "" && first.question != second.question)
       then Fresh else Conflict)
  {
    DecisionMeans(files, second);
    if Decides(files[k], second) { assert FirstDeciding(files, second, k); }
  }

  /** The two records differ in a field of the key. */
  predicate OtherKey(a: JobRecord, b: JobRecord) {
    a.kind != b.kind || a.job != b.job || a.epoch != b.epoch || a.reportPath != b.reportPath || a.reason != b.reason
  }

  /**
   * A write into a listing where record a is the only one that could share its key, field by field: a new event
   * if a field of the key differs; a's own file if the question and every compared field agree too, whatever the
   * stamps say; else a new event for a loss or for another question without a report, and a conflict otherwise.
   */
  lemma WrittenExactly(files: seq<Listed<JobRecord>>, k: nat, a: JobRecord, b: JobRecord)
    requires k < |files| && files[k].record == Some(a)
    requires forall j | 0 <= j < |files| && j != k && files[j].record.Some? :: OtherKey(files[j].record.value, b)
    ensures Decision(files, b) ==
      (if OtherKey(a, b) then Fresh
       else if a.question == b.question && a.rest == b.rest then Reuse(k)
       else if b.kind == "job.lost" || (b.kind == "job.escalate" && b.reportPath == "" && a.question != b.question) then Fresh
       else Conflict)
  {
    DecisionMeans(files, b);
    if Decides(files[k], b) { assert FirstDeciding(files, b, k); }
  }

  // ---------------------------------------------------------------- lane events

  class LaneDirectory {
    var files: seq<Listed<LaneEventLog.Key>>

    constructor ()
      ensures files == []
    {
      files := [];
    }

    /** writeLaneEmitRecord run alone: a duplicate, or the next sequence after everything listed. */
    method Write(key: LaneEventLog.Key, fits: bool) returns (at: Option<nat>)
      modifies this
      ensures at.None? <==> exists i | 0 <= i < |old(files)| :: old(files)[i].record == Some(key)
      ensures at.None? ==> files == old(files)
      ensures at.Some? ==>
        at.value == Highest(old(files)) + 1 && (forall i | 0 <= i < |old(files)| :: old(files)[i].sequence != at) &&
        files == old(files) + [Listed(at, if fits then Some(key) else None)]
    {
      var highest := 0;
      for i := 0 to |files|
        invariant files == old(files)
        invariant highest == Highest(files[..i])
        invariant forall j | 0 <= j < i :: files[j].record != Some(key)
      {
        var f := files[i];
        assert files[..i + 1][..i] == files[..i];
        if f.sequence.Some? && f.sequence.value > highest { highest := f.sequence.value; }
        if f.record == Some(key) { return None; }
      }
      assert files[..|files|] == files;
      HighestIsTop(files);
      highest := highest + 1;
      files := files + [Listed(Some(highest), if fits then Some(key) else None)];
      return Some(highest);
    }
  }
}

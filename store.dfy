/**
 * The consultation history the app keeps in the browser's local storage under
 * the key "medi_sarthi_history": a JSON list of records, newest first,
 * trimmed to fifty on every save. The storage slot is modelled by what it can hold; the record's id and
 * time stamp, which the app draws from `crypto.randomUUID` and the clock,
 * are parameters.
 */
module Store {
  import opened Analyzer

  /** How many records a save keeps. */
  const Capacity := 50

  datatype ConsultationRecord = ConsultationRecord(
    id: string,
    timestamp: int,
    symptoms: string,
    analysis: Analysis,
    response: string)

  /**
   * What the slot holds: nothing (or the empty text), text that does not parse
   * as a JSON list of records, or such a list.
   */
  datatype Slot = Absent | Unreadable | Stored(records: seq<ConsultationRecord>)

  function Min(a: int, b: int): int {
    if a <= b then a else b
  }

  /** The history as the app reads it: a missing or unreadable slot reads as no history. */
  function ReadHistory(slot: Slot): seq<ConsultationRecord> {
    match slot
    case Stored(records) => records
    case _ => []
  }

  /** The list a save writes back: the new record put in front, then cut to `Capacity`. */
  function Prepended(history: seq<ConsultationRecord>, rec: ConsultationRecord): (h: seq<ConsultationRecord>)
    ensures |h| == Min(|history| + 1, Capacity)
    ensures h[0] == rec
    ensures forall i :: 1 <= i < |h| ==> h[i] == history[i - 1]
  {
    ([rec] + history)[..Min(|history| + 1, Capacity)]
  }

  function Reversed<T>(s: seq<T>): (r: seq<T>)
    ensures |r| == |s|
    ensures forall i :: 0 <= i < |s| ==> r[i] == s[|s| - 1 - i]
  {
    if s == [] then [] else Reversed(s[1..]) + [s[0]]
  }

  /** The history after saving `recs` one after the other, starting from `h`. */
  function Replay(h: seq<ConsultationRecord>, recs: seq<ConsultationRecord>): seq<ConsultationRecord>
    decreases |recs|
  {
    if recs == [] then h else Replay(Prepended(h, recs[0]), recs[1..])
  }

  /** Cutting after a prefix of `y` is cutting after `y` itself, as long as the cut falls inside the prefix. */
  lemma PrefixOfAppend<T>(x: seq<T>, y: seq<T>, m: nat, n: nat)
    requires m <= |y| && n <= |x| + m
    ensures (x + y[..m])[..n] == (x + y)[..n]
  {
    assert forall i :: 0 <= i < n ==> (x + y[..m])[i] == (x + y)[i];
  }

  /**
   * Saving one record after another keeps the newest fifty, newest first:
   * the saved records in reverse order, followed by the history that was
   * there before (a stored list longer than fifty is cut by the first save).
   */
  lemma {:induction false} ReplayKeepsNewest(h: seq<ConsultationRecord>, recs: seq<ConsultationRecord>)
    requires |h| <= Capacity || recs != []
    ensures Replay(h, recs) == (Reversed(recs) + h)[..Min(|recs| + |h|, Capacity)]
    decreases |recs|
  {
    if recs == [] {
      assert Reversed(recs) + h == h;
    } else {
      var r, rest := recs[0], recs[1..];
      var p := Prepended(h, r);
      ReplayKeepsNewest(p, rest);
      assert Reversed(recs) == Reversed(rest) + [r];
      var m := Min(|h| + 1, Capacity);
      assert p == ([r] + h)[..m];
      PrefixOfAppend(Reversed(rest), [r] + h, m, Min(|rest| + |p|, Capacity));
      assert Reversed(rest) + ([r] + h) == Reversed(recs) + h;
    }
  }

  /** Of fifty-one saves onto an empty history, the first is dropped and the other fifty are kept, newest first. */
  lemma FiftyOneSaves(recs: seq<ConsultationRecord>)
    requires |recs| == Capacity + 1
    ensures |Replay([], recs)| == Capacity
    ensures forall i :: 0 <= i < Capacity ==> Replay([], recs)[i] == recs[Capacity - i]
  {
    ReplayKeepsNewest([], recs);
    assert Reversed(recs) + [] == Reversed(recs);
  }

  /** A saved record stays in the history for exactly the next forty-nine saves, moving one place back each time. */
  lemma SavedRecordLifetime(h: seq<ConsultationRecord>, rec: ConsultationRecord, later: seq<ConsultationRecord>)
    ensures var after := Replay(Prepended(h, rec), later);
      |later| < Capacity ==> |after| > |later| && after[|later|] == rec
    ensures |later| >= Capacity ==> Replay(Prepended(h, rec), later) == Reversed(later)[..Capacity]
  {
    var p := Prepended(h, rec);
    ReplayKeepsNewest(p, later);
    if |later| < Capacity {
      assert (Reversed(later) + p)[|later|] == p[0];
    } else {
      assert (Reversed(later) + p)[..Capacity] == Reversed(later)[..Capacity];
    }
  }

  /** A storage slot, rewritten whole on every save and removed on clear. */
  class HistoryStore {
    var slot: Slot

    constructor (initial: Slot)
      ensures slot == initial
    {
      slot := initial;
    }

    /** `getConsultationHistory`. */
    method GetHistory() returns (h: seq<ConsultationRecord>)
      ensures h == ReadHistory(slot)
    {
      match slot
      case Stored(records) => h := records;
      case Absent => h := [];
      case Unreadable => h := [];
    }

    /** `saveConsultation`: reads the history, puts the new record first, keeps fifty and writes the list back. */
    method Save(symptoms: string, analysis: Analysis, response: string, id: string, now: int)
      returns (rec: ConsultationRecord)
      modifies this
      ensures rec == ConsultationRecord(id, now, symptoms, analysis, response)
      ensures slot == Stored(Prepended(ReadHistory(old(slot)), rec))
      ensures |ReadHistory(slot)| <= Capacity && ReadHistory(slot)[0] == rec
    {
      rec := ConsultationRecord(id, now, symptoms, analysis, response);
      var history := GetHistory();
      history := [rec] + history;
      var trimmed := history[..Min(|history|, Capacity)];
      slot := Stored(trimmed);
    }

    /** `clearConsultationHistory`: removes the key. */
    method Clear()
      modifies this
      ensures slot == Absent && ReadHistory(slot) == []
    {
      slot := Absent;
    }
  }
}

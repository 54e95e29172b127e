/** The per-user records held by the store and the dataset-level meaning of each store
    operation, as functions from the old dataset to the new one. */
module Records {

  /** One mood entry: the free text and its `YYYY-MM-DD` date. */
  datatype JournalEntry = JournalEntry(text: string, date: string)

  /** A user's record: always exactly these three lists. */
  datatype UserRecord = UserRecord(journal: seq<JournalEntry>, agenda: seq<string>, exams: seq<string>)

  /** All users' records, keyed by the user identifier. */
  type Dataset = map<string, UserRecord>

  /** The record `get_user` creates for an unseen user. */
  const EmptyRecord := UserRecord([], [], [])

  /** What `get_user(uid)` returns for `uid` in the dataset `d`. */
  function Lookup(d: Dataset, uid: string): UserRecord
  {
    if uid in d then d[uid] else EmptyRecord
  }

  /** The dataset after `get_user(uid)` (`dict.setdefault`): an unseen `uid` gets the empty
      record, nobody's observable record changes. */
  function Touch(d: Dataset, uid: string): (r: Dataset)
    ensures uid in r && r[uid] == Lookup(d, uid)
    ensures r.Keys == d.Keys + {uid}
    ensures r - {uid} == d - {uid}
    ensures uid in d ==> r == d
    ensures forall u :: Lookup(r, u) == Lookup(d, u)
  {
    if uid in d then d else d[uid := EmptyRecord]
  }

  /** The dataset after `add_journal_entry(uid, e.text, e.date)`. */
  function WithJournalEntry(d: Dataset, uid: string, e: JournalEntry): (r: Dataset)
    ensures r.Keys == d.Keys + {uid}
    ensures r - {uid} == d - {uid}
    ensures r[uid].journal == Lookup(d, uid).journal + [e]
    ensures r[uid].agenda == Lookup(d, uid).agenda && r[uid].exams == Lookup(d, uid).exams
  {
    var rec := Lookup(d, uid);
    d[uid := rec.(journal := rec.journal + [e])]
  }

  /** The dataset after `add_agenda_event(uid, text)`. */
  function WithAgendaEvent(d: Dataset, uid: string, text: string): (r: Dataset)
    ensures r.Keys == d.Keys + {uid}
    ensures r - {uid} == d - {uid}
    ensures r[uid].agenda == Lookup(d, uid).agenda + [text]
    ensures r[uid].journal == Lookup(d, uid).journal && r[uid].exams == Lookup(d, uid).exams
  {
    var rec := Lookup(d, uid);
    d[uid := rec.(agenda := rec.agenda + [text])]
  }

  /** The dataset after `add_exam(uid, text)`. */
  function WithExam(d: Dataset, uid: string, text: string): (r: Dataset)
    ensures r.Keys == d.Keys + {uid}
    ensures r - {uid} == d - {uid}
    ensures r[uid].exams == Lookup(d, uid).exams + [text]
    ensures r[uid].journal == Lookup(d, uid).journal && r[uid].agenda == Lookup(d, uid).agenda
  {
    var rec := Lookup(d, uid);
    d[uid := rec.(exams := rec.exams + [text])]
  }

  /** The dataset after `clear_user(uid)`: the user is gone, every other user is kept. */
  function WithoutUser(d: Dataset, uid: string): (r: Dataset)
    ensures r.Keys == d.Keys - {uid}
    ensures forall u :: u in r ==> r[u] == d[u]
    ensures uid !in d ==> r == d
  {
    d - {uid}
  }

  /** Calling `get_user` twice on an unseen user inserts one record, once; both calls see
      the same empty record. */
  lemma GetUserTwice(d: Dataset, uid: string)
    requires uid !in d
    ensures Touch(Touch(d, uid), uid) == Touch(d, uid)
    ensures Lookup(Touch(d, uid), uid) == Lookup(d, uid) == EmptyRecord
    ensures |Touch(d, uid)| == |d| + 1
  {
    assert uid !in d.Keys;
    assert Touch(d, uid).Keys == d.Keys + {uid};
  }

  /** After `clear_user(uid)`, `get_user(uid)` yields a fresh empty record. */
  lemma ClearThenGetUser(d: Dataset, uid: string)
    ensures Touch(WithoutUser(d, uid), uid)[uid] == EmptyRecord
    ensures |WithoutUser(d, uid)| == if uid in d then |d| - 1 else |d|
  {
    if uid in d {
      assert WithoutUser(d, uid).Keys + {uid} == d.Keys;
    }
  }

  /** One call of an `add_*` method for a fixed user. */
  datatype Append =
    | AppendJournal(entry: JournalEntry)
    | AppendAgenda(event: string)
    | AppendExam(exam: string)

  /** The dataset after one `add_*` call for `uid`. */
  function Apply(d: Dataset, uid: string, a: Append): Dataset
  {
    match a
    case AppendJournal(e) => WithJournalEntry(d, uid, e)
    case AppendAgenda(t) => WithAgendaEvent(d, uid, t)
    case AppendExam(t) => WithExam(d, uid, t)
  }

  /** The dataset after the calls `calls`, in order, all for `uid`. */
  function ApplyAll(d: Dataset, uid: string, calls: seq<Append>): Dataset
    decreases |calls|
  {
    if calls == [] then d else ApplyAll(Apply(d, uid, calls[0]), uid, calls[1..])
  }

  /** The journal entries among `calls`, in call order. */
  function JournalEntries(calls: seq<Append>): seq<JournalEntry>
  {
    if calls == [] then []
    else (if calls[0].AppendJournal? then [calls[0].entry] else []) + JournalEntries(calls[1..])
  }

  /** The agenda events among `calls`, in call order. */
  function AgendaEvents(calls: seq<Append>): seq<string>
  {
    if calls == [] then []
    else (if calls[0].AppendAgenda? then [calls[0].event] else []) + AgendaEvents(calls[1..])
  }

  /** The exams among `calls`, in call order. */
  function Exams(calls: seq<Append>): seq<string>
  {
    if calls == [] then []
    else (if calls[0].AppendExam? then [calls[0].exam] else []) + Exams(calls[1..])
  }

  /** One `add_*` call appends its text to the end of its own list only. */
  lemma ApplyOne(d: Dataset, uid: string, a: Append)
    ensures Lookup(Apply(d, uid, a), uid).journal
            == Lookup(d, uid).journal + (if a.AppendJournal? then [a.entry] else [])
    ensures Lookup(Apply(d, uid, a), uid).agenda
            == Lookup(d, uid).agenda + (if a.AppendAgenda? then [a.event] else [])
    ensures Lookup(Apply(d, uid, a), uid).exams
            == Lookup(d, uid).exams + (if a.AppendExam? then [a.exam] else [])
    ensures Apply(d, uid, a) - {uid} == d - {uid}
  {
    var rec := Lookup(d, uid);
    match a
    case AppendJournal(e) =>
      assert rec.agenda + [] == rec.agenda && rec.exams + [] == rec.exams;
    case AppendAgenda(t) =>
      assert rec.journal + [] == rec.journal && rec.exams + [] == rec.exams;
    case AppendExam(t) =>
      assert rec.journal + [] == rec.journal && rec.agenda + [] == rec.agenda;
  }

  /** Any interleaving of `add_*` calls for one user appends each text to the end of its own
      list, in call order, and leaves every other user untouched. */
  lemma {:induction false} AppendsInCallOrder(d: Dataset, uid: string, calls: seq<Append>)
    ensures Lookup(ApplyAll(d, uid, calls), uid).journal == Lookup(d, uid).journal + JournalEntries(calls)
    ensures Lookup(ApplyAll(d, uid, calls), uid).agenda == Lookup(d, uid).agenda + AgendaEvents(calls)
    ensures Lookup(ApplyAll(d, uid, calls), uid).exams == Lookup(d, uid).exams + Exams(calls)
    ensures ApplyAll(d, uid, calls) - {uid} == d - {uid}
    decreases |calls|
  {
    if calls != [] {
      ApplyOne(d, uid, calls[0]);
      AppendsInCallOrder(Apply(d, uid, calls[0]), uid, calls[1..]);
    }
  }

  /** `n` calls of `add_agenda_event` for one user add exactly `n` agenda events. */
  lemma {:induction false} AgendaCallsCount(calls: seq<Append>)
    requires forall i :: 0 <= i < |calls| ==> calls[i].AppendAgenda?
    ensures |AgendaEvents(calls)| == |calls|
    ensures forall i :: 0 <= i < |calls| ==> AgendaEvents(calls)[i] == calls[i].event
  {
    if calls != [] {
      AgendaCallsCount(calls[1..]);
    }
  }

  /** `n` calls of `add_journal_entry` for one user add exactly `n` journal entries. */
  lemma {:induction false} JournalCallsCount(calls: seq<Append>)
    requires forall i :: 0 <= i < |calls| ==> calls[i].AppendJournal?
    ensures |JournalEntries(calls)| == |calls|
    ensures forall i :: 0 <= i < |calls| ==> JournalEntries(calls)[i] == calls[i].entry
  {
    if calls != [] {
      JournalCallsCount(calls[1..]);
    }
  }

  /** `n` calls of `add_exam` for one user add exactly `n` exams. */
  lemma {:induction false} ExamCallsCount(calls: seq<Append>)
    requires forall i :: 0 <= i < |calls| ==> calls[i].AppendExam?
    ensures |Exams(calls)| == |calls|
    ensures forall i :: 0 <= i < |calls| ==> Exams(calls)[i] == calls[i].exam
  {
    if calls != [] {
      ExamCallsCount(calls[1..]);
    }
  }
}

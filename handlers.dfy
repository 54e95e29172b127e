/** The chat commands that read or change the store: the replies they build and the
    conversation states the two-step commands move through. */
module Handlers {
  import opened Records
  import opened Text
  import opened Filtering
  import opened Vault
  import opened UserData

  /** Conversation states (`AGENDA, EXAM, RESSENTI = range(3)`) and the framework's end
      marker (`ConversationHandler.END`). */
  const AgendaState := 0
  const ExamState := 1
  const RessentiState := 2
  const End := -1

  const NoJournalEntries := "Aucun ressenti."
  const SearchUsage := "Usage: /recherche mot"
  const NoSearchResults := "Aucun résultat."
  const EmptyOrganisation := "Vide."

  /** The reply line for one journal entry: `date: text`. The date starts the line and is
      followed by a colon; the line holds a newline only if the date or text does. */
  function EntryLine(e: JournalEntry): (line: string)
    ensures e.date <= line && |e.date| < |line| && line[|e.date|] == ':'
    ensures '\n' in line <==> '\n' in e.date || '\n' in e.text
  {
    e.date + ": " + e.text
  }

  /** The reply lines for `entries`, in order. */
  function EntryLines(entries: seq<JournalEntry>): seq<string>
  {
    seq(|entries|, i requires 0 <= i < |entries| => EntryLine(entries[i]))
  }

  /** A listing of entries is empty exactly when there are no entries, and otherwise
      holds a colon, the one right after the first entry's date. */
  lemma ListingShape(entries: seq<JournalEntry>)
    ensures JoinLines(EntryLines(entries)) == "" <==> entries == []
    ensures entries != [] ==> ':' in JoinLines(EntryLines(entries))
  {
    if entries != [] {
      var lines := EntryLines(entries);
      var listing := JoinLines(lines);
      var date := entries[0].date;
      assert lines[0] <= listing;
      assert listing[|date|] == ':';
    }
  }

  /** The reply of `/journal` for a user whose journal is `journal`: "Aucun ressenti."
      exactly when the journal is empty, otherwise the entries' lines joined by newlines. */
  function JournalReply(journal: seq<JournalEntry>): (reply: string)
    ensures reply == NoJournalEntries <==> journal == []
    ensures journal != [] ==> reply == JoinLines(EntryLines(journal))
  {
    ListingShape(journal);
    if journal == [] then NoJournalEntries else JoinLines(EntryLines(journal))
  }

  /** When no date or text holds a newline, the `/journal` reply of a non-empty journal
      splits back into exactly one `date: text` line per entry, in journal order. */
  lemma JournalReplyLines(journal: seq<JournalEntry>)
    requires journal != []
    requires forall i :: 0 <= i < |journal| ==> '\n' !in journal[i].date && '\n' !in journal[i].text
    ensures |SplitLines(JournalReply(journal))| == |journal|
    ensures forall i :: 0 <= i < |journal| ==> SplitLines(JournalReply(journal))[i] == EntryLine(journal[i])
  {
    var lines := EntryLines(journal);
    forall i | 0 <= i < |lines|
      ensures '\n' !in lines[i]
    {
      assert lines[i] == journal[i].date + ": " + journal[i].text;
    }
    SplitJoin(lines);
  }

  /** After `add_journal_entry`, `/journal` shows the old listing with the new line last. */
  lemma JournalReplyAfterEntry(journal: seq<JournalEntry>, e: JournalEntry)
    ensures JournalReply(journal + [e]) ==
            if journal == [] then EntryLine(e) else JournalReply(journal) + "\n" + EntryLine(e)
  {
    assert EntryLines(journal + [e]) == EntryLines(journal) + [EntryLine(e)];
    if journal != [] {
      JoinLinesSnoc(EntryLines(journal), EntryLine(e));
    }
  }

  /** The `/recherche` filter: the entry's lower-cased text contains `word`. */
  predicate Matches(e: JournalEntry, word: string)
  {
    Contains(Lower(e.text), word)
  }

  /** `[e for e in journal if word in e.text.lower()]`: the matching entries, in journal
      order (what they are is stated by `Filtering.FilterMembers` and
      `Filtering.FilterPositions`). */
  function Search(journal: seq<JournalEntry>, word: string): (found: seq<JournalEntry>)
    ensures |found| <= |journal|
    ensures forall k :: 0 <= k < |found| ==> found[k] in journal && Matches(found[k], word)
  {
    Filter(journal, e => Matches(e, word))
  }

  /** The reply of `/recherche keyword`: "Aucun résultat." exactly when no entry
      matches, otherwise the matching entries listed as in `/journal`. */
  function SearchReply(journal: seq<JournalEntry>, keyword: string): (reply: string)
    ensures reply == NoSearchResults <==> Search(journal, Lower(keyword)) == []
    ensures Search(journal, Lower(keyword)) != [] ==>
              reply == JoinLines(EntryLines(Search(journal, Lower(keyword))))
  {
    var found := Search(journal, Lower(keyword));
    ListingShape(found);
    var listing := JoinLines(EntryLines(found));
    if listing == "" then NoSearchResults else listing
  }

  /** The search ignores the case of the keyword's ASCII letters. */
  lemma SearchIgnoresKeywordCase(journal: seq<JournalEntry>, keyword: string)
    ensures SearchReply(journal, Lower(keyword)) == SearchReply(journal, keyword)
  {
    LowerIdempotent(keyword);
  }

  /** A journal entry is among the matches of `/recherche keyword` exactly when its text
      contains the keyword with letter case ignored; such an entry makes the reply a
      listing rather than "Aucun résultat.". */
  lemma SearchFindsAnyCase(journal: seq<JournalEntry>, e: JournalEntry, keyword: string)
    ensures e in Search(journal, Lower(keyword)) <==> e in journal && ContainsAnyCase(e.text, keyword)
    ensures e in journal && ContainsAnyCase(e.text, keyword) ==> SearchReply(journal, keyword) != NoSearchResults
  {
    ContainsLowerAnyCase(e.text, keyword);
    FilterMembers(journal, x => Matches(x, Lower(keyword)), e);
  }

  /** The reply of `/organisation`; the "Vide." fallback is kept as in the command. */
  function OrganisationReply(rec: UserRecord): (r: string)
    ensures r == "Agenda:\n" + JoinLines(rec.agenda) + "\nExamens:\n" + JoinLines(rec.exams)
    ensures r != EmptyOrganisation
  {
    var message := "Agenda:\n" + JoinLines(rec.agenda) + "\nExamens:\n" + JoinLines(rec.exams);
    if message == "" then EmptyOrganisation else message
  }

  /** After `add_agenda_event`, `/organisation` shows the new event as the last agenda line. */
  lemma OrganisationAfterAgendaEvent(rec: UserRecord, text: string)
    ensures OrganisationReply(rec.(agenda := rec.agenda + [text])) ==
            "Agenda:\n" + (if rec.agenda == [] then text else JoinLines(rec.agenda) + "\n" + text)
            + "\nExamens:\n" + JoinLines(rec.exams)
  {
    if rec.agenda != [] {
      JoinLinesSnoc(rec.agenda, text);
    } else {
      assert rec.agenda + [text] == [text];
    }
  }

  /** After `add_exam`, `/organisation` shows the new exam as the last line. */
  lemma OrganisationAfterExam(rec: UserRecord, text: string)
    ensures OrganisationReply(rec.(exams := rec.exams + [text])) ==
            if rec.exams == [] then OrganisationReply(rec) + text
            else OrganisationReply(rec) + "\n" + text
  {
    if rec.exams != [] {
      JoinLinesSnoc(rec.exams, text);
    } else {
      assert rec.exams + [text] == [text];
    }
  }

  /** The command handlers, sharing one store. The sender's id is passed already turned
      into the store's key (`str(update.message.from_user.id)`). */
  class BotHandlers {
    const dm: UserDataManager

    constructor (dm: UserDataManager)
      ensures this.dm == dm
    {
      this.dm := dm;
    }

    /** `/journal`: list the sender's entries; the store may gain an empty record, which is
        not written to disk. */
    method Journal(uid: string) returns (reply: string)
      requires dm.Valid()
      modifies dm`data
      ensures dm.Valid()
      ensures dm.data == Touch(old(dm.data), uid)
      ensures dm.dataFile == old(dm.dataFile) && dm.saves == old(dm.saves)
      ensures reply == JournalReply(Lookup(old(dm.data), uid).journal)
    {
      var rec := dm.GetUser(uid);
      var entries := rec.journal;
      if entries == [] {
        reply := NoJournalEntries;
        return;
      }
      reply := JoinLines(EntryLines(entries));
    }

    /** First step of `/agenda`: prompt, then wait in the agenda state. */
    method AgendaStart() returns (prompt: string, next: int)
      ensures prompt == "Entrez événement: DD-MM-YYYY : description"
      ensures next == AgendaState
    {
      prompt := "Entrez événement: DD-MM-YYYY : description";
      next := AgendaState;
    }

    /** Second step of `/agenda`: store the message text verbatim and end the conversation. */
    method AgendaSave(uid: string, text: string, seal: Seal) returns (reply: string, next: int)
      requires dm.Valid()
      modifies dm`data, dm`dataFile, dm`saves
      ensures dm.Valid()
      ensures dm.data == WithAgendaEvent(old(dm.data), uid, text)
      ensures dm.dataFile == Some(Encrypt(dm.key, seal, Dumps(dm.data)))
      ensures dm.saves == old(dm.saves) + 1
      ensures reply == "Événement ajouté." && next == End
    {
      dm.AddAgendaEvent(uid, text, seal);
      reply := "Événement ajouté.";
      next := End;
    }

    /** First step of `/exam`. */
    method ExamStart() returns (prompt: string, next: int)
      ensures prompt == "Entrez examen: DD-MM-YYYY : examen"
      ensures next == ExamState
    {
      prompt := "Entrez examen: DD-MM-YYYY : examen";
      next := ExamState;
    }

    /** Second step of `/exam`: store the message text verbatim and end the conversation. */
    method ExamSave(uid: string, text: string, seal: Seal) returns (reply: string, next: int)
      requires dm.Valid()
      modifies dm`data, dm`dataFile, dm`saves
      ensures dm.Valid()
      ensures dm.data == WithExam(old(dm.data), uid, text)
      ensures dm.dataFile == Some(Encrypt(dm.key, seal, Dumps(dm.data)))
      ensures dm.saves == old(dm.saves) + 1
      ensures reply == "Examen ajouté." && next == End
    {
      dm.AddExam(uid, text, seal);
      reply := "Examen ajouté.";
      next := End;
    }

    /** First step of `/ressenti`. */
    method RessentiStart() returns (prompt: string, next: int)
      ensures prompt == "Exprimez votre ressenti :"
      ensures next == RessentiState
    {
      prompt := "Exprimez votre ressenti :";
      next := RessentiState;
    }

    /** Second step of `/ressenti`: journal the text under today's date, then reply with the
        recommendation. Today's date and the recommendation text come from outside. */
    method RessentiSave(uid: string, text: string, today: string, recommendation: string, seal: Seal)
      returns (reply: string, next: int)
      requires dm.Valid()
      modifies dm`data, dm`dataFile, dm`saves
      ensures dm.Valid()
      ensures dm.data == WithJournalEntry(old(dm.data), uid, JournalEntry(text, today))
      ensures dm.dataFile == Some(Encrypt(dm.key, seal, Dumps(dm.data)))
      ensures dm.saves == old(dm.saves) + 1
      ensures reply == "Ressenti enregistré.\n\n" + recommendation && next == End
    {
      dm.AddJournalEntry(uid, text, today, seal);
      reply := "Ressenti enregistré.\n\n" + recommendation;
      next := End;
    }

    /** `/recherche`: without an argument, the usage message and no store access at all;
        otherwise search the sender's journal for the first argument. */
    method Recherche(uid: string, args: seq<string>) returns (reply: string)
      requires dm.Valid()
      modifies dm`data
      ensures dm.Valid()
      ensures dm.dataFile == old(dm.dataFile) && dm.saves == old(dm.saves)
      ensures args == [] ==> reply == SearchUsage && dm.data == old(dm.data)
      ensures args != [] ==> dm.data == Touch(old(dm.data), uid)
                             && reply == SearchReply(Lookup(old(dm.data), uid).journal, args[0])
    {
      if args == [] {
        reply := SearchUsage;
        return;
      }
      var word := Lower(args[0]);
      var rec := dm.GetUser(uid);
      var found := Search(rec.journal, word);
      var listing := JoinLines(EntryLines(found));
      reply := if listing == "" then NoSearchResults else listing;
    }

    /** `/organisation`: the sender's agenda and exams. */
    method Organisation(uid: string) returns (reply: string)
      requires dm.Valid()
      modifies dm`data
      ensures dm.Valid()
      ensures dm.data == Touch(old(dm.data), uid)
      ensures dm.dataFile == old(dm.dataFile) && dm.saves == old(dm.saves)
      ensures reply == OrganisationReply(Lookup(old(dm.data), uid))
    {
      var u := dm.GetUser(uid);
      var message := "Agenda:\n" + JoinLines(u.agenda) + "\nExamens:\n" + JoinLines(u.exams);
      reply := if message == "" then EmptyOrganisation else message;
    }

    /** `/delete`: clear every record of the sender. */
    method Delete(uid: string, seal: Seal) returns (reply: string)
      requires dm.Valid()
      modifies dm`data, dm`dataFile, dm`saves
      ensures dm.Valid()
      ensures dm.data == WithoutUser(old(dm.data), uid)
      ensures uid in old(dm.data) ==> dm.dataFile == Some(Encrypt(dm.key, seal, Dumps(dm.data)))
                                      && dm.saves == old(dm.saves) + 1
      ensures uid !in old(dm.data) ==> dm.dataFile == old(dm.dataFile) && dm.saves == old(dm.saves)
      ensures uid !in LoadedData(dm.dataFile, dm.key)
      ensures reply == "Toutes vos données ont été supprimées."
    {
      dm.ClearUser(uid, seal);
      reply := "Toutes vos données ont été supprimées.";
    }
  }
}

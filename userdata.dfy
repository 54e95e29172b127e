/** The store object: an in-memory dataset updated in place, the key, and the data file
    that every change rewrites as a whole. */
module UserData {
  import opened Records
  import opened Vault

  class UserDataManager {
    /** The symmetric key, fixed at start-up. */
    const key: Key
    /** The key file's contents once start-up is over: the file that was read, or the one
        written with the generated key. */
    const keyFileOnDisk: Option<Key>
    /** `self.data`: every user's record. */
    var data: Dataset
    /** The data file on disk (`None` while it does not exist). */
    var dataFile: Option<Token>
    /** How many times the whole dataset has been written to the data file. */
    ghost var saves: nat

    /** Reloading the data file now would show every user the record held in memory, and
        no user that memory lacks: each change is written at once, and the only unwritten
        changes are the empty records that `get_user` inserts. */
    ghost predicate Valid()
      reads this
    {
      && LoadedData(dataFile, key).Keys <= data.Keys
      && forall u :: Lookup(LoadedData(dataFile, key), u) == Lookup(data, u)
    }

    /** `__init__`: obtain the key (read the key file, or generate and write one), then
        `_load` the data file. */
    constructor (file: Option<Token>, keyFile: Option<Key>, generated: Key)
      ensures Valid()
      ensures key == StartupKey(keyFile, generated)
      ensures keyFileOnDisk == Some(key)
      ensures keyFile.Some? ==> keyFileOnDisk == keyFile
      ensures dataFile == file
      ensures data == LoadedData(file, key)
      ensures saves == 0
    {
      key := StartupKey(keyFile, generated);
      keyFileOnDisk := Some(StartupKey(keyFile, generated));
      dataFile := file;
      data := map[];
      saves := 0;
      new;
      Load();
    }

    /** `_load`: a missing, undecryptable or unparsable file gives the empty dataset. */
    method Load()
      modifies this`data
      ensures data == LoadedData(dataFile, key)
      ensures Valid()
    {
      match dataFile
      case None =>
        data := map[];
      case Some(token) =>
        match Decrypt(key, token)
        case None =>
          data := map[];
        case Some(plain) =>
          match Loads(plain)
          case None =>
            data := map[];
          case Some(loaded) =>
            data := loaded;
    }

    /** `_save`: overwrite the data file with the encryption of the whole dataset. */
    method Save(seal: Seal)
      modifies this`dataFile, this`saves
      ensures dataFile == Some(Encrypt(key, seal, Dumps(data)))
      ensures LoadedData(dataFile, key) == data
      ensures saves == old(saves) + 1
    {
      dataFile := Some(Encrypt(key, seal, Dumps(data)));
      saves := saves + 1;
      LoadAfterSave(data, key, seal);
    }

    /** `get_user`: the user's record, inserting an empty one for an unseen user; nothing is
        written to disk. */
    method GetUser(uid: string) returns (rec: UserRecord)
      requires Valid()
      modifies this`data
      ensures Valid()
      ensures data == Touch(old(data), uid)
      ensures rec == Lookup(old(data), uid) && rec == data[uid]
    {
      if uid !in data {
        data := data[uid := EmptyRecord];
      }
      rec := data[uid];
    }

    /** `add_journal_entry`: append `{text, date}` to the user's journal, then save once. */
    method AddJournalEntry(uid: string, text: string, date: string, seal: Seal)
      requires Valid()
      modifies this`data, this`dataFile, this`saves
      ensures Valid()
      ensures data == WithJournalEntry(old(data), uid, JournalEntry(text, date))
      ensures dataFile == Some(Encrypt(key, seal, Dumps(data)))
      ensures saves == old(saves) + 1
    {
      var rec := GetUser(uid);
      data := data[uid := rec.(journal := rec.journal + [JournalEntry(text, date)])];
      Save(seal);
    }

    /** `add_agenda_event`: append `text` to the user's agenda, then save once. */
    method AddAgendaEvent(uid: string, text: string, seal: Seal)
      requires Valid()
      modifies this`data, this`dataFile, this`saves
      ensures Valid()
      ensures data == WithAgendaEvent(old(data), uid, text)
      ensures dataFile == Some(Encrypt(key, seal, Dumps(data)))
      ensures saves == old(saves) + 1
    {
      var rec := GetUser(uid);
      data := data[uid := rec.(agenda := rec.agenda + [text])];
      Save(seal);
    }

    /** `add_exam`: append `text` to the user's exams, then save once. */
    method AddExam(uid: string, text: string, seal: Seal)
      requires Valid()
      modifies this`data, this`dataFile, this`saves
      ensures Valid()
      ensures data == WithExam(old(data), uid, text)
      ensures dataFile == Some(Encrypt(key, seal, Dumps(data)))
      ensures saves == old(saves) + 1
    {
      var rec := GetUser(uid);
      data := data[uid := rec.(exams := rec.exams + [text])];
      Save(seal);
    }

    /** `clear_user`: delete the user's record; save only when there was one to delete. A
        later reload finds nothing for that user. */
    method ClearUser(uid: string, seal: Seal)
      requires Valid()
      modifies this`data, this`dataFile, this`saves
      ensures Valid()
      ensures data == WithoutUser(old(data), uid)
      ensures uid in old(data) ==> dataFile == Some(Encrypt(key, seal, Dumps(data))) && saves == old(saves) + 1
      ensures uid !in old(data) ==> dataFile == old(dataFile) && saves == old(saves)
      ensures uid !in LoadedData(dataFile, key)
    {
      if uid in data {
        data := data - {uid};
        Save(seal);
      }
    }
  }

  /** Start a store on any disk state, add an agenda event, start a second store on the data
      file and key file the first one left behind (whatever key it would generate), and read
      the user back: the event is the last one listed. */
  method AgendaSurvivesRestart(file: Option<Token>, keyFile: Option<Key>, generated: Key,
                               generatedLater: Key, uid: string, text: string, seal: Seal)
    returns (agenda: seq<string>)
    ensures agenda == Lookup(LoadedData(file, StartupKey(keyFile, generated)), uid).agenda + [text]
  {
    var first := new UserDataManager(file, keyFile, generated);
    first.AddAgendaEvent(uid, text, seal);
    var second := new UserDataManager(first.dataFile, first.keyFileOnDisk, generatedLater);
    var rec := second.GetUser(uid);
    agenda := rec.agenda;
  }

  /** Start a store on any disk state, clear a user, restart on the data file and key file
      left behind and read that user back: the record is a fresh empty one. */
  method ClearSurvivesRestart(file: Option<Token>, keyFile: Option<Key>, generated: Key,
                              generatedLater: Key, uid: string, seal: Seal)
    returns (rec: UserRecord)
    ensures rec == EmptyRecord
  {
    var first := new UserDataManager(file, keyFile, generated);
    first.ClearUser(uid, seal);
    var second := new UserDataManager(first.dataFile, first.keyFileOnDisk, generatedLater);
    rec := second.GetUser(uid);
  }
}

/** The conversation history: the in-memory list of entries, the records the auto-save writes
    for them, and the entries a load rebuilds from records. Timestamps are of an abstract type
    `T`; `iso` stands for `datetime.isoformat` and `parse` for `datetime.fromisoformat`, which
    gives `None` where that raises. */
module Conversation {
  import opened Wrappers

  /** `ConversationEntry` */
  datatype Entry<T> = Entry(timestamp: T, originalText: string, translatedText: string)

  /** One object of the saved JSON array, with its three fields. */
  datatype Record = Record(timestamp: string, originalText: string, translatedText: string)

  function ToRecord<T>(entry: Entry<T>, iso: T -> string): Record {
    Record(iso(entry.timestamp), entry.originalText, entry.translatedText)
  }

  /** The record list `_auto_save` writes: one record per entry, in entry order. */
  function Serialize<T>(entries: seq<Entry<T>>, iso: T -> string): (records: seq<Record>)
    ensures |records| == |entries|
    ensures forall i | 0 <= i < |entries| ::
      && records[i].timestamp == iso(entries[i].timestamp)
      && records[i].originalText == entries[i].originalText
      && records[i].translatedText == entries[i].translatedText
  {
    seq(|entries|, i requires 0 <= i < |entries| => ToRecord(entries[i], iso))
  }

  /** The entry list `load_history` builds: one entry per record, in file order, or `None` when
      some timestamp does not parse (the ValueError leaves the entries as they were). */
  function Deserialize<T>(records: seq<Record>, parse: string -> Option<T>): (r: Option<seq<Entry<T>>>)
    ensures r.None? <==> exists i | 0 <= i < |records| :: parse(records[i].timestamp).None?
    ensures r.Some? ==> |r.value| == |records|
    ensures r.Some? ==> forall i | 0 <= i < |records| ::
      && parse(records[i].timestamp) == Some(r.value[i].timestamp)
      && r.value[i].originalText == records[i].originalText
      && r.value[i].translatedText == records[i].translatedText
    decreases |records|
  {
    if records == [] then Some([])
    else
      match parse(records[0].timestamp)
      case None => None
      case Some(t) =>
        match Deserialize(records[1..], parse)
        case None =>
          assert exists i | 0 <= i < |records| :: parse(records[i].timestamp).None? by {
            var i :| 0 <= i < |records[1..]| && parse(records[1..][i].timestamp).None?;
            assert records[1..][i] == records[i + 1];
          }
          None
        case Some(rest) =>
          var es := [Entry(t, records[0].originalText, records[0].translatedText)] + rest;
          assert forall i | 0 < i < |records| :: records[i] == records[1..][i - 1] && es[i] == rest[i - 1];
          Some(es)
  }

  /** Saving and then loading gives back the same entries, texts and timestamps, when parsing
      inverts the ISO formatting. */
  lemma {:induction false} LoadAfterSave<T>(entries: seq<Entry<T>>, iso: T -> string, parse: string -> Option<T>)
    requires forall t :: parse(iso(t)) == Some(t)
    ensures Deserialize(Serialize(entries, iso), parse) == Some(entries)
    decreases |entries|
  {
    var records := Serialize(entries, iso);
    if entries != [] {
      LoadAfterSave(entries[1..], iso, parse);
      assert records[1..] == Serialize(entries[1..], iso);
      assert records[0] == ToRecord(entries[0], iso);
      assert [entries[0]] + entries[1..] == entries;
    }
  }

  /** `ConversationManager` without the directory it writes to. `saved` is the record list of
      the day's history file as the last auto-save wrote it. */
  class ConversationManager<T> {
    var entries: seq<Entry<T>>
    var saved: seq<Record>

    constructor ()
      ensures entries == [] && saved == []
    {
      entries := [];
      saved := [];
    }

    /** `add_entry`, with `now` the current time: exactly one entry is appended, the earlier
        ones stay, and the file is rewritten with all of them. */
    method AddEntry(originalText: string, translatedText: string, now: T, iso: T -> string)
      modifies this
      ensures entries == old(entries) + [Entry(now, originalText, translatedText)]
      ensures saved == Serialize(entries, iso)
    {
      var entry := Entry(now, originalText, translatedText);
      entries := entries + [entry];
      AutoSave(iso);
    }

    /** `get_history`: the entries, in insertion order. */
    method GetHistory() returns (history: seq<Entry<T>>)
      ensures history == entries
    {
      history := entries;
    }

    /** `clear_history`: no entries remain, and the file is rewritten empty. */
    method ClearHistory(iso: T -> string)
      modifies this
      ensures entries == [] && saved == []
    {
      entries := [];
      AutoSave(iso);
    }

    /** `_auto_save`: the file holds one record per entry. */
    method AutoSave(iso: T -> string)
      modifies this`saved
      ensures saved == Serialize(entries, iso)
    {
      saved := Serialize(entries, iso);
    }

    /** `load_history`, with `file` the records of the requested day's file, or `None` when the
        file does not exist. An absent file changes nothing; a timestamp that does not parse
        raises (`ok` is false) and changes nothing; otherwise the entries are replaced by those
        of the file, in file order. */
    method LoadHistory(file: Option<seq<Record>>, parse: string -> Option<T>) returns (ok: bool)
      modifies this`entries
      ensures file.None? ==> ok && entries == old(entries)
      ensures file.Some? ==> match Deserialize(file.value, parse)
        case Some(loaded) => ok && entries == loaded
        case None => !ok && entries == old(entries)
    {
      if file.None? {
        return true;
      }
      var loaded := Deserialize(file.value, parse);
      if loaded.None? {
        return false;
      }
      entries := loaded.value;
      ok := true;
    }
  }
}

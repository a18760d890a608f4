/** The JSON log files under `logs/` (`camera_log.json`, `audio_log.json`)
    and the read-append-rewrite discipline both agents use on them. A file
    is modelled by what a reader finds in it, not by its bytes. */
module JsonLog {

  /** A parsed JSON document. Numbers are reals; objects are maps from keys
      to values. */
  datatype Json =
    | JNull
    | JBool(b: bool)
    | JNumber(n: real)
    | JString(s: string)
    | JArray(items: seq<Json>)
    | JObject(fields: map<string, Json>)

  /** What a reader of a log file finds: no file, a zero-byte file, text that
      `json.load` rejects, or a parsed document. */
  datatype LogFile =
    | Missing
    | EmptyFile
    | Corrupt
    | Stored(doc: Json)

  /** A file holding the JSON list `entries`, as `json.dump(list, f)` leaves it. */
  function ListFile(entries: seq<Json>): LogFile {
    Stored(JArray(entries))
  }

  /** The list the agents start from before appending: the stored list, or
      `[]` when the file is missing, empty, corrupt or holds something other
      than a list. */
  function ExistingEntries(f: LogFile): (entries: seq<Json>)
    ensures f == ListFile(entries) || entries == []
  {
    if f.Stored? && f.doc.JArray? then f.doc.items else []
  }

  /** The file after `current_logs.append(entry)` and a rewrite. */
  function AppendEntry(f: LogFile, entry: Json): (r: LogFile)
    ensures r.Stored? && r.doc.JArray? && |r.doc.items| > 0
    ensures r.doc.items[|r.doc.items| - 1] == entry
    ensures r.doc.items[..|r.doc.items| - 1] == ExistingEntries(f)
  {
    var items := ExistingEntries(f) + [entry];
    assert items[..|items| - 1] == ExistingEntries(f);
    ListFile(items)
  }

  /** Appending to a well-formed list keeps every earlier entry in place
      and adds exactly one. */
  lemma AppendToListKeepsEntries(entries: seq<Json>, entry: Json)
    ensures AppendEntry(ListFile(entries), entry) == ListFile(entries + [entry])
  {
  }

  /** Appending to a file that is not a JSON list discards its content. */
  lemma AppendToUnreadableStartsFresh(f: LogFile, entry: Json)
    requires !(f.Stored? && f.doc.JArray?)
    ensures AppendEntry(f, entry) == ListFile([entry])
  {
  }

  /** Several appends in a row. */
  function AppendAll(f: LogFile, entries: seq<Json>): LogFile
    decreases |entries|
  {
    if |entries| == 0 then f
    else AppendAll(AppendEntry(f, entries[0]), entries[1..])
  }

  /** A run of appends is the existing list followed by the new entries, in
      the order they were appended. */
  lemma {:induction false} AppendAllIsConcatenation(f: LogFile, entries: seq<Json>)
    requires |entries| > 0 || (f.Stored? && f.doc.JArray?)
    ensures AppendAll(f, entries) == ListFile(ExistingEntries(f) + entries)
    decreases |entries|
  {
    if |entries| > 0 {
      var g := AppendEntry(f, entries[0]);
      if |entries| > 1 {
        AppendAllIsConcatenation(g, entries[1..]);
      }
      assert ExistingEntries(g) + entries[1..] == ExistingEntries(f) + entries;
    }
  }

  /** Appending a run and then one more entry. */
  lemma {:induction false} AppendAllSnoc(f: LogFile, entries: seq<Json>, entry: Json)
    ensures AppendAll(f, entries + [entry]) == AppendEntry(AppendAll(f, entries), entry)
    decreases |entries|
  {
    if |entries| > 0 {
      assert (entries + [entry])[1..] == entries[1..] + [entry];
      AppendAllSnoc(AppendEntry(f, entries[0]), entries[1..], entry);
    }
  }

  /** `f1` is `f0` after at most `n` appends. When `f0` held a list, that list
      is still a prefix. */
  ghost predicate GrownBy(f0: LogFile, f1: LogFile, n: nat) {
    f1 == f0
    || (&& f1.Stored? && f1.doc.JArray?
        && ExistingEntries(f0) <= f1.doc.items
        && 0 < |f1.doc.items| - |ExistingEntries(f0)| <= n)
  }

  lemma GrownByStep(f0: LogFile, f1: LogFile, n: nat, f2: LogFile)
    requires GrownBy(f0, f1, n)
    requires f2 == f1 || exists e :: f2 == AppendEntry(f1, e)
    ensures GrownBy(f0, f2, n + 1)
  {
    if f2 != f1 {
      var e :| f2 == AppendEntry(f1, e);
      GrownByAppend(f0, f1, n, e);
    }
  }

  /** One append grows the file by one more entry. */
  lemma GrownByAppend(f0: LogFile, f1: LogFile, n: nat, e: Json)
    requires GrownBy(f0, f1, n)
    ensures GrownBy(f0, AppendEntry(f1, e), n + 1)
  {
    var items := AppendEntry(f1, e).doc.items;
    assert items == ExistingEntries(f1) + [e];
    if f1 != f0 {
      assert ExistingEntries(f1) == f1.doc.items;
    }
  }

  /** The `logs/` directory shared by the camera agent (which writes
      `camera_log.json`), the audio agent (which writes `audio_log.json` and
      reads `camera_log.json`) and the web server (which reads both). */
  class LogDirectory {
    var camera: LogFile
    var audio: LogFile

    constructor(camera: LogFile, audio: LogFile)
      ensures this.camera == camera && this.audio == audio
    {
      this.camera := camera;
      this.audio := audio;
    }
  }
}

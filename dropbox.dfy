/** The persisted check-in document and DBXUpDown, the class that keeps it in
    a Dropbox account. The account is modelled as a map from path to stored
    document; JSON serialisation is not modelled, a stored document is the
    record itself. */
module Dropbox {
  import opened Wrappers
  import Paths

  /** A timestamp, as the ISO-8601 text the document stores. */
  type Time = string

  /** The document stored as dmsDB.json. status and emailSent stay strings:
      the handler compares them with the values below, and a stored document
      may hold any other text. */
  datatype Record = Record(
    source: string,
    lastMessage: string,
    status: string,
    emailSent: string,
    lastChecked: Time,
    noOfDaysElapsed: int)

  const CHECKED_IN := "checked in"
  const NOT_CHECKED_IN := "not checked in"
  const YES := "yes"
  const NO := "no"

  /** The file that holds the record. */
  const DB_FILE := "dmsDB.json"

  /** DBXUpDown.data_template, with datetime.now() as the parameter now. */
  function DataTemplate(now: Time): (r: Record)
    ensures Legal(r) && r.status == NOT_CHECKED_IN && r.emailSent == NO
    ensures r.noOfDaysElapsed == 1 && r.lastMessage == "" && r.lastChecked == now
  {
    Record("from aws", "", NOT_CHECKED_IN, NO, now, 1)
  }

  /** status and emailSent hold one of their two legal values. */
  predicate Legal(r: Record)
  {
    (r.status == CHECKED_IN || r.status == NOT_CHECKED_IN) && (r.emailSent == YES || r.emailSent == NO)
  }

  /** The Dropbox path a file name is stored under. */
  function PathOf(filename: string): string
  {
    Paths.Collapse("/" + filename)
  }

  function Lookup(files: map<string, Record>, path: string): Option<Record>
  {
    if path in files then Some(files[path]) else None
  }

  /** What get_or_create_db returns, given what get_from_dropbox returned:
      the stored record, or else the template, flagged as newly created. */
  function GetOrCreate(fetched: Option<Record>, now: Time): (r: (Record, bool))
    ensures r.1 <==> fetched.None?
    ensures fetched.Some? ==> r.0 == fetched.value
    ensures fetched.None? ==> r.0 == DataTemplate(now) && r.0.noOfDaysElapsed == 1
  {
    match fetched
    case None => (DataTemplate(now), true)
    case Some(r) => (r, false)
  }

  /** One files_upload call: the path and the document written. */
  datatype Upload = Upload(path: string, data: Record)

  class DBXUpDown {
    /** The files of the Dropbox account, by path. */
    var files: map<string, Record>
    /** Every upload made through this object, in order. */
    var uploads: seq<Upload>

    /** __init__ connects to an account; here the account's files are given. */
    constructor (files: map<string, Record>)
      ensures this.files == files && uploads == []
    {
      this.files := files;
      uploads := [];
    }

    /** add_to_dropbox: overwrite the file at the normalised path. */
    method AddToDropbox(data: Record, filename: string)
      modifies this
      ensures files == old(files)[PathOf(filename) := data]
      ensures uploads == old(uploads) + [Upload(PathOf(filename), data)]
    {
      var path := Paths.NormalizePath(filename);
      files := files[path := data];
      uploads := uploads + [Upload(path, data)];
    }

    /** get_from_dropbox: the stored document, or None. Every exception of
        files_download gives None, not only a missing file; fails stands for
        such an exception (network, authorisation). */
    method GetFromDropbox(filename: string, fails: bool) returns (data: Option<Record>)
      ensures data.Some? <==> !fails && PathOf(filename) in files
      ensures data.Some? ==> data.value == files[PathOf(filename)]
    {
      var path := Paths.NormalizePath(filename);
      if fails || path !in files {
        data := None;
      } else {
        data := Some(files[path]);
      }
    }

    /** get_or_create_db: the stored record; or, when get_from_dropbox gives
        None, the template, which is uploaded first. */
    method GetOrCreateDb(now: Time, downloadFails: bool) returns (data: Record, newDump: bool)
      modifies this
      ensures (data, newDump) == GetOrCreate(if downloadFails then None else old(Lookup(files, PathOf(DB_FILE))), now)
      ensures newDump ==> files == old(files)[PathOf(DB_FILE) := data] && uploads == old(uploads) + [Upload(PathOf(DB_FILE), data)]
      ensures !newDump ==> files == old(files) && uploads == old(uploads)
    {
      newDump := false;
      var dataTemplate := DataTemplate(now);
      var bytesData := GetFromDropbox(DB_FILE, downloadFails);
      if bytesData.None? {
        AddToDropbox(dataTemplate, DB_FILE);
        newDump := true;
        data := dataTemplate;
      } else {
        data := bytesData.value;
      }
    }
  }
}

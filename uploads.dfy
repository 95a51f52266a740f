/**
 * The upload store (backend/app/services/uploads/store.py): an in-memory map from
 * file id to upload, mirrored into a JSON index file. The index file is a field
 * holding its parsed content, so saving and loading are value transformations.
 */
module Uploads {
  import opened Wrappers
  import Config

  datatype UploadItem = UploadItem(fileId: string, path: string, filename: string, sizeBytes: int)

  /** `UploadItem.download_url`. */
  function DownloadUrl(item: UploadItem, settings: Config.Settings): string {
    settings.apiPrefix + "/uploads/" + item.fileId
  }

  /** One value of the index's JSON object; a key missing from the object is `None`. */
  datatype IndexEntry = IndexEntry(
    fileId: Option<string>,
    path: Option<string>,
    filename: Option<string>,
    sizeBytes: Option<int>)

  /** What reading the index file gives: no file, no permission, bad JSON, or its object. */
  datatype IndexFile = NoFile | NoPermission | BadJson | Parsed(entries: map<string, IndexEntry>)

  /** The keys `_load_index` demands before it admits an entry. */
  predicate Complete(e: IndexEntry) {
    e.path.Some? && e.filename.Some? && e.sizeBytes.Some?
  }

  function EntryItem(id: string, e: IndexEntry): UploadItem
    requires Complete(e)
  {
    UploadItem(id, e.path.value, e.filename.value, e.sizeBytes.value)
  }

  /** The items admitted from the entries whose ids are in `ids`. */
  function AdmittedFrom(entries: map<string, IndexEntry>, ids: set<string>): (m: map<string, UploadItem>)
    ensures forall id :: id in m <==> id in ids && id in entries && Complete(entries[id])
  {
    map id | id in ids && id in entries && Complete(entries[id]) :: EntryItem(id, entries[id])
  }

  /** The items a fresh store holds after reading `index`. */
  function Admitted(index: IndexFile): (m: map<string, UploadItem>)
    ensures !index.Parsed? ==> m == map[]
    ensures index.Parsed? ==> forall id :: id in m <==>
      id in index.entries && Complete(index.entries[id])
    ensures forall id :: id in m ==> m[id].fileId == id
  {
    if index.Parsed? then AdmittedFrom(index.entries, index.entries.Keys) else map[]
  }

  /** `asdict(item)` for every item: the object `_save_index` writes. */
  function Saved(items: map<string, UploadItem>): (entries: map<string, IndexEntry>)
    ensures entries.Keys == items.Keys
  {
    map id | id in items :: IndexEntry(Some(items[id].fileId), Some(items[id].path),
                                       Some(items[id].filename), Some(items[id].sizeBytes))
  }

  /** Every item is filed under its own id. */
  predicate Keyed(items: map<string, UploadItem>) {
    forall id :: id in items ==> items[id].fileId == id
  }

  /** Saving a store's items and loading them again gives back the same map. */
  lemma SaveLoadRoundTrip(items: map<string, UploadItem>)
    requires Keyed(items)
    ensures Admitted(Parsed(Saved(items))) == items
  {
    var back := Admitted(Parsed(Saved(items)));
    assert back.Keys == items.Keys;
    forall id | id in items ensures back[id] == items[id] {
      assert items[id].fileId == id;
    }
  }

  class UploadStore {
    var items: map<string, UploadItem>
    /** The content of `upload_index.json` under the storage path. */
    var index: IndexFile
    const settings: Config.Settings

    ghost predicate Valid()
      reads this
    {
      Keyed(items)
    }

    /** `UploadStore()`: start empty and read the index. */
    constructor (settings: Config.Settings, index: IndexFile)
      ensures Valid()
      ensures this.settings == settings && this.index == index
      ensures items == Admitted(index)
    {
      this.settings := settings;
      this.index := index;
      var loaded: map<string, UploadItem> := map[];
      if index.Parsed? {
        var entries := index.entries;
        var pending := entries.Keys;
        while pending != {}
          invariant pending <= entries.Keys
          invariant loaded == AdmittedFrom(entries, entries.Keys - pending)
          decreases |pending|
        {
          var id :| id in pending;
          if Complete(entries[id]) {
            loaded := loaded[id := EntryItem(id, entries[id])];
          }
          pending := pending - {id};
        }
        assert entries.Keys - pending == entries.Keys;
      }
      items := loaded;
    }

    /** `add(item)`: file the item under its id and rewrite the index. */
    method Add(item: UploadItem)
      requires Valid()
      modifies this
      ensures Valid()
      ensures items == old(items)[item.fileId := item]
      ensures index == Parsed(Saved(items))
      ensures Get(item.fileId) == Some(item)
      ensures forall id :: id != item.fileId ==> Get(id) == old(Get(id))
    {
      items := items[item.fileId := item];
      index := Parsed(Saved(items));
    }

    /** `get(file_id)`. */
    function Get(fileId: string): (r: Option<UploadItem>)
      reads this
      ensures r.Some? <==> fileId in items
      ensures r.Some? ==> r.value == items[fileId]
    {
      if fileId in items then Some(items[fileId]) else None
    }

    /** `resolve_path(file_id)`: the stored path of a known upload. */
    function ResolvePath(fileId: string): (r: Option<string>)
      reads this
      ensures r.None? <==> fileId !in items
      ensures r.Some? ==> r.value == items[fileId].path
    {
      match Get(fileId)
      case Some(item) => Some(item.path)
      case None => None
    }

    /** `resolve_download_url(file_id)`: the download route of a known upload. */
    function ResolveDownloadUrl(fileId: string): (r: Option<string>)
      reads this
      requires Valid()
      ensures r.None? <==> fileId !in items
      ensures r.Some? ==> r.value == settings.apiPrefix + "/uploads/" + fileId
    {
      match Get(fileId)
      case Some(item) => Some(DownloadUrl(item, settings))
      case None => None
    }
  }
}

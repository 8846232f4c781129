/** Remembering where the projects list was scrolled before a project page
    opens: two session-storage entries, written together, read back with
    defaults, and removed together. */
module ScrollRestoration {
  import opened JsText

  const PositionKey: string := "portfolioScrollPosition"
  const SectionKey: string := "portfolioReturnSection"
  const DefaultSection: string := "projects"

  /** What `getStoredScrollData` returns: the position (absent for `null`,
      possibly NaN) and the section to return to. */
  datatype ScrollData = ScrollData(scrollPosition: Option<IntOrNaN>, returnSection: string)

  /** The page's session storage: string keys to string values. */
  class SessionStorage {
    var items: map<string, string>

    constructor (items: map<string, string>)
      ensures this.items == items
    {
      this.items := items;
    }

    /** `getItem`: the value, or absent (`null`). Changes nothing. */
    function GetItem(key: string): (r: Option<string>)
      reads this
      ensures r.Some? <==> key in items
      ensures r.Some? ==> r.value == items[key]
    {
      if key in items then Some(items[key]) else None
    }

    method SetItem(key: string, value: string)
      modifies this
      ensures items == old(items)[key := value]
    {
      items := items[key := value];
    }

    method RemoveItem(key: string)
      modifies this
      ensures items == old(items) - {key}
    {
      items := items - {key};
    }
  }

  /** The storage after `storeScrollPosition`: the position rendered as
      decimal text, and the section, "projects" when none is passed. */
  function AfterStore(m: map<string, string>, scrollY: nat, section: Option<string>): map<string, string> {
    m[PositionKey := NatToString(scrollY)][SectionKey := section.GetOr(DefaultSection)]
  }

  /** The storage after `clearStoredScrollData`. */
  function AfterClear(m: map<string, string>): map<string, string> {
    m - {PositionKey, SectionKey}
  }

  /** `getStoredScrollData` over the storage's contents: a present, non-empty
      position is parsed; a missing or empty section reads "projects". */
  function StoredData(m: map<string, string>): (d: ScrollData)
    ensures d.scrollPosition.Some? <==> PositionKey in m && m[PositionKey] != []
    ensures d.returnSection != []
    ensures SectionKey in m && m[SectionKey] != [] ==> d.returnSection == m[SectionKey]
  {
    var position := if PositionKey in m && m[PositionKey] != [] then Some(ParseInt(m[PositionKey])) else None;
    var section := if SectionKey in m && m[SectionKey] != [] then m[SectionKey] else DefaultSection;
    ScrollData(position, section)
  }

  /** `storeScrollPosition`: writes the position, then the section. */
  method StoreScrollPosition(storage: SessionStorage, scrollY: nat, section: Option<string>)
    modifies storage
    ensures storage.items == AfterStore(old(storage.items), scrollY, section)
  {
    storage.SetItem(PositionKey, NatToString(scrollY));
    storage.SetItem(SectionKey, section.GetOr(DefaultSection));
  }

  /** `getStoredScrollData`: reads both entries and changes nothing. */
  method GetStoredScrollData(storage: SessionStorage) returns (data: ScrollData)
    ensures data == StoredData(storage.items)
  {
    var position := storage.GetItem(PositionKey);
    var section := storage.GetItem(SectionKey);
    var parsed := if position.Some? && position.value != [] then Some(ParseInt(position.value)) else None;
    var returnSection := if section.Some? && section.value != [] then section.value else DefaultSection;
    data := ScrollData(parsed, returnSection);
  }

  /** `clearStoredScrollData`: removes both entries. */
  method ClearStoredScrollData(storage: SessionStorage)
    modifies storage
    ensures storage.items == AfterClear(old(storage.items))
  {
    storage.RemoveItem(PositionKey);
    storage.RemoveItem(SectionKey);
  }

  /** Storing then reading gives back the position, 0 included (its text
      "0" is non-empty, so it is read), and the section, unless it is empty. */
  lemma StoreThenGet(m: map<string, string>, scrollY: nat, section: Option<string>)
    ensures StoredData(AfterStore(m, scrollY, section)).scrollPosition == Some(Int(scrollY))
    ensures StoredData(AfterStore(m, scrollY, section)).returnSection ==
      if section.Some? && section.value != [] then section.value else DefaultSection
  {
    ParseIntRoundTrip(scrollY);
  }

  /** After clearing, reading gives no position and the default section. */
  lemma ClearThenGet(m: map<string, string>)
    ensures StoredData(AfterClear(m)) == ScrollData(None, DefaultSection)
  {
  }

  /** With no entries at all the defaults are read. */
  lemma EmptyStorageDefaults()
    ensures StoredData(map[]) == ScrollData(None, DefaultSection)
  {
  }

  /** Storing and clearing touch only the two keys. */
  lemma OnlyTwoKeys(m: map<string, string>, scrollY: nat, section: Option<string>, key: string)
    requires key != PositionKey && key != SectionKey
    ensures key in AfterStore(m, scrollY, section) <==> key in m
    ensures key in m ==> AfterStore(m, scrollY, section)[key] == m[key]
    ensures key in AfterClear(m) <==> key in m
    ensures key in m ==> AfterClear(m)[key] == m[key]
  {
  }

  /** A later store replaces an earlier one entirely. */
  lemma LaterStoreWins(m: map<string, string>, y1: nat, s1: Option<string>, y2: nat, s2: Option<string>)
    ensures AfterStore(AfterStore(m, y1, s1), y2, s2) == AfterStore(m, y2, s2)
  {
  }

  /** Clearing after storing leaves what clearing alone leaves, and clearing
      twice does no more than once. */
  lemma ClearUndoesStore(m: map<string, string>, scrollY: nat, section: Option<string>)
    ensures AfterClear(AfterStore(m, scrollY, section)) == AfterClear(m)
    ensures AfterClear(AfterClear(m)) == AfterClear(m)
  {
  }
}

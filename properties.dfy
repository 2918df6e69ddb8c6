/**
 * The property table of a diary page, as objects on the heap. A page's
 * properties come back from the database as nested JavaScript objects; the
 * worker copies only the top-level table, so the nested objects stay shared
 * between the input table and the copy. Classes give each of them an identity so
 * that this sharing is visible in the model.
 */
module Properties {

  import opened Results

  const NameKey := "Name"
  const EntryDateKey := "Entry date"
  const CreatedKey := "Created"
  const UpdatedKey := "Updated"

  /** The four property names the worker uses are distinct. */
  lemma KeysDistinct()
    ensures NameKey != CreatedKey && NameKey != UpdatedKey
    ensures EntryDateKey != CreatedKey && EntryDateKey != UpdatedKey
  {
    assert NameKey[0] != CreatedKey[0] && NameKey[0] != UpdatedKey[0];
    assert EntryDateKey[0] != CreatedKey[0] && EntryDateKey[0] != UpdatedKey[0];
  }

  /** The `type` tag of a date property. */
  const DateKind := "date"

  /** The `text` object of a title fragment. */
  class TextContent {
    var content: string
  }

  /**
   * One rich-text fragment of a title. Mention and equation fragments have no
   * `text` object; `text` is null for them.
   */
  class TitleFragment {
    const text: TextContent?
    var plainText: string
  }

  /** The `date` object of a date property. */
  class DateValue {
    var start: string
    var end: Option<string>
    var timeZone: Option<string>
  }

  /**
   * One property value. `kind` is its `type` tag. `title` holds its title
   * fragments; it is empty for a property that has none, whether the list is
   * empty or the property is not a title at all (the worker treats both
   * alike). `date` is null when the property has no date object, whether the
   * property is not a date or its date is `null`.
   */
  class Property {
    const kind: string
    const title: seq<TitleFragment>
    const date: DateValue?
  }

  /** A page's property table: property name to property object. */
  class PropertyTable {
    var entries: map<string, Property>

    /** The shallow copy `{ ...source }`: a new table holding the same objects. */
    constructor Spread(source: PropertyTable)
      ensures entries == source.entries
    {
      entries := source.entries;
    }

    /** `delete table[key]`; deleting an absent key leaves the table as it was. */
    method Delete(key: string)
      modifies this
      ensures entries == old(entries) - {key}
      ensures key !in entries
      ensures key !in old(entries) ==> entries == old(entries)
    {
      entries := entries - {key};
    }
  }

  /** A database page: its identifier and its property table. */
  datatype Page = Page(id: string, properties: PropertyTable)

  /** The first fragment of the "Name" title, the one the worker overwrites. */
  function FirstFragments(t: PropertyTable): set<TitleFragment>
    reads t
  {
    if NameKey in t.entries && |t.entries[NameKey].title| > 0
    then {t.entries[NameKey].title[0]} else {}
  }

  /** The `text` object of that first fragment. */
  function FirstTexts(t: PropertyTable): set<TextContent>
    reads t
  {
    if NameKey in t.entries && |t.entries[NameKey].title| > 0 && t.entries[NameKey].title[0].text != null
    then {t.entries[NameKey].title[0].text} else {}
  }

  /** The date object of the "Entry date" property. */
  function EntryDates(t: PropertyTable): set<DateValue>
    reads t
  {
    if EntryDateKey in t.entries && t.entries[EntryDateKey].date != null
    then {t.entries[EntryDateKey].date} else {}
  }
}

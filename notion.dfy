/**
 * The property transformer: turn the most recent diary page's properties into
 * the properties of a page for today. It shallow-copies the table, deletes the
 * server-managed keys from the copy, and writes the new title and date through
 * the nested objects that the copy shares with the input table.
 */
module DiaryFormat {

  import opened Results
  import opened Clock
  import opened Properties

  /** Why the transformer throws: the dereference that found nothing. */
  datatype FormatError =
    | NoNameProperty       // `newProps['Name'].title` on undefined
    | NoTitleFragment      // `title[0].text` on an empty (or absent) title
    | FragmentWithoutText  // `title[0].text.content = ...` on a fragment without text
    | NoEntryDateProperty  // `newProps['Entry date'].date` on undefined
    | NoDateObject         // `date.start = ...` on a null date

  /** The error the title overwrite stops at, checked in the order the code dereferences. */
  function TitleFailure(t: PropertyTable): Option<FormatError>
    reads t
  {
    if NameKey !in t.entries then Some(NoNameProperty)
    else if |t.entries[NameKey].title| == 0 then Some(NoTitleFragment)
    else if t.entries[NameKey].title[0].text == null then Some(FragmentWithoutText)
    else None
  }

  /** The error the date overwrite stops at. */
  function DateFailure(t: PropertyTable): Option<FormatError>
    reads t
  {
    if EntryDateKey !in t.entries then Some(NoEntryDateProperty)
    else if t.entries[EntryDateKey].date == null then Some(NoDateObject)
    else None
  }

  /** The error the whole transformation stops at: the title is written before the date. */
  function FormatFailure(t: PropertyTable): Option<FormatError>
    reads t
  {
    if TitleFailure(t).Some? then TitleFailure(t) else DateFailure(t)
  }

  /** The table's first "Name" fragment shows `title`, in its text object and as plain text. */
  ghost predicate TitleIs(t: PropertyTable, title: string)
    reads t, FirstFragments(t), FirstTexts(t)
  {
    && NameKey in t.entries
    && |t.entries[NameKey].title| > 0
    && t.entries[NameKey].title[0].text != null
    && t.entries[NameKey].title[0].text.content == title
    && t.entries[NameKey].title[0].plainText == title
  }

  /** The table's "Entry date" starts at `start`. */
  ghost predicate DateIs(t: PropertyTable, start: string)
    reads t, EntryDates(t)
  {
    EntryDateKey in t.entries && t.entries[EntryDateKey].date != null && t.entries[EntryDateKey].date.start == start
  }

  /** Both overwrites of a successful transformation are in place. */
  ghost predicate Stamped(t: PropertyTable, today: Today)
    reads t, FirstFragments(t), FirstTexts(t), EntryDates(t)
    requires ValidDay(today.day)
  {
    TitleIs(t, today.title) && DateIs(t, IsoDate(today.day))
  }

  /**
   * `{ ...oldProperties }` followed by the two `delete`s: a new table with the
   * same property objects and without the server-managed keys. Deleting a key
   * the table lacks is not an error.
   */
  method CopyWithoutServerKeys(oldProperties: PropertyTable) returns (newProps: PropertyTable)
    ensures fresh(newProps)
    ensures newProps.entries == oldProperties.entries - {CreatedKey, UpdatedKey}
    ensures CreatedKey !in newProps.entries && UpdatedKey !in newProps.entries
    ensures forall k | k in oldProperties.entries && k != CreatedKey && k != UpdatedKey ::
              k in newProps.entries && newProps.entries[k] == oldProperties.entries[k]
    // the copy is shallow: it reaches the very "Name" and "Entry date" objects of the input
    ensures TitleFailure(newProps) == TitleFailure(oldProperties) && DateFailure(newProps) == DateFailure(oldProperties)
    ensures FirstFragments(newProps) == FirstFragments(oldProperties) && FirstTexts(newProps) == FirstTexts(oldProperties)
    ensures EntryDates(newProps) == EntryDates(oldProperties)
  {
    KeysDistinct();
    newProps := new PropertyTable.Spread(oldProperties);
    newProps.Delete(CreatedKey);
    newProps.Delete(UpdatedKey);
  }

  /**
   * Overwrite the first "Name" fragment with `newTitle`, in its text object
   * and as plain text, or stop at the first missing part without writing.
   */
  method RetitleName(props: PropertyTable, newTitle: string) returns (e: Option<FormatError>)
    modifies FirstTexts(props)`content, FirstFragments(props)`plainText
    ensures e == TitleFailure(props)
    ensures e.None? ==> TitleIs(props, newTitle)
    ensures e.Some? ==> unchanged(FirstFragments(props)) && unchanged(FirstTexts(props))
    ensures NameKey in props.entries ==>
              var title := props.entries[NameKey].title;
              forall i | 1 <= i < |title| && title[i] != title[0] :: title[i].plainText == old(title[i].plainText)
    ensures NameKey in props.entries ==>
              var title := props.entries[NameKey].title;
              forall i | 1 <= i < |title| && title[i].text != null && title[i].text != title[0].text ::
                title[i].text.content == old(title[i].text.content)
  {
    if NameKey !in props.entries {
      return Some(NoNameProperty);
    }
    var nameProp := props.entries[NameKey];
    if |nameProp.title| == 0 {
      return Some(NoTitleFragment);
    }
    if nameProp.title[0].text == null {
      return Some(FragmentWithoutText);
    }
    nameProp.title[0].text.content := newTitle;
    nameProp.title[0].plainText := newTitle;
    return None;
  }

  /** Overwrite the "Entry date" start with `start`, or stop without writing if there is no date object. */
  method RedateEntry(props: PropertyTable, start: string) returns (e: Option<FormatError>)
    modifies EntryDates(props)`start
    ensures e == DateFailure(props)
    ensures e.None? ==> DateIs(props, start)
    ensures e.Some? ==> unchanged(EntryDates(props))
    ensures forall d | d in EntryDates(props) :: d.end == old(d.end) && d.timeZone == old(d.timeZone)
  {
    if EntryDateKey !in props.entries {
      return Some(NoEntryDateProperty);
    }
    var entryDateProp := props.entries[EntryDateKey];
    if entryDateProp.date == null {
      return Some(NoDateObject);
    }
    entryDateProp.date.start := start;
    return None;
  }

  /**
   * `formatNewDiaryPageProperties`. The input table itself keeps its keys, but
   * its "Name" and "Entry date" objects are the ones written, so the input
   * sees the new title and date too. On the error path the writes made before
   * the failing dereference stay in place.
   */
  method FormatNewDiaryPageProperties(oldProperties: PropertyTable, today: Today)
      returns (r: Result<PropertyTable, FormatError>)
    requires ValidDay(today.day)
    modifies FirstTexts(oldProperties)`content, FirstFragments(oldProperties)`plainText
    modifies EntryDates(oldProperties)`start
    ensures unchanged(oldProperties)
    // success exactly when no dereference fails, and the error is the first failing one
    ensures r.Ok? <==> FormatFailure(oldProperties).None?
    ensures r.Err? ==> FormatFailure(oldProperties) == Some(r.error)
    // the output: a new table without the server-managed keys, holding the input's objects
    ensures r.Ok? ==> fresh(r.value)
    ensures r.Ok? ==> r.value.entries == oldProperties.entries - {CreatedKey, UpdatedKey}
    // the writes, seen through the input (and so through the output, which shares the objects)
    ensures r.Ok? ==> Stamped(oldProperties, today)
    ensures TitleFailure(oldProperties).None? && DateFailure(oldProperties).Some? ==>
              TitleIs(oldProperties, today.title)
    ensures TitleFailure(oldProperties).Some? ==>
              unchanged(FirstFragments(oldProperties)) && unchanged(FirstTexts(oldProperties))
    ensures r.Err? ==> unchanged(EntryDates(oldProperties))
    // nothing else changes: the fragments after the first keep their text, and the date keeps its end and time zone
    ensures NameKey in oldProperties.entries ==>
              var title := oldProperties.entries[NameKey].title;
              forall i | 1 <= i < |title| && title[i] != title[0] :: title[i].plainText == old(title[i].plainText)
    ensures NameKey in oldProperties.entries ==>
              var title := oldProperties.entries[NameKey].title;
              forall i | 1 <= i < |title| && title[i].text != null && title[i].text != title[0].text ::
                title[i].text.content == old(title[i].text.content)
    ensures forall d | d in EntryDates(oldProperties) :: d.end == old(d.end) && d.timeZone == old(d.timeZone)
  {
    var newProps := CopyWithoutServerKeys(oldProperties);

    var failure := RetitleName(newProps, today.title);
    if failure.Some? {
      return Err(failure.value);
    }
    failure := RedateEntry(newProps, IsoDate(today.day));
    if failure.Some? {
      return Err(failure.value);
    }
    return Ok(newProps);
  }
}

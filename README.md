# Notion diary duplicator, modelled in Dafny

This project models a Cloudflare worker that keeps a Notion work diary. On a
`POST /duplicate-diary` the worker does the following:

- It reads the most recent diary page of a Notion database.
- It stops if that page is already dated today.
- Otherwise it copies the page's content blocks into a new page for today.
- It copies the old page's properties into the new page after three changes:
  - the server-managed `Created` and `Updated` keys are removed;
  - the first fragment of the `Name` title is replaced by today's label;
  - the `Entry date` start is replaced by today's `YYYY-MM-DD`.

The project has three parts:

- **Property transformer** (`DiaryFormat`, over the heap classes of `Properties`).
  - A property table is a class holding a `map` from key to `Property` objects.
  - All nested values are objects too, so the worker's shallow spread `{ ...oldProperties }` is visible as sharing.
  - `FormatNewDiaryPageProperties` is a method with field-level `modifies` clauses. It returns a fresh table without the two server keys.
  - The input keeps its own keys. Its `Name` and `Entry date` objects receive the same writes, because the copy shares them.
  - The functions `TitleFailure`, `DateFailure` and `FormatFailure` state exactly when it throws and which dereference fails first.
- **Duplicate guard** (`DiaryQueries.DiaryExistsForToday`).
  - A total function over a page.
  - The date library's reading of a start string is a parameter, `dayOf`.
  - Today's calendar day is also a parameter.
- **Dispatcher and workflow** (`Worker`).
  - The handler stops at the first of: a missing database ID, a missing API key, a failed query, a page already dated today, a failed block listing, a failed transformation, and a failed or successful create.
  - This decision chain is the heap-free function `Decide`, over the outcomes of the remote calls.
  - `HandleDuplicateDiary` is the method that runs the guard and the transformer on the fetched page. It is proved to return exactly what `Decide` returns for the page as it was before any write.
  - Each run records the steps it attempted, in order: client creation, database query, block listing, page creation (with its arguments). This lets the short-circuit properties say "no later call".
  - `Serve` and `Fetch` add the route rule in front.

`Clock` models the `YYYY-MM-DD` rendering of today (zero-padded decimal
fields) and shows that it round-trips through parsing. The round trip is what
makes a page the worker has just written pass the guard on the same day.

`src/index.ts` holds its own copies of the guard (`src/index.ts:56-65`) and of
the transformer (`src/index.ts:89-115`). They are identical to
`src/utils/notion-queries.ts:37-46` and `src/utils/notion.ts:10-36`. They are
modelled once, by `DiaryQueries.DiaryExistsForToday` and
`DiaryFormat.FormatNewDiaryPageProperties`, and the handler calls those same
members, so the index-level copies have the same contracts.

The client factory in `src/index.ts:12-23` is modelled by the
handler's test of the API key. When it fails, the run is the `NewClient` step
followed by a 500 carrying `ApiKeyMissing`.

Remote outcomes are inputs of type `Result<_, Thrown>`. An `Ok` outcome is what
the wrapper returned, and an `Err` outcome is what it threw.

## Model

| member | source | states |
|---|---|---|
| Clock.Dec | src/utils/notion.ts:27 | a numeric field is rendered in exactly the requested width, digits only |
| Clock.DecValueOfDec | src/utils/notion.ts:27 | a zero-padded field that fits its width reads back as the number it renders |
| Clock.DecOfDecValue | src/utils/notion.ts:27 | every digit string is the padded rendering of the number it denotes |
| Clock.IsoDate | src/utils/notion.ts:27 | today's `YYYY-MM-DD` string is ten characters, dashes at positions 4 and 7, digits elsewhere |
| Clock.ParseIsoDateOfIsoDate | src/utils/notion.ts:27 | reading back the rendered date gives the same calendar day (the rendering is injective) |
| Clock.IsoDateOfParseIsoDate | src/utils/notion.ts:27 | every string that reads as a valid day is that day's rendering |
| Clock.IsoDateExample | src/utils/notion.ts:27 | 3 June 2024 is written `2024-06-03` |
| Properties.PropertyTable.Spread | src/utils/notion.ts:12 | the spread copy is a new table with the same keys mapped to the very same property objects |
| Properties.PropertyTable.Delete | src/utils/notion.ts:16-17 | `delete` removes exactly that key; deleting an absent key leaves the table as it was and is not an error |
| DiaryQueries.DiaryExistsForToday | src/utils/notion-queries.ts:37-46 | false when `Entry date` is absent, not of type `date`, or has a null date; otherwise true exactly when the day of its start is today; total, it never throws |
| DiaryQueries.StampedDiaryExists | src/utils/notion-queries.ts:44-45 | on a day of a year from 100 on, a date property whose start is today's `YYYY-MM-DD` passes the guard, when the date library reads date-only strings of such years as the day they name |
| DiaryQueries.ShiftedReadingReadsIsoDates | src/utils/notion-queries.ts:45 | that reading hypothesis can be met, by a reading that takes years 0-99 as 1900-1999 as the library's `Date` constructor does |
| DiaryQueries.EarlyYearIsShifted | src/utils/notion-queries.ts:45 | why years below 100 are outside the hypothesis: `0024-06-03` names year 24, but that reading takes it as 1924-06-03 |
| DiaryQueries.GuardRecognisesExactlyTodaysStamp | src/utils/notion-queries.ts:44-45 | for a date property with a date-only start of a year from 100 on, the guard holds if and only if the start is today's `YYYY-MM-DD` rendering, the stamp the transformer writes |
| DiaryFormat.CopyWithoutServerKeys | src/utils/notion.ts:12-17 | the copy is fresh, lacks `Created` and `Updated`, keeps every other key with the same object, and shares the input's `Name` and `Entry date` objects |
| DiaryFormat.RetitleName | src/utils/notion.ts:20-24 | fails exactly at the first missing `Name`, title fragment or text object, writing nothing; otherwise the first fragment's `text.content` and `plain_text` both hold the new title, and later fragments are unchanged |
| DiaryFormat.RedateEntry | src/utils/notion.ts:26-27 | fails exactly when `Entry date` or its date object is missing, writing nothing; otherwise the start holds the new date, and the end and time zone are unchanged |
| DiaryFormat.FormatNewDiaryPageProperties | src/utils/notion.ts:10-36 | returns a table exactly when no dereference fails, otherwise rethrows the first failure; the result is a new table equal to the input minus `Created` and `Updated`; the input keeps its keys but its shared `Name` and `Entry date` objects carry today's title and date; a title written before a missing date stays written; later fragments and the date's end and time zone are unchanged |
| Worker.ErrorResponse | src/index.ts:190-196 | the catch block answers 500 with the thrown value as `error`, or `Internal server error` exactly when the value is falsy |
| Worker.Decide | src/index.ts:146-197 | the calls are attempted in order, each at most once; every answer is 200 or 500; `Could not retrieve blocks` is never answered; the success answer comes exactly when the create call was made and succeeded |
| Worker.TransformAndCreate | src/index.ts:176-189 | once the blocks are listed, the run is the transformer's first failure thrown or the create call with the transformed properties and the blocks, as `Decide` ends; the table keeps its keys; a lookup failure leaves the dates, and a title failure the first fragment, exactly as they were; otherwise the writes are in place |
| Worker.HandleDuplicateDiary | src/index.ts:146-197 | the handler's run is `Decide` on the page as fetched; the page's table keeps its keys; once the create call is made the page's own objects carry today's title and date, and, on a day of a year from 100 on, a page whose `Entry date` is a date property then passes the guard, when the date library reads date-only strings of such years as the day they name; with no create call the dates are untouched; nothing is written before the blocks are listed; once the transformer runs, a title it can write stays written even if the date then fails, and a title it cannot write (no `Name`, no fragment, or a fragment without text) is left exactly as it was |
| Worker.Serve | src/index.ts:199-207 | 404 exactly for requests off the route, and then `Not Found` with no call attempted |
| Worker.Fetch | src/index.ts:200-206 | `fetch` answers what `Serve` answers for the page before any write; it writes nothing off the route, and on the route it leaves the page in exactly the state the handler promises |
| Worker.OnlyTheDuplicateRouteIsHandled | src/index.ts:201-205 | a POST to `/duplicate-diary` is handled; a GET there, or a POST to a longer path, is `Not Found` |
| Worker.MissingDatabaseIdAttemptsNothing | src/index.ts:148-153 | without a database ID the answer is 500 `Database ID not configured` and no client or remote call is attempted |
| Worker.ExistingDiaryShortCircuits | src/index.ts:158-164 | when today's diary exists the answer is 200 `already exists` after only the client and the query, with no block listing or create |
| Worker.CreateGetsTransformedPropertiesAndBlocks | src/index.ts:166-186 | the create call comes right after the block listing and receives exactly the transformed properties and the listed blocks in order, an empty list included; the answer is success exactly when the create succeeds |
| Worker.CreateAttemptedExactlyAfterEverySuccess | src/index.ts:146-182 | the create call is made if and only if the configuration is present, the query succeeds, today's diary does not exist, the listing succeeds and the transformation succeeds |
| Worker.ThrownValuesAnswer500 | src/index.ts:155-196 | a throw from the client factory, the query, the block listing or the transformer gives a 500 carrying that value, and no later call is attempted |

## Left out

- The Notion SDK calls and their wrappers `getMostRecentDiary`, `getDiaryBlocks` and `createTodaysDiary` (`src/index.ts:28-51`, `70-84`, `120-144`). They are network I/O over a foreign SDK. Their returned values and thrown errors are the handler's inputs. The wrappers' own checks (no pages found, no results, no `object` field) are folded into those thrown values.
- The date library. The local clock, time zone and locale-dependent `dddd, DD MMMM` label are not modelled:
  - today's calendar day and its label are a parameter `Today`;
  - the day a start string denotes is the parameter `dayOf`;
  - the handler reads the clock twice, once in the guard and once in the transformer, and the model uses one reading for both.
- DiaryQueries.StampedDiaryExists and DiaryQueries.GuardRecognisesExactlyTodaysStamp: the date library's reading is assumed faithful only for years from 100 on. It reads date-only strings of years 0-99 through the `Date` constructor as 1900-1999, so for those years a stamp can pass the guard without being today's rendering. The same bound applies to the stamped-page clauses of Worker.HandleDuplicateDiary and Worker.Fetch.
- Clock.IsoDate: years from 10000 on are excluded (`ValidDay`). The four-digit rendering of such years is not modelled.
- The properties' types from the SDK. Only the fields the code touches are modelled:
  - the tag `type`;
  - the title fragments' `text.content` and `plain_text`;
  - the date's `start`, `end` and `time_zone`.
  An absent title and an empty title are both an empty sequence, because both throw at `title[0]`. An absent date and a null date are both `null`.
- `env` is an explicit `Env` value. An unset setting is the empty string.
- URL parsing is not modelled: the request carries its pathname.
- JSON serialisation, response headers and `console` logging are not modelled. A 500 body records the caught value itself (`Caught`) rather than its JSON text. Serialising a caught `Error` gives `{}`, because an Error's message is not an enumerable property. So the client sees `{"error":{}}` for the client factory's error, the wrappers' own `new Error(...)` values and the transformer's TypeError, and none of their messages.
- Concurrency is not modelled: two invocations on the same day can both pass the guard.
- Pagination of the block listing is not modelled: the blocks are one opaque sequence, as the code takes one page.
- Worker.Decide: the `!blocks` branch (`src/index.ts:169-174`) is not a path of the model. A returned block list is an array and always truthy. The model states instead that this response never occurs.

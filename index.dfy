/**
 * The worker's entry point: one route, and the handler that runs the
 * duplication steps in order and maps their outcomes to a response. The
 * remote calls (query the database, list the page's blocks, create the page)
 * are not performed here: their outcomes are inputs, and the handler records
 * which of them it attempts and with which arguments.
 */
module Worker {

  import opened Results
  import opened Clock
  import opened Properties
  import opened DiaryQueries
  import opened DiaryFormat

  /** The two settings the worker reads; an unset setting is the empty string (both are falsy). */
  datatype Env = Env(databaseId: string, apiKey: string)

  /** What the route rule looks at: the HTTP method and the URL's path. */
  datatype Request = Request(verb: string, pathname: string)

  /** A value thrown by a step and caught by the handler. */
  datatype Thrown =
    | Rejected(reason: string)     // an error raised by a remote call or its wrapper
    | FalsyValue                   // a rejection with a falsy value
    | ApiKeyMissing                // the client factory's "NOTION_API_KEY environment variable is missing"
    | Malformed(error: FormatError)  // the transformer's failed dereference

  /** One content block of a page, passed through without being looked at. */
  datatype Block = Block(json: string)

  /**
   * The `error` field of an error body: a fixed message or the caught value
   * itself. The value is recorded before serialisation: a thrown `Error`
   * serialises to an empty object, so its message does not reach the client.
   */
  datatype ErrorField = Literal(text: string) | Caught(thrown: Thrown)

  datatype Body =
    | PlainText(text: string)                // a plain-text body
    | ErrorJson(error: ErrorField)           // { "error": ... }
    | MessageJson(message: string)           // { "message": ... }
    | SuccessJson(message: string)           // { "success": true, "message": ... }

  datatype Response = Response(status: nat, body: Body)

  /** A step the handler attempts, with the arguments it passes. */
  datatype Step =
    | NewClient                                   // the client factory
    | QueryDatabase(databaseId: string)           // latest diary page of the collection
    | ListBlocks(pageId: string)                  // the page's content blocks
    | CreatePage(databaseId: string, properties: map<string, Property>, children: seq<Block>)

  /** The response, and the steps attempted on the way to it, in order. */
  datatype Run = Run(response: Response, steps: seq<Step>)

  const DuplicatePath := "/duplicate-diary"

  const NotFound := Response(404, PlainText("Not Found"))
  const MissingDatabaseId := Response(500, ErrorJson(Literal("Database ID not configured")))
  const CouldNotRetrieveBlocks := Response(500, ErrorJson(Literal("Could not retrieve blocks")))
  const AlreadyExists := Response(200, MessageJson("Diary entry for today already exists."))
  const Duplicated := Response(200, SuccessJson("Diary entry duplicated successfully."))

  /** The catch block's response: the caught value, or a fixed message when it is falsy. */
  function ErrorResponse(e: Thrown): (r: Response)
    ensures r.status == 500 && r.body.ErrorJson?
    ensures r.body.error == Literal("Internal server error") <==> e.FalsyValue?
    ensures !e.FalsyValue? ==> r.body.error == Caught(e)
  {
    Response(500, ErrorJson(if e.FalsyValue? then Literal("Internal server error") else Caught(e)))
  }

  /** Position of each kind of step in the handler's fixed sequence. */
  function Rank(s: Step): nat {
    match s
    case NewClient => 0
    case QueryDatabase(_) => 1
    case ListBlocks(_) => 2
    case CreatePage(_, _, _) => 3
  }

  /** The steps are a prefix of client, query, list, create: each attempted once, in that order. */
  predicate InOrder(steps: seq<Step>) {
    forall i | 0 <= i < |steps| :: Rank(steps[i]) == i
  }

  /** The run reached the create call; by InOrder that can only be its fourth step. */
  predicate CreateAttempted(run: Run) {
    |run.steps| > 3 && run.steps[3].CreatePage?
  }

  /** The run got as far as listing the blocks, after which the transformer runs if the listing succeeds. */
  predicate ListingAttempted(run: Run) {
    |run.steps| > 2
  }

  /** The objects the handler may write: those the transformer writes in the fetched page. */
  function Titles(query: Result<Page, Thrown>): set<TitleFragment>
    reads if query.Ok? then {query.value.properties} else {}
  {
    if query.Ok? then FirstFragments(query.value.properties) else {}
  }

  function Texts(query: Result<Page, Thrown>): set<TextContent>
    reads if query.Ok? then {query.value.properties} else {}
  {
    if query.Ok? then FirstTexts(query.value.properties) else {}
  }

  function Dates(query: Result<Page, Thrown>): set<DateValue>
    reads if query.Ok? then {query.value.properties} else {}
  {
    if query.Ok? then EntryDates(query.value.properties) else {}
  }

  /**
   * What the handler's decisions depend on in the fetched page, read before
   * anything is written: its identifier, the guard's verdict, where the
   * transformer would fail, and the property table the transformer returns.
   */
  datatype Sighting = Sighting(pageId: string, existsToday: bool, failure: Option<FormatError>,
                               outgoing: map<string, Property>)

  function Inspect(diary: Page, today: Today, dayOf: string -> Option<CalendarDay>): Sighting
    reads diary.properties, EntryDates(diary.properties)
  {
    Sighting(diary.id, DiaryExistsForToday(diary, today.day, dayOf), FormatFailure(diary.properties),
             diary.properties.entries - {CreatedKey, UpdatedKey})
  }

  /** The query's outcome, as far as the handler's decisions go. */
  function Sight(query: Result<Page, Thrown>, today: Today, dayOf: string -> Option<CalendarDay>): Result<Sighting, Thrown>
    reads if query.Ok? then {query.value.properties} else {}, Dates(query)
  {
    match query
    case Ok(diary) => Ok(Inspect(diary, today, dayOf))
    case Err(e) => Err(e)
  }

  /**
   * What `handleDuplicateDiary` does, given the outcome of each step: stop
   * early on a missing database ID, a missing API key, a failed query or a
   * page already dated today; otherwise list the blocks, transform the
   * properties and create the page. Any thrown value becomes a 500 response.
   */
  function Decide(env: Env, query: Result<Sighting, Thrown>, blocks: Result<seq<Block>, Thrown>,
                  create: Result<string, Thrown>): (run: Run)
    ensures InOrder(run.steps)
    ensures run.response.status == 200 || run.response.status == 500
    ensures run.response != CouldNotRetrieveBlocks
    ensures run.response == Duplicated <==> CreateAttempted(run) && create.Ok?
  {
    if env.databaseId == "" then Run(MissingDatabaseId, [])
    else if env.apiKey == "" then Run(ErrorResponse(ApiKeyMissing), [NewClient])
    else
      var queried := [NewClient, QueryDatabase(env.databaseId)];
      match query
      case Err(e) => Run(ErrorResponse(e), queried)
      case Ok(diary) =>
        if diary.existsToday then Run(AlreadyExists, queried)
        else
          var listed := queried + [ListBlocks(diary.pageId)];
          match blocks
          case Err(e) => Run(ErrorResponse(e), listed)
          // a returned block list is an array, so always truthy: the
          // "Could not retrieve blocks" branch cannot be taken
          case Ok(children) => Finish(env.databaseId, diary.failure, diary.outgoing, listed, children, create)
  }

  /**
   * The rest of the handler once the blocks are listed: the transformer's
   * failure is thrown, or the create call gets the transformed properties and
   * the blocks.
   */
  function Finish(databaseId: string, failure: Option<FormatError>, outgoing: map<string, Property>,
                  listed: seq<Step>, children: seq<Block>, create: Result<string, Thrown>): Run
  {
    match failure
    case Some(fe) => Run(ErrorResponse(Malformed(fe)), listed)
    case None =>
      var created := listed + [CreatePage(databaseId, outgoing, children)];
      match create
      case Err(e) => Run(ErrorResponse(e), created)
      case Ok(_) => Run(Duplicated, created)
  }

  /** The route rule: only a POST to exactly `/duplicate-diary` reaches the handler. */
  predicate Routed(request: Request) {
    request.verb == "POST" && request.pathname == DuplicatePath
  }

  /** What `fetch` answers: the handler's run for the one route, `Not Found` for anything else. */
  function Serve(request: Request, env: Env, query: Result<Sighting, Thrown>, blocks: Result<seq<Block>, Thrown>,
                 create: Result<string, Thrown>): (run: Run)
    ensures run.response.status == 404 <==> !Routed(request)
    ensures !Routed(request) ==> run == Run(NotFound, [])
  {
    if Routed(request) then Decide(env, query, blocks, create) else Run(NotFound, [])
  }

  /** The handler's steps from the transformer on: `Finish`, with the transformer's writes. */
  method TransformAndCreate(databaseId: string, properties: PropertyTable, listed: seq<Step>, children: seq<Block>,
                            create: Result<string, Thrown>, today: Today) returns (run: Run)
    requires ValidDay(today.day)
    modifies FirstTexts(properties)`content, FirstFragments(properties)`plainText, EntryDates(properties)`start
    ensures run == Finish(databaseId, old(FormatFailure(properties)), old(properties.entries) - {CreatedKey, UpdatedKey},
                          listed, children, create)
    ensures unchanged(properties)
    ensures old(FormatFailure(properties)).None? ==> Stamped(properties, today)
    ensures old(FormatFailure(properties)).Some? ==> unchanged(EntryDates(properties))
    ensures old(TitleFailure(properties)).None? ==> TitleIs(properties, today.title)
    ensures old(TitleFailure(properties)).Some? ==> unchanged(FirstTexts(properties), FirstFragments(properties))
  {
    var newDiaryProperties := FormatNewDiaryPageProperties(properties, today);
    if newDiaryProperties.Err? {
      return Run(ErrorResponse(Malformed(newDiaryProperties.error)), listed);
    }
    var created := listed + [CreatePage(databaseId, newDiaryProperties.value.entries, children)];
    if create.Err? {
      run := Run(ErrorResponse(create.error), created);
    } else {
      run := Run(Duplicated, created);
    }
  }

  /**
   * `handleDuplicateDiary`, calling the guard and the transformer. After a run
   * that reached the create call, the fetched page's own "Name" and "Entry
   * date" objects hold today's title and date, because the transformer's copy
   * shares them.
   */
  method HandleDuplicateDiary(env: Env, query: Result<Page, Thrown>, blocks: Result<seq<Block>, Thrown>,
                               create: Result<string, Thrown>, today: Today, dayOf: string -> Option<CalendarDay>)
      returns (run: Run)
    requires ValidDay(today.day)
    modifies Texts(query)`content, Titles(query)`plainText, Dates(query)`start
    ensures run == Decide(env, old(Sight(query, today, dayOf)), blocks, create)
    ensures query.Ok? ==> unchanged(query.value.properties)
    ensures CreateAttempted(run) ==> query.Ok? && Stamped(query.value.properties, today)
    ensures !CreateAttempted(run) ==> unchanged(Dates(query))
    // the transformer runs only once the blocks are listed: before that nothing is written
    ensures !(ListingAttempted(run) && blocks.Ok?) ==> unchanged(Texts(query), Titles(query))
    // a title the transformer could write stays written, even when the date then fails
    ensures ListingAttempted(run) && blocks.Ok? && query.Ok? && old(TitleFailure(query.value.properties)).None? ==>
              TitleIs(query.value.properties, today.title)
    // a title the transformer cannot write is left exactly as it was
    ensures query.Ok? && old(TitleFailure(query.value.properties)).Some? ==> unchanged(Texts(query), Titles(query))
    // through the shared objects the fetched page itself now reads as today's diary
    ensures CreateAttempted(run) && today.day.year >= 100 && ReadsIsoDates(dayOf) && query.Ok? && IsDateProperty(query.value.properties) ==>
              DiaryExistsForToday(query.value, today.day, dayOf)
  {
    if env.databaseId == "" {
      return Run(MissingDatabaseId, []);
    }
    if env.apiKey == "" {
      return Run(ErrorResponse(ApiKeyMissing), [NewClient]);
    }
    var queried := [NewClient, QueryDatabase(env.databaseId)];
    if query.Err? {
      return Run(ErrorResponse(query.error), queried);
    }
    var diary := query.value;
    if DiaryExistsForToday(diary, today.day, dayOf) {
      return Run(AlreadyExists, queried);
    }
    var listed := queried + [ListBlocks(diary.id)];
    if blocks.Err? {
      return Run(ErrorResponse(blocks.error), listed);
    }
    // `blocks.value` is an array, so `!blocks` is false and the "Could not retrieve blocks" branch is never taken
    run := TransformAndCreate(env.databaseId, diary.properties, listed, blocks.value, create, today);
    if CreateAttempted(run) && today.day.year >= 100 && ReadsIsoDates(dayOf) && IsDateProperty(diary.properties) {
      StampedDiaryExists(diary, today.day, dayOf);
    }
  }

  /** `fetch`: the route rule in front of the handler. */
  method Fetch(request: Request, env: Env, query: Result<Page, Thrown>, blocks: Result<seq<Block>, Thrown>,
               create: Result<string, Thrown>, today: Today, dayOf: string -> Option<CalendarDay>)
      returns (run: Run)
    requires ValidDay(today.day)
    modifies Texts(query)`content, Titles(query)`plainText, Dates(query)`start
    ensures run == Serve(request, env, old(Sight(query, today, dayOf)), blocks, create)
    ensures !Routed(request) ==> unchanged(Texts(query), Titles(query), Dates(query))
    // on the route, the handler's state after the call
    ensures Routed(request) && query.Ok? ==> unchanged(query.value.properties)
    ensures Routed(request) && CreateAttempted(run) ==> query.Ok? && Stamped(query.value.properties, today)
    ensures Routed(request) && !CreateAttempted(run) ==> unchanged(Dates(query))
    ensures Routed(request) && !(ListingAttempted(run) && blocks.Ok?) ==> unchanged(Texts(query), Titles(query))
    ensures Routed(request) && ListingAttempted(run) && blocks.Ok? && query.Ok? && old(TitleFailure(query.value.properties)).None? ==>
              TitleIs(query.value.properties, today.title)
    ensures Routed(request) && query.Ok? && old(TitleFailure(query.value.properties)).Some? ==>
              unchanged(Texts(query), Titles(query))
    ensures Routed(request) && CreateAttempted(run) && today.day.year >= 100 && ReadsIsoDates(dayOf) && query.Ok? && IsDateProperty(query.value.properties) ==>
              DiaryExistsForToday(query.value, today.day, dayOf)
  {
    if request.verb == "POST" && request.pathname == DuplicatePath {
      run := HandleDuplicateDiary(env, query, blocks, create, today, dayOf);
    } else {
      run := Run(NotFound, []);
    }
  }

  // Properties of the workflow, one call at a time.

  predicate Configured(env: Env) {
    env.databaseId != "" && env.apiKey != ""
  }

  /** Without a database ID the handler answers 500 before creating a client or calling anything. */
  lemma MissingDatabaseIdAttemptsNothing(env: Env, query: Result<Sighting, Thrown>, blocks: Result<seq<Block>, Thrown>,
                                         create: Result<string, Thrown>)
    requires env.databaseId == ""
    ensures Decide(env, query, blocks, create) == Run(MissingDatabaseId, [])
  {
  }

  /** When today's diary already exists the handler answers 200 without listing blocks or creating a page. */
  lemma ExistingDiaryShortCircuits(env: Env, query: Result<Sighting, Thrown>, blocks: Result<seq<Block>, Thrown>,
                                   create: Result<string, Thrown>)
    requires Configured(env) && query.Ok? && query.value.existsToday
    ensures Decide(env, query, blocks, create).response == AlreadyExists
    ensures Decide(env, query, blocks, create).steps == [NewClient, QueryDatabase(env.databaseId)]
    ensures !CreateAttempted(Decide(env, query, blocks, create))
  {
  }

  /**
   * Once the blocks are listed and the transformation succeeds, the create call
   * comes right after the listing and gets exactly the transformed properties
   * and the listed blocks in their order; an empty list is no different. The
   * answer is the success message exactly when the create call succeeds.
   */
  lemma CreateGetsTransformedPropertiesAndBlocks(env: Env, sighting: Sighting, children: seq<Block>,
                                                 create: Result<string, Thrown>)
    requires Configured(env) && !sighting.existsToday && sighting.failure.None?
    ensures var run := Decide(env, Ok(sighting), Ok(children), create);
            && |run.steps| == 4
            && run.steps[2] == ListBlocks(sighting.pageId)
            && run.steps[3] == CreatePage(env.databaseId, sighting.outgoing, children)
            && (run.response == Duplicated <==> create.Ok?)
            && (create.Err? ==> run.response == ErrorResponse(create.error))
  {
  }

  /** The create call is attempted exactly when every earlier step went through. */
  lemma CreateAttemptedExactlyAfterEverySuccess(env: Env, query: Result<Sighting, Thrown>,
                                                blocks: Result<seq<Block>, Thrown>, create: Result<string, Thrown>)
    ensures CreateAttempted(Decide(env, query, blocks, create)) <==>
              Configured(env) && query.Ok? && !query.value.existsToday && blocks.Ok? && query.value.failure.None?
  {
  }

  /** Whatever step throws, the answer is a 500 carrying what it threw, and no later step is attempted. */
  lemma ThrownValuesAnswer500(env: Env, query: Result<Sighting, Thrown>, blocks: Result<seq<Block>, Thrown>,
                              create: Result<string, Thrown>)
    requires env.databaseId != ""
    ensures var run := Decide(env, query, blocks, create);
            && (env.apiKey == "" ==> run == Run(ErrorResponse(ApiKeyMissing), [NewClient]))
            && (env.apiKey != "" && query.Err? ==>
                  run == Run(ErrorResponse(query.error), [NewClient, QueryDatabase(env.databaseId)]))
            && (env.apiKey != "" && query.Ok? && !query.value.existsToday && blocks.Err? ==>
                  run.response == ErrorResponse(blocks.error) && |run.steps| == 3)
            && (env.apiKey != "" && query.Ok? && !query.value.existsToday && blocks.Ok? && query.value.failure.Some? ==>
                  run.response == ErrorResponse(Malformed(query.value.failure.value)) && |run.steps| == 3)
  {
  }

  /** Only a POST to `/duplicate-diary` is handled: another method, or another path, is `Not Found`. */
  lemma OnlyTheDuplicateRouteIsHandled(env: Env, query: Result<Sighting, Thrown>, blocks: Result<seq<Block>, Thrown>,
                                       create: Result<string, Thrown>)
    ensures Serve(Request("POST", DuplicatePath), env, query, blocks, create) == Decide(env, query, blocks, create)
    ensures Serve(Request("GET", DuplicatePath), env, query, blocks, create) == Run(NotFound, [])
    ensures Serve(Request("POST", DuplicatePath + "/"), env, query, blocks, create) == Run(NotFound, [])
  {
  }
}

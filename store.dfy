/** The client's module-level state (`fighters`, `allFighters`, the pending
    debounce timer) and the handlers that change it: the full load with its
    demo fallback, the search, rendering, and the input, clear-button and
    Escape events. */
module Store {
  import opened Common
  import opened JsText
  import opened Fighters
  import opened Search
  import opened Stats
  import opened Render

  const ConnectMessage := "Unable to connect to the server. " + "Please ensure your API server is running on http://localhost:3000"
  const LoadFailedPrefix := "Failed to load fighters: "
  const FailedToFetch := "Failed to fetch"
  const LoadFailed := "Load failed"

  /** How `fetchFighters` ends: with the raw records of the envelope, or in
      its `catch` block with the message it shows. */
  datatype LoadOutcome = Loaded(data: seq<Fighter>) | Failed(message: string)

  /** The outcome of a full load. Only a rejected `fetch` throws a
      `TypeError`; it gives the "cannot connect" message when its text
      mentions "fetch", and the generic message otherwise. A status that is
      not ok, a body that does not parse, and an envelope without `success`
      or without `data` give the generic message with the error's own
      text. */
  function LoadOutcomeOf(reply: Reply): LoadOutcome {
    match reply
    case NetworkFailure(reason) =>
      if Includes(reason, "fetch") then Failed(ConnectMessage) else Failed(LoadFailedPrefix + reason)
    case Response(status, body) =>
      if !IsOk(status) then Failed(LoadFailedPrefix + "HTTP error! status: " + IntText(status))
      else match body
        case Unparsable(reason) => Failed(LoadFailedPrefix + reason)
        case Envelope(success, data, message) =>
          if success && data.Some? then Loaded(data.value)
          else Failed(LoadFailedPrefix + (if TruthyText(message) then message.value else "Failed to fetch fighters"))
  }

  /** A full load succeeds exactly when the response is ok and its envelope
      has `success` and `data`; an empty `data` array still succeeds. */
  lemma LoadSucceedsIff(reply: Reply)
    ensures LoadOutcomeOf(reply).Loaded? <==>
      reply.Response? && IsOk(reply.status) && reply.body.Envelope? && reply.body.success && reply.body.data.Some?
  {
  }

  /** The "cannot connect" message is shown exactly for a network failure
      whose text mentions "fetch"; every other failure shows the generic
      message. */
  lemma ConnectMessageOnlyForNetworkFailure(reply: Reply)
    ensures LoadOutcomeOf(reply) == Failed(ConnectMessage) <==>
      reply.NetworkFailure? && Includes(reply.message, "fetch")
    ensures LoadOutcomeOf(reply).Failed? && LoadOutcomeOf(reply) != Failed(ConnectMessage) ==>
      LoadOutcomeOf(reply).message[..|LoadFailedPrefix|] == LoadFailedPrefix
  {
    if LoadOutcomeOf(reply).Failed? && !(reply.NetworkFailure? && Includes(reply.message, "fetch")) {
      var m := LoadOutcomeOf(reply).message;
      assert m[..|LoadFailedPrefix|] == LoadFailedPrefix;
      assert m[0] == 'F';
      assert ConnectMessage[0] == 'U';
    }
  }

  /** The text of a rejected `fetch` is the browser's: one browser's
      "Failed to fetch" gives the "cannot connect" message. */
  lemma FailedToFetchCannotConnect()
    ensures LoadOutcomeOf(NetworkFailure(FailedToFetch)) == Failed(ConnectMessage)
  {
    assert FailedToFetch[10..15] == "fetch";
    IncludesAt(FailedToFetch, "fetch", 10);
  }

  /** Another browser's "Load failed" gives the generic message with that
      text. */
  lemma LoadFailedIsGeneric()
    ensures LoadOutcomeOf(NetworkFailure(LoadFailed)) == Failed(LoadFailedPrefix + LoadFailed)
  {
    assert 't' !in LoadFailed;
    IncludesNeedsChar(LoadFailed, "fetch", 2);
  }

  /** The full list after a load: the normalised records, or the demo
      records when the load fails. */
  function LoadedList(u: Units, reply: Reply): seq<Fighter> {
    match LoadOutcomeOf(reply)
    case Loaded(data) => NormalizeAllLoaded(u, data)
    case Failed(_) => Demo
  }

  /** The error banner after a load: none, or the failure's message. */
  function LoadError(reply: Reply): Option<string> {
    match LoadOutcomeOf(reply)
    case Loaded(_) => None
    case Failed(message) => Some(message)
  }

  class FighterStore {
    /** The conversions `cmToFeetInches` and `kgToLbs` use. */
    const units: Units
    /** `fighters`: the list on screen. */
    var fighters: seq<Fighter>
    /** `allFighters`: the full list. */
    var allFighters: seq<Fighter>
    /** The query of the debounce timer that has been scheduled and has not
        yet fired; `searchTimeout` refers to that timer. */
    var pending: Option<string>
    /** The search box's text and whether the clear button is visible. */
    var inputText: string
    var clearShown: bool
    /** The fighter grid and the "no results" notice. */
    var grid: Grid
    /** The three counters' targets, once `updateStats` has run. */
    var counters: Option<Summary>
    /** The error banner's message, when it is shown. */
    var error: Option<string>

    /** The full list is canonical, the visible list can be shown, and the
        counters agree with the full list. */
    ghost predicate Valid()
      reads this`fighters, this`allFighters, this`counters
    {
      && (forall f :: f in allFighters ==> Canonical(f))
      && (forall f :: f in fighters ==> Displayable(f))
      && (counters.Some? ==> counters.value == SummaryOf(allFighters))
    }

    /** The state when the script has loaded: both lists empty, no timer. */
    constructor (units: Units)
      ensures Valid()
      ensures this.units == units
      ensures fighters == [] && allFighters == [] && pending == None
      ensures inputText == "" && !clearShown && grid == Grid([], false)
      ensures counters == None && error == None
    {
      this.units := units;
      fighters, allFighters := [], [];
      pending := None;
      inputText, clearShown := "", false;
      grid := Grid([], false);
      counters, error := None, None;
    }

    /** `updateStats()`: the counters are recomputed from the full list. */
    method UpdateStats()
      modifies this`counters
      ensures counters == Some(SummaryOf(allFighters))
    {
      counters := Some(SummaryOf(allFighters));
    }

    /** `loadDemoData()`: both lists become the four demo records. */
    method LoadDemoData()
      modifies this`fighters, this`allFighters, this`counters
      ensures Valid()
      ensures fighters == Demo && allFighters == Demo
      ensures counters == Some(SummaryOf(Demo))
    {
      fighters := Demo;
      allFighters := fighters;
      UpdateStats();
      DemoIsCanonical();
    }

    /** `fetchFighters()`: on success both lists become the normalised
        records in the service's order and the loaded list is returned; on
        any failure the error is shown, both lists become the demo records
        and the empty list is returned. The result depends on the reply
        alone, so loading the same reply twice is loading it once. */
    method FetchFighters(reply: Reply) returns (loaded: seq<Fighter>)
      modifies this`fighters, this`allFighters, this`counters, this`error
      ensures Valid()
      ensures match LoadOutcomeOf(reply)
        case Loaded(data) =>
          && fighters == NormalizeAllLoaded(units, data) && allFighters == fighters
          && loaded == fighters && error == None
        case Failed(message) =>
          && fighters == Demo && allFighters == Demo
          && loaded == [] && error == Some(message)
      ensures counters == Some(SummaryOf(allFighters))
    {
      error := None;
      // The error the `try` block throws, and whether it is the TypeError of
      // a `fetch` that could not connect with "fetch" in its message.
      var thrown: Option<string> := None;
      var cannotConnect := false;
      loaded := [];
      if reply.NetworkFailure? {
        thrown, cannotConnect := Some(reply.message), Includes(reply.message, "fetch");
      } else if !IsOk(reply.status) {
        thrown := Some("HTTP error! status: " + IntText(reply.status));
      } else {
        match reply.body
        case Unparsable(reason) =>
          thrown := Some(reason);
        case Envelope(success, data, message) =>
          if success && data.Some? {
            fighters := NormalizeAllLoaded(units, data.value);
            allFighters := fighters;
            UpdateStats();
            AllLoadedCanonical(units, data.value);
            loaded := fighters;
          } else {
            thrown := Some(if TruthyText(message) then message.value else "Failed to fetch fighters");
          }
      }
      if thrown.Some? {
        var shown := if cannotConnect then ConnectMessage else LoadFailedPrefix + thrown.value;
        if reply.Response? && !IsOk(reply.status) {
          assert shown == LoadFailedPrefix + "HTTP error! status: " + IntText(reply.status);
        }
        error := Some(shown);
        LoadDemoData();
        loaded := [];
      }
    }

    /** `renderFighters()`: the grid shows the visible list. */
    method Render()
      modifies this`grid
      ensures grid == RenderGrid(fighters)
    {
      grid := RenderGrid(fighters);
    }

    /** `searchFighters(query)`: the visible list becomes the search result
        and is rendered; the full list is not touched. */
    method SearchFighters(query: string, reply: Reply)
      requires Valid()
      modifies this`fighters, this`grid
      ensures Valid()
      ensures fighters == SearchResult(units, allFighters, query, reply)
      ensures grid == RenderGrid(fighters)
    {
      var hits := RemoteHits(reply);
      if Trim(query) == "" {
        fighters := allFighters;
      } else if hits.Some? {
        fighters := NormalizeAllSearched(units, hits.value);
      } else {
        fighters := LocalFilter(allFighters, query);
      }
      SearchResultDisplayable(units, allFighters, query, reply);
      assert Valid();
      Render();
    }

    /** The `input` handler: the clear button shows when there is text, any
        pending timer is cancelled and one is scheduled for this text, so
        the one pending search is always for the latest input. */
    method Input(query: string)
      modifies this`pending, this`inputText, this`clearShown
      ensures pending == Some(query)
      ensures inputText == query && clearShown == (|query| > 0)
    {
      inputText := query;
      clearShown := |query| > 0;
      pending := Some(query);
    }

    /** The debounce timer fires: it runs the search for its query. */
    method FireTimeout(reply: Reply)
      requires Valid() && pending.Some?
      modifies this`pending, this`fighters, this`grid
      ensures Valid() && pending == None
      ensures fighters == SearchResult(units, allFighters, old(pending).value, reply)
      ensures grid == RenderGrid(fighters)
    {
      var query := pending.value;
      pending := None;
      SearchFighters(query, reply);
    }

    /** The clear button: the box empties, the button hides and the visible
        list is the full list again. A pending timer is not cancelled. */
    method ClearSearch()
      requires Valid()
      modifies this`inputText, this`clearShown, this`fighters, this`grid
      ensures Valid()
      ensures inputText == "" && !clearShown
      ensures fighters == allFighters && grid == RenderGrid(allFighters)
      ensures pending == old(pending)
    {
      inputText, clearShown := "", false;
      fighters := allFighters;
      Render();
    }

    /** The `keydown` handler of the search box: Escape does what the clear
        button does (and also leaves a pending timer in place); any other
        key changes nothing. */
    method KeyDown(key: string)
      requires Valid()
      modifies this`inputText, this`clearShown, this`fighters, this`grid
      ensures Valid()
      ensures key == "Escape" ==>
        inputText == "" && !clearShown && fighters == allFighters && grid == RenderGrid(allFighters)
      ensures key != "Escape" ==>
        inputText == old(inputText) && clearShown == old(clearShown)
        && fighters == old(fighters) && grid == old(grid)
      ensures pending == old(pending)
    {
      if key == "Escape" {
        ClearSearch();
      }
    }

    /** `init()` without the theme and the event wiring: load, then render. */
    method Init(reply: Reply)
      modifies this`fighters, this`allFighters, this`counters, this`error, this`grid
      ensures Valid()
      ensures fighters == allFighters == LoadedList(units, reply)
      ensures counters == Some(SummaryOf(allFighters)) && error == LoadError(reply)
      ensures grid == RenderGrid(fighters)
    {
      var _ := FetchFighters(reply);
      Render();
    }

    /** The window `focus` handler: `init` runs again only while the full
        list is empty. */
    method OnWindowFocus(reply: Reply)
      modifies this`fighters, this`allFighters, this`counters, this`error, this`grid
      requires Valid()
      ensures Valid()
      ensures old(allFighters) != [] ==>
        fighters == old(fighters) && allFighters == old(allFighters) && grid == old(grid)
        && counters == old(counters) && error == old(error)
      ensures old(allFighters) == [] ==>
        && fighters == allFighters == LoadedList(units, reply)
        && counters == Some(SummaryOf(allFighters)) && error == LoadError(reply)
        && grid == RenderGrid(fighters)
    {
      if |allFighters| == 0 {
        Init(reply);
      }
    }
  }

  /** Escape restores the full list at once, but the timer scheduled by the
      preceding keystroke is not cancelled: when it fires it narrows the list
      again although the box is now empty. */
  method EscapeThenTimerFires(store: FighterStore, query: string, reply: Reply)
    returns (afterEscape: seq<Fighter>, afterTimer: seq<Fighter>)
    requires store.Valid() && !AllSpace(query) && RemoteHits(reply) == None
    modifies store
    ensures store.inputText == "" && !store.clearShown
    ensures afterEscape == old(store.allFighters)
    ensures afterTimer == store.fighters == LocalFilter(old(store.allFighters), query)
  {
    store.Input(query);
    store.KeyDown("Escape");
    afterEscape := store.fighters;
    store.FireTimeout(reply);
    TrimEmptyIffAllSpace(query);
    afterTimer := store.fighters;
  }

  /** Loading the same reply twice leaves the lists as loading it once. */
  method LoadTwice(u: Units, reply: Reply) returns (once: seq<Fighter>, twice: seq<Fighter>, visibleOnce: seq<Fighter>, visibleTwice: seq<Fighter>)
    ensures once == twice && visibleOnce == visibleTwice
  {
    var a := new FighterStore(u);
    var _ := a.FetchFighters(reply);
    once, visibleOnce := a.allFighters, a.fighters;
    var b := new FighterStore(u);
    var _ := b.FetchFighters(reply);
    var _ := b.FetchFighters(reply);
    twice, visibleTwice := b.allFighters, b.fighters;
  }
}

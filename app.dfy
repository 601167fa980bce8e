/** The ritual controller (`App` in App.tsx and in src/App.tsx): the state
    machine over `RitualState` that owns the current `ProcessedImage`, the
    `BackendConfig`, and the object URLs it creates and revokes.

    Each `await` of `handleFileSelected` splits it in two: `HandleFileSelected`
    runs up to the removal call and returns the `Ritual` that the suspended
    call keeps; `RemovalSettled` resumes it once the removal (and, in App.tsx,
    the reading) has settled. The 3000 ms failure timers are a count of armed
    timers; `FailureTimerFired` is one of them firing.

    `Snapshot` is the controller's whole state as a value, and the functions
    on it (`SelectFile`, `Settle`, `FireTimer`, `ResetStep`, `ToggleStep`)
    specify the class's methods. */
module App {
  import opened Types
  import opened SpiritService

  /** Which controller: App.tsx awaits `getSpiritReading`; src/App.tsx always
      installs a fixed placeholder reading. */
  datatype Variant = AwaitedReading | PlaceholderReading

  const ServerUrl := "http://localhost:5000/sever"
  const PlaceholderText := "A mysterious presence emerges from the shadows..."

  /** What one suspended `handleFileSelected` call holds: its file, the
      object URL it created for it, and the config it read when it started. */
  datatype Ritual = Ritual(file: File, originalUrl: Url, config: BackendConfig)

  /** How the reading call settled (App.tsx only): a string or null, or a
      thrown error. */
  datatype ReadingOutcome = Reading(text: Option<string>) | ReadingThrew

  /** The controller's state cells, the live object URLs with their blobs,
      the next fresh URL, the armed failure timers, and the rituals whose
      removal call has not yet settled. */
  datatype Snapshot = Snapshot(
    variant: Variant,
    state: RitualState,
    result: Option<ProcessedImage>,
    config: BackendConfig,
    objectUrls: map<Url, Blob>,
    nextUrl: Url,
    armedTimers: nat,
    inFlight: set<Ritual>)

  /** The URLs a result holds: the original, and the processed one if any. */
  function ResultUrls(result: Option<ProcessedImage>): (urls: set<Url>)
    ensures result.None? ==> urls == {}
    ensures result.Some? ==> result.value.originalUrl in urls
    ensures result.Some? && result.value.processedUrl.Some? ==> result.value.processedUrl.value in urls
    ensures forall u :: u in urls ==>
              result.Some? && (u == result.value.originalUrl || result.value.processedUrl == Some(u))
  {
    match result
    case None => {}
    case Some(image) =>
      {image.originalUrl} + if image.processedUrl.Some? then {image.processedUrl.value} else {}
  }

  /** The first render: IDLE, no result, and the variant's default config
      (live in App.tsx, mock in src/App.tsx). */
  function Initial(variant: Variant): (c: Snapshot)
    ensures c.state == Idle && c.result == None
    ensures c.config.useMock <==> variant == PlaceholderReading
    ensures c.config.serverUrl == ServerUrl
    ensures c.objectUrls == map[] && c.armedTimers == 0 && c.inFlight == {}
  {
    Snapshot(variant, Idle, None, BackendConfig(variant == PlaceholderReading, ServerUrl), map[], 0, 0, {})
  }

  /** The ritual a submission in `c` starts. */
  function NewRitual(c: Snapshot, file: File): Ritual
  {
    Ritual(file, c.nextUrl, c.config)
  }

  /** `handleFileSelected` up to its first await: SEVERING, then one new
      object URL for the file. */
  function SelectFile(c: Snapshot, file: File): (c': Snapshot)
    ensures c'.state == Severing
    ensures c'.objectUrls.Keys == c.objectUrls.Keys + {c.nextUrl} && c'.objectUrls[c.nextUrl] == file.blob
    ensures forall u :: u in c.objectUrls && u != c.nextUrl ==> c'.objectUrls[u] == c.objectUrls[u]
    ensures c'.nextUrl > c.nextUrl
    ensures c'.result == c.result && c'.config == c.config && c'.armedTimers == c.armedTimers
    ensures c'.inFlight == c.inFlight + {Ritual(file, c.nextUrl, c.config)}
  {
    c.(state := Severing,
       objectUrls := c.objectUrls[c.nextUrl := file.blob],
       nextUrl := c.nextUrl + 1,
       inFlight := c.inFlight + {NewRitual(c, file)})
  }

  /** The `catch` block: FAILED, and one more armed timer. */
  function Fail(c: Snapshot): Snapshot
  {
    c.(state := Failed, armedTimers := c.armedTimers + 1)
  }

  /** The rest of `handleFileSelected` for `r`, once its removal call settled
      with `outcome` (and, in App.tsx, the reading with `reading`). */
  function Settle(c: Snapshot, r: Ritual, outcome: Result<Blob>, reading: ReadingOutcome): (c': Snapshot)
    requires r in c.inFlight
    ensures c'.inFlight == c.inFlight - {r} && c'.config == c.config
    ensures c'.state == Complete || c'.state == Failed
    ensures c'.state == Complete <==>
              outcome.Ok? && (c.variant == PlaceholderReading || reading.Reading?)
    ensures c'.state == Complete ==>
              c'.result.Some? && c'.result.value.originalUrl == r.originalUrl &&
              c'.result.value.processedUrl == Some(c.nextUrl) &&
              c'.objectUrls == c.objectUrls[c.nextUrl := outcome.value]
    ensures c'.state == Failed ==>
              c'.result == c.result && c'.armedTimers == c.armedTimers + 1
    ensures outcome.Err? ==> c'.objectUrls == c.objectUrls && c'.nextUrl == c.nextUrl
  {
    var resumed := c.(inFlight := c.inFlight - {r});
    match outcome
    case Err(_) => Fail(resumed)
    case Ok(blob) =>
      var processedUrl := resumed.nextUrl;
      var created := resumed.(objectUrls := resumed.objectUrls[processedUrl := blob], nextUrl := processedUrl + 1);
      if c.variant == PlaceholderReading then
        created.(result := Some(ProcessedImage(r.originalUrl, Some(processedUrl), Some(PlaceholderText))), state := Complete)
      else
        match reading
        case ReadingThrew => Fail(created)
        case Reading(text) =>
          created.(result := Some(ProcessedImage(r.originalUrl, Some(processedUrl), text)), state := Complete)
  }

  /** The failure timer's callback: IDLE, whatever the state is by then. */
  function FireTimer(c: Snapshot): (c': Snapshot)
    requires c.armedTimers > 0
    ensures c'.state == Idle && c'.armedTimers == c.armedTimers - 1
    ensures c'.result == c.result && c'.objectUrls == c.objectUrls && c'.inFlight == c.inFlight
  {
    c.(state := Idle, armedTimers := c.armedTimers - 1)
  }

  /** `handleReset`: revoke the result's URLs, clear it, IDLE. */
  function ResetStep(c: Snapshot): (c': Snapshot)
    ensures c'.state == Idle && c'.result == None
    ensures c'.objectUrls.Keys == c.objectUrls.Keys - ResultUrls(c.result)
    ensures c'.inFlight == c.inFlight && c'.config == c.config && c'.armedTimers == c.armedTimers
  {
    c.(objectUrls := c.objectUrls - ResultUrls(c.result), result := None, state := Idle)
  }

  /** `toggleMockMode`. */
  function ToggleStep(c: Snapshot): (c': Snapshot)
    ensures c'.config.useMock != c.config.useMock && c'.config.serverUrl == c.config.serverUrl
    ensures c'.state == c.state && c'.result == c.result && c'.objectUrls == c.objectUrls
    ensures c'.inFlight == c.inFlight && c'.armedTimers == c.armedTimers
  {
    c.(config := c.config.(useMock := !c.config.useMock))
  }

  /** The view condition `state === COMPLETE && result`. */
  function ShowsResult(c: Snapshot): (shown: bool)
    ensures shown ==> c.result.Some?
    ensures Inv(c) ==> (shown <==> c.state == Complete)
  {
    c.state == Complete && c.result.Some?
  }

  /** What holds of every state the controller reaches. */
  ghost predicate Inv(c: Snapshot)
  {
    && c.state != Summoning
    && (c.state == Complete ==> c.result.Some?)
    && (c.state == Failed ==> c.armedTimers > 0)
    && (c.result.Some? ==> c.result.value.processedUrl.Some? &&
                           c.result.value.processedUrl.value != c.result.value.originalUrl)
    && (c.variant == PlaceholderReading && c.result.Some? ==> c.result.value.spiritReading == Some(PlaceholderText))
    && c.config.serverUrl == ServerUrl
    && ResultUrls(c.result) <= c.objectUrls.Keys
    && (forall u :: u in c.objectUrls ==> u < c.nextUrl)
    && (forall r :: r in c.inFlight ==>
          && r.originalUrl in c.objectUrls
          && c.objectUrls[r.originalUrl] == r.file.blob
          && r.originalUrl !in ResultUrls(c.result))
    && (forall r, r' :: r in c.inFlight && r' in c.inFlight && r.originalUrl == r'.originalUrl ==> r == r')
  }

  lemma InitialInv(variant: Variant)
    ensures Inv(Initial(variant))
  {
  }

  lemma SelectFileInv(c: Snapshot, file: File)
    requires Inv(c)
    ensures Inv(SelectFile(c, file))
  {
  }

  lemma SettleInv(c: Snapshot, r: Ritual, outcome: Result<Blob>, reading: ReadingOutcome)
    requires Inv(c) && r in c.inFlight
    ensures Inv(Settle(c, r, outcome, reading))
  {
  }

  lemma FireTimerInv(c: Snapshot)
    requires Inv(c) && c.armedTimers > 0
    ensures Inv(FireTimer(c))
  {
  }

  lemma ResetStepInv(c: Snapshot)
    requires Inv(c)
    ensures Inv(ResetStep(c))
  {
  }

  lemma ToggleStepInv(c: Snapshot)
    requires Inv(c)
    ensures Inv(ToggleStep(c))
  {
  }

  class RitualController {
    const variant: Variant
    var state: RitualState
    var result: Option<ProcessedImage>
    var config: BackendConfig
    /** The object URLs created and not yet revoked, with their blobs. */
    var objectUrls: map<Url, Blob>
    var nextUrl: Url
    /** Failure timers scheduled with `setTimeout` that have not fired. */
    var armedTimers: nat
    /** The rituals suspended at their removal await. */
    ghost var inFlight: set<Ritual>

    ghost function Model(): Snapshot
      reads this
    {
      Snapshot(variant, state, result, config, objectUrls, nextUrl, armedTimers, inFlight)
    }

    ghost predicate Valid()
      reads this
    {
      Inv(Model())
    }

    constructor (v: Variant)
      ensures Valid() && Model() == Initial(v)
      ensures state == Idle && result == None
      ensures config == BackendConfig(v == PlaceholderReading, "http://localhost:5000/sever")
    {
      variant := v;
      state := Idle;
      result := None;
      config := BackendConfig(v == PlaceholderReading, ServerUrl);
      objectUrls := map[];
      nextUrl := 0;
      armedTimers := 0;
      inFlight := {};
      InitialInv(v);
    }

    /** `URL.createObjectURL`: a URL never handed out before. */
    method CreateObjectUrl(blob: Blob) returns (url: Url)
      modifies this`objectUrls, this`nextUrl
      ensures url == old(nextUrl) && nextUrl == url + 1
      ensures objectUrls == old(objectUrls)[url := blob]
    {
      url := nextUrl;
      objectUrls := objectUrls[url := blob];
      nextUrl := nextUrl + 1;
    }

    /** `URL.revokeObjectURL`: a no-op on a URL that is not live. */
    method RevokeObjectUrl(url: Url)
      modifies this`objectUrls
      ensures objectUrls == old(objectUrls) - {url}
    {
      objectUrls := objectUrls - {url};
    }

    /** `handleFileSelected` up to the removal await. */
    method HandleFileSelected(file: File) returns (ritual: Ritual)
      requires Valid()
      modifies this
      ensures Valid()
      ensures ritual == NewRitual(old(Model()), file) && ritual in inFlight
      ensures Model() == SelectFile(old(Model()), file)
    {
      ghost var before := Model();
      state := Severing;
      var originalUrl := CreateObjectUrl(file.blob);
      ritual := Ritual(file, originalUrl, config);
      inFlight := inFlight + {ritual};
      SelectFileInv(before, file);
    }

    /** `handleFileSelected` after the removal await: the call is made with
        the config the ritual captured, not the current one. */
    method RemovalSettled(ritual: Ritual, fetch: Request -> FetchOutcome, reading: ReadingOutcome)
      requires Valid() && ritual in inFlight
      modifies this
      ensures Valid()
      ensures Model() == Settle(old(Model()), ritual, SeverSpirit(ritual.file, ritual.config, fetch), reading)
    {
      ghost var before := Model();
      inFlight := inFlight - {ritual};
      var outcome := SeverSpirit(ritual.file, ritual.config, fetch);
      match outcome {
        case Err(_) =>
          state := Failed;
          armedTimers := armedTimers + 1;
        case Ok(blob) =>
          var processedUrl := CreateObjectUrl(blob);
          if variant == PlaceholderReading {
            result := Some(ProcessedImage(ritual.originalUrl, Some(processedUrl), Some(PlaceholderText)));
            state := Complete;
          } else {
            match reading {
              case ReadingThrew =>
                state := Failed;
                armedTimers := armedTimers + 1;
              case Reading(text) =>
                result := Some(ProcessedImage(ritual.originalUrl, Some(processedUrl), text));
                state := Complete;
            }
          }
      }
      SettleInv(before, ritual, outcome, reading);
    }

    /** The failure timer's callback. */
    method FailureTimerFired()
      requires Valid() && armedTimers > 0
      modifies this
      ensures Valid()
      ensures Model() == FireTimer(old(Model()))
    {
      ghost var before := Model();
      state := Idle;
      armedTimers := armedTimers - 1;
      FireTimerInv(before);
    }

    /** `handleReset`. */
    method HandleReset()
      requires Valid()
      modifies this
      ensures Valid()
      ensures Model() == ResetStep(old(Model()))
    {
      ghost var before := Model();
      if result.Some? {
        RevokeObjectUrl(result.value.originalUrl);
        if result.value.processedUrl.Some? {
          RevokeObjectUrl(result.value.processedUrl.value);
        }
      }
      assert objectUrls == before.objectUrls - ResultUrls(before.result);
      result := None;
      state := Idle;
      ResetStepInv(before);
    }

    /** `toggleMockMode`. */
    method ToggleMockMode()
      requires Valid()
      modifies this
      ensures Valid()
      ensures Model() == ToggleStep(old(Model()))
    {
      ghost var before := Model();
      config := config.(useMock := !config.useMock);
      ToggleStepInv(before);
    }

    /** Whether the result view is shown instead of the portal. */
    function ShowsResultView(): (shown: bool)
      reads this
      ensures Valid() ==> (shown <==> state == Complete)
    {
      state == Complete && result.Some?
    }
  }
}

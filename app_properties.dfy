/** Properties of the ritual controller over whole runs: what every reachable
    state satisfies, which object URLs leak, and the two behaviours of the
    source that a reader may not expect (the original URL of a failed ritual
    is never revoked; the failure timer sets IDLE even after a newer ritual
    has started). */
module AppProperties {
  import opened Types
  import opened SpiritService
  import opened App
  import Portal

  /** Everything that can happen to the controller. A removal settles only for
      a ritual that is in flight, and a timer fires only when one is armed;
      other such events change nothing. These events over-approximate the
      program's runs: a submission or a reset may happen in any state (the
      UI offers them only in some), and a removal may settle with any
      outcome (so even a mock ritual may fail). */
  datatype Event =
    | FileSelected(file: File)
    | RemovalSettled(ritual: Ritual, outcome: Result<Blob>, reading: ReadingOutcome)
    | TimerFired
    | ResetRequested
    | MockToggled

  function Apply(c: Snapshot, e: Event): (c': Snapshot)
    ensures c'.variant == c.variant && c'.config.serverUrl == c.config.serverUrl
    ensures c'.nextUrl >= c.nextUrl
  {
    match e
    case FileSelected(file) => SelectFile(c, file)
    case RemovalSettled(r, outcome, reading) => if r in c.inFlight then Settle(c, r, outcome, reading) else c
    case TimerFired => if c.armedTimers > 0 then FireTimer(c) else c
    case ResetRequested => ResetStep(c)
    case MockToggled => ToggleStep(c)
  }

  /** The state after the events of `trace`, in order. Handles are never
      handed out twice: the fresh-URL counter only grows. */
  function Run(c: Snapshot, trace: seq<Event>): (c': Snapshot)
    ensures c'.variant == c.variant && c'.config.serverUrl == c.config.serverUrl
    ensures c'.nextUrl >= c.nextUrl
    decreases |trace|
  {
    if trace == [] then c else Run(Apply(c, trace[0]), trace[1..])
  }

  /** The live URLs that neither the result nor a suspended ritual refers to:
      nothing will ever revoke them. */
  ghost function Orphans(c: Snapshot): set<Url>
  {
    set u | u in c.objectUrls.Keys && u !in ResultUrls(c.result) &&
            (forall r :: r in c.inFlight ==> r.originalUrl != u)
  }

  lemma ApplyInv(c: Snapshot, e: Event)
    requires Inv(c)
    ensures Inv(Apply(c, e))
  {
  }

  lemma {:induction false} RunInv(c: Snapshot, trace: seq<Event>)
    requires Inv(c)
    ensures Inv(Run(c, trace)) && Run(c, trace).variant == c.variant
    decreases |trace|
  {
    if trace != [] {
      ApplyInv(c, trace[0]);
      RunInv(Apply(c, trace[0]), trace[1..]);
    }
  }

  /** In every reachable state: SUMMONING is never assigned; FAILED always
      has an armed timer, whose firing returns to IDLE; COMPLETE comes
      with a result whose processed URL is non-null and live; the result
      view is shown exactly when the state is COMPLETE; the server URL is
      never changed; and in src/App.tsx every reading is the placeholder. */
  lemma ReachableStates(variant: Variant, trace: seq<Event>)
    ensures var c := Run(Initial(variant), trace);
      && c.state != Summoning
      && (c.state == Failed ==> c.armedTimers > 0 && Apply(c, TimerFired).state == Idle)
      && (c.state == Complete ==>
            c.result.Some? && c.result.value.processedUrl.Some? &&
            c.result.value.processedUrl.value in c.objectUrls)
      && (ShowsResult(c) <==> c.state == Complete)
      && c.config.serverUrl == "http://localhost:5000/sever"
      && (variant == PlaceholderReading && c.result.Some? ==>
            c.result.value.spiritReading == Some("A mysterious presence emerges from the shadows..."))
  {
    InitialInv(variant);
    RunInv(Initial(variant), trace);
  }

  /** A URL, once orphaned, stays live for good: no step revokes it or makes
      it referenced again. */
  lemma ApplyKeepsOrphans(c: Snapshot, e: Event)
    requires Inv(c)
    ensures Orphans(c) <= Orphans(Apply(c, e))
  {
  }

  lemma {:induction false} LeaksArePermanent(c: Snapshot, trace: seq<Event>)
    requires Inv(c)
    ensures Orphans(c) <= Orphans(Run(c, trace))
    decreases |trace|
  {
    if trace != [] {
      ApplyKeepsOrphans(c, trace[0]);
      ApplyInv(c, trace[0]);
      LeaksArePermanent(Apply(c, trace[0]), trace[1..]);
    }
  }

  /** A ritual that completes while an earlier result is still held replaces
      it without revoking its URLs: both become orphans. */
  lemma SupersededResultLeaks(c: Snapshot, r: Ritual, blob: Blob, text: Option<string>)
    requires Inv(c) && r in c.inFlight && c.result.Some?
    ensures Settle(c, r, Ok(blob), Reading(text)).state == Complete
    ensures ResultUrls(c.result) <= Orphans(Settle(c, r, Ok(blob), Reading(text)))
  {
  }

  /** Submission: SEVERING, exactly one new live URL, holding the file, never
      handed out before; the result and config are untouched, and the ritual
      captures the config of the moment. */
  lemma SelectFileEffect(c: Snapshot, file: File)
    requires Inv(c)
    ensures var c' := SelectFile(c, file); var r := NewRitual(c, file);
      && c'.state == Severing
      && r.originalUrl !in c.objectUrls
      && c'.objectUrls.Keys == c.objectUrls.Keys + {r.originalUrl}
      && c'.objectUrls[r.originalUrl] == file.blob
      && |c'.objectUrls| == |c.objectUrls| + 1
      && c'.result == c.result && c'.config == c.config && r.config == c.config
      && r in c'.inFlight
  {
  }

  /** A removal that fails leaves FAILED with the result unchanged, arms one
      timer, creates no URL, and orphans the original URL the ritual made. */
  lemma FailedRemovalLeaksOriginal(c: Snapshot, r: Ritual, message: string, reading: ReadingOutcome)
    requires Inv(c) && r in c.inFlight
    ensures var c' := Settle(c, r, Err(message), reading);
      && c'.state == Failed
      && c'.result == c.result
      && c'.objectUrls == c.objectUrls
      && c'.armedTimers == c.armedTimers + 1
      && r.originalUrl in Orphans(c')
      && Orphans(c') == Orphans(c) + {r.originalUrl}
  {
  }

  /** In App.tsx a reading call that throws sends the ritual to FAILED after
      the processed URL was created: both URLs of the ritual leak. */
  lemma ThrownReadingLeaksBoth(c: Snapshot, r: Ritual, blob: Blob)
    requires Inv(c) && r in c.inFlight && c.variant == AwaitedReading
    ensures var c' := Settle(c, r, Ok(blob), ReadingThrew);
      && c'.state == Failed
      && c'.result == c.result
      && {r.originalUrl, c.nextUrl} <= Orphans(c')
  {
  }

  /** A removal that succeeds (and, in App.tsx, a reading that does not
      throw) leaves COMPLETE with a result made of the ritual's original URL
      and a fresh processed URL holding the returned blob, and the reading:
      the awaited one in App.tsx, the placeholder in src/App.tsx. */
  lemma SuccessfulRemovalCompletes(c: Snapshot, r: Ritual, blob: Blob, reading: ReadingOutcome)
    requires Inv(c) && r in c.inFlight
    requires c.variant == PlaceholderReading || reading.Reading?
    ensures var c' := Settle(c, r, Ok(blob), reading);
      && c'.state == Complete
      && c.nextUrl !in c.objectUrls
      && c'.result == Some(ProcessedImage(r.originalUrl, Some(c.nextUrl),
                             if c.variant == PlaceholderReading then Some(PlaceholderText) else reading.text))
      && c'.objectUrls == c.objectUrls[c.nextUrl := blob]
      && c'.objectUrls[r.originalUrl] == r.file.blob
  {
  }

  /** With the mock, a ritual that completes shows its input twice: the
      processed URL holds exactly the bytes of the original. */
  lemma MockRitualEchoesInput(c: Snapshot, r: Ritual, fetch: Request -> FetchOutcome, reading: ReadingOutcome)
    requires Inv(c) && r in c.inFlight && r.config.useMock
    requires c.variant == PlaceholderReading || reading.Reading?
    ensures var c' := Settle(c, r, SeverSpirit(r.file, r.config, fetch), reading);
      && c'.state == Complete
      && c'.result.Some? && c'.result.value.processedUrl.Some?
      && c'.objectUrls[c'.result.value.processedUrl.value].bytes == r.file.blob.bytes
      && c'.objectUrls[c'.result.value.originalUrl] == c'.objectUrls[c'.result.value.processedUrl.value]
  {
  }

  /** A live server that answers with a non-ok status sends the ritual to
      FAILED and creates no URL. */
  lemma LiveRefusalFails(c: Snapshot, r: Ritual, fetch: Request -> FetchOutcome, reading: ReadingOutcome)
    requires Inv(c) && r in c.inFlight && !r.config.useMock
    requires fetch(SeverRequest(r.file, r.config.serverUrl)).Responded?
    requires !fetch(SeverRequest(r.file, r.config.serverUrl)).response.ok
    ensures var c' := Settle(c, r, SeverSpirit(r.file, r.config, fetch), reading);
      && c'.state == Failed && c'.objectUrls == c.objectUrls && c'.nextUrl == c.nextUrl
      && c'.result == c.result
  {
  }

  /** Reset revokes exactly the result's URLs and returns to IDLE with no
      result; with no result it revokes nothing, and resetting twice is
      resetting once. */
  lemma ResetReleasesResult(c: Snapshot)
    ensures var c' := ResetStep(c);
      && c'.state == Idle && c'.result == None
      && c'.objectUrls.Keys == c.objectUrls.Keys - ResultUrls(c.result)
      && (forall u :: u in c'.objectUrls ==> c'.objectUrls[u] == c.objectUrls[u])
      && (c.result.None? ==> c'.objectUrls == c.objectUrls)
      && ResetStep(c') == c'
  {
  }

  /** In a reachable state, a result holds two distinct live URLs, so reset
      frees exactly two handles then, and none without a result. */
  lemma ResetFreesEachHandleOnce(c: Snapshot)
    requires Inv(c)
    ensures |ResetStep(c).objectUrls| == |c.objectUrls| - |ResultUrls(c.result)|
    ensures |ResultUrls(c.result)| == if c.result.Some? then 2 else 0
  {
  }

  /** Toggling flips only `useMock`, twice is not at all, and it commutes with
      a removal settling: the call in flight used the config its ritual
      captured, so toggling before or after it settles makes no difference. */
  lemma ToggleOnlyAffectsLaterRituals(c: Snapshot, r: Ritual, outcome: Result<Blob>, reading: ReadingOutcome, file: File)
    requires r in c.inFlight
    ensures ToggleStep(c).config.useMock == !c.config.useMock
    ensures ToggleStep(c).config.serverUrl == c.config.serverUrl
    ensures ToggleStep(ToggleStep(c)) == c
    ensures Settle(ToggleStep(c), r, outcome, reading) == ToggleStep(Settle(c, r, outcome, reading))
    ensures NewRitual(ToggleStep(c), file).config.useMock == !NewRitual(c, file).config.useMock
  {
  }

  /** The failure timer of an earlier ritual sets IDLE while a newer one is
      severing: the portal then accepts input again with a ritual in flight. */
  lemma StaleTimerInterruptsNewerRitual(variant: Variant, first: File, second: File, message: string)
    ensures
      var c0 := Initial(variant);
      var r1 := NewRitual(c0, first);
      var c1 := SelectFile(c0, first);
      var c2 := Settle(c1, r1, Err(message), ReadingThrew);
      var c3 := SelectFile(c2, second);
      && c2.state == Failed && c3.state == Severing && c3.armedTimers == 1
      && FireTimer(c3).state == Idle
      && NewRitual(c2, second) in FireTimer(c3).inFlight
      && Portal.AcceptsInput(FireTimer(c3).state)
  {
  }

  /** The same timer landing after the newer ritual completed hides its
      result: the state is IDLE, the result and its URLs are still there, and
      the result view is not shown. */
  lemma StaleTimerHidesCompletedResult(first: File, second: File, message: string, blob: Blob)
    ensures
      var c0 := Initial(PlaceholderReading);
      var c1 := SelectFile(c0, first);
      var c2 := Settle(c1, NewRitual(c0, first), Err(message), ReadingThrew);
      var c3 := SelectFile(c2, second);
      var c4 := Settle(c3, NewRitual(c2, second), Ok(blob), ReadingThrew);
      var c5 := FireTimer(c4);
      && c4.state == Complete && ShowsResult(c4)
      && c5.state == Idle && c5.result.Some? && !ShowsResult(c5)
  {
  }

  /** Once a file is submitted, the portal ignores drops and clicks until the
      ritual settles (or a timer fires). */
  lemma SubmissionClosesThePortal(c: Snapshot, file: File, files: seq<File>)
    ensures Portal.DropOutcomeOf(SelectFile(c, file).state, files) == Portal.Ignored
    ensures !Portal.AcceptsInput(SelectFile(c, file).state)
    ensures Portal.IsProcessing(SelectFile(c, file).state)
  {
  }
}

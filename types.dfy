/** The data types shared by the ritual controller, the portal and the
    backend gateway (src/types.ts). */
module Types {

  datatype Option<+T> = None | Some(value: T)

  /** The `RitualState` enum. `Summoning` is declared but neither controller
      variant ever assigns it. */
  datatype RitualState = Idle | Summoning | Severing | Complete | Failed

  /** Every value of `RitualState`, in declaration order. */
  const AllStates: seq<RitualState> := [Idle, Summoning, Severing, Complete, Failed]

  /** An object URL handed out by the browser's object-URL registry. The
      model only needs its identity, so it is a handle number. */
  type Url = nat

  /** `ProcessedImage`: the original always has an object URL; the processed
      URL and the spirit reading may each be absent (null). */
  datatype ProcessedImage = ProcessedImage(
    originalUrl: Url,
    processedUrl: Option<Url>,
    spiritReading: Option<string>)

  /** `BackendConfig`: the mock/live switch and the live server's URL. */
  datatype BackendConfig = BackendConfig(useMock: bool, serverUrl: string)

  lemma StatesAreExactlyFive(s: RitualState)
    ensures s in AllStates
    ensures |AllStates| == 5
    ensures forall i, j :: 0 <= i < j < |AllStates| ==> AllStates[i] != AllStates[j]
  {
  }
}

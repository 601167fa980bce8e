/** The backend gateway (src/services/spiritService.ts): a mock that echoes
    its input and a live multipart POST, chosen by `BackendConfig.useMock`.
    The network is a parameter: `fetch` maps the request that is sent to
    what comes back. */
module SpiritService {
  import opened Types

  /** A browser `Blob`: its MIME type and its bytes. */
  datatype Blob = Blob(mimeType: string, bytes: seq<bv8>)

  /** A browser `File` is a `Blob` with a name; `blob` is the Blob it is,
      so `file.blob.mimeType` is the source's `file.type`. */
  datatype File = File(name: string, blob: Blob)

  datatype FormField = FormField(name: string, value: File)

  datatype Request = Request(httpMethod: string, url: string, form: seq<FormField>)

  /** The parts of a fetch `Response` the gateway looks at. */
  datatype Response = Response(ok: bool, statusText: string, body: Blob)

  /** A fetch either yields a response or rejects (a network error). */
  datatype FetchOutcome = Responded(response: Response) | NetworkError(reason: string)

  /** A settled promise: resolved with a value, or rejected with a message. */
  datatype Result<+T> = Ok(value: T) | Err(message: string)

  const RefusalPrefix := "The spirits refused: "

  /** The names of the form fields, in order. */
  function FieldNames(form: seq<FormField>): seq<string>
  {
    if form == [] then [] else [form[0].name] + FieldNames(form[1..])
  }

  /** `mockSeverSpirit`: after its delay it resolves to the file it was given. */
  function MockSeverSpirit(file: File): (r: Result<Blob>)
    ensures r.Ok? && r.value.bytes == file.blob.bytes && r.value.mimeType == file.blob.mimeType
  {
    Ok(file.blob)
  }

  /** The request `realSeverSpirit` sends: a POST of a form whose one field,
      `file`, holds the input. */
  function SeverRequest(file: File, url: string): (req: Request)
    ensures req.httpMethod == "POST" && req.url == url
    ensures FieldNames(req.form) == ["file"] && req.form[0].value == file
  {
    Request("POST", url, [FormField("file", file)])
  }

  /** `realSeverSpirit`: post the file to `url`; a non-ok response is an
      error carrying the status text, an ok one yields the response body. */
  function RealSeverSpirit(file: File, url: string, fetch: Request -> FetchOutcome): (r: Result<Blob>)
    ensures r.Ok? <==> fetch(SeverRequest(file, url)).Responded? && fetch(SeverRequest(file, url)).response.ok
    ensures r.Ok? ==> r.value == fetch(SeverRequest(file, url)).response.body
    ensures fetch(SeverRequest(file, url)).Responded? && !r.Ok? ==>
              var text := fetch(SeverRequest(file, url)).response.statusText;
              |text| <= |r.message| && r.message[|r.message| - |text|..] == text
  {
    match fetch(SeverRequest(file, url))
    case NetworkError(reason) => Err(reason)
    case Responded(response) =>
      if !response.ok then Err(RefusalPrefix + response.statusText)
      else Ok(response.body)
  }

  /** `severSpirit`: the mock when `useMock` holds, otherwise the live call
      to `config.serverUrl`. */
  function SeverSpirit(file: File, config: BackendConfig, fetch: Request -> FetchOutcome): (r: Result<Blob>)
    ensures config.useMock ==> r == Ok(file.blob)
    ensures !config.useMock ==>
              var answer := fetch(SeverRequest(file, config.serverUrl));
              (r.Ok? <==> answer.Responded? && answer.response.ok) &&
              (r.Ok? ==> r.value == answer.response.body)
  {
    if config.useMock then MockSeverSpirit(file) else RealSeverSpirit(file, config.serverUrl, fetch)
  }

  /** The mock consults no network at all, and the live call consults it only
      about the one POST to `config.serverUrl`: two networks that answer that
      request alike give the same outcome. */
  lemma SeverDependsOnlyOnItsRequest(file: File, config: BackendConfig, fetch1: Request -> FetchOutcome, fetch2: Request -> FetchOutcome)
    requires !config.useMock ==>
               fetch1(SeverRequest(file, config.serverUrl)) == fetch2(SeverRequest(file, config.serverUrl))
    ensures SeverSpirit(file, config, fetch1) == SeverSpirit(file, config, fetch2)
  {
  }
}

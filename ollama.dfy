/** The Ollama client: the URL joining rule, the request payload, the
    mapping of transport and status failures to `RuntimeError`, and the
    assembly of the answer from a streamed or a single JSON response. */
module Ollama {
  import opened Wrappers
  import opened PyStrings
  import opened PyValues

  predicate IsSlash(c: char) { c == '/' }

  /** `_join_url(base, path)`: `base.rstrip("/") + "/" + path.lstrip("/")`. */
  function JoinUrl(base: string, path: string): string {
    TrimEnd(base, IsSlash) + "/" + TrimStart(path, IsSlash)
  }

  /** The request body `generate` posts: `model` and `prompt`, and
      `"stream": False` only when streaming was not requested. */
  function Payload(model: string, prompt: string, stream: bool): Record {
    var p := map["model" := Str(model), "prompt" := Str(prompt)];
    if stream then p else p["stream" := Bool(false)]
  }

  /** What `await self._client.post(url, json=payload)` did: the connection
      failed (with the error's text), or a response arrived with a status,
      a body text, its lines, and its parse as JSON (None when it is not
      JSON). */
  datatype HttpOutcome =
    | ConnectionFailed(detail: string)
    | Response(status: int, text: string, lines: seq<string>, json: Option<Value>)

  /** `raise_for_status()` passes only a 2xx status. */
  predicate Success(status: int) {
    200 <= status < 300
  }

  /** The `RuntimeError` that `generate` raises for a failed request. */
  function RequestError(url: string, outcome: HttpOutcome): Error
    requires outcome.ConnectionFailed? || !Success(outcome.status)
  {
    match outcome
    case ConnectionFailed(detail) => RuntimeError("Ollama connection error at " + url + ": " + detail)
    case Response(status, text, _, _) => RuntimeError("Ollama HTTP error " + IntToString(status) + " at " + url + ": " + text)
  }

  // ------------------------------------------------------------ streaming

  /** The `"response"` values collected from the streamed lines, or the
      error the loop raises: blank lines and lines that are not JSON are
      skipped, and a JSON value that is not an object has no `.get`. */
  function StreamValues(lines: seq<string>, decode: string -> Option<Value>): Result<seq<Value>> {
    if lines == [] then Ok([])
    else
      var n := |lines| - 1;
      match StreamValues(lines[..n], decode)
      case Err(e) => Err(e)
      case Ok(vs) =>
        if lines[n] == "" then Ok(vs)
        else
          match decode(lines[n])
          case None => Ok(vs)
          case Some(obj) =>
            if obj.Dict? then Ok(vs + [Get(obj.entries, "response", Str(""))])
            else Err(AttributeError)
  }

  predicate AllStrings(vs: seq<Value>) {
    forall i :: 0 <= i < |vs| ==> vs[i].Str?
  }

  function Concat(vs: seq<Value>): string
    requires AllStrings(vs)
  {
    if vs == [] then "" else Concat(vs[..|vs| - 1]) + vs[|vs| - 1].s
  }

  /** `"".join(full)`: a non-string element raises. */
  function JoinStrings(vs: seq<Value>): Result<Value> {
    if AllStrings(vs) then Ok(Str(Concat(vs))) else Err(TypeError)
  }

  /** The answer of a streamed request. */
  function StreamAnswer(lines: seq<string>, decode: string -> Option<Value>): Result<Value> {
    match StreamValues(lines, decode)
    case Err(e) => Err(e)
    case Ok(vs) => JoinStrings(vs)
  }

  /** The answer of a single JSON response: `resp.json()` raises on a body
      that is not JSON, and `.get` on a value that is not an object. */
  function BodyAnswer(json: Option<Value>): Result<Value> {
    match json
    case None => Err(JsonDecodeError)
    case Some(data) =>
      if data.Dict? then Ok(Get(data.entries, "response", Str(""))) else Err(AttributeError)
  }

  /** `OllamaLLM`. */
  class OllamaLLM {
    /** `settings.ollama_base_url` and `settings.ollama_model`. */
    const baseUrl: string
    const model: string
    /** `self._client.post`. */
    const post: (string, Record) -> HttpOutcome
    /** `json.loads` on one streamed line (None when it raises). */
    const decode: string -> Option<Value>

    constructor (baseUrl: string, model: string, post: (string, Record) -> HttpOutcome,
                 decode: string -> Option<Value>)
      ensures this.baseUrl == baseUrl && this.model == model
      ensures this.post == post && this.decode == decode
    {
      this.baseUrl := baseUrl;
      this.model := model;
      this.post := post;
      this.decode := decode;
    }

    /** `generate(prompt, stream)`. */
    method Generate(prompt: string, stream: bool) returns (res: Result<Value>)
      ensures
        var url := JoinUrl(baseUrl, "/api/generate");
        var outcome := post(url, Payload(model, prompt, stream));
        && (outcome.ConnectionFailed? || !Success(outcome.status) ==> res == Err(RequestError(url, outcome)))
        && (outcome.Response? && Success(outcome.status) ==>
              res == if stream then StreamAnswer(outcome.lines, decode) else BodyAnswer(outcome.json))
    {
      var url := JoinUrl(baseUrl, "/api/generate");
      var payload := map["model" := Str(model), "prompt" := Str(prompt)];
      if !stream {
        payload := payload["stream" := Bool(false)];
      }
      assert payload == Payload(model, prompt, stream);
      var resp := post(url, payload);
      if resp.ConnectionFailed? {
        return Err(RuntimeError("Ollama connection error at " + url + ": " + resp.detail));
      }
      if !Success(resp.status) {
        return Err(RuntimeError("Ollama HTTP error " + IntToString(resp.status) + " at " + url + ": " + resp.text));
      }
      if stream {
        var full := CollectStream(resp.lines, decode);
        if full.Err? {
          return Err(full.error);
        }
        return JoinStrings(full.value);
      }
      return BodyAnswer(resp.json);
    }
  }

  /** The loop over `resp.aiter_lines()`. */
  method CollectStream(lines: seq<string>, decode: string -> Option<Value>) returns (res: Result<seq<Value>>)
    ensures res == StreamValues(lines, decode)
  {
    var full: seq<Value> := [];
    var i := 0;
    while i < |lines|
      invariant 0 <= i <= |lines|
      invariant StreamValues(lines[..i], decode) == Ok(full)
    {
      var line := lines[i];
      assert lines[..i + 1][..i] == lines[..i];
      i := i + 1;
      if line == "" {
        continue;
      }
      var obj := decode(line);
      if obj.None? {
        continue;
      }
      if !obj.value.Dict? {
        StreamErrorSticks(lines, decode, i);
        return Err(AttributeError);
      }
      full := full + [Get(obj.value.entries, "response", Str(""))];
    }
    assert lines[..i] == lines;
    return Ok(full);
  }

  // ---------------------------------------------------------------- lemmas

  /** Once the loop has raised, no later line changes the outcome. */
  lemma {:induction false} StreamErrorSticks(lines: seq<string>, decode: string -> Option<Value>, i: nat)
    requires i <= |lines| && StreamValues(lines[..i], decode).Err?
    ensures StreamValues(lines, decode) == StreamValues(lines[..i], decode)
    decreases |lines| - i
  {
    if i < |lines| {
      assert lines[..i + 1][..i] == lines[..i];
      StreamErrorSticks(lines, decode, i + 1);
    } else {
      assert lines[..i] == lines;
    }
  }

  /** Exactly one slash at the seam: the base without its trailing slashes,
      one `/`, and the path without its leading slashes. */
  lemma JoinUrlSeam(base: string, path: string)
    ensures
      var b := TrimEnd(base, IsSlash);
      var p := TrimStart(path, IsSlash);
      && JoinUrl(base, path) == b + "/" + p
      && JoinUrl(base, path)[|b|] == '/'
      && (b == [] || b[|b| - 1] != '/')
      && (p == [] || p[0] != '/')
      && base == b + base[|b|..] && (forall i :: |b| <= i < |base| ==> base[i] == '/')
      && path == path[..|path| - |p|] + p && (forall i :: 0 <= i < |path| - |p| ==> path[i] == '/')
  {
    BaseTrimmed(base);
    PathTrimmed(path);
    var b := TrimEnd(base, IsSlash);
    var p := TrimStart(path, IsSlash);
    assert (b + "/" + p)[|b|] == '/';
  }

  /** `base.rstrip("/")` is `base` without a run of trailing slashes. */
  lemma BaseTrimmed(base: string)
    ensures
      var b := TrimEnd(base, IsSlash);
      && (b == [] || b[|b| - 1] != '/')
      && base == b + base[|b|..] && (forall i :: |b| <= i < |base| ==> base[i] == '/')
  {
    var b := TrimEnd(base, IsSlash);
    assert b == base[..|b|];
    assert base == base[..|b|] + base[|b|..];
  }

  /** `path.lstrip("/")` is `path` without a run of leading slashes. */
  lemma PathTrimmed(path: string)
    ensures
      var p := TrimStart(path, IsSlash);
      && (p == [] || p[0] != '/')
      && path == path[..|path| - |p|] + p && (forall i :: 0 <= i < |path| - |p| ==> path[i] == '/')
  {
    var p := TrimStart(path, IsSlash);
    assert p == path[|path| - |p|..];
    assert path == path[..|path| - |p|] + path[|path| - |p|..];
  }

  /** A run of `k` slashes. */
  function Slashes(k: nat): (r: string)
    ensures |r| == k && forall i :: 0 <= i < k ==> r[i] == '/'
  {
    if k == 0 then "" else Slashes(k - 1) + "/"
  }

  lemma {:induction false} TrimEndSlashes(base: string, k: nat)
    ensures TrimEnd(base + Slashes(k), IsSlash) == TrimEnd(base, IsSlash)
  {
    if k > 0 {
      var s := base + Slashes(k);
      assert s == (base + Slashes(k - 1)) + "/";
      assert s[..|s| - 1] == base + Slashes(k - 1);
      TrimEndSlashes(base, k - 1);
    } else {
      assert base + Slashes(0) == base;
    }
  }

  lemma {:induction false} TrimStartSlashes(path: string, k: nat)
    ensures TrimStart(Slashes(k) + path, IsSlash) == TrimStart(path, IsSlash)
  {
    TrimStartSkip(Slashes(k), path);
  }

  /** Leading slashes in front of a path are all dropped by `lstrip("/")`. */
  lemma {:induction false} TrimStartSkip(s: string, path: string)
    requires forall i :: 0 <= i < |s| ==> s[i] == '/'
    ensures TrimStart(s + path, IsSlash) == TrimStart(path, IsSlash)
    decreases |s|
  {
    if s == [] {
      assert s + path == path;
    } else {
      var sp := s + path;
      assert sp[0] == '/' && sp[1..] == s[1..] + path;
      TrimStartSkip(s[1..], path);
    }
  }

  /** Extra trailing slashes on the base or leading slashes on the path do
      not change the URL. */
  lemma JoinUrlIgnoresExtraSlashes(base: string, path: string, k: nat, m: nat)
    ensures JoinUrl(base + Slashes(k), Slashes(m) + path) == JoinUrl(base, path)
  {
    TrimEndSlashes(base, k);
    TrimStartSlashes(path, m);
  }

  /** The payload has `model` and `prompt`, and has `"stream": False`
      exactly when streaming was not requested. */
  lemma PayloadKeys(model: string, prompt: string, stream: bool)
    ensures Payload(model, prompt, stream)["model"] == Str(model)
    ensures Payload(model, prompt, stream)["prompt"] == Str(prompt)
    ensures "stream" in Payload(model, prompt, stream) <==> !stream
    ensures !stream ==> Payload(model, prompt, stream)["stream"] == Bool(false)
    ensures Payload(model, prompt, stream).Keys <= {"model", "prompt", "stream"}
  {
  }

  /** Every failed request, a 404 among them, surfaces as a `RuntimeError`
      naming the URL. */
  lemma RequestErrorIsRuntime(url: string, outcome: HttpOutcome)
    requires outcome.ConnectionFailed? || !Success(outcome.status)
    ensures RequestError(url, outcome).RuntimeError?
    ensures Contains(RequestError(url, outcome).message, url)
  {
    match outcome
    case ConnectionFailed(detail) =>
      ContainsAt("Ollama connection error at ", url, ": " + detail);
      assert RequestError(url, outcome).message == "Ollama connection error at " + url + (": " + detail);
    case Response(status, text, _, _) =>
      var pre := "Ollama HTTP error " + IntToString(status) + " at ";
      ContainsAt(pre, url, ": " + text);
      assert RequestError(url, outcome).message == pre + url + (": " + text);
  }

  /** A blank line and a line that is not JSON add nothing to the stream. */
  lemma StreamSkipsLine(lines: seq<string>, line: string, decode: string -> Option<Value>)
    requires line == "" || decode(line).None?
    ensures StreamValues(lines + [line], decode) == StreamValues(lines, decode)
  {
    assert (lines + [line])[..|lines|] == lines;
  }

  /** A decoded object adds its `"response"` value, or "" when it has none. */
  lemma StreamAddsResponse(lines: seq<string>, line: string, decode: string -> Option<Value>)
    requires line != "" && decode(line).Some? && decode(line).value.Dict?
    requires StreamValues(lines, decode).Ok?
    ensures StreamValues(lines + [line], decode) ==
      Ok(StreamValues(lines, decode).value + [Get(decode(line).value.entries, "response", Str(""))])
    ensures "response" !in decode(line).value.entries ==>
      StreamValues(lines + [line], decode) == Ok(StreamValues(lines, decode).value + [Str("")])
  {
    assert (lines + [line])[..|lines|] == lines;
  }

  /** The streamed answer is the in-order concatenation of the collected
      strings: one more string response extends the answer by exactly it. */
  lemma StreamAnswerSnoc(lines: seq<string>, line: string, decode: string -> Option<Value>, piece: string)
    requires line != "" && decode(line).Some? && decode(line).value.Dict?
    requires Get(decode(line).value.entries, "response", Str("")) == Str(piece)
    requires StreamAnswer(lines, decode).Ok?
    ensures StreamAnswer(lines + [line], decode) == Ok(Str(StreamAnswer(lines, decode).value.s + piece))
  {
    StreamAddsResponse(lines, line, decode);
    var vs := StreamValues(lines, decode).value;
    var ws := vs + [Str(piece)];
    assert ws[..|ws| - 1] == vs;
    assert AllStrings(ws);
  }

  /** A single response without a `"response"` field answers "". */
  lemma BodyWithoutResponse(data: Record)
    requires "response" !in data
    ensures BodyAnswer(Some(Dict(data))) == Ok(Str(""))
  {
  }
}

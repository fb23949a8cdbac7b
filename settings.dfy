/** Application settings read from the environment (backend/core/config.py). */
module Settings {
  import opened Common
  import opened Text

  datatype Config = Config(
    openaiApiKey: string,
    openaiModel: string,
    openaiEmbeddingModel: string,
    pineconeApiKey: string,
    pineconeEnvironment: string,
    pineconeIndexName: string,
    chunkSize: int,
    chunkOverlap: int,
    maxRetrievalResults: int,
    apiHost: string,
    apiPort: int,
    debug: bool)

  /** `os.getenv(key, default)`. */
  function GetEnv(env: map<string, string>, key: string, default: string): string {
    if key in env then env[key] else default
  }

  /** `os.getenv("DEBUG", "False").lower() == "true"`. */
  function ParseDebug(env: map<string, string>): (debug: bool)
    ensures debug <==> Lower(GetEnv(env, "DEBUG", "False")) == "true"
    ensures "DEBUG" !in env ==> !debug
  {
    var v := Lower(GetEnv(env, "DEBUG", "False"));
    assert "DEBUG" !in env ==> v[0] == 'f';
    v == "true"
  }

  /** The text `int()` reads for each numeric attribute, in the order the
      class body evaluates them: CHUNK_SIZE, CHUNK_OVERLAP,
      MAX_RETRIEVAL_RESULTS, API_PORT. */
  function NumberTexts(env: map<string, string>): seq<string> {
    [GetEnv(env, "CHUNK_SIZE", "1000"), GetEnv(env, "CHUNK_OVERLAP", "200"),
     GetEnv(env, "MAX_RETRIEVAL_RESULTS", "5"), GetEnv(env, "API_PORT", "8000")]
  }

  /** The class attributes of `Settings`, evaluated once at import time.
      The load succeeds exactly when `int()` reads every numeric text, and
      each numeric attribute is then the value `int()` gives; otherwise the
      first text in class order that `int()` rejects raises its
      `ValueError`.  The string attributes are the variables or their
      defaults. */
  function Load(env: map<string, string>): (r: Result<Config>)
    ensures var n := NumberTexts(env);
      r.Ok? <==> ParseInt(n[0]).Ok? && ParseInt(n[1]).Ok? && ParseInt(n[2]).Ok? && ParseInt(n[3]).Ok?
    ensures var n := NumberTexts(env);
      && (ParseInt(n[0]).Err? ==> r == Err(ParseInt(n[0]).message))
      && (ParseInt(n[0]).Ok? && ParseInt(n[1]).Err? ==> r == Err(ParseInt(n[1]).message))
      && (ParseInt(n[0]).Ok? && ParseInt(n[1]).Ok? && ParseInt(n[2]).Err? ==> r == Err(ParseInt(n[2]).message))
      && (ParseInt(n[0]).Ok? && ParseInt(n[1]).Ok? && ParseInt(n[2]).Ok? && ParseInt(n[3]).Err?
          ==> r == Err(ParseInt(n[3]).message))
    ensures var n := NumberTexts(env);
      r.Ok? ==>
        && r.value.chunkSize == ParseInt(n[0]).value
        && r.value.chunkOverlap == ParseInt(n[1]).value
        && r.value.maxRetrievalResults == ParseInt(n[2]).value
        && r.value.apiPort == ParseInt(n[3]).value
    ensures r.Ok? ==>
      && r.value.openaiApiKey == GetEnv(env, "OPENAI_API_KEY", "")
      && r.value.openaiModel == GetEnv(env, "OPENAI_MODEL", "gpt-3.5-turbo")
      && r.value.openaiEmbeddingModel == GetEnv(env, "OPENAI_EMBEDDING_MODEL", "text-embedding-ada-002")
      && r.value.pineconeApiKey == GetEnv(env, "PINECONE_API_KEY", "")
      && r.value.pineconeEnvironment == GetEnv(env, "PINECONE_ENVIRONMENT", "")
      && r.value.pineconeIndexName == GetEnv(env, "PINECONE_INDEX_NAME", "rag-documents")
      && r.value.apiHost == GetEnv(env, "API_HOST", "0.0.0.0")
      && r.value.debug == ParseDebug(env)
  {
    var n := NumberTexts(env);
    var chunkSize := ParseInt(n[0]);
    var chunkOverlap := ParseInt(n[1]);
    var maxResults := ParseInt(n[2]);
    var apiPort := ParseInt(n[3]);
    if chunkSize.Err? then Err(chunkSize.message)
    else if chunkOverlap.Err? then Err(chunkOverlap.message)
    else if maxResults.Err? then Err(maxResults.message)
    else if apiPort.Err? then Err(apiPort.message)
    else Ok(Config(
      openaiApiKey := GetEnv(env, "OPENAI_API_KEY", ""),
      openaiModel := GetEnv(env, "OPENAI_MODEL", "gpt-3.5-turbo"),
      openaiEmbeddingModel := GetEnv(env, "OPENAI_EMBEDDING_MODEL", "text-embedding-ada-002"),
      pineconeApiKey := GetEnv(env, "PINECONE_API_KEY", ""),
      pineconeEnvironment := GetEnv(env, "PINECONE_ENVIRONMENT", ""),
      pineconeIndexName := GetEnv(env, "PINECONE_INDEX_NAME", "rag-documents"),
      chunkSize := chunkSize.value,
      chunkOverlap := chunkOverlap.value,
      maxRetrievalResults := maxResults.value,
      apiHost := GetEnv(env, "API_HOST", "0.0.0.0"),
      apiPort := apiPort.value,
      debug := ParseDebug(env)))
  }

  lemma ParsesAs(text: string, n: nat)
    requires text == NatToString(n)
    ensures ParseInt(text) == Ok(n)
  {
    ParseNatString(n);
  }

  /** Numbers written in the environment as `str()` prints them load as
      those numbers. */
  lemma LoadReadsPrintedNumbers(env: map<string, string>, chunkSize: int, chunkOverlap: int, maxResults: int, apiPort: int)
    requires "CHUNK_SIZE" in env && env["CHUNK_SIZE"] == IntToString(chunkSize)
    requires "CHUNK_OVERLAP" in env && env["CHUNK_OVERLAP"] == IntToString(chunkOverlap)
    requires "MAX_RETRIEVAL_RESULTS" in env && env["MAX_RETRIEVAL_RESULTS"] == IntToString(maxResults)
    requires "API_PORT" in env && env["API_PORT"] == IntToString(apiPort)
    ensures Load(env).Ok?
    ensures var c := Load(env).value;
      c.chunkSize == chunkSize && c.chunkOverlap == chunkOverlap
      && c.maxRetrievalResults == maxResults && c.apiPort == apiPort
  {
    ParseIntToString(chunkSize);
    ParseIntToString(chunkOverlap);
    ParseIntToString(maxResults);
    ParseIntToString(apiPort);
  }

  /** With nothing set in the environment the defaults apply: chunks of 1000
      characters overlapping by 200, five retrieval results, the index
      "rag-documents", debugging off and empty credentials. */
  lemma DefaultSettings()
    ensures Load(map[]).Ok?
    ensures var c := Load(map[]).value;
      && c.chunkSize == 1000 && c.chunkOverlap == 200 && c.maxRetrievalResults == 5
      && c.pineconeIndexName == "rag-documents" && c.apiPort == 8000 && !c.debug
      && c.openaiApiKey == "" && c.pineconeApiKey == "" && c.pineconeEnvironment == ""
  {
    assert NatToString(1) == "1";
    assert NatToString(10) == "10";
    assert NatToString(100) == "100";
    assert NatToString(1000) == "1000";
    assert NatToString(2) == "2";
    assert NatToString(20) == "20";
    assert NatToString(200) == "200";
    assert NatToString(5) == "5";
    assert NatToString(8) == "8";
    assert NatToString(80) == "80";
    assert NatToString(800) == "800";
    assert NatToString(8000) == "8000";
    ParsesAs("1000", 1000);
    ParsesAs("200", 200);
    ParsesAs("5", 5);
    ParsesAs("8000", 8000);
  }

  /** The names of the required variables that are empty, in the fixed order
      OPENAI_API_KEY, PINECONE_API_KEY, PINECONE_ENVIRONMENT. */
  function MissingVars(c: Config): seq<string> {
    var required := [
      ("OPENAI_API_KEY", c.openaiApiKey),
      ("PINECONE_API_KEY", c.pineconeApiKey),
      ("PINECONE_ENVIRONMENT", c.pineconeEnvironment)];
    EmptyNames(required)
  }

  /** `[name for name, value in pairs if not value]`. */
  function EmptyNames(pairs: seq<(string, string)>): seq<string> {
    if pairs == [] then []
    else (if pairs[0].1 == "" then [pairs[0].0] else []) + EmptyNames(pairs[1..])
  }

  /** `Settings.validate()`: raises `ValueError` naming every missing
      variable. */
  function Validate(c: Config): (r: Outcome)
    ensures r.Fail? <==> c.openaiApiKey == "" || c.pineconeApiKey == "" || c.pineconeEnvironment == ""
    ensures r.Fail? ==>
      r.message == "Missing required environment variables: " + Join(", ", MissingVars(c)) + ". Please check your .env file."
  {
    MissingVarsExactly(c);
    var missing := MissingVars(c);
    if missing != [] then
      Fail("Missing required environment variables: " + Join(", ", missing) + ". Please check your .env file.")
    else Pass
  }

  /** The error message lists exactly the empty variables, each once, in
      the fixed order. */
  lemma MissingVarsExactly(c: Config)
    ensures MissingVars(c) ==
      (if c.openaiApiKey == "" then ["OPENAI_API_KEY"] else [])
      + (if c.pineconeApiKey == "" then ["PINECONE_API_KEY"] else [])
      + (if c.pineconeEnvironment == "" then ["PINECONE_ENVIRONMENT"] else [])
  {
    var required := [
      ("OPENAI_API_KEY", c.openaiApiKey),
      ("PINECONE_API_KEY", c.pineconeApiKey),
      ("PINECONE_ENVIRONMENT", c.pineconeEnvironment)];
    assert required[1..][1..][1..] == [];
    assert EmptyNames(required[1..][1..]) ==
      (if c.pineconeEnvironment == "" then ["PINECONE_ENVIRONMENT"] else []) + EmptyNames([]);
    assert EmptyNames(required[1..]) ==
      (if c.pineconeApiKey == "" then ["PINECONE_API_KEY"] else []) + EmptyNames(required[1..][1..]);
  }
}

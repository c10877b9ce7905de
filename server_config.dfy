/**
  `getServerSideConfig` of `app/config/server.ts`: the configuration snapshot that
  server-side handlers read, assembled from the environment. The random draws that
  pick the two API keys are the parameters `apiKeyIndex` and `googleKeyIndex`; the
  access-code set, computed once at module load in the source, is derived from the
  same environment with the digest `hash`.
 */
module ServerConfig {
  import opened JsValues
  import opened JsStrings
  import opened AccessCodes
  import opened ModelOverrides
  import opened KeyPools

  /** The object literal the source returns, field for field. */
  datatype Config = Config(
    baseUrl: Option<string>,
    apiKey: string,
    openaiOrgId: Option<string>,
    isAzure: bool,
    azureUrl: Option<string>,
    azureApiKey: Option<string>,
    azureApiVersion: Option<string>,
    isGoogle: bool,
    googleApiKey: string,
    googleUrl: Option<string>,
    isAnthropic: bool,
    anthropicApiKey: Option<string>,
    anthropicApiVersion: Option<string>,
    anthropicUrl: Option<string>,
    gtmId: Option<string>,
    needCode: bool,
    code: Option<string>,
    codes: set<string>,
    proxyUrl: Option<string>,
    isVercel: bool,
    hideUserApiKey: bool,
    disableGPT4: bool,
    hideBalanceQuery: bool,
    disableFastLink: bool,
    customModels: string,
    defaultModel: string,
    whiteWebDevEndpoints: seq<string>,
    isStoreFileToLocal: bool,
    isEnableRAG: bool,
    ragEmbeddingModel: string,
    ragChunkSize: string,
    ragChunkOverlap: string,
    ragReturnCount: string
  )

  const DefaultRagEmbeddingModel: string := "text-embedding-3-large"
  const DefaultRagChunkSize: string := "2000"
  const DefaultRagChunkOverlap: string := "200"
  const DefaultRagReturnCount: string := "4"

  /**
    The object literal `getServerSideConfig` returns, given the two values the
    override block computed and the two drawn key indices.
   */
  function ConfigSnapshot(env: Env, hash: string -> string, customModels: string, defaultModel: string,
                          apiKeyIndex: nat, googleKeyIndex: nat): Config
    requires apiKeyIndex < |KeyPool(Get(env, "OPENAI_API_KEY"))|
    requires googleKeyIndex < |KeyPool(Get(env, "GOOGLE_API_KEY"))|
  {
    var apiKeys := KeyPool(Get(env, "OPENAI_API_KEY"));
    var googleApiKeys := KeyPool(Get(env, "GOOGLE_API_KEY"));
    var codes := GetAccessCodes(Get(env, "CODE"), hash);
    Config(
      baseUrl := Get(env, "BASE_URL"),
      apiKey := apiKeys[apiKeyIndex],
      openaiOrgId := Get(env, "OPENAI_ORG_ID"),
      isAzure := Truthy(Get(env, "AZURE_URL")),
      azureUrl := Get(env, "AZURE_URL"),
      azureApiKey := Get(env, "AZURE_API_KEY"),
      azureApiVersion := Get(env, "AZURE_API_VERSION"),
      isGoogle := |googleApiKeys| > 0,
      googleApiKey := googleApiKeys[googleKeyIndex],
      googleUrl := OrElse(Get(env, "GEMINI_BASE_URL"), Get(env, "GOOGLE_URL")),
      isAnthropic := Truthy(Get(env, "ANTHROPIC_API_KEY")),
      anthropicApiKey := Get(env, "ANTHROPIC_API_KEY"),
      anthropicApiVersion := Get(env, "ANTHROPIC_API_VERSION"),
      anthropicUrl := Get(env, "ANTHROPIC_URL"),
      gtmId := Get(env, "GTM_ID"),
      needCode := |codes| > 0,
      code := Get(env, "CODE"),
      codes := codes,
      proxyUrl := Get(env, "PROXY_URL"),
      isVercel := Truthy(Get(env, "VERCEL")),
      hideUserApiKey := Truthy(Get(env, "HIDE_USER_API_KEY")),
      disableGPT4 := Truthy(Get(env, "DISABLE_GPT4")),
      hideBalanceQuery := !Truthy(Get(env, "ENABLE_BALANCE_QUERY")),
      disableFastLink := Truthy(Get(env, "DISABLE_FAST_LINK")),
      customModels := customModels,
      defaultModel := defaultModel,
      whiteWebDevEndpoints := Split(Coalesce(Get(env, "WHITE_WEBDEV_ENDPOINTS"), ""), ','),
      isStoreFileToLocal :=
        Truthy(Get(env, "NEXT_PUBLIC_ENABLE_NODEJS_PLUGIN")) &&
        !Truthy(Get(env, "R2_ACCOUNT_ID")) &&
        !Truthy(Get(env, "S3_ENDPOINT")),
      isEnableRAG := Truthy(Get(env, "ENABLE_RAG")),
      ragEmbeddingModel := Coalesce(Get(env, "RAG_EMBEDDING_MODEL"), DefaultRagEmbeddingModel),
      ragChunkSize := Coalesce(Get(env, "RAG_CHUNK_SIZE"), DefaultRagChunkSize),
      ragChunkOverlap := Coalesce(Get(env, "RAG_CHUNK_OVERLAP"), DefaultRagChunkOverlap),
      ragReturnCount := Coalesce(Get(env, "RAG_RETURN_COUNT"), DefaultRagReturnCount)
    )
  }

  /**
    `getServerSideConfig`: the override block runs first, then the snapshot is
    assembled around its two results.
   */
  method GetServerSideConfig(env: Env, catalog: seq<ModelEntry>, hash: string -> string,
                             apiKeyIndex: nat, googleKeyIndex: nat)
    returns (cfg: Config)
    requires apiKeyIndex < |KeyPool(Get(env, "OPENAI_API_KEY"))|
    requires googleKeyIndex < |KeyPool(Get(env, "GOOGLE_API_KEY"))|
    ensures cfg == ConfigSnapshot(env, hash, cfg.customModels, cfg.defaultModel, apiKeyIndex, googleKeyIndex)
    ensures !cfg.disableGPT4 ==>
      cfg.customModels == Coalesce(Get(env, "CUSTOM_MODELS"), "") &&
      cfg.defaultModel == Coalesce(Get(env, "DEFAULT_MODEL"), "")
    ensures cfg.disableGPT4 ==>
      var original := Coalesce(Get(env, "CUSTOM_MODELS"), "");
      cfg.customModels == original + (if original != "" then "," else "") + Join(Exclusions(catalog), ',')
    ensures cfg.disableGPT4 ==>
      var original := Coalesce(Get(env, "DEFAULT_MODEL"), "");
      cfg.defaultModel == if StartsWith(original, GptFourPrefix) then "" else original
  {
    var disableGPT4 := Truthy(Get(env, "DISABLE_GPT4"));
    var customModels, defaultModel := DeriveModelOverrides(
      disableGPT4, Coalesce(Get(env, "CUSTOM_MODELS"), ""), Coalesce(Get(env, "DEFAULT_MODEL"), ""), catalog);
    cfg := ConfigSnapshot(env, hash, customModels, defaultModel, apiKeyIndex, googleKeyIndex);
  }

  /** The access-code set is the derived one, and a code is needed exactly when the set is not empty. */
  lemma SnapshotAccessCodes(env: Env, hash: string -> string, customModels: string, defaultModel: string,
                            apiKeyIndex: nat, googleKeyIndex: nat)
    requires apiKeyIndex < |KeyPool(Get(env, "OPENAI_API_KEY"))|
    requires googleKeyIndex < |KeyPool(Get(env, "GOOGLE_API_KEY"))|
    ensures var cfg := ConfigSnapshot(env, hash, customModels, defaultModel, apiKeyIndex, googleKeyIndex);
      && cfg.codes == GetAccessCodes(Get(env, "CODE"), hash)
      && (cfg.needCode <==> cfg.codes != {})
      && (!Truthy(Get(env, "CODE")) ==> !cfg.needCode)
      && cfg.code == Get(env, "CODE")
  {
    if !Truthy(Get(env, "CODE")) {
      NoCodeNoAccessCodes(hash);
    }
  }

  /**
    Each chosen key is the trimmed piece at the drawn index; an unset or empty
    variable gives the key `""`. `isGoogle` holds whatever `GOOGLE_API_KEY` is,
    since a pool is never empty.
   */
  lemma SnapshotKeys(env: Env, hash: string -> string, customModels: string, defaultModel: string,
                     apiKeyIndex: nat, googleKeyIndex: nat)
    requires apiKeyIndex < |KeyPool(Get(env, "OPENAI_API_KEY"))|
    requires googleKeyIndex < |KeyPool(Get(env, "GOOGLE_API_KEY"))|
    ensures var cfg := ConfigSnapshot(env, hash, customModels, defaultModel, apiKeyIndex, googleKeyIndex);
      && cfg.apiKey == Trim(Split(Coalesce(Get(env, "OPENAI_API_KEY"), ""), ',')[apiKeyIndex])
      && cfg.googleApiKey == Trim(Split(Coalesce(Get(env, "GOOGLE_API_KEY"), ""), ',')[googleKeyIndex])
      && (!Truthy(Get(env, "OPENAI_API_KEY")) ==> cfg.apiKey == "")
      && (!Truthy(Get(env, "GOOGLE_API_KEY")) ==> cfg.googleApiKey == "")
      && cfg.isGoogle
  {
    KeyAt(Get(env, "OPENAI_API_KEY"), apiKeyIndex);
    KeyAt(Get(env, "GOOGLE_API_KEY"), googleKeyIndex);
    if !Truthy(Get(env, "OPENAI_API_KEY")) || !Truthy(Get(env, "GOOGLE_API_KEY")) {
      UnsetPoolHasEmptyKey();
    }
  }

  /** The boolean fields: `!!v` is "present and not empty". */
  lemma SnapshotFlags(env: Env, hash: string -> string, customModels: string, defaultModel: string,
                      apiKeyIndex: nat, googleKeyIndex: nat)
    requires apiKeyIndex < |KeyPool(Get(env, "OPENAI_API_KEY"))|
    requires googleKeyIndex < |KeyPool(Get(env, "GOOGLE_API_KEY"))|
    ensures var cfg := ConfigSnapshot(env, hash, customModels, defaultModel, apiKeyIndex, googleKeyIndex);
      && (cfg.isAzure <==> "AZURE_URL" in env && env["AZURE_URL"] != "")
      && (cfg.isAnthropic <==> "ANTHROPIC_API_KEY" in env && env["ANTHROPIC_API_KEY"] != "")
      && (cfg.isVercel <==> "VERCEL" in env && env["VERCEL"] != "")
      && (cfg.hideUserApiKey <==> "HIDE_USER_API_KEY" in env && env["HIDE_USER_API_KEY"] != "")
      && (cfg.disableGPT4 <==> "DISABLE_GPT4" in env && env["DISABLE_GPT4"] != "")
      && (cfg.hideBalanceQuery <==> "ENABLE_BALANCE_QUERY" !in env || env["ENABLE_BALANCE_QUERY"] == "")
      && (cfg.disableFastLink <==> "DISABLE_FAST_LINK" in env && env["DISABLE_FAST_LINK"] != "")
      && (cfg.isEnableRAG <==> "ENABLE_RAG" in env && env["ENABLE_RAG"] != "")
  {
  }

  /** Local file storage needs the Node.js plugin and neither R2 nor S3 configured. */
  lemma SnapshotStoreFileToLocal(env: Env, hash: string -> string, customModels: string, defaultModel: string,
                                 apiKeyIndex: nat, googleKeyIndex: nat)
    requires apiKeyIndex < |KeyPool(Get(env, "OPENAI_API_KEY"))|
    requires googleKeyIndex < |KeyPool(Get(env, "GOOGLE_API_KEY"))|
    ensures var cfg := ConfigSnapshot(env, hash, customModels, defaultModel, apiKeyIndex, googleKeyIndex);
      cfg.isStoreFileToLocal <==>
        && Truthy(Get(env, "NEXT_PUBLIC_ENABLE_NODEJS_PLUGIN"))
        && ("R2_ACCOUNT_ID" !in env || env["R2_ACCOUNT_ID"] == "")
        && ("S3_ENDPOINT" !in env || env["S3_ENDPOINT"] == "")
  {
  }

  /**
    `??` fields: a present variable is used as it is, even when empty; the default
    (or, for `googleUrl`, `GOOGLE_URL`) replaces only an absent one. The endpoint
    list is never empty.
   */
  lemma SnapshotDefaults(env: Env, hash: string -> string, customModels: string, defaultModel: string,
                         apiKeyIndex: nat, googleKeyIndex: nat)
    requires apiKeyIndex < |KeyPool(Get(env, "OPENAI_API_KEY"))|
    requires googleKeyIndex < |KeyPool(Get(env, "GOOGLE_API_KEY"))|
    ensures var cfg := ConfigSnapshot(env, hash, customModels, defaultModel, apiKeyIndex, googleKeyIndex);
      && cfg.googleUrl == (if "GEMINI_BASE_URL" in env then Some(env["GEMINI_BASE_URL"]) else Get(env, "GOOGLE_URL"))
      && cfg.ragEmbeddingModel == (if "RAG_EMBEDDING_MODEL" in env then env["RAG_EMBEDDING_MODEL"] else "text-embedding-3-large")
      && cfg.ragChunkSize == (if "RAG_CHUNK_SIZE" in env then env["RAG_CHUNK_SIZE"] else "2000")
      && cfg.ragChunkOverlap == (if "RAG_CHUNK_OVERLAP" in env then env["RAG_CHUNK_OVERLAP"] else "200")
      && cfg.ragReturnCount == (if "RAG_RETURN_COUNT" in env then env["RAG_RETURN_COUNT"] else "4")
      && cfg.whiteWebDevEndpoints == Split(Coalesce(Get(env, "WHITE_WEBDEV_ENDPOINTS"), ""), ',')
      && |cfg.whiteWebDevEndpoints| >= 1
  {
  }
}

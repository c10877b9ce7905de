# Server-side configuration of the chat web app, in Dafny

This project models `app/config/server.ts`, which builds the configuration that
server-side request handlers read. It covers two pieces:

- **The access-code set** (`getAccessCodes`). The `CODE` environment variable is
  split on commas and the empty segments are dropped. Each remaining segment is
  trimmed and hashed, and the hashes form a set. A code is required exactly when
  that set is not empty.
- **The configuration snapshot** (`getServerSideConfig`).
  - The `DISABLE_GPT4` override appends a `-name` exclusion to `CUSTOM_MODELS` for
    every catalog model whose name starts with `gpt-4`. It also clears a `gpt-4`
    `DEFAULT_MODEL`.
  - `OPENAI_API_KEY` and `GOOGLE_API_KEY` are split into key pools, and one key is
    drawn from each.
  - The remaining fields are copies of variables, `!!` flags and `??` defaults.

The module layout:

- `js_values.dfy` (`JsValues`): the JavaScript value semantics the code relies on.
  - The environment is a `map<string, string>`; a missing name is `undefined`.
  - `!!v` is `Truthy`: present and not empty.
  - `v ?? d` is `Coalesce`; `a ?? b` over two optional values is `OrElse`.
- `js_strings.dfy` (`JsStrings`): the string built-ins `split` with a one-character
  separator, `join`, `trim`, `trimStart`, `trimEnd` and `startsWith`, and the array
  method `map`.
  - `trim` strips the ECMAScript WhiteSpace and LineTerminator code points.
  - `split` always yields one piece more than there are separators.
- `access_codes.dfy` (`AccessCodes`): `getAccessCodes`.
- `model_overrides.dfy` (`ModelOverrides`): the `DISABLE_GPT4` block, written as a
  method that updates `customModels` and `defaultModel` step by step, as the source
  does.
- `key_pools.dfy` (`KeyPools`): the two key pools.
- `server_config.dfy` (`ServerConfig`): the returned object (`Config`, built by
  `ConfigSnapshot`) and `GetServerSideConfig`, plus lemmas about each group of
  fields.

Some inputs of the source become parameters:

| input in the source | parameter |
|---|---|
| the MD5 digest | `hash` |
| the model catalog `DEFAULT_MODELS` | `catalog` |
| the two `Math.random` draws | the indices `apiKeyIndex` and `googleKeyIndex`, each required to lie inside its pool |

Two behaviours of the code are proved as they are written:

- `isGoogle` is `googleApiKeys.length > 0`. A split never yields an empty array,
  so `isGoogle` is always true, even when `GOOGLE_API_KEY` is absent or empty
  (`ServerConfig.SnapshotKeys`).
- With `DISABLE_GPT4` present and non-empty and no `gpt-4` model in the catalog, a non-empty
  `CUSTOM_MODELS` gains a trailing comma. That comma reads back as one empty entry
  (`ModelOverrides.OverriddenEntries`).

## Model

| member | source | states |
|---|---|---|
| JsValues.Get | app/config/server.ts:42 | reading `process.env.X`: the variable's value when `X` is present (possibly `""`), `undefined` when it is absent (no contract of its own; the Snapshot lemmas state each field in terms of the map) |
| JsValues.Truthy | app/config/server.ts:61 | `!!v`: the value is present and not the empty string; it is also used for the flags at lines 73, 75 and 125-140 (no contract of its own; `ServerConfig.SnapshotFlags` states every flag through it) |
| JsValues.Coalesce | app/config/server.ts:62-63 | `v ?? d`: the value when present, even if it is `""`, and `d` only when it is absent; it is also used at lines 77, 85, 90 and 142-145 (no contract of its own; `ServerConfig.SnapshotDefaults` states the defaults through it) |
| JsValues.OrElse | app/config/server.ts:111 | `a ?? b` where `b` may itself be absent: `a` when present, otherwise `b` (no contract of its own; `ServerConfig.SnapshotDefaults` states `googleUrl`) |
| JsStrings.StartsWith | app/config/server.ts:67-70 | `s.startsWith(p)`: `p` is no longer than `s` and is its prefix (no contract of its own; the `gpt-4` tests of `ModelOverrides.DeriveModelOverrides` and `ModelOverrides.ExclusionMembers` are stated through it) |
| JsStrings.Join | app/config/server.ts:69 | `xs.join(sep)`: the pieces with one separator between neighbours, and `""` for no pieces (no contract of its own; `JsStrings.SplitJoin` and `JsStrings.JoinSplit` fix it as the inverse of split) |
| JsStrings.Split | app/config/server.ts:45 | there is one more piece than the string has separators, and no piece contains the separator |
| JsStrings.SplitNoSeparator | app/config/server.ts:45 | a string without the separator splits into exactly itself |
| JsStrings.SplitConcat | app/config/server.ts:45 | splitting `a`, separator, `b` gives the pieces of `a` followed by the pieces of `b` |
| JsStrings.SplitJoin | app/config/server.ts:67-69 | splitting a join of one or more separator-free pieces gives the pieces back |
| JsStrings.JoinSplit | app/config/server.ts:45 | joining the pieces of a split with the same separator gives the original string: splitting loses no character |
| JsStrings.TrimStart | app/config/server.ts:47 | the result is a suffix of the input, every dropped character is whitespace, and the result does not start with whitespace |
| JsStrings.TrimEnd | app/config/server.ts:47 | the result is a prefix of the input, every dropped character is whitespace, and the result does not end with whitespace |
| JsStrings.Trim | app/config/server.ts:47 | the result is no longer than the input and has no whitespace at either end; `JsStrings.TrimInfix` states that it is a contiguous middle of the input |
| JsStrings.TrimInfix | app/config/server.ts:47 | the trimmed string is a contiguous slice `s[i..j]` of the input, and every character before `i` and from `j` on is whitespace, so trimming removes only leading and trailing whitespace |
| JsStrings.AllWhitespaceTrimsToEmpty | app/config/server.ts:47 | a string made only of whitespace trims to `""` |
| JsStrings.TrimKeepsTrimmed | app/config/server.ts:78 | a string without whitespace at either end is unchanged by trimming |
| JsStrings.TrimIdempotent | app/config/server.ts:78 | trimming twice is the same as trimming once |
| JsStrings.TrimNoSeparator | app/config/server.ts:78 | trimming cannot introduce a separator |
| AccessCodes.Segments | app/config/server.ts:45 | the comma-split of `CODE` when it is present (even when empty), and no segments when it is absent (no contract of its own; `AccessCodes.GetAccessCodes` states the resulting set) |
| AccessCodes.NonEmptySegments | app/config/server.ts:46 | a segment is kept exactly when it is one of the input segments and is not empty |
| AccessCodes.GetAccessCodes | app/config/server.ts:41-52 | a value is an access code exactly when it is the hash of some non-empty `CODE` segment after trimming |
| AccessCodes.NoCodeNoAccessCodes | app/config/server.ts:42-48 | an absent or empty `CODE` gives no access codes |
| AccessCodes.AccessCodesConcat | app/config/server.ts:45-48 | the codes of `a,b` are the union of the codes of `a` and of `b` |
| AccessCodes.AccessCodesRepeat | app/config/server.ts:48 | repeating the code list adds no code: duplicates collapse in the set |
| AccessCodes.BlankSegmentHashesEmpty | app/config/server.ts:46-47 | a non-empty segment made of blanks passes the emptiness filter and contributes the hash of `""` |
| AccessCodes.SingleSegment | app/config/server.ts:45-47 | a comma-free, non-empty `CODE` gives exactly the hash of its trimmed form |
| AccessCodes.SpacedDuplicatesCollapse | app/config/server.ts:45-48 | a code written three times, once with blanks around it, gives a single access code |
| ModelOverrides.Exclusions | app/config/server.ts:67-68 | there are no more exclusions than catalog entries |
| ModelOverrides.ExclusionMembers | app/config/server.ts:67-68 | an entry is an exclusion exactly when it is `-` plus the name of a catalog model that starts with `gpt-4` |
| ModelOverrides.ExclusionsConcat | app/config/server.ts:67-68 | filtering and mapping keep catalog order: the exclusions of `a + b` are those of `a` followed by those of `b` |
| ModelOverrides.ExclusionsWithoutComma | app/config/server.ts:67-68 | if model names hold no comma, every exclusion is comma-free and starts with `-gpt-4` |
| ModelOverrides.DeriveModelOverrides | app/config/server.ts:61-71 | with the flag false both values pass through unchanged; with it true, `customModels` is the original, a comma if the original is non-empty, and the joined exclusions, and `defaultModel` is cleared exactly when it starts with `gpt-4` |
| ModelOverrides.ExclusionPieces | app/config/server.ts:69 | if model names hold no comma, the joined exclusions read back as the exclusions, or as `[""]` when there are none |
| ModelOverrides.OverriddenEntries | app/config/server.ts:66-69 | the overridden list reads back as the original entries followed by the exclusions, or followed by one empty entry when nothing is excluded |
| KeyPools.KeyPool | app/config/server.ts:77-78 | a pool has one key per comma-separated piece, so it has one more key than the variable has commas and is never empty |
| JsStrings.Map | app/config/server.ts:78 | mapping keeps the number of elements |
| JsStrings.MapConcat | app/config/server.ts:78 | mapping distributes over concatenation |
| KeyPools.KeyAt | app/config/server.ts:78 | the key at index `i` is the `i`-th comma-separated piece, trimmed |
| KeyPools.KeysAreTrimmed | app/config/server.ts:78 | no key contains a comma or has whitespace at either end |
| KeyPools.UnsetPoolHasEmptyKey | app/config/server.ts:77-78 | an absent or empty variable gives the one-key pool `[""]` |
| KeyPools.PoolOfTrimmedPieces | app/config/server.ts:78 | when every piece is already trimmed, the pool is exactly the pieces |
| KeyPools.PoolOfJoinedKeys | app/config/server.ts:78 | joining trimmed, comma-free keys with commas and reading the pool back gives the same keys |
| KeyPools.PoolOfSplitPieces | app/config/server.ts:78 | if `s` splits into the pieces of `a` followed by those of `b`, then the pool of `s` is the pool of `a` followed by the pool of `b` |
| KeyPools.PoolConcat | app/config/server.ts:78 | the pool of `a,b` is the pool of `a` followed by the pool of `b` |
| ServerConfig.ConfigSnapshot | app/config/server.ts:98-146 | the returned object literal, field by field, from the environment, the two override results and the two drawn indices (no contract of its own; the `ServerConfig.Snapshot*` lemmas state its fields) |
| ServerConfig.GetServerSideConfig | app/config/server.ts:54-147 | the result is the snapshot built from the environment and the two override results; with `DISABLE_GPT4` absent or empty, `customModels` and `defaultModel` are the variables (or `""` when absent); with it present and non-empty, `customModels` gains the exclusions and a `gpt-4` default model becomes `""` |
| ServerConfig.SnapshotAccessCodes | app/config/server.ts:120-122 | `codes` is the access-code set of `CODE`; `needCode` holds exactly when that set is not empty, so never when `CODE` is absent or empty; `code` is `CODE` as given |
| ServerConfig.SnapshotKeys | app/config/server.ts:77-110 | `apiKey` and `googleApiKey` are the trimmed pieces at the drawn indices, and `""` when their variable is absent or empty; `isGoogle` always holds |
| ServerConfig.SnapshotFlags | app/config/server.ts:73-140 | `isAzure`, `isAnthropic`, `isVercel`, `hideUserApiKey`, `disableGPT4`, `disableFastLink` and `isEnableRAG` each hold exactly when their variable is present and non-empty; `hideBalanceQuery` holds exactly when `ENABLE_BALANCE_QUERY` is absent or empty |
| ServerConfig.SnapshotStoreFileToLocal | app/config/server.ts:135-138 | local file storage holds exactly when `NEXT_PUBLIC_ENABLE_NODEJS_PLUGIN` is present and non-empty and each of `R2_ACCOUNT_ID` and `S3_ENDPOINT` is absent or empty |
| ServerConfig.SnapshotDefaults | app/config/server.ts:85-145 | a present RAG variable is used as it is, even when empty, and an absent one gives `text-embedding-3-large`, `2000`, `200` or `4`; `googleUrl` is `GEMINI_BASE_URL` if present and otherwise `GOOGLE_URL`; the web-dev endpoint list is the split of its variable and never empty |

## Left out

- MD5: the digest is the parameter `hash`. The model proves nothing about MD5
  itself.
- The `catch` branch of `getAccessCodes` (lines 49-51) is not modelled. Its only
  source of exceptions is the digest, and the modelled `hash` is total.
- `Math.random` and its floating-point scaling (lines 79 and 92) are not modelled.
  Each draw is an index parameter that the caller must keep inside its pool.
- The `console.log` calls (lines 81-83 and 94-96) are output only.
- The `typeof process` guard (lines 55-59) is not modelled. The model always has
  an environment.
- The `ProcessEnv` declarations (lines 4-39) are types only. `app/constant.ts`
  is not part of this model, so `DEFAULT_MODELS` becomes the parameter `catalog`,
  which holds only the model names.
- The source computes the access-code set once, when the module loads. The model
  computes it from the same environment in every call, which gives the same value
  as long as the environment does not change.
- The `isGoogle` local at line 74 is never read. The returned `isGoogle` comes
  from line 109, so the local is not modelled.
- Strings are modelled as Dafny strings, which are sequences of Unicode scalar
  values. JavaScript strings are sequences of UTF-16 code units. For well-formed
  strings this changes nothing about `,`, whitespace or the `gpt-4` prefix, since
  each of them is a single code unit. Lone surrogates are not modelled.
- `NamesWithoutComma` is an assumption about the catalog: no model name contains
  a comma. `app/constant.ts` holds the catalog and is not part of this model, so
  the assumption cannot be checked here. `ModelOverrides.OverriddenEntries`,
  `ModelOverrides.ExclusionPieces` and `ModelOverrides.ExclusionsWithoutComma`
  require it. Without it an exclusion entry would split into several entries.
- How other modules parse `CUSTOM_MODELS` is outside this file. The model only
  states which entries the overridden string reads back as when it is split on
  commas.

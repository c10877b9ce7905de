/**
  The `DISABLE_GPT4` override of `app/config/server.ts`: when the flag is set, every
  catalog model of the `gpt-4` family is excluded through `CUSTOM_MODELS` (an entry
  `-name` means "hide `name`" to the code that parses that list), and a `gpt-4`
  default model is cleared. The catalog `DEFAULT_MODELS` is a parameter.
 */
module ModelOverrides {
  import opened JsStrings

  /** A catalog entry; only its name is read here. */
  datatype ModelEntry = ModelEntry(name: string)

  /** The model family that `DISABLE_GPT4` switches off. */
  const GptFourPrefix: string := "gpt-4"

  /** `"-" + m.name` for every catalog entry whose name starts with `gpt-4`, in catalog order. */
  function Exclusions(catalog: seq<ModelEntry>): (r: seq<string>)
    ensures |r| <= |catalog|
  {
    if catalog == [] then []
    else
      var head := if StartsWith(catalog[0].name, GptFourPrefix) then ["-" + catalog[0].name] else [];
      head + Exclusions(catalog[1..])
  }

  /** An entry is excluded exactly when some `gpt-4` catalog model gives rise to it. */
  lemma {:induction false} ExclusionMembers(catalog: seq<ModelEntry>, e: string)
    ensures e in Exclusions(catalog) <==>
      exists i :: 0 <= i < |catalog| && StartsWith(catalog[i].name, GptFourPrefix) && e == "-" + catalog[i].name
  {
    if catalog != [] {
      var tail := catalog[1..];
      ExclusionMembers(tail, e);
      if e in Exclusions(tail) {
        var j :| 0 <= j < |tail| && StartsWith(tail[j].name, GptFourPrefix) && e == "-" + tail[j].name;
        assert catalog[j + 1] == tail[j];
      }
      forall i | 1 <= i < |catalog| && StartsWith(catalog[i].name, GptFourPrefix) && e == "-" + catalog[i].name
        ensures e in Exclusions(tail)
      {
        assert tail[i - 1] == catalog[i];
      }
    }
  }

  /** The exclusions of a catalog are those of its parts, in order. */
  lemma {:induction false} ExclusionsConcat(a: seq<ModelEntry>, b: seq<ModelEntry>)
    ensures Exclusions(a + b) == Exclusions(a) + Exclusions(b)
  {
    if a == [] {
      assert a + b == b;
    } else {
      var head := if StartsWith(a[0].name, GptFourPrefix) then ["-" + a[0].name] else [];
      assert (a + b)[0] == a[0] && (a + b)[1..] == a[1..] + b;
      assert Exclusions(a + b) == head + Exclusions(a[1..] + b);
      ExclusionsConcat(a[1..], b);
      assert Exclusions(a) == head + Exclusions(a[1..]);
    }
  }

  /** Model names are plain identifiers: none contains the list separator. */
  predicate NamesWithoutComma(catalog: seq<ModelEntry>)
  {
    forall i :: 0 <= i < |catalog| ==> ',' !in catalog[i].name
  }

  /**
    The override block: with the flag unset both values pass through; with it set,
    `customModels` becomes the original value, a comma if that value was not empty,
    and the comma-joined exclusions, and a `gpt-4` default model is cleared.
   */
  method DeriveModelOverrides(disableGPT4: bool, customModels0: string, defaultModel0: string,
                              catalog: seq<ModelEntry>)
    returns (customModels: string, defaultModel: string)
    ensures !disableGPT4 ==> customModels == customModels0 && defaultModel == defaultModel0
    ensures disableGPT4 ==>
      customModels == customModels0 + (if customModels0 != "" then "," else "") + Join(Exclusions(catalog), ',')
    ensures disableGPT4 && StartsWith(defaultModel0, GptFourPrefix) ==> defaultModel == ""
    ensures !(disableGPT4 && StartsWith(defaultModel0, GptFourPrefix)) ==> defaultModel == defaultModel0
  {
    customModels := customModels0;
    defaultModel := defaultModel0;
    if disableGPT4 {
      if customModels != "" {
        customModels := customModels + ",";
      }
      customModels := customModels + Join(Exclusions(catalog), ',');
      if StartsWith(defaultModel, GptFourPrefix) {
        defaultModel := "";
      }
    }
  }

  /**
    What a reader of the overridden list sees: the original entries, then one
    `-name` entry per excluded model. With no model to exclude a non-empty original
    gains a trailing comma, which reads as one more, empty, entry.
   */
  lemma {:induction false} OverriddenEntries(customModels0: string, catalog: seq<ModelEntry>)
    requires NamesWithoutComma(catalog)
    ensures
      var joined := customModels0 + (if customModels0 != "" then "," else "") + Join(Exclusions(catalog), ',');
      var excluded := Exclusions(catalog);
      Split(joined, ',') ==
        (if customModels0 != "" then Split(customModels0, ',') else []) + (if excluded == [] then [""] else excluded)
  {
    var tail := Join(Exclusions(catalog), ',');
    ExclusionPieces(catalog);
    if customModels0 != "" {
      SplitConcat(customModels0, tail, ',');
      assert customModels0 + "," + tail == customModels0 + [','] + tail;
    } else {
      assert customModels0 + "" + tail == tail;
    }
  }

  /** The joined exclusions read back as the exclusions, or as one empty entry if there are none. */
  lemma ExclusionPieces(catalog: seq<ModelEntry>)
    requires NamesWithoutComma(catalog)
    ensures Split(Join(Exclusions(catalog), ','), ',') == if Exclusions(catalog) == [] then [""] else Exclusions(catalog)
  {
    ExclusionsWithoutComma(catalog);
    if Exclusions(catalog) != [] {
      SplitJoin(Exclusions(catalog), ',');
    }
  }

  /** Every exclusion entry is `-` followed by a `gpt-4` model name and holds no comma. */
  lemma ExclusionsWithoutComma(catalog: seq<ModelEntry>)
    requires NamesWithoutComma(catalog)
    ensures forall k :: 0 <= k < |Exclusions(catalog)| ==>
      ',' !in Exclusions(catalog)[k] && StartsWith(Exclusions(catalog)[k], "-" + GptFourPrefix)
  {
    var excluded := Exclusions(catalog);
    forall k | 0 <= k < |excluded|
      ensures ',' !in excluded[k] && StartsWith(excluded[k], "-" + GptFourPrefix)
    {
      assert excluded[k] in excluded;
      ExclusionMembers(catalog, excluded[k]);
      var i :| 0 <= i < |catalog| && StartsWith(catalog[i].name, GptFourPrefix) && excluded[k] == "-" + catalog[i].name;
      assert ("-" + GptFourPrefix) + catalog[i].name[|GptFourPrefix|..] == excluded[k];
    }
  }
}

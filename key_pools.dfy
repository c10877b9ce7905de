/**
  The API-key pools of `app/config/server.ts` (`OPENAI_API_KEY` and
  `GOOGLE_API_KEY`): the variable, `""` when absent, is split on commas and every
  piece is trimmed. One key is then picked by index; the random draw is left to
  the caller as that index.
 */
module KeyPools {
  import opened JsValues
  import opened JsStrings

  /**
    The variable, `""` when absent, split on commas with every piece trimmed: one
    key per comma-separated piece, so there is always at least one key.
   */
  function KeyPool(raw: Option<string>): (keys: seq<string>)
    ensures |keys| == multiset(Coalesce(raw, ""))[','] + 1
  {
    Map(Trim, Split(Coalesce(raw, ""), ','))
  }

  /** The key at index `i` is the `i`-th comma-separated piece, trimmed. */
  lemma KeyAt(raw: Option<string>, i: nat)
    requires i < |KeyPool(raw)|
    ensures |Split(Coalesce(raw, ""), ',')| == |KeyPool(raw)|
    ensures KeyPool(raw)[i] == Trim(Split(Coalesce(raw, ""), ',')[i])
  {
  }

  /** No key holds a comma or has whitespace at either end. */
  lemma KeysAreTrimmed(raw: Option<string>)
    ensures forall i :: 0 <= i < |KeyPool(raw)| ==> ',' !in KeyPool(raw)[i]
    ensures forall i :: 0 <= i < |KeyPool(raw)| ==>
      KeyPool(raw)[i] == "" || (!IsWhitespace(KeyPool(raw)[i][0]) && !IsWhitespace(KeyPool(raw)[i][|KeyPool(raw)[i]| - 1]))
  {
    var pieces := Split(Coalesce(raw, ""), ',');
    forall i | 0 <= i < |KeyPool(raw)| ensures KeyPool(raw)[i] == Trim(pieces[i]) && ',' !in Trim(pieces[i]) {
      KeyAt(raw, i);
      TrimNoSeparator(pieces[i], ',');
    }
  }

  /** An absent or empty variable gives the single key `""`. */
  lemma UnsetPoolHasEmptyKey()
    ensures KeyPool(None) == [""]
    ensures KeyPool(Some("")) == [""]
  {
    assert Trim("") == "";
  }

  /** Joining trimmed, comma-free keys with commas and reading the pool back gives the same keys. */
  lemma PoolOfJoinedKeys(keys: seq<string>)
    requires |keys| >= 1
    requires forall i :: 0 <= i < |keys| ==> ',' !in keys[i]
    requires forall i :: 0 <= i < |keys| ==>
      keys[i] == "" || (!IsWhitespace(keys[i][0]) && !IsWhitespace(keys[i][|keys[i]| - 1]))
    ensures KeyPool(Some(Join(keys, ','))) == keys
  {
    SplitJoin(keys, ',');
    forall i | 0 <= i < |keys| ensures Trim(keys[i]) == keys[i] {
      TrimKeepsTrimmed(keys[i]);
    }
    PoolOfTrimmedPieces(Join(keys, ','));
  }

  /** When every piece is already trimmed the pool is the pieces themselves. */
  lemma PoolOfTrimmedPieces(s: string)
    requires forall i :: 0 <= i < |Split(s, ',')| ==> Trim(Split(s, ',')[i]) == Split(s, ',')[i]
    ensures KeyPool(Some(s)) == Split(s, ',')
  {
    forall i | 0 <= i < |Split(s, ',')| ensures KeyPool(Some(s))[i] == Split(s, ',')[i] {
      KeyAt(Some(s), i);
    }
  }

  /** The pool of `a,b` is the pool of `a` followed by the pool of `b`. */
  lemma PoolConcat(a: string, b: string)
    ensures KeyPool(Some(a + "," + b)) == KeyPool(Some(a)) + KeyPool(Some(b))
  {
    assert a + "," + b == a + [','] + b;
    SplitConcat(a, b, ',');
    PoolOfSplitPieces(a + "," + b, a, b);
  }

  /** Pools follow the pieces: if `s` splits into the pieces of `a` then those of `b`, so do their pools. */
  lemma PoolOfSplitPieces(s: string, a: string, b: string)
    requires Split(s, ',') == Split(a, ',') + Split(b, ',')
    ensures KeyPool(Some(s)) == KeyPool(Some(a)) + KeyPool(Some(b))
  {
    MapConcat(Trim, Split(a, ','), Split(b, ','));
  }
}

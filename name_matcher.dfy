/*
 * `NameMatcher.resolve`: a markdown header to its canonical key, trying an
 * exact canonical key, then an alias, then the bilingual maps in order.
 */
module NameMatcher {
  import opened Common
  import opened PromptSchemaKeys

  /** How a header was resolved. */
  datatype Method = Canonical | Alias | Bilingual | Unknown

  /** `resolve(raw_header)`: the canonical key (None when unknown) and how it was found. */
  function Resolve(schema: Schema, rawHeader: string): (Option<string>, Method)
  {
    if IsCanonical(schema, rawHeader) then (Some(NormalizeKey(rawHeader)), Canonical)
    else
      var nk := NormalizeKey(rawHeader);
      if nk in schema.aliases then (Some(schema.aliases[nk]), Alias)
      else
        var hit := BilingualHit(schema.bilingual, nk);
        if hit.Some? then (hit, Bilingual) else (None, Unknown)
  }

  /**
   * The key `resolve` finds is the one `to_canonical_or_none` gives, the
   * method is Unknown exactly when there is none, and each method is used
   * only when the earlier lookups missed.
   */
  lemma ResolveAgrees(schema: Schema, rawHeader: string)
    ensures var (key, how) := Resolve(schema, rawHeader);
      var nk := NormalizeKey(rawHeader);
      && key == ToCanonicalOrNone(schema, rawHeader)
      && (how == Unknown <==> key.None?)
      && (how == Canonical <==> nk in schema.canonicalKeys)
      && (how == Alias <==> nk !in schema.canonicalKeys && nk in schema.aliases)
      && (how == Bilingual <==> nk !in schema.canonicalKeys && nk !in schema.aliases
                                && exists i :: 0 <= i < |schema.bilingual| && nk in schema.bilingual[i].1)
  {
  }
}

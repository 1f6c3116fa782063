/**
 * MessageTemplateCache: memoises parse results in a map that is cleared
 * entirely when it holds MaxCacheItems entries; long templates bypass it.
 * The inner parser is the template parser of module Parser.
 */
module Cache {
  import opened Wrappers
  import opened Chars
  import opened Unicode
  import opened Templates
  import Parser

  const MaxCacheItems := 1000
  const MaxCachedTemplateLength := 1024

  class MessageTemplateCache {
    var templates: map<string, MessageTemplate>

    /** Every stored template is what the inner parser gives for its key, and the map stays bounded. */
    ghost predicate Valid()
      reads this
    {
      |templates| <= MaxCacheItems
      && forall k :: k in templates ==> Utf16Length(k) <= MaxCachedTemplateLength && Parser.Parse(k) == Ok(templates[k])
    }

    constructor ()
      ensures Valid() && templates == map[]
    {
      templates := map[];
    }

    /**
     * parse: the result is always the inner parser's result. A template
     * longer than 1024 UTF-16 code units, a hit, or a parse that throws leaves the map as
     * it was; a miss stores the result, after clearing a full map.
     */
    method Parse(text: string) returns (r: Outcome<MessageTemplate>)
      requires Valid()
      modifies this
      ensures Valid()
      ensures r == Parser.Parse(text)
      ensures Utf16Length(text) > MaxCachedTemplateLength || old(text in templates) || r.Thrown? ==>
        templates == old(templates)
      ensures Utf16Length(text) <= MaxCachedTemplateLength && old(text !in templates) && r.Ok? ==>
        templates == (if old(|templates|) == MaxCacheItems then map[] else old(templates))[text := r.value]
    {
      var diagnostic;
      if Utf16Length(text) > MaxCachedTemplateLength {
        r, diagnostic := Parser.ParseTemplate(text);
        return;
      }
      if text in templates {
        return Ok(templates[text]);
      }
      r, diagnostic := Parser.ParseTemplate(text);
      if r.Thrown? {
        return;
      }
      if |templates| == MaxCacheItems {
        templates := map[];
      }
      templates := templates[text := r.value];
    }
  }
}

/**
 * Suggestions for the biome-object argument of the "/otg" commands on Forge:
 * the names of the custom objects of a preset (or of the global objects),
 * each quoted when it holds a space so that the suggestion reads back as one
 * word.
 */
module BiomeObjectArgument {
  import opened Wrappers
  import JavaLang

  /** The name quoting of filterNamesWithSpaces. */
  function QuoteName(name: string): (r: string)
    ensures ' ' in name ==> |r| == |name| + 2 && r[0] == '"' && r[|r| - 1] == '"' && r[1..|r| - 1] == name
    ensures ' ' !in name ==> r == name
  {
    if ' ' in name then "\"" + name + "\"" else name
  }

  /** A suggestion holds a space only when it is wrapped in quotes. */
  lemma SpacedSuggestionIsQuoted(name: string)
    ensures var r := QuoteName(name);
      ' ' in r ==> |r| >= 2 && r[0] == '"' && r[|r| - 1] == '"'
  {
    var r := QuoteName(name);
    if ' ' in name {
      assert r == "\"" + name + "\"";
    }
  }

  /** Different names never collapse into one suggestion. */
  lemma QuoteNameInjective(a: string, b: string)
    requires QuoteName(a) == QuoteName(b)
    ensures a == b
  {
  }


  /** list.stream().map(filterNamesWithSpaces).collect(toList()). */
  function QuoteNames(names: seq<string>): (r: seq<string>)
  {
    if names == [] then [] else [QuoteName(names[0])] + QuoteNames(names[1..])
  }

  /** The map keeps the length and the order of the list. */
  lemma {:induction false} QuoteNamesPointwise(names: seq<string>)
    ensures |QuoteNames(names)| == |names|
    ensures forall i :: 0 <= i < |names| ==> QuoteNames(names)[i] == QuoteName(names[i])
  {
    if names != [] {
      QuoteNamesPointwise(names[1..]);
    }
  }

  /**
   * The name list listSuggestions offers: the global object names when the
   * preset argument is "global" in any case, otherwise the names of that
   * preset; a missing (null) list counts as empty.
   */
  function SuggestionList(preset: string, globalNames: Option<seq<string>>,
                          presetNames: string -> Option<seq<string>>): (r: seq<string>)
    ensures JavaLang.EqualsIgnoreCase(preset, "global") ==> r == QuoteNames(globalNames.GetOr([]))
    ensures !JavaLang.EqualsIgnoreCase(preset, "global") ==> r == QuoteNames(presetNames(preset).GetOr([]))
  {
    var list := if JavaLang.EqualsIgnoreCase(preset, "global") then globalNames else presetNames(preset);
    QuoteNames(if list.None? then [] else list.value)
  }

  /** "GLOBAL", "Global" and "global" pick the same list. */
  lemma GlobalIgnoresCase(globalNames: Option<seq<string>>, presetNames: string -> Option<seq<string>>)
    ensures SuggestionList("GLOBAL", globalNames, presetNames) == SuggestionList("global", globalNames, presetNames)
    ensures SuggestionList("Global", globalNames, presetNames) == QuoteNames(globalNames.GetOr([]))
  {
    assert JavaLang.ToLower("GLOBAL") == "global";
    assert JavaLang.ToLower("Global") == "global";
  }

  /** A missing list yields no suggestions. */
  lemma MissingListIsEmpty(preset: string, presetNames: string -> Option<seq<string>>)
    requires presetNames(preset).None?
    requires !JavaLang.EqualsIgnoreCase(preset, "global")
    ensures SuggestionList(preset, None, presetNames) == []
  {
  }
}

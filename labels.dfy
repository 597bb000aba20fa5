/**
  Class-label handling of the dataset builder: the vegetable types it
  knows, detection of a directory's vegetable type by substring search,
  the healthy/unhealthy test, and the cleaning of a raw PlantVillage
  directory name into a multiclass label.
*/
module Labels {
  import opened Wrappers
  import opened Text

  /** `VEGGIES`, in the order in which they are tried. */
  const Veggies: seq<string> := ["Potato", "Tomato", "Pepper"]

  /** Vegetable type `v` is named inside the class name `name`, case-insensitively. */
  predicate NamesVeggie(name: string, v: string) {
    Contains(Lower(name), Lower(v))
  }

  /**
    The first three rewrites of `clean_class_name` on the lower-cased
    name: remove every `veg___`, then every `veg__`, then the first `veg_`.
  */
  function RemoveVeggie(name: string, veg: string): string {
    var s1 := ReplaceAll(name, veg + "___", "");
    var s2 := ReplaceAll(s1, veg + "__", "");
    ReplaceFirst(s2, veg + "_", "")
  }

  /**
    The last three rewrites of `clean_class_name`: replace `___` by `_`,
    then `__` by `_`, then strip the outer underscores.
  */
  function CollapseSeparators(s: string): string {
    Strip(ReplaceAll(ReplaceAll(s, "___", "_"), "__", "_"), '_')
  }

  /** `clean_class_name(class_name, veggie_type)`. */
  function CleanClassName(className: string, veggieType: string): string {
    CollapseSeparators(RemoveVeggie(Lower(className), Lower(veggieType)))
  }

  /**
    A cleaned name is in lower case, neither starts nor ends with an
    underscore, and is made of characters of the lower-cased class name.
  */
  lemma CleanClassNameShape(className: string, veggieType: string)
    ensures var r := CleanClassName(className, veggieType);
            && NoUpper(r)
            && (r == [] || (r[0] != '_' && r[|r| - 1] != '_'))
            && |r| <= |className|
            && forall c :: c in r ==> c in Lower(className)
  {
    var name := Lower(className);
    RemoveVeggieShape(name, Lower(veggieType));
    CollapseShape(RemoveVeggie(name, Lower(veggieType)));
    NoUpperFromLower(className, CleanClassName(className, veggieType));
  }

  /** The removals only delete characters. */
  lemma RemoveVeggieShape(name: string, veg: string)
    ensures |RemoveVeggie(name, veg)| <= |name|
    ensures forall c :: c in RemoveVeggie(name, veg) ==> c in name
  {
    var s1 := ReplaceAll(name, veg + "___", "");
    ReplaceAllChars(name, veg + "___", "");
    ReplaceAllChars(s1, veg + "__", "");
  }

  /** Collapsing only shortens runs of underscores that are already there. */
  lemma CollapseShape(s: string)
    ensures |CollapseSeparators(s)| <= |s|
    ensures forall c :: c in CollapseSeparators(s) ==> c in s
  {
    var s1 := ReplaceAll(s, "___", "_");
    ReplaceAllChars(s, "___", "_");
    ReplaceAllChars(s1, "__", "_");
    var s2 := ReplaceAll(s1, "__", "_");
    var r := Strip(s2, '_');
    forall c | c in r ensures c in s {
      var i, j :| 0 <= i <= j <= |s2| && r == s2[i..j];
      assert c in s2;
    }
  }

  /**
    A label already in cleaned form for vegetable `veg` (lower case,
    without doubled underscores, without `veg_`, without outer underscores).
  */
  predicate IsCleanLabel(s: string, veg: string) {
    && NoUpper(s)
    && !Contains(s, "__")
    && !Contains(s, veg + "_")
    && (s == [] || (s[0] != '_' && s[|s| - 1] != '_'))
  }

  /** Without a `veg_` token none of the three removals changes anything. */
  lemma RemoveVeggieWithoutToken(s: string, veg: string)
    requires !Contains(s, veg + "_")
    ensures ReplaceAll(s, veg + "___", "") == s
    ensures RemoveVeggie(s, veg) == s
  {
    assert veg + "___" == (veg + "_") + "__";
    assert veg + "__" == (veg + "_") + "_";
    ContainsConcat(s, veg + "_", "__");
    ContainsConcat(s, veg + "_", "_");
    ReplaceAllNoMatch(s, veg + "___", "");
    ReplaceAllNoMatch(s, veg + "__", "");
  }

  /** Without doubled or outer underscores there is nothing to collapse. */
  lemma CollapseWithoutRuns(s: string)
    requires !Contains(s, "__")
    requires s == [] || (s[0] != '_' && s[|s| - 1] != '_')
    ensures CollapseSeparators(s) == s
  {
    assert "___" == "__" + "_";
    ContainsConcat(s, "__", "_");
    ReplaceAllNoMatch(s, "___", "_");
    ReplaceAllNoMatch(s, "__", "_");
  }

  /** Cleaning a label that is already clean returns it unchanged. */
  lemma CleanFixesCleanLabel(className: string, veggieType: string)
    requires IsCleanLabel(Lower(className), Lower(veggieType))
    ensures CleanClassName(className, veggieType) == Lower(className)
  {
    RemoveVeggieWithoutToken(Lower(className), Lower(veggieType));
    CollapseWithoutRuns(Lower(className));
  }

  /**
    The PlantVillage form `Veg___label`: the vegetable token and the
    triple underscore are removed, and a clean label is kept as it is.
  */
  lemma CleanStripsTriplePrefix(veggieType: string, tail: string)
    requires IsCleanLabel(Lower(tail), Lower(veggieType))
    ensures CleanClassName(veggieType + "___" + tail, veggieType) == Lower(tail)
  {
    var veg := Lower(veggieType);
    var rest := Lower(tail);
    LowerConcat(veggieType + "___", tail);
    LowerConcat(veggieType, "___");
    LowerOfLower("___");
    assert Lower(veggieType + "___" + tail) == (veg + "___") + rest;
    ReplaceAllAtFront(veg + "___", rest, "");
    RemoveVeggieWithoutToken(rest, veg);
    // `rest` has no `veg___`, so the first removal leaves exactly `rest`
    assert ReplaceAll(rest, veg + "___", "") == rest;
    assert ReplaceAll((veg + "___") + rest, veg + "___", "") == rest;
    assert RemoveVeggie((veg + "___") + rest, veg) == rest;
    CollapseWithoutRuns(rest);
  }

  /** The first entry of `veggies` named in `name`, or None when no entry is. */
  function FirstNamedVeggie(veggies: seq<string>, name: string): (r: Option<string>)
    ensures r.None? <==> forall k :: 0 <= k < |veggies| ==> !NamesVeggie(name, veggies[k])
    ensures r.Some? ==> exists k :: 0 <= k < |veggies| && veggies[k] == r.value
                                    && NamesVeggie(name, veggies[k])
                                    && forall j :: 0 <= j < k ==> !NamesVeggie(name, veggies[j])
  {
    if veggies == [] then None
    else if NamesVeggie(name, veggies[0]) then Some(veggies[0])
    else
      var r := FirstNamedVeggie(veggies[1..], name);
      assert forall k :: 1 <= k < |veggies| ==> veggies[k] == veggies[1..][k - 1];
      r
  }

  /** `get_veggie_type`: the first vegetable type in list order that the class name mentions. */
  function GetVeggieType(className: string): (r: Option<string>)
    ensures r.None? <==> forall k :: 0 <= k < |Veggies| ==> !NamesVeggie(className, Veggies[k])
    ensures r.Some? ==> exists k :: 0 <= k < |Veggies| && Veggies[k] == r.value
                                    && NamesVeggie(className, Veggies[k])
                                    && forall j :: 0 <= j < k ==> !NamesVeggie(className, Veggies[j])
  {
    FirstNamedVeggie(Veggies, className)
  }

  /** The binary bucketing test `'healthy' in class_name.lower()`. */
  predicate IsHealthyClass(className: string) {
    Contains(Lower(className), "healthy")
  }

  /** A class labelled "unhealthy" passes the test too, since it contains "healthy". */
  lemma UnhealthyIsBucketedHealthy(className: string)
    requires Contains(Lower(className), "unhealthy")
    ensures IsHealthyClass(className)
  {
    assert "unhealthy" == "un" + "healthy";
    ContainsConcat(Lower(className), "un", "healthy");
  }

}

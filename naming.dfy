/**
 * The device identity the bridge derives from the switch name:
 * `switchName.toLowerCase().replace(/\s/g, "_")`, on ASCII.
 */
module Naming {
  import opened Ascii

  /** `toLowerCase`. */
  function Lower(s: string): (r: string)
    ensures |r| == |s|
  {
    if s == [] then [] else [LowerChar(s[0])] + Lower(s[1..])
  }

  /** `replace(/\s/g, "_")`: every white-space character, one by one. */
  function ReplaceSpaces(s: string): (r: string)
    ensures |r| == |s|
  {
    if s == [] then [] else [if IsSpace(s[0]) then '_' else s[0]] + ReplaceSpaces(s[1..])
  }

  /**
   * The device identity used in every topic of the switch. Character by
   * character, white space becomes `_`, capitals become small and the rest
   * stays, wherever it stands in the name.
   */
  function DeviceSlug(switchName: string): (slug: string)
    ensures |slug| == |switchName|
    ensures forall i :: 0 <= i < |switchName| ==>
      slug[i] == if IsSpace(switchName[i]) then '_' else LowerChar(switchName[i])
  {
    forall i | 0 <= i < |switchName|
      ensures ReplaceSpaces(Lower(switchName))[i] ==
        if IsSpace(switchName[i]) then '_' else LowerChar(switchName[i])
    {
      LowerAt(switchName, i);
      ReplaceSpacesAt(Lower(switchName), i);
    }
    ReplaceSpaces(Lower(switchName))
  }

  lemma {:induction false} LowerAt(s: string, i: nat)
    requires i < |s|
    ensures Lower(s)[i] == LowerChar(s[i])
    decreases |s|
  {
    if i > 0 {
      LowerAt(s[1..], i - 1);
    }
  }

  lemma {:induction false} ReplaceSpacesAt(s: string, i: nat)
    requires i < |s|
    ensures ReplaceSpaces(s)[i] == if IsSpace(s[i]) then '_' else s[i]
    decreases |s|
  {
    if i > 0 {
      ReplaceSpacesAt(s[1..], i - 1);
    }
  }

  /**
   * The slug is as long as the name (so runs of white space are not
   * collapsed) and holds no white space and no capital.
   */
  lemma DeviceSlugShape(switchName: string)
    ensures |DeviceSlug(switchName)| == |switchName|
    ensures forall i :: 0 <= i < |switchName| ==>
      !IsSpace(DeviceSlug(switchName)[i]) && !IsUpper(DeviceSlug(switchName)[i])
  {
  }

  /** Deriving the identity again from an identity changes nothing. */
  lemma DeviceSlugIdempotent(switchName: string)
    ensures DeviceSlug(DeviceSlug(switchName)) == DeviceSlug(switchName)
  {
    var slug := DeviceSlug(switchName);
    assert forall i :: 0 <= i < |slug| ==> !IsSpace(slug[i]) && !IsUpper(slug[i]);
  }

  /** Lower case, and one `_` for every white-space character. */
  lemma GarageLightSlug()
    ensures DeviceSlug("Garage Light") == "garage_light"
  {
    SlugConcat("Garage", " Light");
    SlugConcat(" ", "Light");
    assert "Garage" + " Light" == "Garage Light" && " " + "Light" == " Light";
    SlugWord("Garage");
    SlugWord("Light");
    assert Lower("Garage") == "garage" && Lower("Light") == "light";
    assert DeviceSlug(" ") == "_";
    assert "garage" + ("_" + "light") == "garage_light";
  }

  /** Runs of white space are not collapsed: two spaces give two `_`. */
  lemma SpaceRunSlug()
    ensures DeviceSlug("A  b") == "a__b"
  {
    SlugConcat("A", "  b");
    assert "A" + "  b" == "A  b";
    assert DeviceSlug("A") == "a";
    assert DeviceSlug("  b") == "__b";
  }

  lemma {:induction false} SlugConcat(a: string, b: string)
    ensures DeviceSlug(a + b) == DeviceSlug(a) + DeviceSlug(b)
  {
    var ab := a + b;
    assert forall i :: 0 <= i < |ab| ==> ab[i] == if i < |a| then a[i] else b[i - |a|];
  }

  /** A word of letters without white space: the slug is the lower-cased word. */
  lemma SlugWord(w: string)
    requires forall i :: 0 <= i < |w| ==> !IsSpace(w[i])
    ensures DeviceSlug(w) == Lower(w)
  {
    forall i | 0 <= i < |w|
      ensures DeviceSlug(w)[i] == Lower(w)[i]
    {
      LowerAt(w, i);
    }
  }
}

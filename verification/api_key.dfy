/** Substitution of the api key into a provider's authorization-header
    template (`ReplaceApiKeyPlaceholder`). */
module ApiKey {
  import opened Wrappers

  /** The placeholder a configured `api_key_template` carries. */
  const Placeholder: string := "{{api_key}}"

  /** `pat` occurs in `s` starting at index `i`. */
  predicate OccursAt(s: string, pat: string, i: int) {
    0 <= i && i + |pat| <= |s| && s[i..i + |pat|] == pat
  }

  /** `i` is where `std::string::find` reports `pat`: its leftmost occurrence. */
  ghost predicate FirstOccurrence(s: string, pat: string, i: int) {
    OccursAt(s, pat, i) && forall j :: 0 <= j < i ==> !OccursAt(s, pat, j)
  }

  ghost predicate NoOccurrence(s: string, pat: string) {
    forall j :: !OccursAt(s, pat, j)
  }

  /** `std::string::find(pat, from)`: the leftmost occurrence at or after `from`. */
  function FindFrom(s: string, pat: string, from: nat): (r: Option<nat>)
    requires from <= |s|
    ensures r.Some? ==> from <= r.value && OccursAt(s, pat, r.value)
    ensures r.Some? ==> forall j :: from <= j < r.value ==> !OccursAt(s, pat, j)
    ensures r.None? ==> forall j :: from <= j ==> !OccursAt(s, pat, j)
    decreases |s| - from
  {
    if from + |pat| > |s| then None
    else if OccursAt(s, pat, from) then Some(from)
    else FindFrom(s, pat, from + 1)
  }

  /** `std::string::find(pat)`. */
  function Find(s: string, pat: string): (r: Option<nat>)
    ensures r.Some? ==> FirstOccurrence(s, pat, r.value)
    ensures r.None? ==> NoOccurrence(s, pat)
  {
    FindFrom(s, pat, 0)
  }

  /** Replaces the first `{{api_key}}` of `template` by `apiKey`; a template
      without the placeholder is returned unchanged. */
  function ReplaceApiKeyPlaceholder(template: string, apiKey: string): (r: string)
    ensures forall i {:trigger FirstOccurrence(template, Placeholder, i)} ::
              FirstOccurrence(template, Placeholder, i) ==>
                r == template[..i] + apiKey + template[i + |Placeholder|..]
    ensures NoOccurrence(template, Placeholder) ==> r == template
  {
    match Find(template, Placeholder)
    case Some(pos) =>
      assert forall i :: FirstOccurrence(template, Placeholder, i) ==> i == pos;
      template[..pos] + apiKey + template[pos + |Placeholder|..]
    case None => template
  }

  /** Only the first placeholder is substituted: a later, non-overlapping
      placeholder survives, shifted by the difference in length between the
      key and the placeholder. */
  lemma OnlyFirstPlaceholderReplaced(template: string, apiKey: string, i: nat, j: nat)
    requires FirstOccurrence(template, Placeholder, i)
    requires OccursAt(template, Placeholder, j) && i + |Placeholder| <= j
    ensures OccursAt(ReplaceApiKeyPlaceholder(template, apiKey), Placeholder,
                     j - |Placeholder| + |apiKey|)
  {
    var r := ReplaceApiKeyPlaceholder(template, apiKey);
    var rest := template[i + |Placeholder|..];
    assert r == template[..i] + apiKey + rest;
    var k := j - |Placeholder| + |apiKey|;
    var off := j - (i + |Placeholder|);
    assert rest[off..off + |Placeholder|] == template[j..j + |Placeholder|];
    assert r[k..k + |Placeholder|] == rest[off..off + |Placeholder|];
  }

  /** A key that is itself the placeholder leaves every template unchanged. */
  lemma ReplaceByPlaceholderIsIdentity(template: string)
    ensures ReplaceApiKeyPlaceholder(template, Placeholder) == template
  {
    match Find(template, Placeholder)
    case Some(pos) =>
      assert FirstOccurrence(template, Placeholder, pos);
      assert template[pos..pos + |Placeholder|] == Placeholder;
      assert template == template[..pos] + template[pos..pos + |Placeholder|] + template[pos + |Placeholder|..];
    case None =>
  }
}

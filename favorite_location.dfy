/**
 * The favorite-location record: its fields, the constraints the document
 * schema puts on them, the messages its validators report, and the label
 * shown to the user.
 */
module FavoriteLocation {
  import opened Wrappers
  import opened Text

  /** The label enum, in schema order. */
  const Labels: seq<string> := ["home", "office", "college", "custom"]

  const MaxCustomLabelLength: nat := 50
  const MaxAddressLength: nat := 300

  /** The schema's default emoji, a round pushpin. */
  const Pin: string := "\U{1F4CD}"

  /** One stored favorite. `id` stands for the document's `_id`; a missing
      optional field is `None`. */
  datatype Favorite = Favorite(
    id: nat,
    userId: string,
    labelName: string,
    customLabel: Option<string>,
    address: string,
    latitude: Option<real>,
    longitude: Option<real>,
    emoji: string)

  /** What the schema demands of a stored document: a label from the enum,
      a custom label of at most 50 characters, and a non-empty address of at
      most 300 characters, lengths counted in UTF-16 code units as
      JavaScript counts them. */
  predicate Conforms(f: Favorite) {
    && f.labelName in Labels
    && (f.customLabel.Some? ==> Utf16Length(f.customLabel.value) <= MaxCustomLabelLength)
    && f.address != [] && Utf16Length(f.address) <= MaxAddressLength
  }

  /** The messages the schema's validators report for `f`, one per failing
      path, in schema order. */
  function ValidationErrors(f: Favorite): (errs: seq<string>)
    ensures errs == [] <==> Conforms(f)
    ensures |errs| <= 3
  {
    var labelErr :=
      if f.labelName == "" then ["Label is required"]
      else if f.labelName !in Labels then ["`" + f.labelName + "` is not a valid enum value for path `label`."]
      else [];
    var customErr :=
      if f.customLabel.Some? && Utf16Length(f.customLabel.value) > MaxCustomLabelLength
      then [CustomLabelTooLong] else [];
    var addressErr :=
      if f.address == [] then ["Address is required"]
      else if Utf16Length(f.address) > MaxAddressLength then ["Address cannot be more than 300 characters"]
      else [];
    labelErr + customErr + addressErr
  }

  const CustomLabelTooLong: string := "Custom label cannot be more than 50 characters"

  /** Every emoji counts twice towards the 50-character limit: a custom
      label of `k` pins is rejected exactly when `k` exceeds 25. */
  lemma PinLabelLimit(f: Favorite, k: nat)
    requires f.customLabel == Some(seq(k, i => Pin[0]))
    ensures CustomLabelTooLong in ValidationErrors(f) <==> k > 25
  {
    Utf16LengthOfAstral(f.customLabel.value);
  }

  /** `getDisplayLabel`: a custom favorite shows its custom text when it has
      some; every other favorite shows its label with the first letter in
      upper case. */
  function DisplayLabel(f: Favorite): (r: string)
    ensures f.labelName == "custom" && f.customLabel.Some? && f.customLabel.value != [] ==> r == f.customLabel.value
    ensures !(f.labelName == "custom" && f.customLabel.Some? && f.customLabel.value != []) ==>
      |r| == |f.labelName| && (r != [] ==> r[0] == UpperChar(f.labelName[0]) && r[1..] == f.labelName[1..])
  {
    if f.labelName == "custom" && f.customLabel.Some? && f.customLabel.value != [] then f.customLabel.value
    else if f.labelName == [] then []
    else [UpperChar(f.labelName[0])] + f.labelName[1..]
  }

  /** For a stored favorite that shows its label, lower-casing what is shown
      gives the label back. */
  lemma DisplayLabelRoundTrip(f: Favorite)
    requires Conforms(f)
    requires !(f.labelName == "custom" && f.customLabel.Some? && f.customLabel.value != [])
    ensures ToLower(DisplayLabel(f)) == f.labelName
  {
    var r := DisplayLabel(f);
    LabelsAreLower(f.labelName);
    forall i | 0 <= i < |r| ensures ToLower(r)[i] == f.labelName[i] {
      if i > 0 {
        assert r[i] == f.labelName[i];
      }
    }
  }

  /** Every label of the enum is in lower case, as the schema stores
      it. */
  lemma LabelsAreLower(labelName: string)
    requires labelName in Labels
    ensures IsLower(labelName)
  {
  }

  lemma DisplayLabelExamples()
    ensures DisplayLabel(Favorite(0, "u", "home", None, "x", None, None, Pin)) == "Home"
    ensures DisplayLabel(Favorite(0, "u", "custom", Some("Gym"), "x", None, None, Pin)) == "Gym"
    ensures DisplayLabel(Favorite(0, "u", "custom", Some(""), "x", None, None, Pin)) == "Custom"
  {
  }
}

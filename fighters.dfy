/** Fighter records as the browser client holds them, the two unit-display
    helpers, the normalisation applied to records that arrive from the
    service, and the fixed demo records. */
module Fighters {
  import opened Common
  import opened JsText

  /** A fighter record. The service's JSON keys are `name`, `first_name`,
      `last_name`, `image_url`, `image`, `height`, `height_cm`, `weight`,
      `weight_kg`, `wins`, `losses`, `draws` and `age`; any of them may be
      missing, and a missing, `null` or `undefined` value is `None`. */
  datatype Fighter = Fighter(
    name: Option<string>,
    firstName: Option<string>,
    lastName: Option<string>,
    imageUrl: Option<string>,
    image: Option<string>,
    height: Option<string>,
    heightCm: Option<real>,
    weight: Option<string>,
    weightKg: Option<real>,
    wins: Option<int>,
    losses: Option<int>,
    draws: Option<int>,
    age: Option<int>)

  /** A record with every field missing. */
  const Blank := Fighter(None, None, None, None, None, None, None, None, None, None, None, None, None)

  /** JavaScript truthiness of an optional string: present and non-empty. */
  predicate TruthyText(s: Option<string>) {
    s.Some? && s.value != ""
  }

  /** JavaScript truthiness of an optional number: present and non-zero. */
  predicate TruthyNumber(x: Option<real>) {
    x.Some? && x.value != 0.0
  }

  /** `a || b` on optional strings. */
  function TextOr(a: Option<string>, b: Option<string>): Option<string> {
    if TruthyText(a) then a else b
  }

  /** `x || d` on optional integers: a missing value and 0 both give `d`. */
  function IntOr(x: Option<int>, d: int): int {
    if x.Some? && x.value != 0 then x.value else d
  }

  /** The floating-point arithmetic of the two conversions, left abstract:
      `feetInches(cm)` is the pair `(Math.floor(cm * 0.393701 / 12),
      Math.round(cm * 0.393701 % 12))` and `pounds(kg)` is
      `Math.round(kg * 2.20462)`, both in IEEE doubles. */
  datatype Units = Units(feetInches: real -> (int, int), pounds: real -> int)

  const NotAvailable := "N/A"

  /** The `feet'inches"` text. */
  function FeetInchesText(feet: int, inches: int): (r: string)
    ensures |r| >= 4 && r[|r| - 1] == '"'
  {
    IntText(feet) + "'" + IntText(inches) + "\""
  }

  /** The `<n> lbs` text. */
  function PoundsText(n: int): (r: string)
    ensures |r| >= 5
  {
    IntText(n) + " lbs"
  }

  /** `cmToFeetInches(cm)`: "N/A" exactly when `cm` is falsy (missing or 0),
      otherwise the feet-and-inches text of the converted value. */
  function CmToFeetInches(u: Units, cm: Option<real>): (r: string)
    ensures r == NotAvailable <==> !TruthyNumber(cm)
    ensures TruthyNumber(cm) ==>
      r == FeetInchesText(u.feetInches(cm.value).0, u.feetInches(cm.value).1)
  {
    if !TruthyNumber(cm) then NotAvailable
    else
      var (feet, inches) := u.feetInches(cm.value);
      FeetInchesText(feet, inches)
  }

  /** `kgToLbs(kg)`: "N/A" exactly when `kg` is falsy (missing or 0),
      otherwise the pound text of the converted value. */
  function KgToLbs(u: Units, kg: Option<real>): (r: string)
    ensures r == NotAvailable <==> !TruthyNumber(kg)
    ensures TruthyNumber(kg) ==> r == PoundsText(u.pounds(kg.value))
  {
    if !TruthyNumber(kg) then NotAvailable else PoundsText(u.pounds(kg.value))
  }

  /** The displayed name: `name` when it is non-empty, otherwise the trimmed
      `first_name + " " + last_name`, a missing part counting as "". */
  function DisplayName(f: Fighter): string {
    if TruthyText(f.name) then f.name.value
    else Trim(f.firstName.GetOr("") + " " + f.lastName.GetOr(""))
  }

  /** The displayed image: `image_url || image`. */
  function ImageOf(f: Fighter): Option<string> {
    TextOr(f.imageUrl, f.image)
  }

  /** The displayed height: `height || cmToFeetInches(height_cm)`. */
  function HeightText(u: Units, f: Fighter): string {
    if TruthyText(f.height) then f.height.value else CmToFeetInches(u, f.heightCm)
  }

  /** The displayed weight: `weight || kgToLbs(weight_kg)`. */
  function WeightText(u: Units, f: Fighter): string {
    if TruthyText(f.weight) then f.weight.value else KgToLbs(u, f.weightKg)
  }

  /** The mapping applied to search results: every field of the record is
      kept and name, image, height and weight are replaced by their
      displayed values. */
  function NormalizeSearched(u: Units, f: Fighter): Fighter {
    f.(name := Some(DisplayName(f)), image := ImageOf(f),
       height := Some(HeightText(u, f)), weight := Some(WeightText(u, f)))
  }

  /** The mapping applied by the full load: the search mapping, and in
      addition wins, losses and draws default to 0. */
  function NormalizeLoaded(u: Units, f: Fighter): Fighter {
    NormalizeSearched(u, f).(wins := Some(IntOr(f.wins, 0)),
                             losses := Some(IntOr(f.losses, 0)),
                             draws := Some(IntOr(f.draws, 0)))
  }

  /** `data.map(...)` with the search mapping. */
  function NormalizeAllSearched(u: Units, data: seq<Fighter>): (r: seq<Fighter>)
    ensures |r| == |data|
    ensures forall i :: 0 <= i < |data| ==> r[i] == NormalizeSearched(u, data[i])
  {
    if data == [] then [] else [NormalizeSearched(u, data[0])] + NormalizeAllSearched(u, data[1..])
  }

  /** `data.map(...)` with the full-load mapping. */
  function NormalizeAllLoaded(u: Units, data: seq<Fighter>): (r: seq<Fighter>)
    ensures |r| == |data|
    ensures forall i :: 0 <= i < |data| ==> r[i] == NormalizeLoaded(u, data[i])
  {
    if data == [] then [] else [NormalizeLoaded(u, data[0])] + NormalizeAllLoaded(u, data[1..])
  }

  /** A record whose displayed fields are all present: what a card needs. */
  predicate Displayable(f: Fighter) {
    f.name.Some? && f.height.Some? && f.weight.Some?
  }

  /** A record in canonical form: its name, image, height and weight are
      already their displayed values and wins, losses and draws are present. */
  predicate Canonical(f: Fighter) {
    && f.name == Some(DisplayName(f))
    && f.image == ImageOf(f)
    && TruthyText(f.height) && TruthyText(f.weight)
    && f.wins.Some? && f.losses.Some? && f.draws.Some?
  }

  /** The displayed height and weight are never empty. */
  lemma DisplayTextsNonEmpty(u: Units, f: Fighter)
    ensures HeightText(u, f) != "" && WeightText(u, f) != ""
  {
  }

  /** The name rule: a non-empty `name` wins; otherwise the trimmed parts,
      so that a record with neither gives "" and two unpadded parts give
      `first + " " + last`. */
  lemma DisplayNameRule(f: Fighter)
    ensures TruthyText(f.name) ==> DisplayName(f) == f.name.value
    ensures (!TruthyText(f.name) && f.firstName.GetOr("") == "" && f.lastName.GetOr("") == "")
              ==> DisplayName(f) == ""
    ensures (&& !TruthyText(f.name) && f.firstName.Some? && f.lastName.Some?
             && f.firstName.value != "" && !IsJsSpace(f.firstName.value[0])
             && f.lastName.value != "" && !IsJsSpace(f.lastName.value[|f.lastName.value| - 1]))
              ==> DisplayName(f) == f.firstName.value + " " + f.lastName.value
  {
    if !TruthyText(f.name) {
      var s := f.firstName.GetOr("") + " " + f.lastName.GetOr("");
      if f.firstName.GetOr("") == "" && f.lastName.GetOr("") == "" {
        assert s == " ";
        TrimEmptyIffAllSpace(s);
      }
      if && f.firstName.Some? && f.lastName.Some?
         && f.firstName.value != "" && !IsJsSpace(f.firstName.value[0])
         && f.lastName.value != "" && !IsJsSpace(f.lastName.value[|f.lastName.value| - 1])
      {
        assert s[0] == f.firstName.value[0] && s[|s| - 1] == f.lastName.value[|f.lastName.value| - 1];
        TrimUnpadded(s);
      }
    }
  }

  /** The image rule: `image_url` when it is non-empty, otherwise `image`
      unchanged (which may itself be missing or empty). */
  lemma ImageRule(f: Fighter)
    ensures TruthyText(f.imageUrl) ==> ImageOf(f) == f.imageUrl
    ensures !TruthyText(f.imageUrl) ==> ImageOf(f) == f.image
  {
  }

  /** The two mappings differ only in wins, losses and draws: the search
      mapping keeps them as they came (possibly missing), the full load
      defaults them to 0. */
  lemma MappingsDiffer(u: Units, f: Fighter)
    ensures NormalizeSearched(u, f).wins == f.wins
    ensures NormalizeSearched(u, f).losses == f.losses
    ensures NormalizeSearched(u, f).draws == f.draws
    ensures NormalizeLoaded(u, f).wins == Some(f.wins.GetOr(0))
    ensures NormalizeLoaded(u, f).losses == Some(f.losses.GetOr(0))
    ensures NormalizeLoaded(u, f).draws == Some(f.draws.GetOr(0))
    ensures NormalizeLoaded(u, f).(wins := f.wins, losses := f.losses, draws := f.draws)
            == NormalizeSearched(u, f)
  {
  }

  /** The mappings keep every field they do not override (the `...fighter`
      spread). */
  lemma MappingsKeepRawFields(u: Units, f: Fighter)
    ensures var g := NormalizeLoaded(u, f);
      g.firstName == f.firstName && g.lastName == f.lastName && g.imageUrl == f.imageUrl
      && g.heightCm == f.heightCm && g.weightKg == f.weightKg && g.age == f.age
    ensures var g := NormalizeSearched(u, f);
      g.firstName == f.firstName && g.lastName == f.lastName && g.imageUrl == f.imageUrl
      && g.heightCm == f.heightCm && g.weightKg == f.weightKg && g.age == f.age
  {
  }

  /** Normalisation is total: whatever is missing, the result has a name,
      a height and a weight. */
  lemma NormalizedIsDisplayable(u: Units, f: Fighter)
    ensures Displayable(NormalizeSearched(u, f))
    ensures Displayable(NormalizeLoaded(u, f))
  {
  }

  /** Canonical records are exactly the records the full-load mapping leaves
      unchanged, whatever the unit conversions are. */
  lemma CanonicalIffFixpoint(u: Units, f: Fighter)
    ensures Canonical(f) <==> NormalizeLoaded(u, f) == f
  {
    if NormalizeLoaded(u, f) == f {
      DisplayTextsNonEmpty(u, f);
    }
  }

  /** The full-load mapping yields canonical records, so applying it twice
      is applying it once. */
  lemma {:induction false} LoadedIsCanonical(u: Units, f: Fighter)
    ensures Canonical(NormalizeLoaded(u, f))
    ensures NormalizeLoaded(u, NormalizeLoaded(u, f)) == NormalizeLoaded(u, f)
  {
    var g := NormalizeLoaded(u, f);
    DisplayTextsNonEmpty(u, f);
    assert DisplayName(g) == DisplayName(f) by {
      if DisplayName(f) != "" {
        assert TruthyText(g.name);
      }
    }
    assert ImageOf(g) == ImageOf(f);
    CanonicalIffFixpoint(u, g);
  }

  /** The search mapping is idempotent too. */
  lemma {:induction false} SearchedIdempotent(u: Units, f: Fighter)
    ensures NormalizeSearched(u, NormalizeSearched(u, f)) == NormalizeSearched(u, f)
  {
    var g := NormalizeSearched(u, f);
    DisplayTextsNonEmpty(u, f);
    assert DisplayName(g) == DisplayName(f) by {
      if DisplayName(f) != "" {
        assert TruthyText(g.name);
      }
    }
  }

  /** Every record of a full load is canonical. */
  lemma AllLoadedCanonical(u: Units, data: seq<Fighter>)
    ensures forall f :: f in NormalizeAllLoaded(u, data) ==> Canonical(f)
  {
    forall f | f in NormalizeAllLoaded(u, data) ensures Canonical(f) {
      var i :| 0 <= i < |data| && NormalizeAllLoaded(u, data)[i] == f;
      LoadedIsCanonical(u, data[i]);
    }
  }

  /** Every record of a search answer is displayable. */
  lemma AllSearchedDisplayable(u: Units, data: seq<Fighter>)
    ensures forall f :: f in NormalizeAllSearched(u, data) ==> Displayable(f)
  {
  }

  /** Every canonical record is displayable. */
  lemma CanonicalIsDisplayable(f: Fighter)
    requires Canonical(f)
    ensures Displayable(f)
  {
  }

  // The four records `loadDemoData` installs.

  const JonJones := Blank.(name := Some("Jon Jones"), height := Some("6'4\""), weight := Some("205 lbs"),
    wins := Some(26), losses := Some(1), draws := Some(0),
    image := Some("https://upload.wikimedia.org/wikipedia/commons/thumb/4/43/Jon_Jones_-_Supporting_Brain_Health_Study.jpg/250px-Jon_Jones_-_Supporting_Brain_Health_Study.jpg"))

  const DanielCormier := Blank.(name := Some("Daniel Cormier"), height := Some("5'11\""), weight := Some("205 lbs"),
    wins := Some(22), losses := Some(3), draws := Some(0),
    image := Some("https://upload.wikimedia.org/wikipedia/commons/thumb/2/22/Daniel_Cormier_taking_a_picture_with_a_fan..jpg/250px-Daniel_Cormier_taking_a_picture_with_a_fan..jpg"))

  const KhamzatChimaev := Blank.(name := Some("Khamzat Chimaev"), height := Some("6'2\""), weight := Some("186 lbs"),
    wins := Some(15), losses := Some(0), draws := Some(0),
    image := Some("https://upload.wikimedia.org/wikipedia/commons/thumb/b/b3/Khamzat_Chimaev_2022_%28cropped%29.png/250px-Khamzat_Chimaev_2022_%28cropped%29.png"))

  const KhabibNurmagomedov := Blank.(name := Some("Khabib Nurmagomedov"), height := Some("5'10\""), weight := Some("155 lbs"),
    wins := Some(29), losses := Some(0), draws := Some(0),
    image := Some("https://upload.wikimedia.org/wikipedia/commons/thumb/3/34/Khabib_nurmagomedov.jpg/250px-Khabib_nurmagomedov.jpg"))

  const Demo: seq<Fighter> := [JonJones, DanielCormier, KhamzatChimaev, KhabibNurmagomedov]

  /** The demo records are already canonical, and their heights are the
      feet-and-inches text. */
  lemma DemoIsCanonical()
    ensures |Demo| == 4
    ensures forall f :: f in Demo ==> Canonical(f)
    ensures JonJones.height == Some(FeetInchesText(6, 4))
  {
    assert IntText(6) == "6" && IntText(4) == "4";
    assert FeetInchesText(6, 4) == "6" + "'" + "4" + "\"" == "6'4\"";
    assert Canonical(JonJones);
    assert Canonical(DanielCormier);
    assert Canonical(KhamzatChimaev);
    assert Canonical(KhabibNurmagomedov);
  }
}

/** The entities of the application (types.ts): ingredients and their
    three-way safety status, grounding sources, the AI's product analysis,
    a history entry, skin types and the user profile. */
module Types {
  import opened Util

  /** The safety classification of one ingredient: exactly three values. */
  datatype Status = Safe | Caution | Harmful

  /** The wire spelling of a status, as the AI response schema writes it. */
  function StatusName(s: Status): string {
    match s
    case Safe => "SAFE"
    case Caution => "CAUTION"
    case Harmful => "HARMFUL"
  }

  const AllStatuses: seq<Status> := [Safe, Caution, Harmful]

  datatype Ingredient = Ingredient(name: string, status: Status, description: string)

  /** A web citation taken from the AI response's grounding metadata. */
  datatype GroundingSource = GroundingSource(title: string, uri: string)

  /** The AI's assessment of one product; `sources` is optional. */
  datatype ProductAnalysis = ProductAnalysis(
    name: string,
    brand: string,
    safetyScore: int,
    ratingText: string,
    analysisSummary: string,
    skinAnalysis: string,
    ingredients: seq<Ingredient>,
    sources: Option<seq<GroundingSource>>)

  /** One history entry. `barcode` is the scanned code or a synthetic image
      id; `image`, `ingredientsText` and `analysis` are optional. */
  datatype Product = Product(
    barcode: string,
    name: string,
    brand: string,
    image: Option<string>,
    ingredientsText: Option<string>,
    analysis: Option<ProductAnalysis>,
    timestamp: nat)

  /** The five skin types a user can select. */
  datatype SkinType = Oily | Dry | Sensitive | Combination | Normal

  /** The string value of each enum member. */
  function SkinTypeName(t: SkinType): string {
    match t
    case Oily => "Oily"
    case Dry => "Dry"
    case Sensitive => "Sensitive"
    case Combination => "Combination"
    case Normal => "Normal"
  }

  /** The string values of a selection, in order, as they are handed to the AI service. */
  function SkinTypeNames(ts: seq<SkinType>): (names: seq<string>)
    ensures |names| == |ts|
    ensures forall i :: 0 <= i < |ts| ==> names[i] == SkinTypeName(ts[i])
  {
    seq(|ts|, i requires 0 <= i < |ts| => SkinTypeName(ts[i]))
  }

  /** `Object.values(SkinType)`: the members in declaration order. */
  const AllSkinTypes: seq<SkinType> := [Oily, Dry, Sensitive, Combination, Normal]

  /** The user's name and selected skin types. At the type level the
      selection is a sequence, so order is kept and duplicates are possible. */
  datatype UserProfile = UserProfile(name: string, skinTypes: seq<SkinType>)

  /** Every status is listed once, and the wire spellings are distinct. */
  lemma StatusesEnumerated()
    ensures |AllStatuses| == 3 && NoDuplicates(AllStatuses)
    ensures forall s: Status :: s in AllStatuses
    ensures forall s: Status, t: Status :: StatusName(s) == StatusName(t) ==> s == t
  {
    forall s: Status ensures s in AllStatuses {
      match s
      case Safe => assert AllStatuses[0] == s;
      case Caution => assert AllStatuses[1] == s;
      case Harmful => assert AllStatuses[2] == s;
    }
  }

  /** Every skin type is listed once, and the enum's string values are distinct. */
  lemma SkinTypesEnumerated()
    ensures |AllSkinTypes| == 5 && NoDuplicates(AllSkinTypes)
    ensures forall t: SkinType :: t in AllSkinTypes
    ensures forall s: SkinType, t: SkinType :: SkinTypeName(s) == SkinTypeName(t) ==> s == t
  {
    forall t: SkinType ensures t in AllSkinTypes {
      match t
      case Oily => assert AllSkinTypes[0] == t;
      case Dry => assert AllSkinTypes[1] == t;
      case Sensitive => assert AllSkinTypes[2] == t;
      case Combination => assert AllSkinTypes[3] == t;
      case Normal => assert AllSkinTypes[4] == t;
    }
  }
}

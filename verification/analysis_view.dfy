/** The computations behind the analysis report (components/AnalysisView.tsx):
    the ingredient filter, the per-status counts on the filter buttons, the
    status badge text, the score ring's dash offset and whether the sources
    section is shown. */
module AnalysisView {
  import opened Util
  import opened Types
  import opened Text
  import opened AiService

  /** The filter buttons: all ingredients, or one status. */
  datatype StatusFilter = All | Only(status: Status)

  /** filteredIngredients: every ingredient under All, otherwise those with
      the selected status. */
  function FilteredIngredients(ingredients: seq<Ingredient>, f: StatusFilter): seq<Ingredient> {
    Filter(ingredients, (i: Ingredient) => Shows(f, i))
  }

  predicate Shows(f: StatusFilter, i: Ingredient) {
    match f
    case All => true
    case Only(s) => i.status == s
  }

  /** `analysis.ingredients.filter(i => i.status === type)`, whose length each
      status button shows. */
  function WithStatus(ingredients: seq<Ingredient>, s: Status): seq<Ingredient> {
    Filter(ingredients, (i: Ingredient) => i.status == s)
  }

  /** The All filter returns the ingredient list unchanged. */
  lemma FilterAllUnchanged(ingredients: seq<Ingredient>)
    ensures FilteredIngredients(ingredients, All) == ingredients
  {
    FilterKeepsAll(ingredients, (i: Ingredient) => Shows(All, i));
  }

  /** A status filter returns exactly the ingredients with that status, in
      their original order and multiplicity, and the list it shows is as long
      as the count on its button. */
  lemma FilterOnlyExact(ingredients: seq<Ingredient>, s: Status)
    ensures FilteredIngredients(ingredients, Only(s)) == WithStatus(ingredients, s)
    ensures forall i :: i in FilteredIngredients(ingredients, Only(s)) ==> i.status == s
    ensures forall k :: 0 <= k < |ingredients| && ingredients[k].status == s ==>
      ingredients[k] in FilteredIngredients(ingredients, Only(s))
    ensures forall i :: i in ingredients && i.status == s ==>
      multiset(FilteredIngredients(ingredients, Only(s)))[i] == multiset(ingredients)[i]
    ensures IsSubseq(FilteredIngredients(ingredients, Only(s)), ingredients)
  {
    FilterSamePredicate(ingredients, (i: Ingredient) => Shows(Only(s), i), (i: Ingredient) => i.status == s);
  }

  /** Because status is closed, the three button counts add up to the number
      of ingredients. */
  lemma {:induction false} CountsSumToTotal(ingredients: seq<Ingredient>)
    ensures |WithStatus(ingredients, Safe)| + |WithStatus(ingredients, Caution)| + |WithStatus(ingredients, Harmful)| == |ingredients|
    decreases |ingredients|
  {
    if ingredients != [] {
      CountsSumToTotal(ingredients[1..]);
    }
  }

  /** getStatusLabel: a status spelling maps to itself, anything else to "". */
  function GetStatusLabel(status: string): string {
    if status == "SAFE" then "SAFE"
    else if status == "CAUTION" then "CAUTION"
    else if status == "HARMFUL" then "HARMFUL"
    else ""
  }

  /** Every ingredient's badge shows its status spelling, and a string that
      spells no status gets an empty badge. */
  lemma StatusLabels(name: string)
    ensures forall s: Status :: GetStatusLabel(StatusName(s)) == StatusName(s)
    ensures (forall s: Status :: name != StatusName(s)) ==> GetStatusLabel(name) == ""
    ensures GetStatusLabel(name) == "" || exists s: Status :: GetStatusLabel(name) == StatusName(s) && name == StatusName(s)
  {
    if name == "SAFE" {
      assert name == StatusName(Safe);
    } else if name == "CAUTION" {
      assert name == StatusName(Caution);
    } else if name == "HARMFUL" {
      assert name == StatusName(Harmful);
    }
  }

  function LowerChar(c: char): char {
    if 'A' <= c <= 'Z' then (c as int + 32) as char else c
  }

  /** String.prototype.toLowerCase on ASCII text. */
  function Lower(s: string): string
    decreases |s|
  {
    if s == [] then [] else [LowerChar(s[0])] + Lower(s[1..])
  }

  /** `type.charAt(0) + type.slice(1).toLowerCase()` */
  function Capitalize(w: string): string {
    if w == [] then [] else [w[0]] + Lower(w[1..])
  }

  /** The capitalised button labels of the three statuses. */
  lemma CapitalizedNames()
    ensures Capitalize(StatusName(Safe)) == "Safe"
    ensures Capitalize(StatusName(Caution)) == "Caution"
    ensures Capitalize(StatusName(Harmful)) == "Harmful"
  {
    LowerStatusTails();
    assert "SAFE"[1..] == "AFE";
    assert "CAUTION"[1..] == "AUTION";
    assert "HARMFUL"[1..] == "ARMFUL";
  }

  /** Lower-casing the tails of the three status spellings. */
  lemma LowerStatusTails()
    ensures Lower("AFE") == "afe"
    ensures Lower("AUTION") == "aution"
    ensures Lower("ARMFUL") == "armful"
  {
    assert LowerChar('A') == 'a';
    assert LowerChar('E') == 'e';
    assert LowerChar('F') == 'f';
    assert "AFE"[1..] == "FE";
    assert "FE"[1..] == "E";
    assert "E"[1..] == "";
    assert LowerChar('I') == 'i';
    assert LowerChar('N') == 'n';
    assert LowerChar('O') == 'o';
    assert LowerChar('T') == 't';
    assert LowerChar('U') == 'u';
    assert "AUTION"[1..] == "UTION";
    assert "UTION"[1..] == "TION";
    assert "TION"[1..] == "ION";
    assert "ION"[1..] == "ON";
    assert "ON"[1..] == "N";
    assert "N"[1..] == "";
    assert LowerChar('L') == 'l';
    assert LowerChar('M') == 'm';
    assert LowerChar('R') == 'r';
    assert "ARMFUL"[1..] == "RMFUL";
    assert "RMFUL"[1..] == "MFUL";
    assert "MFUL"[1..] == "FUL";
    assert "FUL"[1..] == "UL";
    assert "UL"[1..] == "L";
    assert "L"[1..] == "";
  }

  /** The text of a filter button: "All", or the capitalised status with
      its count in parentheses. */
  function FilterButtonText(ingredients: seq<Ingredient>, f: StatusFilter): (text: string)
    ensures f == All ==> text == "All"
    ensures f == Only(Safe) ==> text == "Safe" + " (" + Decimal(|WithStatus(ingredients, Safe)|) + ")"
    ensures f == Only(Caution) ==> text == "Caution" + " (" + Decimal(|WithStatus(ingredients, Caution)|) + ")"
    ensures f == Only(Harmful) ==> text == "Harmful" + " (" + Decimal(|WithStatus(ingredients, Harmful)|) + ")"
  {
    match f
    case All => "All"
    case Only(s) =>
      var word := Capitalize(StatusName(s));
      var count := Decimal(|WithStatus(ingredients, s)|);
      CapitalizedNames();
      word + " (" + count + ")"
  }

  /** The ring's circumference. */
  const RingLength: real := 440.0

  /** `440 - (440 * safetyScore) / 100`, the unfilled part of the score ring.
      The score is not clamped: outside [0, 100] the offset leaves [0, 440]. */
  function DashOffset(score: int): (offset: real)
    ensures score == 0 ==> offset == RingLength
    ensures score == 100 ==> offset == 0.0
    ensures 0 <= score <= 100 ==> 0.0 <= offset <= RingLength
    ensures score > 100 ==> offset < 0.0
    ensures score < 0 ==> offset > RingLength
  {
    RingLength - (RingLength * score as real) / 100.0
  }

  /** A higher score never leaves more of the ring unfilled. */
  lemma DashOffsetMonotone(lo: int, hi: int)
    requires lo <= hi
    ensures DashOffset(hi) <= DashOffset(lo)
  {
  }

  /** `analysis.sources && analysis.sources.length > 0` */
  predicate ShowSources(a: ProductAnalysis) {
    a.sources.Some? && |a.sources.value| > 0
  }

  /** For an analysis the AI service returned, the sources section shows
      exactly when some grounding chunk was well formed. */
  lemma SourcesShownIffGrounded(reply: ModelReply)
    requires AnalyzeReply(reply).Some?
    ensures ShowSources(AnalyzeReply(reply).value) <==>
      reply.grounding.Chunks? && exists i :: 0 <= i < |reply.grounding.items| && SourceOf(reply.grounding.items[i]).Some?
  {
    var g := reply.grounding;
    var r := ExtractSources(g);
    ExtractOnlyWellFormed(g);
    if g.Chunks? {
      ExtractComplete(g);
      if exists i :: 0 <= i < |g.items| && SourceOf(g.items[i]).Some? {
        var i :| 0 <= i < |g.items| && SourceOf(g.items[i]).Some?;
        assert SourceOf(g.items[i]).value.uri in Uris(r);
      }
      if |r| > 0 {
        assert r[0] in r;
        assert Contributes(g.items, r[0]);
      }
    }
  }
}

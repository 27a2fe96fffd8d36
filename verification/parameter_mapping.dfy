/**
 * From the structure the language model produced (`LLMSimpleSearchParameters`)
 * to the API's simple-search parameters (`_generate_search_parameters`).
 *
 * The language-model call itself, with its prompt and retry policy, is not
 * part of this model: its outcome is an input (`Generation`).
 */
module ParameterMapping {
  import opened Wrappers
  import opened Schema

  /** The separator placed between search terms. */
  const Separator: string := " OR "

  /**
   * The declared default of `search_type`. It is not one of the field's two
   * literal values ("catalog", "catalog_and_full_text"), and pydantic does
   * not validate defaults, so it reaches the mapping as it is.
   */
  const LLMDefaultSearchType: string := "C"

  /**
   * `LLMSimpleSearchParameters`. `search_terms` defaults to None when the
   * model leaves it out; a list the model gives must hold at least one term.
   */
  datatype LLMSimpleSearchParameters =
    LLMSimpleSearchParameters(searchTerms: Option<seq<string>>, searchType: string, page: int, pageSize: int)

  /** What the constrained generation call ended with. */
  datatype Generation =
    | Generated(params: LLMSimpleSearchParameters)
    | RetriesExhausted(message: string)   // InstructorRetryException, re-raised as AIGenerationException

  /** The ways `_generate_search_parameters` can raise. */
  datatype GenerationError =
    | AIGenerationError(message: string)  // caught by `run`
    | TermsNotIterable                    // `" OR ".join(None)`: a TypeError nobody catches

  /** The summed length of the terms. */
  function TotalLength(terms: seq<string>): nat {
    if terms == [] then 0 else |terms[0]| + TotalLength(terms[1..])
  }

  /**
   * `" OR ".join(terms)`: every character of the terms, plus one separator
   * between each two neighbouring terms and none at either end.
   */
  function Join(terms: seq<string>): (r: string)
    ensures |terms| >= 1 ==> |r| == TotalLength(terms) + |Separator| * (|terms| - 1)
  {
    if |terms| == 0 then ""
    else if |terms| == 1 then terms[0]
    else terms[0] + Separator + Join(terms[1..])
  }

  /** `"C" if search_type == "catalog" else "F"`. */
  function ScopeFor(searchType: string): (r: SearchType)
    ensures r.Code() == "C" <==> searchType == "catalog"
    ensures SearchTypeFromCode(r.Code()) == Some(r)
  {
    if searchType == "catalog" then Catalog else CatalogAndFullText
  }

  /** The mapping of `_generate_search_parameters` once generation has finished. */
  function GenerateSearchParameters(g: Generation): (r: Result<SimpleParams, GenerationError>)
    ensures g.RetriesExhausted? ==> r == Err(AIGenerationError(g.message))
    ensures g.Generated? ==> (r.Ok? <==> g.params.searchTerms.Some?)
    ensures r.Ok? ==> r.value.page == g.params.page && r.value.pageSize == g.params.pageSize
    ensures r.Ok? ==> (r.value.searchtype.Code() == "C" <==> g.params.searchType == "catalog")
  {
    match g
    case RetriesExhausted(message) => Err(AIGenerationError(message))
    case Generated(p) =>
      if p.searchTerms.None? then
        Err(TermsNotIterable)
      else
        Ok(SimpleParams(Join(p.searchTerms.value), ScopeFor(p.searchType), p.page, p.pageSize))
  }

  /** The mapped parameters pass the schema's own validation, with the same values. */
  lemma MappedParametersValidate(p: LLMSimpleSearchParameters)
    requires p.searchTerms.Some?
    ensures var r := GenerateSearchParameters(Generated(p));
      r.Ok? &&
      NewSimpleParams(Join(p.searchTerms.value), Some(ScopeFor(p.searchType).Code()), Some(p.page), Some(p.pageSize)) == Ok(r.value)
  {
    match ScopeFor(p.searchType)
    case Catalog =>
    case CatalogAndFullText =>
  }

  /** The search term is the joined terms: one term unchanged, `t :: rest` as `t OR join(rest)`. */
  lemma SearchTermIsJoin(p: LLMSimpleSearchParameters, t: string, rest: seq<string>)
    requires p.searchTerms == Some([t] + rest)
    ensures GenerateSearchParameters(Generated(p)).value.searchterm ==
      if rest == [] then t else t + Separator + Join(rest)
  {
    assert ([t] + rest)[1..] == rest;
  }

  /** The declared default of `search_type` is admitted, yet it selects full-text search. */
  lemma DefaultSearchTypeMeansFullText(p: LLMSimpleSearchParameters)
    requires p.searchTerms.Some? && p.searchType == LLMDefaultSearchType
    ensures GenerateSearchParameters(Generated(p)).value.searchtype == CatalogAndFullText
    ensures GenerateSearchParameters(Generated(p)).value.searchtype.Code() == "F"
  {
  }

  /** Joining two non-empty term lists puts one separator between the two joins. */
  lemma {:induction false} JoinAppend(a: seq<string>, b: seq<string>)
    requires |a| >= 1 && |b| >= 1
    ensures Join(a + b) == Join(a) + Separator + Join(b)
    decreases |a|
  {
    if |a| == 1 {
      assert (a + b)[1..] == b;
    } else {
      assert (a + b)[1..] == a[1..] + b;
      JoinAppend(a[1..], b);
    }
  }

  /** The joined string begins with the first term and ends with the last: no leading or trailing separator. */
  lemma {:induction false} JoinEnds(terms: seq<string>)
    requires |terms| >= 1
    ensures |Join(terms)| >= |terms[0]| && Join(terms)[..|terms[0]|] == terms[0]
    ensures |Join(terms)| >= |terms[|terms| - 1]| && Join(terms)[|Join(terms)| - |terms[|terms| - 1]|..] == terms[|terms| - 1]
    decreases |terms|
  {
    if |terms| > 1 {
      JoinEnds(terms[1..]);
      var j := Join(terms[1..]);
      assert Join(terms) == terms[0] + Separator + j;
    }
  }
}

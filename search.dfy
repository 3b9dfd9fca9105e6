/** The case-insensitive search and the "All" sentinel every listing page
    builds its filter from. */
module Search {
  import opened Text

  /** `field.toLowerCase().includes(term.toLowerCase())`. */
  predicate Contains(field: string, term: string) {
    IsSubstring(Lower(term), Lower(field))
  }

  /** Some field of the record contains the term, ignoring case. */
  predicate Matches(term: string, fields: seq<string>) {
    exists i :: 0 <= i < |fields| && Contains(fields[i], term)
  }

  /** A select box whose value `all` turns the condition off, and otherwise
      asks for exact equality. */
  predicate Selected(choice: string, value: string, all: string) {
    choice == all || choice == value
  }

  /** The empty search term matches every record with at least one field,
      so an empty box keeps the whole list. */
  lemma EmptyTermMatches(fields: seq<string>)
    requires fields != []
    ensures Matches("", fields)
  {
    EmptyIsSubstring(Lower(fields[0]));
    assert Contains(fields[0], "");
  }

  /** The search ignores the case of the term. */
  lemma MatchesIgnoresTermCase(term: string, fields: seq<string>)
    ensures Matches(Lower(term), fields) <==> Matches(term, fields)
  {
    LowerIdempotent(term);
  }

  /** Every field matches a search for its own text. */
  lemma FieldMatchesItself(fields: seq<string>, i: nat)
    requires i < |fields|
    ensures Matches(fields[i], fields)
  {
    SubstringReflexive(Lower(fields[i]));
    assert Contains(fields[i], fields[i]);
  }
}

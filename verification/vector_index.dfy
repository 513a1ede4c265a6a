/** The similarity search the chatbot consumes. The ranking itself is done by
    the database (`ORDER BY embedding <#> query LIMIT top_k`); here it is a
    function from the query text to the whole table in ranked order, and the
    search keeps a ghost log of the queries it was asked, so that callers can
    state when retrieval runs and when it does not. */
module VectorIndex {
  import opened Strings

  /** One ranked row: the chunk's resume, its category, its text and its distance to the query. */
  datatype SearchHit = SearchHit(resumeId: int, category: string, text: string, distance: real)

  class SimilaritySearch {
    /** Every indexed chunk, most similar first, for a given query text. */
    const rank: string -> seq<SearchHit>
    /** The queries this search has answered, oldest first. */
    ghost var queries: seq<string>

    constructor (rank: string -> seq<SearchHit>)
      ensures this.rank == rank && queries == []
    {
      this.rank := rank;
      queries := [];
    }

    /** The `top_k` best-ranked chunks for `query`. */
    method Search(query: string, topK: nat) returns (hits: seq<SearchHit>)
      modifies this`queries
      ensures hits == Take(rank(query), topK)
      ensures queries == old(queries) + [query]
    {
      hits := Take(rank(query), topK);
      queries := queries + [query];
    }
  }
}

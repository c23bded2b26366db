/**
 * The policy retrieval tool (`PolicyRAGTool._run`): it trims the query,
 * rejects an empty one, fetches the policy and glossary rows whose title or
 * body is LIKE the query, scores each row, sorts the documents by score,
 * highest first, and keeps the first `k`.
 */
module PolicyRag {
  import opened Wrappers
  import opened Text

  /** The `k` entry of the payload: absent, a value `int()` turns into `value`, or one it raises on. */
  datatype KArg = KMissing | KValue(value: int) | KInvalid(error: string)

  /** The payload: `query` is `None` when absent or falsy, and `k`. */
  datatype Payload = Payload(query: Option<string>, k: KArg)

  /** A fetched row `(doc_id, title, body, category, updated_at)`; title and body may be NULL. */
  datatype Row = Row(docId: int, title: Option<string>, body: Option<string>, category: string, updatedAt: string)

  /** A match as the tool reports it. */
  datatype Doc = Doc(docId: int, title: Option<string>, category: string, score: int, snippet: string)

  /** The tool's answer: `{"ok": False, "error": ...}` or `{"ok": True, "matches": ...}`. */
  datatype Answer = Rejected(error: string) | Found(matches: seq<Doc>)

  const DefaultK: int := 3
  const SnippetLength: nat := 240
  const EmptyQueryError: string := "Empty query"

  /** `x or ""` for an optional string. */
  function OrEmpty(x: Option<string>): string {
    if x.Some? then x.value else ""
  }

  /** Python's `s[:n]` for `n >= 0`: the first `n` elements, or all of them when there are fewer. */
  function Prefix<T>(s: seq<T>, n: nat): (r: seq<T>)
    ensures |r| == if n < |s| then n else |s|
    ensures r == s[..|r|]
  {
    if n < |s| then s[..n] else s
  }

  /** Python's `s[:k]` for any `k`: a negative `k` drops `-k` elements from the end. */
  function Slice<T>(s: seq<T>, k: int): (r: seq<T>)
    ensures k >= 0 ==> |r| == if k < |s| then k else |s|
    ensures k < 0 ==> |r| == if |s| + k > 0 then |s| + k else 0
    ensures r == s[..|r|]
  {
    if k >= 0 then Prefix(s, k)
    else if |s| + k > 0 then s[..|s| + k] else []
  }

  /** The `LIKE` pattern the query is looked up with. */
  function LikePattern(q: string): string {
    "%" + q + "%"
  }

  /** The document built for one row: the score of its title and body against the query, and a snippet of its body. */
  function ToDoc(row: Row, q: string, score: (string, string) -> int): Doc {
    Doc(row.docId, row.title, row.category,
        score(OrEmpty(row.title) + "\n" + OrEmpty(row.body), q),
        Prefix(OrEmpty(row.body), SnippetLength))
  }

  /** The documents of the rows, one per row, in row order. */
  function Docs(rows: seq<Row>, q: string, score: (string, string) -> int): (docs: seq<Doc>)
    ensures |docs| == |rows|
    ensures forall i :: 0 <= i < |rows| ==> docs[i] == ToDoc(rows[i], q, score)
  {
    seq(|rows|, i requires 0 <= i < |rows| => ToDoc(rows[i], q, score))
  }

  /** A list built one document per row is the rows' documents. */
  lemma DocsAre(rows: seq<Row>, q: string, score: (string, string) -> int, docs: seq<Doc>)
    requires |docs| == |rows|
    requires forall j :: 0 <= j < |rows| ==> docs[j] == ToDoc(rows[j], q, score)
    ensures docs == Docs(rows, q, score)
  {
  }

  /** Scores never increase along `docs`. */
  predicate SortedByScore(docs: seq<Doc>) {
    forall i, j :: 0 <= i < j < |docs| ==> docs[i].score >= docs[j].score
  }

  /** The documents of `docs` whose score is `v`, in order. */
  function WithScore(docs: seq<Doc>, v: int): seq<Doc> {
    if docs == [] then []
    else (if docs[0].score == v then [docs[0]] else []) + WithScore(docs[1..], v)
  }

  /** Places `d` before the first document scoring no more than it, so that it stays ahead of its equals. */
  function Insert(d: Doc, docs: seq<Doc>): (r: seq<Doc>)
    ensures multiset(r) == multiset(docs) + multiset{d}
    ensures |r| == |docs| + 1
  {
    if docs == [] || docs[0].score <= d.score then [d] + docs
    else
      assert docs == [docs[0]] + docs[1..];
      [docs[0]] + Insert(d, docs[1..])
  }

  /**
   * `docs.sort(key=score, reverse=True)`: a stable sort, highest score first;
   * documents of equal score keep their order.
   */
  function SortByScore(docs: seq<Doc>): (r: seq<Doc>)
    ensures multiset(r) == multiset(docs)
    ensures |r| == |docs|
  {
    if docs == [] then []
    else
      assert docs == [docs[0]] + docs[1..];
      Insert(docs[0], SortByScore(docs[1..]))
  }

  /** `int(payload.get("k", 3))`: the default when absent, the converted value, or the conversion's exception. */
  function KOf(payload: Payload): Result<int> {
    match payload.k
    case KMissing => Success(DefaultK)
    case KValue(v) => Success(v)
    case KInvalid(e) => Failure(e)
  }

  /** What the tool answers for a payload, given the lookup and the scoring function. */
  function Search(payload: Payload, fetch: string -> seq<Row>, score: (string, string) -> int): Result<Answer> {
    var q := Strip(OrEmpty(payload.query));
    match KOf(payload)
    case Failure(e) => Failure(e)
    case Success(k) =>
      if q == [] then Success(Rejected(EmptyQueryError))
      else Success(Found(Rank(fetch(LikePattern(q)), q, score, k)))
  }

  /** The matches reported for the fetched rows: their documents, sorted, cut to `k`. */
  function Rank(rows: seq<Row>, q: string, score: (string, string) -> int, k: int): seq<Doc> {
    Slice(SortByScore(Docs(rows, q, score)), k)
  }

  /**
   * `PolicyRAGTool._run`. The query is trimmed and `k` converted first (a
   * failing conversion raises, even for an empty query); an empty query is
   * rejected without a lookup; otherwise the rows are fetched, turned into
   * documents one by one, sorted, and the first `k` kept.
   */
  method Run(payload: Payload, fetch: string -> seq<Row>, score: (string, string) -> int) returns (r: Result<Answer>)
    ensures r == Search(payload, fetch, score)
  {
    var q := Strip(OrEmpty(payload.query));
    var converted := KOf(payload);
    if converted.Failure? {
      return Failure(converted.error);
    }
    var k := converted.value;
    if q == [] {
      return Success(Rejected(EmptyQueryError));
    }
    var rows := fetch(LikePattern(q));
    var docs := BuildDocs(rows, q, score);
    docs := SortByScore(docs);
    r := Success(Found(Slice(docs, k)));
  }

  /** The loop that appends one document per fetched row. */
  method BuildDocs(rows: seq<Row>, q: string, score: (string, string) -> int) returns (docs: seq<Doc>)
    ensures docs == Docs(rows, q, score)
  {
    docs := [];
    var i := 0;
    while i < |rows|
      invariant 0 <= i <= |rows|
      invariant |docs| == i
      invariant forall j :: 0 <= j < i ==> docs[j] == ToDoc(rows[j], q, score)
    {
      docs := docs + [ToDoc(rows[i], q, score)];
      i := i + 1;
    }
    DocsAre(rows, q, score, docs);
  }

  /** Inserting into a sorted list keeps it sorted. */
  lemma {:induction false} InsertSorted(d: Doc, docs: seq<Doc>)
    requires SortedByScore(docs)
    ensures SortedByScore(Insert(d, docs))
  {
    if docs == [] || docs[0].score <= d.score {
    } else {
      InsertSorted(d, docs[1..]);
      var rest := Insert(d, docs[1..]);
      assert forall x :: x in multiset(rest) ==> x in multiset(docs[1..]) || x == d;
      forall j | 0 < j < |rest| + 1
        ensures docs[0].score >= ([docs[0]] + rest)[j].score
      {
        var x := rest[j - 1];
        assert x in multiset(rest);
        if x != d {
          assert x in docs[1..];
        }
      }
    }
  }

  /** The sort puts the highest scores first. */
  lemma {:induction false} SortSorted(docs: seq<Doc>)
    ensures SortedByScore(SortByScore(docs))
  {
    if docs != [] {
      SortSorted(docs[1..]);
      InsertSorted(docs[0], SortByScore(docs[1..]));
    }
  }

  /** Inserting a document passes over higher scores only, so it lands ahead of every equal one. */
  lemma {:induction false} InsertWithScore(d: Doc, docs: seq<Doc>, v: int)
    ensures WithScore(Insert(d, docs), v) == (if d.score == v then [d] else []) + WithScore(docs, v)
  {
    if docs == [] || docs[0].score <= d.score {
      assert ([d] + docs)[1..] == docs;
    } else {
      InsertWithScore(d, docs[1..], v);
      assert ([docs[0]] + Insert(d, docs[1..]))[1..] == Insert(d, docs[1..]);
    }
  }

  /** The sort is stable: the documents of any one score come out in the order they went in. */
  lemma {:induction false} SortStable(docs: seq<Doc>, v: int)
    ensures WithScore(SortByScore(docs), v) == WithScore(docs, v)
  {
    if docs != [] {
      SortStable(docs[1..], v);
      InsertWithScore(docs[0], SortByScore(docs[1..]), v);
    }
  }

  /** An empty query (after trimming) is rejected, whatever the lookup would fetch, unless `k` fails to convert first. */
  lemma EmptyQueryRejected(payload: Payload, fetch1: string -> seq<Row>, fetch2: string -> seq<Row>, score: (string, string) -> int)
    requires AllSpace(OrEmpty(payload.query))
    ensures Search(payload, fetch1, score) == Search(payload, fetch2, score)
    ensures !payload.k.KInvalid? ==> Search(payload, fetch1, score) == Success(Rejected(EmptyQueryError))
    ensures payload.k.KInvalid? ==> Search(payload, fetch1, score) == Failure(payload.k.error)
  {
  }

  /**
   * The matches of a non-empty query are the ranked documents of the rows
   * fetched with its `LIKE` pattern, cut to `k` (3 when absent).
   */
  lemma MatchesOfQuery(payload: Payload, fetch: string -> seq<Row>, score: (string, string) -> int)
    requires payload.k.KValue? || payload.k.KMissing?
    requires !AllSpace(OrEmpty(payload.query))
    ensures var q := Strip(OrEmpty(payload.query));
      var k := if payload.k.KValue? then payload.k.value else DefaultK;
      Search(payload, fetch, score) == Success(Found(Rank(fetch(LikePattern(q)), q, score, k)))
  {
  }

  /**
   * The ranked matches are in non-increasing score order and as many as `k`
   * allows: `min(k, n)` for `k >= 0`, `max(0, n + k)` otherwise.
   */
  lemma RankSortedAndCut(rows: seq<Row>, q: string, score: (string, string) -> int, k: int)
    ensures SortedByScore(Rank(rows, q, score, k))
    ensures k >= 0 ==> |Rank(rows, q, score, k)| == if k < |rows| then k else |rows|
    ensures k < 0 ==> |Rank(rows, q, score, k)| == if |rows| + k > 0 then |rows| + k else 0
  {
    var sorted := SortByScore(Docs(rows, q, score));
    SortSorted(Docs(rows, q, score));
    var r := Rank(rows, q, score, k);
    forall i, j | 0 <= i < j < |r|
      ensures r[i].score >= r[j].score
    {
      assert r[i] == sorted[i] && r[j] == sorted[j];
    }
  }

  /**
   * Every match is the document of one fetched row: its score is that row's
   * score, and its snippet is a prefix of the row's body of at most 240
   * characters.
   */
  lemma RankFromRows(rows: seq<Row>, q: string, score: (string, string) -> int, k: int, m: Doc)
    requires m in Rank(rows, q, score, k)
    ensures exists i :: 0 <= i < |rows| && m == ToDoc(rows[i], q, score)
    ensures |m.snippet| <= SnippetLength
    ensures exists i :: 0 <= i < |rows| && StartsWith(OrEmpty(rows[i].body), m.snippet)
                     && m.score == score(OrEmpty(rows[i].title) + "\n" + OrEmpty(rows[i].body), q)
  {
    var docs := Docs(rows, q, score);
    var sorted := SortByScore(docs);
    assert m in sorted;
    assert m in multiset(sorted);
    assert m in docs;
    var i :| 0 <= i < |docs| && docs[i] == m;
    assert m == ToDoc(rows[i], q, score);
  }

  /** Before the cut, the ranked documents are the fetched rows' documents, each once, merely reordered. */
  lemma RankingIsPermutation(rows: seq<Row>, q: string, score: (string, string) -> int)
    ensures multiset(SortByScore(Docs(rows, q, score))) == multiset(Docs(rows, q, score))
    ensures |SortByScore(Docs(rows, q, score))| == |rows|
  {
  }
}

/**
 * What the server endpoints share: the outcome of a request (a value, or an
 * `HTTPException` with status and detail), the `offset(skip).limit(limit)` window of a
 * query, and opaque JSON column values.
 */
module Http {

  datatype Outcome<+T> = Ok(value: T) | Fail(status: int, detail: string)

  /** A JSON column the endpoints store and return without looking inside. */
  datatype Json = Json(text: string)

  /** The listing endpoints' defaults for an omitted `skip` and `limit`. */
  const DefaultSkip: nat := 0
  const DefaultLimit: nat := 100

  /** The rows a query returns after skipping `skip` of them and keeping at most `limit`. */
  function Page<T>(rows: seq<T>, skip: nat, limit: nat): (r: seq<T>)
    ensures |r| == if skip >= |rows| then 0 else if |rows| - skip < limit then |rows| - skip else limit
    ensures forall i | 0 <= i < |r| :: r[i] == rows[skip + i]
  {
    if skip >= |rows| then []
    else if |rows| - skip < limit then rows[skip..]
    else rows[skip..skip + limit]
  }

  /** A listing called with the defaults returns the first hundred rows, or all of them when fewer. */
  lemma DefaultWindow<T>(rows: seq<T>)
    ensures Page(rows, DefaultSkip, DefaultLimit) == if |rows| <= DefaultLimit then rows else rows[..DefaultLimit]
  {
  }
}

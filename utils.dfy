/**
 * The three pure helpers of utils.go that the CRUD handlers rely on.
 */
module Utils {
  import opened Wrappers
  import opened Int64

  /** dbValInRange(val, min, max): `val` lies in the closed interval [lo, hi]. */
  predicate DbValInRange(val: int64, lo: int64, hi: int64)
  {
    val >= lo && val <= hi
  }

  /** Both bounds belong to the range; an inverted range holds nothing. */
  lemma RangeBoundsInclusive(lo: int64, hi: int64, val: int64)
    ensures lo <= hi ==> DbValInRange(lo, lo, hi) && DbValInRange(hi, lo, hi)
    ensures lo > hi ==> !DbValInRange(val, lo, hi)
    ensures DbValInRange(val, lo, hi) <==> lo <= val <= hi
  {
  }

  /** The course-ID guard of getCourse: accepted IDs are exactly 1 through 1,000,000. */
  lemma CourseIdGuard(id: int64)
    ensures DbValInRange(id, 1, 1000000) <==> 1 <= id as int <= 1000000
    ensures DbValInRange(1, 1, 1000000) && DbValInRange(1000000, 1, 1000000)
    ensures !DbValInRange(0, 1, 1000000) && !DbValInRange(1000001, 1, 1000000)
  {
  }

  /** nullIfEmpty: SQL NULL (None) for the empty string, the string itself otherwise. */
  function NullIfEmpty(val: string): Option<string>
  {
    if val == "" then None else Some(val)
  }

  /** Reading a nullable column back as a string, NULL as "". */
  function EmptyIfNull(v: Option<string>): string
  {
    match v
    case None => ""
    case Some(s) => s
  }

  /** nil exactly for "", and any other string passes through unchanged. */
  lemma NullIfEmptyCases(val: string)
    ensures NullIfEmpty(val) == None <==> val == ""
    ensures val != "" ==> NullIfEmpty(val) == Some(val)
    ensures NullIfEmpty(val) != Some("")
  {
  }

  /** NullIfEmpty and EmptyIfNull are inverse: every string survives the round trip, and so does every value NullIfEmpty can produce. */
  lemma NullIfEmptyRoundTrip(val: string, v: Option<string>)
    ensures EmptyIfNull(NullIfEmpty(val)) == val
    ensures v != Some("") ==> NullIfEmpty(EmptyIfNull(v)) == v
  {
  }

  /** The outcome of `SELECT COUNT(*) FROM series WHERE course_id = $1`. */
  datatype CountResult = Count(n: int64) | QueryError(message: string)

  /** getNextEpisodeNumber given the query's outcome: (count + 1, nil), or (0, err) on a query error. */
  function NextEpisodeNumber(q: CountResult): (r: (int64, Option<string>))
  {
    match q
    case QueryError(msg) => (0, Some(msg))
    case Count(n) => (Inc(n), None)
  }

  /** A count of n existing episodes gives episode n + 1, which is at least 1. */
  lemma NextEpisodeAfterCount(n: int64)
    requires 0 <= n as int < MAX
    ensures NextEpisodeNumber(Count(n)) == ((n as int + 1) as int64, None)
    ensures NextEpisodeNumber(Count(n)).0 >= 1
  {
  }

  /** A failed count gives episode 0 and passes the error on. */
  lemma NextEpisodeOnError(msg: string)
    ensures NextEpisodeNumber(QueryError(msg)) == (0, Some(msg))
  {
  }
}

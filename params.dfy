/** Coercion of the two user-supplied query parameters of the top-tracks and
    top-artists views. Neither operation ever fails: an unknown value is
    replaced by a fixed default. */
module Params {

  /** The fixed table from an allowed time range to its display label. */
  const TIME_RANGE_LABELS: map<string, string> := map[
    "long_term" := "several years",
    "medium_term" := "last 6 months",
    "short_term" := "last 4 weeks"
  ]

  /** The time range used for every value that is not in the table. */
  const DEFAULT_TIME_RANGE: string := "short_term"

  /** The page sizes the data API is asked for. */
  const ALLOWED_LIMITS: set<int> := {12, 24, 48, 50}

  /** The page size used for every value that is not allowed. */
  const DEFAULT_LIMIT: int := 12

  /** Maps any string to an allowed time range and that range's label.
      The lookup in the label table never fails, an allowed range passes
      through unchanged, and everything else (the empty string included)
      becomes the default range with its label. */
  function ValidateTimeRange(raw: string): (r: (string, string))
    ensures r.0 in TIME_RANGE_LABELS && r.1 == TIME_RANGE_LABELS[r.0]
    ensures r.0 == raw <==> raw in TIME_RANGE_LABELS
    ensures raw !in TIME_RANGE_LABELS ==> r == (DEFAULT_TIME_RANGE, "last 4 weeks")
  {
    var timeRange :=
      if raw != "short_term" && raw != "medium_term" && raw != "long_term"
      then "short_term"
      else raw;
    (timeRange, TIME_RANGE_LABELS[timeRange])
  }

  /** Validating the range a validation returned gives the same pair back. */
  lemma ValidateTimeRangeIdempotent(raw: string)
    ensures ValidateTimeRange(ValidateTimeRange(raw).0) == ValidateTimeRange(raw)
  {
  }

  /** The three allowed ranges, each with its own label. */
  lemma TimeRangeTable()
    ensures TIME_RANGE_LABELS.Keys == {"short_term", "medium_term", "long_term"}
    ensures ValidateTimeRange("short_term") == ("short_term", "last 4 weeks")
    ensures ValidateTimeRange("medium_term") == ("medium_term", "last 6 months")
    ensures ValidateTimeRange("long_term") == ("long_term", "several years")
  {
  }

  /** Maps any integer to an allowed page size: an allowed size passes
      through unchanged, every other value becomes the default. */
  function ValidateLimit(limit: int): (r: int)
    ensures r in ALLOWED_LIMITS
    ensures r == limit <==> limit in ALLOWED_LIMITS
    ensures limit !in ALLOWED_LIMITS ==> r == DEFAULT_LIMIT
  {
    if limit != 12 && limit != 24 && limit != 50 && limit != 48 then 12 else limit
  }

  /** Validating a validated page size changes nothing. */
  lemma ValidateLimitIdempotent(limit: int)
    ensures ValidateLimit(ValidateLimit(limit)) == ValidateLimit(limit)
  {
  }
}

/**
 * The connection settings and their normalisation: a missing or blank address or client
 * id, and a non-positive timeout, are replaced by fixed defaults when the record is built.
 */
module AdminProperties {
  import opened AdminErrors

  const DefaultBootstrapServers: string := "localhost:9092"
  const DefaultRequestTimeoutMs: int := 30000
  const DefaultApiTimeoutMs: int := 60000
  const DefaultClientId: string := "kafka-admin-api"

  /** The settings as bound from configuration; a string setting may be absent (`null`). */
  datatype Properties = Properties(
    bootstrapServers: Option<string>,
    requestTimeoutMs: int,
    defaultApiTimeoutMs: int,
    clientId: Option<string>)

  /**
   * Java's `Character.isWhitespace`: the space, line and paragraph separators other than
   * the no-break spaces U+00A0, U+2007 and U+202F, plus the ASCII controls tab through
   * carriage return and the four information separators U+001C..U+001F.
   */
  predicate IsWhitespace(c: char)
  {
    ('\t' <= c <= '\r') || ('\U{1C}' <= c <= '\U{1F}') || c == ' ' ||
    c == '\U{1680}' || ('\U{2000}' <= c <= '\U{2006}') || ('\U{2008}' <= c <= '\U{200A}') ||
    c == '\U{2028}' || c == '\U{2029}' || c == '\U{205F}' || c == '\U{3000}'
  }

  /** `String.isBlank`: empty, or whitespace only. */
  predicate IsBlank(s: string)
  {
    forall i :: 0 <= i < |s| ==> IsWhitespace(s[i])
  }

  /** A string setting the constructor keeps: present and not blank. */
  predicate Usable(s: Option<string>)
  {
    s.Some? && !IsBlank(s.value)
  }

  /** What the constructor guarantees of every record it builds. */
  predicate IsNormal(p: Properties)
  {
    Usable(p.bootstrapServers) && p.requestTimeoutMs > 0 && p.defaultApiTimeoutMs > 0 && Usable(p.clientId)
  }

  function StringOrDefault(s: Option<string>, default: string): Option<string>
  {
    if Usable(s) then s else Some(default)
  }

  function TimeoutOrDefault(t: int, default: int): int
  {
    if t <= 0 then default else t
  }

  /** The compact constructor: four independent defaults. */
  function Normalize(p: Properties): (r: Properties)
    ensures Usable(p.bootstrapServers) ==> r.bootstrapServers == p.bootstrapServers
    ensures !Usable(p.bootstrapServers) ==> r.bootstrapServers == Some(DefaultBootstrapServers)
    ensures p.requestTimeoutMs > 0 ==> r.requestTimeoutMs == p.requestTimeoutMs
    ensures p.requestTimeoutMs <= 0 ==> r.requestTimeoutMs == DefaultRequestTimeoutMs
    ensures p.defaultApiTimeoutMs > 0 ==> r.defaultApiTimeoutMs == p.defaultApiTimeoutMs
    ensures p.defaultApiTimeoutMs <= 0 ==> r.defaultApiTimeoutMs == DefaultApiTimeoutMs
    ensures Usable(p.clientId) ==> r.clientId == p.clientId
    ensures !Usable(p.clientId) ==> r.clientId == Some(DefaultClientId)
    ensures IsNormal(r)
  {
    assert !IsWhitespace(DefaultBootstrapServers[0]) && !IsWhitespace(DefaultClientId[0]);
    Properties(
      StringOrDefault(p.bootstrapServers, DefaultBootstrapServers),
      TimeoutOrDefault(p.requestTimeoutMs, DefaultRequestTimeoutMs),
      TimeoutOrDefault(p.defaultApiTimeoutMs, DefaultApiTimeoutMs),
      StringOrDefault(p.clientId, DefaultClientId))
  }

  /** The constructor leaves a record alone exactly when it is already normal. */
  lemma NormalizeFixesExactlyNormal(p: Properties)
    ensures Normalize(p) == p <==> IsNormal(p)
  {
  }

  /** Building a record from an already built one changes nothing. */
  lemma NormalizeIdempotent(p: Properties)
    ensures Normalize(Normalize(p)) == Normalize(p)
  {
  }
}

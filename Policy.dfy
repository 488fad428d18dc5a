/**
 * The scalar cast configuration: the two options `scalar_implicit_cast` and
 * `scalar_implicit_partial`, passed as an immutable value instead of being
 * read from the process-wide configuration.
 */
module Policy {

  /**
   * `implicitCast` is `scalar_implicit_cast`; `partial` is
   * `scalar_implicit_partial`, mapping a source type name to the list of
   * target type names it may cast to.
   */
  datatype CastPolicy = CastPolicy(implicitCast: bool, partial: map<string, seq<string>>)

  /** Both options at their defaults: no implicit cast and an empty map. */
  const DefaultPolicy := CastPolicy(false, map[])

  /**
   * `in_array($needle, $haystack, true)`: a linear scan comparing with `===`,
   * which on two strings is equality of their contents.
   */
  function InArrayStrict(needle: string, haystack: seq<string>): (r: bool)
    ensures r <==> needle in haystack
    decreases |haystack|
  {
    if haystack == [] then false
    else haystack[0] == needle || InArrayStrict(needle, haystack[1..])
  }

  /** `$scalar_implicit_partial[$sourceName] ?? []`: a missing key reads as the empty list. */
  function PermittedTargets(p: CastPolicy, sourceName: string): seq<string>
  {
    if sourceName in p.partial then p.partial[sourceName] else []
  }

  /** True when policy `q` permits every scalar cast that policy `p` permits. */
  predicate Extends(q: CastPolicy, p: CastPolicy)
  {
    && (p.implicitCast ==> q.implicitCast)
    && (q.implicitCast ||
        forall src, tgt :: src in p.partial && tgt in p.partial[src] ==> tgt in PermittedTargets(q, src))
  }

  /** A name that is not a key of the map has no permitted targets, whatever the other keys hold. */
  lemma MissingKeyPermitsNothing(p: CastPolicy, sourceName: string, targetName: string)
    requires sourceName !in p.partial
    ensures !InArrayStrict(targetName, PermittedTargets(p, sourceName))
  {
  }

  /** Under the empty map no name has a permitted target. */
  lemma EmptyMapPermitsNothing(p: CastPolicy, sourceName: string, targetName: string)
    requires |p.partial| == 0
    ensures !InArrayStrict(targetName, PermittedTargets(p, sourceName))
  {
  }
}

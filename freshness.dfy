/**
 * The freshness test of updateIndexIfNewer: is the network copy of a document
 * different from the cached one, judged by its ETag (section 8.8.3 of RFC 9110)
 * or, when neither copy has one, by its Last-Modified date (section 8.8.2 of
 * RFC 9110)? Values are compared as plain strings: there is no weak/strong
 * ETag comparison and no date ordering.
 */
module Freshness {
  import opened Http

  /** The response carries a truthy `etag` header. */
  predicate HasETag(r: Response)
  {
    Truthy(r.etag)
  }

  /** The response carries a truthy `last-modified` header. */
  predicate HasLastModified(r: Response)
  {
    Truthy(r.lastModified)
  }

  /** The `isNewer` expression: true when the network response should replace the cached one. */
  function IsNewer(cached: Response, network: Response): (newer: bool)
    // both ETags present: they alone decide
    ensures HasETag(cached) && HasETag(network) ==> (newer <==> cached.etag != network.etag)
    // exactly one ETag present: never newer, whatever the dates say
    ensures HasETag(cached) != HasETag(network) ==> !newer
    // no ETag on either side: the dates decide, and only when both are present
    ensures !HasETag(cached) && !HasETag(network) ==>
              (newer <==> HasLastModified(cached) && HasLastModified(network) && cached.lastModified != network.lastModified)
  {
    (!Truthy(cached.etag) && !Truthy(network.etag) && Truthy(cached.lastModified) && Truthy(network.lastModified)
       && cached.lastModified.value != network.lastModified.value)
    || (Truthy(cached.etag) && Truthy(network.etag) && cached.etag.value != network.etag.value)
  }

  /** The validator a response offers: its ETag if it has one, else its Last-Modified date, else none. */
  datatype Validator = ETag(tag: string) | LastModified(date: string) | NoValidator

  function ValidatorOf(r: Response): Validator
  {
    if HasETag(r) then ETag(r.etag.value)
    else if HasLastModified(r) then LastModified(r.lastModified.value)
    else NoValidator
  }

  /** Two validators of the same kind with different values: the resource has changed. */
  predicate ValidatorsDiffer(a: Validator, b: Validator)
  {
    match (a, b)
    case (ETag(x), ETag(y)) => x != y
    case (LastModified(x), LastModified(y)) => x != y
    case _ => false
  }

  /**
   * Reference reading of `isNewer`: each response contributes its preferred
   * validator, and the copies differ exactly when both validators are of the
   * same kind and have different values.
   */
  lemma IsNewerIsValidatorChange(cached: Response, network: Response)
    ensures IsNewer(cached, network) <==> ValidatorsDiffer(ValidatorOf(cached), ValidatorOf(network))
  {
  }

  /** Equal validator headers (both absent included) never make the network copy newer. */
  lemma SameValidatorsNotNewer(cached: Response, network: Response)
    requires cached.etag == network.etag && cached.lastModified == network.lastModified
    ensures !IsNewer(cached, network)
  {
  }

  /** `isNewer` does not order the copies: it only tells whether they differ. */
  lemma IsNewerSymmetric(a: Response, b: Response)
    ensures IsNewer(a, b) == IsNewer(b, a)
  {
  }

  /** A response is never newer than itself. */
  lemma NotNewerThanItself(r: Response)
    ensures !IsNewer(r, r)
  {
    SameValidatorsNotNewer(r, r);
  }
}

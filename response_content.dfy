/** The response descriptor `HttpResponseContent<TContent>`. */
module ResponseContents {

  /** `HttpStatusCode` is an enum over `int`; any integer can be cast to it. */
  type StatusCode = int

  /**
   * A canned response: a status code and a content value. Both properties are
   * get-only, so a datatype value (which nothing can update) models the
   * descriptor itself; the content is taken as a value, so an object it refers
   * to that changes later is not captured.
   */
  datatype ResponseContent<TContent> = ResponseContent(statusCode: StatusCode, content: TContent)

  /** The constructor: accepts every status code and every content, and cannot fail. */
  function Create<TContent>(statusCode: StatusCode, content: TContent): (r: ResponseContent<TContent>)
    ensures r.statusCode == statusCode
    ensures r.content == content
  {
    ResponseContent(statusCode, content)
  }

  /**
   * Two descriptors are the same exactly when they were built from the same
   * arguments: the get-only properties give a descriptor value semantics.
   * Dafny derives this from the datatype declaration; the lemma records it.
   */
  lemma CreateInjective<TContent>(s1: StatusCode, c1: TContent, s2: StatusCode, c2: TContent)
    ensures Create(s1, c1) == Create(s2, c2) <==> s1 == s2 && c1 == c2
  {
  }

  /**
   * Every descriptor is the one the constructor builds from its two get-only
   * properties: nothing else is stored. Dafny derives this from the datatype
   * declaration; the lemma records it.
   */
  lemma CreateFromProperties<TContent>(r: ResponseContent<TContent>)
    ensures Create(r.statusCode, r.content) == r
  {
  }
}
